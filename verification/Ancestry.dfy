// Chains of parent links, shared by the forest validator and the tree builders.
module Ancestry {
  import opened Wrappers

  // The ancestor `n` links above `id`, if the chain is that long.
  function Up(parents: map<string, string>, id: string, n: nat): Option<string> {
    if n == 0 then Some(id)
    else
      match Up(parents, id, n - 1)
      case None => None
      case Some(x) => if x in parents then Some(parents[x]) else None
  }

  // Nothing is its own proper ancestor.
  ghost predicate Acyclic(parents: map<string, string>) {
    forall id: string, n: nat | n > 0 :: Up(parents, id, n) != Some(id)
  }

  lemma {:induction false} UpAdd(parents: map<string, string>, id: string, m: nat, n: nat)
    ensures match Up(parents, id, m)
            case Some(x) => Up(parents, id, m + n) == Up(parents, x, n)
            case None => Up(parents, id, m + n) == None
  {
    if n > 0 {
      UpAdd(parents, id, m, n - 1);
    }
  }

  // A chain through a cycle never ends.
  lemma {:induction false} CycleNeverEnds(parents: map<string, string>, id: string, n: nat, k: nat)
    requires n > 0 && Up(parents, id, n) == Some(id)
    ensures Up(parents, id, k).Some?
    decreases k
  {
    if k < n {
      UpAdd(parents, id, k, n - k);
    } else {
      CycleNeverEnds(parents, id, n, k - n);
      UpAdd(parents, id, n, k - n);
    }
  }

  // A repeated ancestor is on a cycle, and the chain never ends.
  lemma RepeatIsCycle(parents: map<string, string>, id: string, i: nat, j: nat)
    requires i < j && Up(parents, id, i).Some? && Up(parents, id, i) == Up(parents, id, j)
    ensures !Acyclic(parents)
    ensures forall k: nat :: Up(parents, id, k).Some?
  {
    var x := Up(parents, id, i).value;
    UpAdd(parents, id, i, j - i);
    assert Up(parents, x, j - i) == Some(x);
    forall k: nat ensures Up(parents, id, k).Some? {
      if k <= i {
        UpAdd(parents, id, k, i - k);
      } else {
        UpAdd(parents, id, i, k - i);
        CycleNeverEnds(parents, x, j - i, k - i);
      }
    }
  }

  lemma {:induction false} UpInside(parents: map<string, string>, id: string, n: nat)
    requires n > 0 && Up(parents, id, n).Some?
    ensures id in parents && Up(parents, id, n).value in parents.Values
  {
    var x := Up(parents, id, n - 1).value;
    assert x in parents && parents[x] in parents.Values;
    if n > 1 {
      UpInside(parents, id, n - 1);
    }
  }
}
