// The browser's accessibility tree, compressed to the selected nodes: each keeps its nearest
// selected ancestor as its parent.
module CdpTree {
  import opened Wrappers
  import opened Ancestry
  import opened Forest
  import opened Types

  // One node of the protocol's flat tree. `semantics` tells whether its role and states could be read,
  // `payloadOk` whether the validator accepts them, and `fingerprint` hashes the document, the backend
  // id, the role and the name.
  datatype Raw = Raw(
    nodeId: string,
    parentId: Option<string>,
    ignored: bool,
    backend: Option<nat>,
    role: Option<string>,
    semantics: bool,
    payloadOk: bool,
    fingerprint: string)

  datatype CdpError = Protocol

  // Nodes that belong to the observed document.
  predicate Candidate(raw: Raw, roots: set<nat>) {
    !raw.ignored && raw.backend.Some? && raw.backend.value in roots
  }

  predicate Chosen(raw: Raw, roots: set<nat>) {
    Candidate(raw, roots) && raw.role.Some? && raw.role.value != "" && raw.role.value != "none"
  }

  predicate Readable(raw: Raw, roots: set<nat>) {
    && raw.nodeId != ""
    && (Candidate(raw, roots) ==> raw.backend.value != 0 && raw.role.Some?)
    && (Chosen(raw, roots) ==> raw.semantics)
  }

  function ParentsOf(raws: seq<Raw>): map<string, string> {
    if raws == [] then map[]
    else
      var last := raws[|raws| - 1];
      var parents := ParentsOf(raws[..|raws| - 1]);
      if last.parentId.Some? then parents[last.nodeId := last.parentId.value] else parents
  }

  function SelectedOf(raws: seq<Raw>, roots: set<nat>): seq<Raw> {
    if raws == [] then []
    else
      SelectedOf(raws[..|raws| - 1], roots) + if Chosen(raws[|raws| - 1], roots) then [raws[|raws| - 1]] else []
  }

  function Backends(raws: seq<Raw>, roots: set<nat>): set<nat> {
    set i | 0 <= i < |raws| && Candidate(raws[i], roots) :: raws[i].backend.value
  }

  predicate UniqueBackends(raws: seq<Raw>, roots: set<nat>) {
    forall i, j | 0 <= i < j < |raws| && Candidate(raws[i], roots) && Candidate(raws[j], roots) ::
      raws[i].backend.value != raws[j].backend.value
  }

  predicate Parseable(raws: seq<Raw>, roots: set<nat>) {
    && |raws| <= MAX_SEMANTIC_ELEMENTS
    && (forall i | 0 <= i < |raws| :: Readable(raws[i], roots))
    && UniqueBackends(raws, roots)
  }

  predicate UniqueNodes(raws: seq<Raw>) {
    forall i, j | 0 <= i < j < |raws| :: raws[i].nodeId != raws[j].nodeId
  }

  function NodeIds(raws: seq<Raw>): set<string> {
    set i | 0 <= i < |raws| :: raws[i].nodeId
  }

  // The selected nodes are the chosen ones.
  lemma {:induction false} SelectedAre(raws: seq<Raw>, roots: set<nat>)
    ensures |SelectedOf(raws, roots)| <= |raws|
    ensures forall r :: r in SelectedOf(raws, roots) <==> r in raws && Chosen(r, roots)
  {
    if raws != [] {
      var init, last := raws[..|raws| - 1], raws[|raws| - 1];
      SelectedAre(init, roots);
      assert raws == init + [last];
      hide Chosen;
    }
  }

  // The selected nodes are those of the document that are not ignored and have a role, in their order.
  lemma SelectedExactly(raws: seq<Raw>, more: seq<Raw>, r: Raw, roots: set<nat>)
    ensures SelectedOf(raws + more, roots) == SelectedOf(raws, roots) + SelectedOf(more, roots)
    ensures SelectedOf([], roots) == []
    ensures SelectedOf([r], roots) ==
            if !r.ignored && r.backend.Some? && r.backend.value in roots
               && r.role.Some? && r.role.value != "" && r.role.value != "none" then [r] else []
  {
    SelectedConcat(raws, more, roots);
    assert [r][..0] == [];
  }

  lemma {:induction false} SelectedConcat(raws: seq<Raw>, more: seq<Raw>, roots: set<nat>)
    ensures SelectedOf(raws + more, roots) == SelectedOf(raws, roots) + SelectedOf(more, roots)
  {
    if more == [] {
      assert raws + more == raws;
    } else {
      var init, last := more[..|more| - 1], more[|more| - 1];
      SelectedConcat(raws, init, roots);
      assert (raws + more)[..|raws + more| - 1] == raws + init;
      hide Chosen;
    }
  }

  // A node's parent is the last one given for its id.
  lemma {:induction false} ParentsExactly(raws: seq<Raw>, id: string, parent: string)
    ensures id in ParentsOf(raws) && ParentsOf(raws)[id] == parent <==>
            exists i ::
              && 0 <= i < |raws| && raws[i].nodeId == id && raws[i].parentId == Some(parent)
              && forall j | i < j < |raws| && raws[j].nodeId == id :: raws[j].parentId.None?
  {
    if raws != [] {
      var init, last := raws[..|raws| - 1], raws[|raws| - 1];
      ParentsExactly(init, id, parent);
      assert forall i | 0 <= i < |init| :: raws[i] == init[i];
      if last.nodeId == id && last.parentId == Some(parent) {
        assert raws[|raws| - 1] == last;
      }
    }
  }

  // Which trees are parsed at all: small ones, every node of which has an id, where the nodes of the
  // document that are not ignored have different backend ids and a role, readable unless it is none.
  lemma ParseableExactly(raws: seq<Raw>, roots: set<nat>)
    ensures Parseable(raws, roots) <==>
            && |raws| <= 4096
            && (forall r | r in raws ::
                  && r.nodeId != ""
                  && (!r.ignored && r.backend.Some? && r.backend.value in roots ==>
                        && r.backend.value != 0 && r.role.Some?
                        && (r.semantics || r.role.value == "" || r.role.value == "none")))
            && (forall i, j | 0 <= i < j < |raws| && !raws[i].ignored && !raws[j].ignored
                              && raws[i].backend == raws[j].backend && raws[i].backend.Some? ::
                  raws[i].backend.value !in roots)
  {
    assert forall i | 0 <= i < |raws| :: raws[i] in raws;
    forall r | r in raws ensures exists i :: 0 <= i < |raws| && raws[i] == r {
    }
  }

  // ----- Reading the nodes -----

  lemma OneMoreNode(raws: seq<Raw>, roots: set<nat>, k: nat)
    requires k < |raws|
    ensures ParentsOf(raws[..k + 1]) ==
            if raws[k].parentId.Some? then ParentsOf(raws[..k])[raws[k].nodeId := raws[k].parentId.value]
            else ParentsOf(raws[..k])
    ensures SelectedOf(raws[..k + 1], roots) ==
            SelectedOf(raws[..k], roots) + if Chosen(raws[k], roots) then [raws[k]] else []
    ensures Backends(raws[..k + 1], roots) ==
            Backends(raws[..k], roots) + if Candidate(raws[k], roots) then {raws[k].backend.value} else {}
    ensures Candidate(raws[k], roots) && raws[k].backend.value in Backends(raws[..k], roots) ==>
            !UniqueBackends(raws, roots)
    ensures UniqueBackends(raws[..k], roots)
            && !(Candidate(raws[k], roots) && raws[k].backend.value in Backends(raws[..k], roots)) ==>
              UniqueBackends(raws[..k + 1], roots)
  {
    var a, b := raws[..k + 1], raws[..k];
    assert a[..|a| - 1] == b;
    assert forall i | 0 <= i < k :: a[i] == b[i] == raws[i];
    forall x
      ensures x in Backends(a, roots) <==>
              x in Backends(b, roots) || (Candidate(raws[k], roots) && x == raws[k].backend.value)
    {
      if x in Backends(b, roots) {
        var i :| 0 <= i < |b| && Candidate(b[i], roots) && b[i].backend.value == x;
        assert a[i].backend.value == x;
      }
      assert Candidate(a[k], roots) ==> a[k].backend.value in Backends(a, roots);
    }
  }

  lemma NoNodes(roots: set<nat>)
    ensures ParentsOf([]) == map[] && SelectedOf([], roots) == [] && Backends([], roots) == {}
            && UniqueBackends([], roots)
  {
  }

  // The first loop: parent links of all nodes, and the selected nodes in order.
  method ReadNodes(raws: seq<Raw>, roots: set<nat>) returns (r: Result<(map<string, string>, seq<Raw>), CdpError>)
    ensures r == if Parseable(raws, roots) then Success((ParentsOf(raws), SelectedOf(raws, roots)))
            else Failure(Protocol)
  {
    hide UniqueBackends, Backends, ParentsOf, SelectedOf;
    if |raws| > MAX_SEMANTIC_ELEMENTS {
      return Failure(Protocol);
    }
    NoNodes(roots);
    var parents: map<string, string> := map[];
    var selected: seq<Raw> := [];
    var backends: set<nat> := {};
    for k := 0 to |raws|
      invariant forall i | 0 <= i < k :: Readable(raws[i], roots)
      invariant parents == ParentsOf(raws[..k]) && selected == SelectedOf(raws[..k], roots)
      invariant backends == Backends(raws[..k], roots) && UniqueBackends(raws[..k], roots)
    {
      var raw := raws[k];
      OneMoreNode(raws, roots, k);
      if raw.nodeId == "" {
        assert !Readable(raws[k], roots);
        return Failure(Protocol);
      }
      if raw.parentId.Some? {
        parents := parents[raw.nodeId := raw.parentId.value];
      }
      if raw.ignored || raw.backend.None? || raw.backend.value !in roots {
        continue;
      }
      if raw.backend.value == 0 || raw.backend.value in backends {
        assert raw.backend.value == 0 ==> !Readable(raws[k], roots);
        return Failure(Protocol);
      }
      backends := backends + {raw.backend.value};
      if raw.role.None? {
        assert !Readable(raws[k], roots);
        return Failure(Protocol);
      }
      if raw.role.value == "" || raw.role.value == "none" {
        continue;
      }
      if !raw.semantics {
        assert !Readable(raws[k], roots);
        return Failure(Protocol);
      }
      selected := selected + [raw];
    }
    assert raws[..|raws|] == raws;
    r := Success((parents, selected));
  }

  // ----- Nearest selected ancestors -----

  // `parent` is the first ancestor of `id` among `ids`, or None if the chain ends before.
  ghost predicate NearestAt(parents: map<string, string>, ids: set<string>, id: string, parent: Option<string>,
                            n: nat) {
    && n > 0 && Up(parents, id, n) == parent
    && (parent.Some? ==> parent.value in ids)
    && forall m: nat | 0 < m < n :: Up(parents, id, m).Some? && Up(parents, id, m).value !in ids
  }

  ghost predicate Nearest(parents: map<string, string>, ids: set<string>, id: string, parent: Option<string>) {
    exists n: nat :: NearestAt(parents, ids, id, parent, n)
  }

  // After `n` links the parent loop stops: the chain has ended or met a selected node.
  ghost predicate Stops(parents: map<string, string>, ids: set<string>, id: string, n: nat) {
    n > 0 && (Up(parents, id, n).None? || Up(parents, id, n).value in ids)
  }

  ghost predicate LoopEnds(parents: map<string, string>, ids: set<string>, id: string) {
    exists n: nat :: Stops(parents, ids, id, n)
  }

  // `x` is its own ancestor, with no selected node on the way.
  ghost predicate OpenCycle(parents: map<string, string>, ids: set<string>, x: string, n: nat) {
    n > 0 && Up(parents, x, n) == Some(x) && forall m: nat | m < n ::
      Up(parents, x, m).Some? && Up(parents, x, m).value !in ids
  }

  // From `id`, `k` links to unselected nodes lead onto a cycle of unselected nodes.
  ghost predicate RunsInto(parents: map<string, string>, ids: set<string>, id: string, k: nat, n: nat) {
    && k > 0 && (forall m: nat | 0 < m <= k :: Up(parents, id, m).Some? && Up(parents, id, m).value !in ids)
    && OpenCycle(parents, ids, Up(parents, id, k).value, n)
  }

  // The parent loop ends from a node exactly if no links to unselected nodes lead from there onto a
  // cycle of unselected nodes; the code does not check this.
  lemma LoopEndsExactly(parents: map<string, string>, ids: set<string>, id: string)
    ensures LoopEnds(parents, ids, id) <==> forall k: nat, n: nat :: !RunsInto(parents, ids, id, k, n)
  {
    if k: nat, n: nat :| RunsInto(parents, ids, id, k, n) {
      forall m: nat ensures !Stops(parents, ids, id, m) {
        if m > k {
          OpenCycleRuns(parents, ids, Up(parents, id, k).value, n, m - k);
          UpAdd(parents, id, k, m - k);
        }
      }
    } else {
      assert Up(parents, id, 0) == Some(id);
      var n := MustStop(parents, ids, id, 1, {});
    }
  }

  // No selected node leads onto a cycle of unselected nodes.
  ghost predicate NoLoops(parents: map<string, string>, selected: seq<Raw>) {
    forall i, k: nat, n: nat | 0 <= i < |selected| :: !RunsInto(parents, NodeIds(selected), selected[i].nodeId, k, n)
  }

  // This is the exact condition for the parser to end, since it starts the loop from every selected node.
  lemma ParserEndsExactly(parents: map<string, string>, selected: seq<Raw>)
    ensures NoLoops(parents, selected) <==>
            forall i | 0 <= i < |selected| :: LoopEnds(parents, NodeIds(selected), selected[i].nodeId)
  {
    hide RunsInto, LoopEnds, NodeIds;
    forall i | 0 <= i < |selected|
      ensures LoopEnds(parents, NodeIds(selected), selected[i].nodeId) <==>
              forall k: nat, n: nat :: !RunsInto(parents, NodeIds(selected), selected[i].nodeId, k, n)
    {
      LoopEndsExactly(parents, NodeIds(selected), selected[i].nodeId);
    }
  }

  // A selected node below two ignored nodes that are each other's parents.
  const LOOPING := [
    Raw("a", Some("b"), true, None, None, false, false, ""),
    Raw("b", Some("a"), true, None, None, false, false, ""),
    Raw("c", Some("a"), false, Some(1), Some("button"), true, true, "")]

  // The parser accepts these nodes, selects the third, and never leaves its parent loop.
  lemma ParserCanRunForever()
    ensures Parseable(LOOPING, {1}) && SelectedOf(LOOPING, {1}) == [LOOPING[2]]
    ensures !LoopEnds(ParentsOf(LOOPING), NodeIds(SelectedOf(LOOPING, {1})), LOOPING[2].nodeId)
  {
    LoopingParts();
    var parents := ParentsOf(LOOPING);
    var selected := SelectedOf(LOOPING, {1});
    assert NodeIds(selected) == {"c"} by {
      assert selected[0].nodeId == "c";
    }
    LoopingLinks(parents);
    assert RunsInto(parents, {"c"}, "c", 1, 2);
    LoopEndsExactly(parents, {"c"}, "c");
  }

  lemma LoopingParts()
    ensures Parseable(LOOPING, {1}) && SelectedOf(LOOPING, {1}) == [LOOPING[2]]
    ensures ParentsOf(LOOPING) == map["a" := "b", "b" := "a", "c" := "a"]
  {
    var one, two := LOOPING[..1], LOOPING[..2];
    assert LOOPING[..|LOOPING| - 1] == two && two[..|two| - 1] == one && one[..|one| - 1] == [];
    assert LOOPING == two + [LOOPING[2]] && two == one + [LOOPING[1]];
    assert one[|one| - 1] == LOOPING[0] && two[|two| - 1] == LOOPING[1] && LOOPING[|LOOPING| - 1] == LOOPING[2];
    assert !Chosen(LOOPING[0], {1}) && !Chosen(LOOPING[1], {1}) && Chosen(LOOPING[2], {1});
    assert SelectedOf([], {1}) == [] && ParentsOf([]) == map[];
    assert ParentsOf(one) == map["a" := "b"] && SelectedOf(one, {1}) == [];
    assert ParentsOf(two) == map["a" := "b", "b" := "a"] && SelectedOf(two, {1}) == [];
  }

  lemma LoopingLinks(parents: map<string, string>)
    requires parents == map["a" := "b", "b" := "a", "c" := "a"]
    ensures Up(parents, "c", 1) == Some("a") && OpenCycle(parents, {"c"}, "a", 2)
  {
    assert Up(parents, "c", 0) == Some("c");
    assert Up(parents, "a", 0) == Some("a") && Up(parents, "a", 1) == Some("b") && Up(parents, "a", 2) == Some("a");
  }

  lemma {:induction false} OpenCycleRuns(parents: map<string, string>, ids: set<string>, x: string, n: nat, k: nat)
    requires OpenCycle(parents, ids, x, n)
    ensures Up(parents, x, k).Some? && Up(parents, x, k).value !in ids
    decreases k
  {
    if k >= n {
      OpenCycleRuns(parents, ids, x, n, k - n);
      UpAdd(parents, x, n, k - n);
    }
  }

  ghost predicate Passed(parents: map<string, string>, id: string, n: nat, x: string) {
    exists m: nat :: 0 < m < n && Up(parents, id, m) == Some(x)
  }

  // Every link that has been followed without stopping led to a new node.
  lemma {:induction false} MustStop(parents: map<string, string>, ids: set<string>, id: string, n: nat,
                                    passed: set<string>) returns (k: nat)
    requires n > 0 && passed <= parents.Values
    requires forall k: nat, m: nat :: !RunsInto(parents, ids, id, k, m)
    requires forall m: nat | 0 < m < n :: Up(parents, id, m).Some? && Up(parents, id, m).value !in ids
    requires forall x | x in passed :: Passed(parents, id, n, x)
    ensures Stops(parents, ids, id, k)
    decreases parents.Values - passed
  {
    k := n;
    if !Stops(parents, ids, id, n) {
      UpInside(parents, id, n);
      var x := Up(parents, id, n).value;
      if x in passed {
        var m: nat :| 0 < m < n && Up(parents, id, m) == Some(x);
        RepeatIsOpen(parents, ids, id, m, n);
        assert false;
      }
      var passed' := passed + {x};
      forall y | y in passed' ensures Passed(parents, id, n + 1, y) {
        if y != x {
          assert Passed(parents, id, n, y);
        }
      }
      k := MustStop(parents, ids, id, n + 1, passed');
    }
  }

  lemma RepeatIsOpen(parents: map<string, string>, ids: set<string>, id: string, i: nat, j: nat)
    requires 0 < i < j && Up(parents, id, i).Some? && Up(parents, id, i) == Up(parents, id, j)
    requires forall m: nat | 0 < m < j :: Up(parents, id, m).Some? && Up(parents, id, m).value !in ids
    ensures RunsInto(parents, ids, id, i, j - i)
  {
    var x := Up(parents, id, i).value;
    UpAdd(parents, id, i, j - i);
    forall m: nat | m < j - i ensures Up(parents, x, m).Some? && Up(parents, x, m).value !in ids {
      UpAdd(parents, id, i, m);
    }
  }

  // The parent loop.
  method NearestSelected(parents: map<string, string>, ids: set<string>, id: string) returns (parent: Option<string>)
    requires LoopEnds(parents, ids, id)
    ensures Nearest(parents, ids, id, parent)
  {
    ghost var end: nat :| Stops(parents, ids, id, end);
    ghost var n: nat := 1;
    assert Up(parents, id, 0) == Some(id);
    parent := if id in parents then Some(parents[id]) else None;
    while parent.Some? && parent.value !in ids
      invariant n > 0 && parent == Up(parents, id, n)
      invariant forall m: nat | 0 < m < n :: Up(parents, id, m).Some? && Up(parents, id, m).value !in ids
      invariant n <= end
      decreases end - n
    {
      parent := if parent.value in parents then Some(parents[parent.value]) else None;
      n := n + 1;
    }
    assert NearestAt(parents, ids, id, parent, n);
  }

  // The position of the last selected node with this id, or -1.
  function LastOf(selected: seq<Raw>, node: string): (k: int)
    ensures -1 <= k < |selected| && (k >= 0 ==> selected[k].nodeId == node)
    ensures k >= 0 <==> node in NodeIds(selected)
  {
    if selected == [] then -1
    else if selected[|selected| - 1].nodeId == node then |selected| - 1
    else
      var k := LastOf(selected[..|selected| - 1], node);
      assert selected == selected[..|selected| - 1] + [selected[|selected| - 1]];
      assert forall i | 0 <= i < |selected| - 1 :: selected[i] == selected[..|selected| - 1][i];
      k
  }

  // The element id of a node: of two selected nodes with the same id, the later one counts.
  function OpaqueOf(selected: seq<Raw>, opaqueId: nat -> string, node: string): string {
    var k := LastOf(selected, node);
    if k >= 0 && selected[k].backend.Some? then opaqueId(selected[k].backend.value) else ""
  }

  lemma {:induction false} LastIsLast(selected: seq<Raw>, node: string, j: nat)
    requires j < |selected| && selected[j].nodeId == node
    ensures LastOf(selected, node) >= j
  {
    if selected[|selected| - 1].nodeId != node {
      LastIsLast(selected[..|selected| - 1], node, j);
    }
  }

  // Element `k` stands for selected node `k`, below the element of its nearest selected ancestor.
  ghost predicate Represents(parents: map<string, string>, selected: seq<Raw>, opaqueId: nat -> string, e: Element,
                             k: nat)
    requires k < |selected|
  {
    && SemanticTag(k) == Success(e.tag)
    && e.fingerprint == selected[k].fingerprint && e.payloadOk == selected[k].payloadOk
    && e.id == OpaqueOf(selected, opaqueId, selected[k].nodeId)
    && exists parent :: Nearest(parents, NodeIds(selected), selected[k].nodeId, parent)
                        && e.parent == if parent.Some? then Some(OpaqueOf(selected, opaqueId, parent.value)) else None
  }

  lemma LastOfGrows(selected: seq<Raw>, i: nat, node: string)
    requires i < |selected|
    ensures LastOf(selected[..i + 1], node) == if selected[i].nodeId == node then i else LastOf(selected[..i], node)
  {
    assert selected[..i + 1][..i] == selected[..i];
  }

  // The loop that names the selected nodes; a later node with the same id takes its place.
  method NameNodes(selected: seq<Raw>, opaqueId: nat -> string) returns (opaqueIds: map<string, string>)
    requires forall i | 0 <= i < |selected| :: selected[i].backend.Some?
    ensures opaqueIds.Keys == NodeIds(selected)
    ensures forall x | x in opaqueIds :: opaqueIds[x] == OpaqueOf(selected, opaqueId, x)
  {
    hide LastOf;
    opaqueIds := map[];
    for i := 0 to |selected|
      invariant forall x :: x in opaqueIds <==> LastOf(selected[..i], x) >= 0
      invariant forall x | x in opaqueIds :: opaqueIds[x] == OpaqueOf(selected[..i], opaqueId, x)
    {
      forall x ensures LastOf(selected[..i + 1], x) == if selected[i].nodeId == x then i else LastOf(selected[..i], x) {
        LastOfGrows(selected, i, x);
      }
      opaqueIds := opaqueIds[selected[i].nodeId := opaqueId(selected[i].backend.value)];
    }
    assert selected[..|selected|] == selected;
  }

  // The second loop: one element for every selected node, in order.
  // The validator's element check depends on the hashes and on the role and states alone.
  lemma RepresentedIsValid(parents: map<string, string>, selected: seq<Raw>, opaqueId: nat -> string, e: Element,
                           k: nat)
    requires k < |selected| <= MAX_SEMANTIC_ELEMENTS && Represents(parents, selected, opaqueId, e, k)
    requires forall i | 0 <= i < |selected| :: selected[i].backend.Some?
    requires forall b :: IsHash(opaqueId(b))
    ensures ValidElement(e) <==> selected[k].payloadOk && IsHash(selected[k].fingerprint)
  {
    hide IsHash, ValidTag, SemanticTag, Nearest;
    TagsWork(k, k);
    assert selected[k].nodeId in NodeIds(selected);
    var parent :| Nearest(parents, NodeIds(selected), selected[k].nodeId, parent)
                  && e.parent == if parent.Some? then Some(OpaqueOf(selected, opaqueId, parent.value)) else None;
    if parent.Some? {
      NearestIsSelected(parents, NodeIds(selected), selected[k].nodeId, parent);
    }
  }

  method BuildElements(parents: map<string, string>, selected: seq<Raw>, opaqueId: nat -> string)
    returns (es: seq<Element>)
    requires |selected| <= MAX_SEMANTIC_ELEMENTS
    requires forall i | 0 <= i < |selected| :: LoopEnds(parents, NodeIds(selected), selected[i].nodeId)
    requires forall i | 0 <= i < |selected| :: selected[i].backend.Some?
    ensures |es| == |selected|
    ensures forall k | 0 <= k < |selected| :: Represents(parents, selected, opaqueId, es[k], k)
  {
    hide Nearest, LoopEnds, OpaqueOf;
    var opaqueIds := NameNodes(selected, opaqueId);
    es := [];
    for k := 0 to |selected|
      invariant |es| == k
      invariant forall i | 0 <= i < k :: Represents(parents, selected, opaqueId, es[i], i)
    {
      assert selected[k].nodeId in NodeIds(selected);
      var parent := NearestSelected(parents, opaqueIds.Keys, selected[k].nodeId);
      var parentId := None;
      if parent.Some? {
        NearestIsSelected(parents, opaqueIds.Keys, selected[k].nodeId, parent);
        parentId := Some(opaqueIds[parent.value]);
      }
      var e := Element(SemanticTag(k).value, opaqueIds[selected[k].nodeId], parentId, selected[k].fingerprint,
                       selected[k].payloadOk);
      assert Represents(parents, selected, opaqueId, e, k);
      es := es + [e];
    }
  }

  lemma NearestIsSelected(parents: map<string, string>, ids: set<string>, id: string, parent: Option<string>)
    requires Nearest(parents, ids, id, parent) && parent.Some?
    ensures parent.value in ids
  {
  }

  // ----- When the result is a forest -----

  ghost predicate NoCollision(selected: seq<Raw>, opaqueId: nat -> string) {
    forall i, j | 0 <= i < |selected| && 0 <= j < |selected| && selected[i].backend.Some?
      && selected[j].backend.Some? ::
      opaqueId(selected[i].backend.value) == opaqueId(selected[j].backend.value) ==> i == j
  }

  ghost predicate AllRepresent(parents: map<string, string>, selected: seq<Raw>, opaqueId: nat -> string,
                               es: seq<Element>) {
    && |es| == |selected| <= MAX_SEMANTIC_ELEMENTS && NoCollision(selected, opaqueId)
    && (forall k | 0 <= k < |selected| ::
        selected[k].backend.Some? && Represents(parents, selected, opaqueId, es[k], k))
  }

  // No selected node is its own ancestor in the raw tree.
  ghost predicate SelectedAcyclic(parents: map<string, string>, selected: seq<Raw>) {
    forall k, n: nat | 0 <= k < |selected| && n > 0 :: Up(parents, selected[k].nodeId, n) != Some(selected[k].nodeId)
  }

  lemma OwnName(selected: seq<Raw>, opaqueId: nat -> string, k: nat)
    requires UniqueNodes(selected) && k < |selected| && selected[k].backend.Some?
    ensures OpaqueOf(selected, opaqueId, selected[k].nodeId) == opaqueId(selected[k].backend.value)
  {
    assert selected[k].nodeId in NodeIds(selected);
  }

  // Distinct nodes become distinct elements, and only they do.
  lemma ElementIds(parents: map<string, string>, selected: seq<Raw>, opaqueId: nat -> string, es: seq<Element>)
    requires AllRepresent(parents, selected, opaqueId, es)
    ensures UniqueIds(es) <==> UniqueNodes(selected)
    ensures UniqueTags(es)
  {
    hide OpaqueOf;
    forall i | 0 <= i < |es|
      ensures es[i].id == OpaqueOf(selected, opaqueId, selected[i].nodeId) && SemanticTag(i) == Success(es[i].tag)
    {
      assert Represents(parents, selected, opaqueId, es[i], i);
    }
    forall i, j | 0 <= i < j < |es| ensures es[i].tag != es[j].tag {
      TagsWork(i, j);
    }
    if UniqueNodes(selected) {
      forall i | 0 <= i < |es| ensures es[i].id == opaqueId(selected[i].backend.value) {
        OwnName(selected, opaqueId, i);
      }
    }
  }

  // One parent link of an element follows the raw links up to the nearest selected node.
  lemma LiftOne(parents: map<string, string>, selected: seq<Raw>, opaqueId: nat -> string, es: seq<Element>, i: nat)
    returns (j: nat, b: nat)
    requires AllRepresent(parents, selected, opaqueId, es) && i < |es| && es[i].parent.Some?
    ensures j < |es| && es[j].id == es[i].parent.value
    ensures NearestAt(parents, NodeIds(selected), selected[i].nodeId, Some(selected[j].nodeId), b)
  {
    hide NoCollision, UniqueNodes, NodeIds, UniqueIds, OpaqueOf, LastOf;
    assert Represents(parents, selected, opaqueId, es[i], i);
    var parent :| Nearest(parents, NodeIds(selected), selected[i].nodeId, parent)
                  && es[i].parent == if parent.Some? then Some(OpaqueOf(selected, opaqueId, parent.value)) else None;
    b :| NearestAt(parents, NodeIds(selected), selected[i].nodeId, parent, b);
    j := LastOf(selected, parent.value);
    assert Represents(parents, selected, opaqueId, es[j], j);
  }

  lemma RootEnds(parents: map<string, string>, selected: seq<Raw>, opaqueId: nat -> string, es: seq<Element>, i: nat)
    returns (b: nat)
    requires AllRepresent(parents, selected, opaqueId, es) && i < |es| && es[i].parent.None?
    ensures NearestAt(parents, NodeIds(selected), selected[i].nodeId, None, b)
  {
    hide NoCollision, UniqueNodes, NodeIds, UniqueIds, OpaqueOf, LastOf;
    assert Represents(parents, selected, opaqueId, es[i], i);
    var parent :| Nearest(parents, NodeIds(selected), selected[i].nodeId, parent)
                  && es[i].parent == if parent.Some? then Some(OpaqueOf(selected, opaqueId, parent.value)) else None;
    b :| NearestAt(parents, NodeIds(selected), selected[i].nodeId, parent, b);
  }

  // A chain of element parents follows a chain of raw parents that is at least as long.
  lemma {:induction false} Lift(parents: map<string, string>, selected: seq<Raw>, opaqueId: nat -> string,
                                es: seq<Element>,
                                links: map<string, string>, k: nat, n: nat) returns (j: nat, m: nat)
    requires AllRepresent(parents, selected, opaqueId, es) && LinksOf(es, links)
    requires k < |es| && Up(links, es[k].id, n).Some?
    ensures j < |es| && Up(links, es[k].id, n) == Some(es[j].id)
    ensures m >= n && Up(parents, selected[k].nodeId, m) == Some(selected[j].nodeId)
    decreases n
  {
    hide Represents, Nearest, SemanticTag;
    assert |es| == |selected|;
    hide AllRepresent, LinksOf;
    if n == 0 {
      j, m := k, 0;
    } else {
      var i, a := Lift(parents, selected, opaqueId, es, links, k, n - 1);
      LinkOf(es, links, i);
      var b;
      assert Up(links, es[k].id, n) == Some(es[i].parent.value);
      hide Up;
      j, b := LiftOne(parents, selected, opaqueId, es, i);
      UpAdd(parents, selected[k].nodeId, a, b);
      m := a + b;
    }
  }

  // Between two selected nodes there is no nearer one than the first that is met.
  lemma FirstMet(parents: map<string, string>, ids: set<string>, id: string, parent: Option<string>, b: nat, n: nat)
    requires NearestAt(parents, ids, id, parent, b) && n > 0
    requires Up(parents, id, n).Some? && Up(parents, id, n).value in ids
    ensures parent.Some? && b <= n && Up(parents, parent.value, n - b) == Up(parents, id, n)
  {
    if b <= n {
      UpAdd(parents, id, b, n - b);
    }
  }

  lemma OneUp(links: map<string, string>, x: string, y: string)
    requires x in links && links[x] == y
    ensures Up(links, x, 1) == Some(y)
  {
    assert Up(links, x, 0) == Some(x);
  }

  // The first element on the way from one selected node up to another.
  lemma Hop(parents: map<string, string>, selected: seq<Raw>, opaqueId: nat -> string, es: seq<Element>,
            links: map<string, string>, k: nat, j: nat, n: nat) returns (i: nat, b: nat)
    requires AllRepresent(parents, selected, opaqueId, es) && LinksOf(es, links) && UniqueNodes(selected)
             && |es| == |selected|
    requires k < |es| && j < |es| && n > 0 && Up(parents, selected[k].nodeId, n) == Some(selected[j].nodeId)
    ensures i < |es| && 0 < b <= n && Up(links, es[k].id, 1) == Some(es[i].id)
    ensures Up(parents, selected[i].nodeId, n - b) == Some(selected[j].nodeId)
    ensures b == n ==> i == j
  {
    IsSelected(selected, j);
    hide *;
    HasParent(parents, selected, opaqueId, es, k, n);
    i, b := LiftOne(parents, selected, opaqueId, es, k);
    FirstMet(parents, NodeIds(selected), selected[k].nodeId, Some(selected[i].nodeId), b, n);
    LinkOf(es, links, k);
    OneUp(links, es[k].id, es[i].id);
    Positive(parents, NodeIds(selected), selected[k].nodeId, Some(selected[i].nodeId), b);
    NoneUp(parents, selected[i].nodeId);
    if b == n {
      SameNode(selected, i, j);
    }
  }

  lemma IsSelected(selected: seq<Raw>, j: nat)
    requires j < |selected|
    ensures selected[j].nodeId in NodeIds(selected)
  {
  }

  lemma SameNode(selected: seq<Raw>, i: nat, j: nat)
    requires UniqueNodes(selected) && i < |selected| && j < |selected| && selected[i].nodeId == selected[j].nodeId
    ensures i == j
  {
  }

  lemma HasParent(parents: map<string, string>, selected: seq<Raw>, opaqueId: nat -> string, es: seq<Element>,
                  k: nat, n: nat)
    requires AllRepresent(parents, selected, opaqueId, es) && k < |es| && |es| == |selected| && n > 0
    requires Up(parents, selected[k].nodeId, n).Some? && Up(parents, selected[k].nodeId, n).value in NodeIds(selected)
    ensures es[k].parent.Some?
  {
    hide *;
    if es[k].parent.None? {
      var b := RootEnds(parents, selected, opaqueId, es, k);
      FirstMet(parents, NodeIds(selected), selected[k].nodeId, None, b, n);
    }
  }

  lemma NoneUp(links: map<string, string>, x: string)
    ensures Up(links, x, 0) == Some(x)
  {
  }

  // A chain of raw parents from one selected node to another is followed by a chain of element parents.
  lemma {:induction false} Lower(parents: map<string, string>, selected: seq<Raw>, opaqueId: nat -> string,
                                 es: seq<Element>,
                                 links: map<string, string>, k: nat, j: nat, n: nat) returns (m: nat)
    requires AllRepresent(parents, selected, opaqueId, es) && LinksOf(es, links) && UniqueNodes(selected)
             && |es| == |selected|
    requires k < |es| && j < |es| && n > 0 && Up(parents, selected[k].nodeId, n) == Some(selected[j].nodeId)
    ensures m > 0 && Up(links, es[k].id, m) == Some(es[j].id)
    decreases n
  {
    hide *;
    var i, b := Hop(parents, selected, opaqueId, es, links, k, j, n);
    if b == n {
      m := 1;
    } else {
      var rest := Lower(parents, selected, opaqueId, es, links, i, j, n - b);
      UpAdd(links, es[k].id, 1, rest);
      m := 1 + rest;
    }
  }

  lemma Positive(parents: map<string, string>, ids: set<string>, id: string, parent: Option<string>, b: nat)
    requires NearestAt(parents, ids, id, parent, b)
    ensures b > 0
  {
  }

  lemma {:induction false} LinksExist(es: seq<Element>) returns (links: map<string, string>)
    requires UniqueIds(es)
    ensures LinksOf(es, links)
  {
    if es == [] {
      links := map[];
    } else {
      var init, last := es[..|es| - 1], es[|es| - 1];
      links := LinksExist(init);
      assert es == init + [last];
      SnocIds(init, last);
      assert last.id !in links;
      if last.parent.Some? {
        links := links[last.id := last.parent.value];
      }
    }
  }

  // Compression keeps the tree property: what the loops build passes the forest validator exactly
  // if the selected nodes are distinct and none of them is its own ancestor.
  lemma CompressedIsForest(parents: map<string, string>, selected: seq<Raw>, opaqueId: nat -> string, es: seq<Element>)
    requires AllRepresent(parents, selected, opaqueId, es)
    ensures IsForest(es) <==> UniqueNodes(selected) && SelectedAcyclic(parents, selected)
  {
    hide SelectedAcyclic, Represents, UniqueNodes, AllRepresent, UniqueIds, UniqueTags;
    ElementIds(parents, selected, opaqueId, es);
    forall i | 0 <= i < |es| && es[i].parent.Some? ensures es[i].parent.value in Ids(es) {
      var j, b := LiftOne(parents, selected, opaqueId, es, i);
    }
    if UniqueNodes(selected) {
      if SelectedAcyclic(parents, selected) {
        forall links | LinksOf(es, links) ensures Acyclic(links) {
          ForestAcyclic(parents, selected, opaqueId, es, links);
        }
      }
      if IsForest(es) {
        var links := LinksExist(es);
        RawAcyclic(parents, selected, opaqueId, es, links);
      }
    }
  }

  lemma ForestAcyclic(parents: map<string, string>, selected: seq<Raw>, opaqueId: nat -> string, es: seq<Element>,
                      links: map<string, string>)
    requires SelectedAcyclic(parents, selected) && AllRepresent(parents, selected, opaqueId, es)
             && LinksOf(es, links) && UniqueIds(es)
    ensures Acyclic(links)
  {
    forall id: string, n: nat | n > 0 ensures Up(links, id, n) != Some(id) {
      if Up(links, id, n).Some? {
        UpInside(links, id, n);
        var k :| 0 <= k < |es| && es[k].id == id;
        hide AllRepresent, LinksOf;
        var j, m := Lift(parents, selected, opaqueId, es, links, k, n);
        assert j != k;
        assert es[j].id != es[k].id;
      }
    }
  }

  lemma RawAcyclic(parents: map<string, string>, selected: seq<Raw>, opaqueId: nat -> string, es: seq<Element>,
                   links: map<string, string>)
    requires AllRepresent(parents, selected, opaqueId, es) && LinksOf(es, links) && UniqueNodes(selected)
             && Acyclic(links)
    ensures SelectedAcyclic(parents, selected)
  {
    hide LinksOf, UniqueNodes, Represents;
    forall k, n: nat | 0 <= k < |selected| && n > 0
      ensures Up(parents, selected[k].nodeId, n) != Some(selected[k].nodeId)
    {
      if Up(parents, selected[k].nodeId, n) == Some(selected[k].nodeId) {
        var m := Lower(parents, selected, opaqueId, es, links, k, k, n);
      }
    }
  }

  // The whole parser, for trees in which no selected node leads onto a cycle of unselected nodes.
  method ParseAxTree(raws: seq<Raw>, roots: set<nat>, opaqueId: nat -> string)
    returns (r: Result<seq<Element>, CdpError>)
    requires Parseable(raws, roots) ==> NoLoops(ParentsOf(raws), SelectedOf(raws, roots))
    ensures r.Success? <==> Parseable(raws, roots)
    ensures r.Success? ==>
              var parents, selected := ParentsOf(raws), SelectedOf(raws, roots);
              && |r.value| == |selected|
              && ((forall b :: IsHash(opaqueId(b))) ==>
                    forall k | 0 <= k < |selected| ::
                      ValidElement(r.value[k]) <==> selected[k].payloadOk && IsHash(selected[k].fingerprint))
              && (forall k | 0 <= k < |selected| :: Represents(parents, selected, opaqueId, r.value[k], k))
              && (NoCollision(selected, opaqueId) ==>
                    (IsForest(r.value) <==> UniqueNodes(selected) && SelectedAcyclic(parents, selected)))
  {
    hide Represents, NoCollision, IsForest, IsHash, ValidElement, UniqueNodes, ParentsOf, SelectedOf, LoopEnds,
         NoLoops, OpenCycle,
         SelectedAcyclic, Readable, UniqueBackends;
    var nodes := ReadNodes(raws, roots);
    if nodes.Failure? {
      return Failure(Protocol);
    }
    var (parents, selected) := nodes.value;
    SelectedAre(raws, roots);
    assert forall i | 0 <= i < |selected| :: selected[i] in selected;
    ParserEndsExactly(parents, selected);
    var es := BuildElements(parents, selected, opaqueId);
    if forall b :: IsHash(opaqueId(b)) {
      forall k | 0 <= k < |selected|
        ensures ValidElement(es[k]) <==> selected[k].payloadOk && IsHash(selected[k].fingerprint)
      {
        RepresentedIsValid(parents, selected, opaqueId, es[k], k);
      }
    }
    if NoCollision(selected, opaqueId) {
      CompressedIsForest(parents, selected, opaqueId, es);
    }
    r := Success(es);
  }
}
