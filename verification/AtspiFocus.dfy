// The search for the one focused object below a window, and the walk back up from an object.
module AtspiFocus {
  import opened Wrappers
  import opened Levels

  const MAX_FOCUS_ELEMENTS: nat := 2048

  datatype FocusError = Unavailable

  function FocusedIn(g: Graph, xs: seq<string>): seq<string> {
    if xs == [] then []
    else FocusedIn(g, xs[..|xs| - 1]) + if g.focused(xs[|xs| - 1]) then [xs[|xs| - 1]] else []
  }

  // How far the search has come without a refusal.
  ghost predicate Progress(g: Graph, window: string, d: nat, done: seq<string>, todo: seq<string>, seen: seq<string>,
                           queue: seq<(string, nat)>, focused: seq<string>) {
    && SearchAt(g, window, d, done, todo, seen, Names(queue))
    && |todo| <= |queue| && d <= MAX_DEPTH
    && (forall i | 0 <= i < |queue| :: queue[i].1 == if i < |todo| then d else d + 1)
    && (d == MAX_DEPTH ==> |todo| == |queue|)
    && NoRepeat(seen) && |seen| + |queue| <= MAX_FOCUS_ELEMENTS
    && (forall x | x in seen :: g.owned(x) && ChildrenBound(g, x))
    && focused == FocusedIn(g, seen) && |focused| <= 1
  }

  function Names(queue: seq<(string, nat)>): seq<string> {
    seq(|queue|, i requires 0 <= i < |queue| => queue[i].0)
  }

  // Queues all children of `x`, each of which must be present, owned and linked back.
  method ReadAll(g: Graph, x: string, depth: nat) returns (r: Option<seq<(string, nat)>>)
    ensures r.Some? <==> ChildrenBound(g, x)
    ensures r.Some? ==> Names(r.value) == Present(g.children(x)) && |r.value| == |g.children(x)|
    ensures r.Some? ==> forall i | 0 <= i < |r.value| :: r.value[i].1 == depth + 1
  {
    var children := g.children(x);
    var queued: seq<(string, nat)> := [];
    for i := 0 to |children|
      invariant |queued| == i && Names(queued) == Present(children[..i])
      invariant forall k | 0 <= k < i :: queued[k].1 == depth + 1
      invariant forall k | 0 <= k < i :: ChildBound(g, x, children[k])
    {
      var child := children[i];
      assert child in children;
      if child.None? || child.value == x || !g.owned(child.value) || g.parent(child.value) != Some(x) {
        return None;
      }
      PresentSnoc(children[..i], child);
      assert children[..i + 1] == children[..i] + [child];
      assert Names(queued + [(child.value, depth + 1)]) == Names(queued) + [child.value];
      queued := queued + [(child.value, depth + 1)];
    }
    assert children[..|children|] == children;
    r := Some(queued);
  }

  lemma {:induction false} PresentSnoc(cs: seq<Option<string>>, c: Option<string>)
    ensures Present(cs + [c]) == Present(cs) + if c.Some? then [c.value] else []
  {
    if cs == [] {
      assert cs + [c] == [c];
      assert Present([c]) == (if c.Some? then [c.value] else []) + Present([]);
    } else {
      PresentSnoc(cs[1..], c);
      assert (cs + [c])[1..] == cs[1..] + [c] && (cs + [c])[0] == cs[0];
      assert Present(cs + [c]) == (if cs[0].Some? then [cs[0].value] else []) + Present(cs[1..] + [c]);
      assert Present(cs) == (if cs[0].Some? then [cs[0].value] else []) + Present(cs[1..]);
      hide Present;
    }
  }

  // On a fixed graph the search succeeds exactly if everything within the depth limit can be
  // followed, occurs once and fits the budget, nothing lies deeper, and exactly one object has the
  // focus; that object is the answer.
  method FocusedDescendant(g: Graph, window: string) returns (r: Result<string, FocusError>)
    ensures r.Success? <==>
            SearchCondition(g, window, 2048)
            && |FocusedIn(g, UpTo(g, window, 64))| == 1
    ensures r.Success? ==> FocusedIn(g, UpTo(g, window, 64)) == [r.value]
  {
    hide Level, UpTo, SearchAt, Present, Kids, SearchCondition, Progress, ChildrenBound, FocusedIn;
    var queue: seq<(string, nat)> := [(window, 0)];
    var seen: seq<string> := [];
    var focused: seq<string> := [];
    ghost var d: nat, done: seq<string>, todo := 0, [], [window];
    Starts(g, window);
    while queue != []
      invariant Progress(g, window, d, done, todo, seen, queue, focused)
      decreases MAX_FOCUS_ELEMENTS - |seen|
    {
      if todo == [] {
        NextFocusLevel(g, window, d, done, seen, queue, focused);
        d, done, todo := d + 1, [], Names(queue);
      }
      Ahead(g, window, d, done, todo, seen, queue, focused);
      var (node, depth) := queue[0];
      if node in seen || |seen| + 1 > MAX_FOCUS_ELEMENTS {
        return Failure(Unavailable);
      }
      if !g.owned(node) {
        return Failure(Unavailable);
      }
      var focused' := if g.focused(node) then focused + [node] else focused;
      if |focused'| > 1 {
        return Failure(Unavailable);
      }
      var children := g.children(node);
      if (depth == MAX_DEPTH && children != []) || |children| > MAX_FOCUS_ELEMENTS - (|seen| + 1 + |queue| - 1) {
        return Failure(Unavailable);
      }
      var queued := ReadAll(g, node, depth);
      if queued.None? {
        return Failure(Unavailable);
      }
      Step(g, window, d, done, todo, seen, queue, focused, queued.value);
      seen := seen + [node];
      focused := focused';
      queue := queue[1..] + queued.value;
      done, todo := done + [todo[0]], todo[1..];
    }
    Finished(g, window, d, done, todo, seen, focused);
    r := if |focused| == 1 then Success(focused[0]) else Failure(Unavailable);
  }

  lemma Starts(g: Graph, window: string)
    ensures Progress(g, window, 0, [], [window], [], [(window, 0)], [])
  {
    SearchStarts(g, window);
    hide SearchAt;
    assert Names([(window, 0)]) == [window];
  }

  lemma NextFocusLevel(g: Graph, window: string, d: nat, done: seq<string>, seen: seq<string>,
                       queue: seq<(string, nat)>, focused: seq<string>)
    requires Progress(g, window, d, done, [], seen, queue, focused) && queue != []
    ensures Progress(g, window, d + 1, [], Names(queue), seen, queue, focused)
  {
    hide SearchAt, ChildrenBound, FocusedIn;
    NextLevel(g, window, d, done, seen, Names(queue));
  }

  // The first object waiting, seen from the whole breadth-first order.
  lemma Ahead(g: Graph, window: string, d: nat, done: seq<string>, todo: seq<string>, seen: seq<string>,
              queue: seq<(string, nat)>, focused: seq<string>)
    requires Progress(g, window, d, done, todo, seen, queue, focused) && todo != []
    ensures queue != [] && queue[0].1 == d
    ensures |seen| + 1 <= MAX_FOCUS_ELEMENTS
    ensures SearchCondition(g, window, MAX_FOCUS_ELEMENTS) ==>
            AllowsNext(g, MAX_FOCUS_ELEMENTS, seen, |queue|, queue[0].0, d)
    ensures |FocusedIn(g, UpTo(g, window, MAX_DEPTH))| >= |focused| + if g.focused(queue[0].0) then 1 else 0
  {
    hide ChildrenBound, Kids, Level, UpTo, SearchCondition, FocusedIn, NoRepeat;
    var x := queue[0].0;
    var names := Names(queue);
    NextNode(g, window, d, done, todo, seen, names);
    SeenFirst(g, window, d, done, todo, seen, names);
    hide SearchAt;
    FocusedPrefix(g, seen + [x], UpTo(g, window, MAX_DEPTH));
    FocusedSnoc(g, seen, x);
    if SearchCondition(g, window, MAX_FOCUS_ELEMENTS) {
      NextAllowed(g, window, MAX_FOCUS_ELEMENTS, d, done, todo, seen, names);
    }
  }

  lemma {:induction false} FocusedPrefix(g: Graph, xs: seq<string>, ys: seq<string>)
    requires xs <= ys
    ensures FocusedIn(g, xs) <= FocusedIn(g, ys)
  {
    if xs != ys {
      FocusedPrefix(g, xs, ys[..|ys| - 1]);
    }
  }

  lemma FocusedSnoc(g: Graph, xs: seq<string>, x: string)
    ensures FocusedIn(g, xs + [x]) == FocusedIn(g, xs) + if g.focused(x) then [x] else []
  {
    assert (xs + [x])[..|xs + [x]| - 1] == xs;
  }

  lemma Step(g: Graph, window: string, d: nat, done: seq<string>, todo: seq<string>, seen: seq<string>,
             queue: seq<(string, nat)>, focused: seq<string>, queued: seq<(string, nat)>)
    requires Progress(g, window, d, done, todo, seen, queue, focused) && todo != []
    requires var x := queue[0].0;
             && x !in seen && g.owned(x) && ChildrenBound(g, x)
             && (d == MAX_DEPTH ==> queued == [])
             && Names(queued) == Present(g.children(x)) && (forall i | 0 <= i < |queued| :: queued[i].1 == d + 1)
             && |seen| + |queue| + |queued| <= MAX_FOCUS_ELEMENTS
             && (g.focused(x) ==> focused == [])
    ensures var x := queue[0].0;
            Progress(g, window, d, done + [todo[0]], todo[1..], seen + [x], queue[1..] + queued,
                     if g.focused(x) then focused + [x] else focused)
  {
    hide ChildrenBound, SearchAt, FocusedIn, Present;
    var x := queue[0].0;
    NextNode(g, window, d, done, todo, seen, Names(queue));
    FocusedSnoc(g, seen, x);
    assert Names(queue)[1..] == Names(queue[1..]);
    assert Names(queue[1..] + queued) == Names(queue[1..]) + Names(queued);
  }

  // An empty queue means everything has been seen.
  lemma Finished(g: Graph, window: string, d: nat, done: seq<string>, todo: seq<string>, seen: seq<string>,
                 focused: seq<string>)
    requires Progress(g, window, d, done, todo, seen, [], focused)
    ensures SearchCondition(g, window, MAX_FOCUS_ELEMENTS) && focused == FocusedIn(g, UpTo(g, window, MAX_DEPTH))
  {
    hide ChildrenBound, SearchAt, FocusedIn;
    assert todo == [] && Names([]) == [];
    NextLevel(g, window, d, done, seen, []);
    EmptyAfter(g, window, d + 1, MAX_DEPTH + 1);
    if d < MAX_DEPTH {
      EmptyAfter(g, window, d + 1, MAX_DEPTH);
    }
  }

  // ----- Back up from an object -----

  // The ancestor `n` parent links above `x`.
  function Climb(g: Graph, x: string, n: nat): Option<string> {
    if n == 0 then Some(x)
    else
      match Climb(g, x, n - 1)
      case None => None
      case Some(y) => g.parent(y)
  }

  // The root is reached after `n` links, not before, through owned objects only.
  ghost predicate ReachesAt(g: Graph, x: string, root: string, n: nat) {
    && Climb(g, x, n) == Some(root)
    && forall m: nat | m <= n ::
       Climb(g, x, m).Some? && g.owned(Climb(g, x, m).value) && (Climb(g, x, m) == Some(root) ==> m == n)
  }

  lemma {:induction false} ClimbAdd(g: Graph, x: string, m: nat, n: nat)
    requires Climb(g, x, m).Some?
    ensures Climb(g, x, m + n) == Climb(g, Climb(g, x, m).value, n)
  {
    if n > 0 {
      ClimbAdd(g, x, m, n - 1);
    }
  }

  // A chain that repeats before it has met the root never meets it.
  lemma {:induction false} RepeatMissesRoot(g: Graph, x: string, root: string, i: nat, k: nat, n: nat)
    requires i < k && Climb(g, x, i).Some? && Climb(g, x, i) == Climb(g, x, k)
    requires forall m: nat | m < k :: Climb(g, x, m) != Some(root)
    ensures Climb(g, x, n) != Some(root)
    decreases n
  {
    if n >= k {
      ClimbAdd(g, x, k, n - k);
      ClimbAdd(g, x, i, n - k);
      RepeatMissesRoot(g, x, root, i, k, i + (n - k));
    }
  }

  lemma ReachesOnce(g: Graph, x: string, root: string, n: nat, k: nat)
    requires ReachesAt(g, x, root, n) && forall m: nat | m < k :: Climb(g, x, m) != Some(root)
    ensures k <= n && Climb(g, x, k).Some? && g.owned(Climb(g, x, k).value)
  {
    assert Climb(g, x, n) == Some(root);
  }

  // The bounded climb accepts exactly the objects below the root within the depth limit.
  method ValidateLiveDescendant(g: Graph, x: string, root: string) returns (ok: bool)
    ensures ok <==> exists n: nat :: n <= 64 && ReachesAt(g, x, root, n)
  {
    var current := x;
    var seen: set<string> := {};
    for k := 0 to MAX_DEPTH + 1
      invariant Climb(g, x, k) == Some(current)
      invariant forall m: nat | m < k ::
                Climb(g, x, m).Some? && g.owned(Climb(g, x, m).value) && Climb(g, x, m) != Some(root)
      invariant forall y | y in seen :: exists m: nat :: m < k && Climb(g, x, m) == Some(y)
    {
      if !g.owned(current) {
        Refused(g, x, root, k);
        return false;
      }
      if current in seen {
        var i: nat :| i < k && Climb(g, x, i) == Some(current);
        forall n: nat ensures !ReachesAt(g, x, root, n) {
          RepeatMissesRoot(g, x, root, i, k, n);
        }
        return false;
      }
      seen := seen + {current};
      if current == root {
        assert ReachesAt(g, x, root, k);
        return true;
      }
      var parent := g.parent(current);
      assert Climb(g, x, k + 1) == parent;
      if parent.None? {
        Refused(g, x, root, k + 1);
        return false;
      }
      current := parent.value;
    }
    forall n: nat | ReachesAt(g, x, root, n) ensures n > MAX_DEPTH {
      ReachesOnce(g, x, root, n, MAX_DEPTH + 1);
    }
    return false;
  }

  lemma Refused(g: Graph, x: string, root: string, k: nat)
    requires forall m: nat | m < k :: Climb(g, x, m) != Some(root)
    requires Climb(g, x, k).Some? ==> !g.owned(Climb(g, x, k).value)
    ensures forall n: nat :: !ReachesAt(g, x, root, n)
  {
    forall n: nat ensures !ReachesAt(g, x, root, n) {
      if ReachesAt(g, x, root, n) {
        ReachesOnce(g, x, root, n, k);
      }
    }
  }

  lemma LevelInUpTo(g: Graph, window: string, d: nat, x: string)
    requires d <= MAX_DEPTH && x in Level(g, window, d)
    ensures x in UpTo(g, window, MAX_DEPTH)
  {
    LevelMember(g, window, d, x);
    UpToMember(g, window, MAX_DEPTH, x);
  }

  lemma LevelParent(g: Graph, window: string, d: nat, x: string)
    requires SearchCondition(g, window, MAX_FOCUS_ELEMENTS) && d < MAX_DEPTH && x in Level(g, window, d + 1)
    ensures exists y :: y in Level(g, window, d) && g.parent(x) == Some(y)
  {
    var above := Level(g, window, d);
    assert Level(g, window, d + 1) == Kids(g, above);
    hide Kids, Level;
    KidsMember(g, above, x);
    var y :| y in above && Some(x) in g.children(y);
    LevelInUpTo(g, window, d, y);
    hide UpTo;
    assert ChildrenBound(g, y);
  }

  lemma ClimbStep(g: Graph, x: string, y: string, m: nat)
    requires g.parent(x) == Some(y)
    ensures Climb(g, x, m + 1) == Climb(g, y, m)
  {
    assert Climb(g, x, 0) == Some(x) && Climb(g, x, 1) == Some(y);
    ClimbAdd(g, x, 1, m);
  }

  // Whatever the search can find, the climb accepts on the same graph.
  lemma {:induction false} LevelsClimb(g: Graph, window: string, d: nat, x: string)
    requires SearchCondition(g, window, MAX_FOCUS_ELEMENTS) && d <= MAX_DEPTH && x in Level(g, window, d)
    ensures Climb(g, x, d) == Some(window)
    ensures forall m: nat | m <= d :: Climb(g, x, m).Some? && Climb(g, x, m).value in UpTo(g, window, MAX_DEPTH)
    decreases d
  {
    hide SearchCondition, UpTo, Climb, Kids;
    LevelInUpTo(g, window, d, x);
    ClimbNone(g, x);
    if d == 0 {
      assert Level(g, window, 0) == [window];
    } else {
      hide *;
      LevelParent(g, window, d - 1, x);
      var y :| y in Level(g, window, d - 1) && g.parent(x) == Some(y);
      LevelsClimb(g, window, d - 1, y);
      ClimbOneMore(g, x, y, d - 1, UpTo(g, window, MAX_DEPTH));
    }
  }

  lemma ClimbNone(g: Graph, x: string)
    ensures Climb(g, x, 0) == Some(x)
  {
  }

  lemma ClimbOneMore(g: Graph, x: string, y: string, d: nat, all: seq<string>)
    requires g.parent(x) == Some(y) && x in all
    requires forall m: nat | m <= d :: Climb(g, y, m).Some? && Climb(g, y, m).value in all
    ensures Climb(g, x, d + 1) == Climb(g, y, d)
    ensures forall m: nat | m <= d + 1 :: Climb(g, x, m).Some? && Climb(g, x, m).value in all
  {
    ClimbNone(g, x);
    hide Climb;
    forall m: nat | m <= d ensures Climb(g, x, m + 1) == Climb(g, y, m) {
      ClimbStep(g, x, y, m);
    }
    forall m: nat | m <= d + 1 ensures Climb(g, x, m).Some? && Climb(g, x, m).value in all {
      if m > 0 {
        ClimbStep(g, x, y, m - 1);
      }
    }
  }

  lemma {:induction false} FirstReach(g: Graph, x: string, root: string, d: nat)
    requires Climb(g, x, d) == Some(root)
    requires forall m: nat | m <= d :: Climb(g, x, m).Some? && g.owned(Climb(g, x, m).value)
    ensures exists n: nat :: n <= d && ReachesAt(g, x, root, n)
  {
    if k: nat :| k < d && Climb(g, x, k) == Some(root) {
      FirstReach(g, x, root, k);
    } else {
      assert ReachesAt(g, x, root, d);
    }
  }

  lemma FoundIsLive(g: Graph, window: string, x: string)
    requires SearchCondition(g, window, MAX_FOCUS_ELEMENTS) && x in UpTo(g, window, MAX_DEPTH)
    ensures exists n: nat :: n <= MAX_DEPTH && ReachesAt(g, x, window, n)
  {
    UpToMember(g, window, MAX_DEPTH, x);
    var d: nat :| d <= MAX_DEPTH && Walk(g, window, x, d);
    LevelMember(g, window, d, x);
    LevelsClimb(g, window, d, x);
    FirstReach(g, x, window, d);
  }
}
