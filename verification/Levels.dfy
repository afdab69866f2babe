// A fixed accessibility graph, and the order in which a breadth-first search sees it.
module Levels {
  import opened Wrappers

  // What the provider answers about every object: its children (None for a null reference), its
  // parent, whether its owner is the expected process, and whether it has the keyboard focus.
  datatype Graph = Graph(
    children: string -> seq<Option<string>>,
    parent: string -> Option<string>,
    owned: string -> bool,
    focused: string -> bool)

  // How far below a window both searches look.
  const MAX_DEPTH: nat := 64

  function Present(cs: seq<Option<string>>): seq<string> {
    if cs == [] then [] else (if cs[0].Some? then [cs[0].value] else []) + Present(cs[1..])
  }

  // The children of a list of objects, in order.
  function Kids(g: Graph, xs: seq<string>): seq<string> {
    if xs == [] then [] else Kids(g, xs[..|xs| - 1]) + Present(g.children(xs[|xs| - 1]))
  }

  // The objects `d` links below the root, and all objects at most `d` links below it.
  function Level(g: Graph, root: string, d: nat): seq<string> {
    if d == 0 then [root] else Kids(g, Level(g, root, d - 1))
  }

  function UpTo(g: Graph, root: string, d: nat): seq<string> {
    if d == 0 then [root] else UpTo(g, root, d - 1) + Level(g, root, d)
  }

  // Everything above level `d`.
  function Above(g: Graph, root: string, d: nat): seq<string> {
    if d == 0 then [] else UpTo(g, root, d - 1)
  }

  predicate NoRepeat(xs: seq<string>) {
    forall i, j | 0 <= i < j < |xs| :: xs[i] != xs[j]
  }

  // ----- Reachability -----

  ghost predicate Walk(g: Graph, root: string, x: string, n: nat)
    decreases n
  {
    if n == 0 then x == root else exists y :: Walk(g, root, y, n - 1) && Some(x) in g.children(y)
  }

  ghost predicate ReachableFrom(g: Graph, root: string, x: string) {
    exists n: nat :: Walk(g, root, x, n)
  }

  lemma {:induction false} PresentMember(cs: seq<Option<string>>, x: string)
    ensures x in Present(cs) <==> Some(x) in cs
  {
    if cs != [] {
      PresentMember(cs[1..], x);
      assert cs == [cs[0]] + cs[1..];
    }
  }

  lemma {:induction false} KidsMember(g: Graph, xs: seq<string>, x: string)
    ensures x in Kids(g, xs) <==> exists y :: y in xs && Some(x) in g.children(y)
  {
    if xs != [] {
      var init, last := xs[..|xs| - 1], xs[|xs| - 1];
      KidsMember(g, init, x);
      PresentMember(g.children(last), x);
      assert xs == init + [last];
      assert last in xs;
    }
  }

  // The levels hold exactly what walks of their length reach.
  lemma {:induction false} LevelMember(g: Graph, root: string, d: nat, x: string)
    ensures x in Level(g, root, d) <==> Walk(g, root, x, d)
  {
    if d > 0 {
      var above := Level(g, root, d - 1);
      KidsMember(g, above, x);
      forall y ensures y in above <==> Walk(g, root, y, d - 1) {
        LevelMember(g, root, d - 1, y);
      }
    }
  }

  lemma {:induction false} UpToMember(g: Graph, root: string, d: nat, x: string)
    ensures x in UpTo(g, root, d) <==> exists n: nat :: n <= d && Walk(g, root, x, n)
  {
    if d == 0 {
      assert Walk(g, root, root, 0);
    } else {
      UpToMember(g, root, d - 1, x);
      LevelMember(g, root, d, x);
    }
  }

  lemma {:induction false} EmptyAfter(g: Graph, root: string, d: nat, e: nat)
    requires d <= e && Level(g, root, d) == []
    ensures Level(g, root, e) == []
    ensures d > 0 ==> UpTo(g, root, e) == UpTo(g, root, d - 1)
  {
    if d < e {
      EmptyAfter(g, root, d, e - 1);
    }
  }

  // A graph with an empty level is all above it.
  lemma AllReached(g: Graph, root: string, d: nat, x: string)
    requires Level(g, root, d + 1) == []
    ensures ReachableFrom(g, root, x) <==> x in UpTo(g, root, d)
  {
    UpToMember(g, root, d, x);
    if ReachableFrom(g, root, x) {
      var n: nat :| Walk(g, root, x, n);
      LevelMember(g, root, n, x);
      if n > d {
        EmptyAfter(g, root, d + 1, n);
      }
    }
  }

  // ----- Breadth-first order -----

  // A search that has processed `seen` and has `queue` waiting, all at level `d` after `done`, or below.
  ghost predicate SearchAt(g: Graph, root: string, d: nat, done: seq<string>, todo: seq<string>, seen: seq<string>,
                           queue: seq<string>) {
    && Level(g, root, d) == done + todo
    && seen == Above(g, root, d) + done
    && queue == todo + Kids(g, done)
  }

  lemma SearchStarts(g: Graph, root: string)
    ensures SearchAt(g, root, 0, [], [root], [], [root])
  {
  }

  // A finished level gives way to the next.
  lemma NextLevel(g: Graph, root: string, d: nat, done: seq<string>, seen: seq<string>, queue: seq<string>)
    requires SearchAt(g, root, d, done, [], seen, queue)
    ensures SearchAt(g, root, d + 1, [], queue, seen, queue)
    ensures queue == Level(g, root, d + 1) && seen == UpTo(g, root, d)
  {
    assert done + [] == done;
    assert [] + Kids(g, done) == Kids(g, done);
  }

  lemma KidsSnoc(g: Graph, xs: seq<string>, x: string)
    ensures Kids(g, xs + [x]) == Kids(g, xs) + Present(g.children(x))
  {
    assert (xs + [x])[..|xs + [x]| - 1] == xs;
    hide Present;
  }

  // Processing the first of the queue appends its children.
  lemma NextNode(g: Graph, root: string, d: nat, done: seq<string>, todo: seq<string>, seen: seq<string>,
                 queue: seq<string>)
    requires SearchAt(g, root, d, done, todo, seen, queue) && todo != []
    ensures queue != [] && queue[0] == todo[0]
    ensures SearchAt(g, root, d, done + [todo[0]], todo[1..], seen + [queue[0]],
                     queue[1..] + Present(g.children(queue[0])))
  {
    hide Level, UpTo, Kids, Present;
    var x := todo[0];
    KidsSnoc(g, done, x);
    assert done + todo == done + [x] + todo[1..];
    assert queue[1..] == todo[1..] + Kids(g, done);
  }

  lemma OneLevelMore(g: Graph, root: string, d: nat)
    ensures UpTo(g, root, d) == Above(g, root, d) + Level(g, root, d)
    ensures UpTo(g, root, d + 1) == UpTo(g, root, d) + Kids(g, Level(g, root, d))
  {
  }

  // What has been seen or queued comes first in breadth-first order.
  lemma SearchPrefix(g: Graph, root: string, d: nat, done: seq<string>, todo: seq<string>, seen: seq<string>,
                     queue: seq<string>)
    requires SearchAt(g, root, d, done, todo, seen, queue)
    ensures seen + queue <= UpTo(g, root, d + 1)
    ensures seen + todo == UpTo(g, root, d)
  {
    KidsSplit(g, done, todo);
    OneLevelMore(g, root, d);
    hide UpTo, Level, Kids;
    JoinPrefix(Above(g, root, d), done, todo, Kids(g, done), Kids(g, todo));
  }

  lemma JoinPrefix(above: seq<string>, done: seq<string>, todo: seq<string>, kids: seq<string>, more: seq<string>)
    ensures above + done + (todo + kids) <= above + (done + todo) + (kids + more)
    ensures above + done + todo == above + (done + todo)
  {
    assert above + (done + todo) + (kids + more) == above + done + (todo + kids) + more;
  }

  lemma {:induction false} KidsSplit(g: Graph, xs: seq<string>, ys: seq<string>)
    ensures Kids(g, xs + ys) == Kids(g, xs) + Kids(g, ys)
  {
    if ys == [] {
      assert xs + ys == xs;
    } else {
      var init, last := ys[..|ys| - 1], ys[|ys| - 1];
      KidsSplit(g, xs, init);
      assert (xs + ys)[..|xs + ys| - 1] == xs + init;
      assert Kids(g, xs + ys) == Kids(g, xs + init) + Present(g.children(last));
      hide Kids, Present;
    }
  }

  lemma {:induction false} UpToGrows(g: Graph, root: string, d: nat, e: nat)
    requires d <= e
    ensures UpTo(g, root, d) <= UpTo(g, root, e)
  {
    if d < e {
      UpToGrows(g, root, d, e - 1);
      assert UpTo(g, root, e) == UpTo(g, root, e - 1) + Level(g, root, e);
      hide UpTo, Level;
      StillPrefix(UpTo(g, root, d), UpTo(g, root, e - 1), Level(g, root, e));
    }
  }

  lemma StillPrefix(xs: seq<string>, ys: seq<string>, more: seq<string>)
    requires xs <= ys
    ensures xs <= ys + more
  {
  }

  // ----- What a search insists on -----

  // A child that can be followed from `x`: present, another object, owned, and linked back to `x`.
  predicate ChildBound(g: Graph, x: string, c: Option<string>) {
    c.Some? && c.value != x && g.owned(c.value) && g.parent(c.value) == Some(x)
  }

  predicate ChildrenBound(g: Graph, x: string) {
    forall c | c in g.children(x) :: ChildBound(g, x, c)
  }

  // Everything within the depth limit can be followed, occurs once and fits the budget, and nothing
  // lies deeper.
  ghost predicate SearchCondition(g: Graph, root: string, budget: nat) {
    var all := UpTo(g, root, MAX_DEPTH);
    && Level(g, root, MAX_DEPTH + 1) == []
    && NoRepeat(all)
    && |all| <= budget
    && (forall x | x in all :: g.owned(x) && ChildrenBound(g, x))
  }

  // What the condition means without levels: everything reachable is seen once.
  lemma ConditionMeans(g: Graph, root: string, budget: nat, x: string)
    requires SearchCondition(g, root, budget)
    ensures ReachableFrom(g, root, x) <==> x in UpTo(g, root, 64)
    ensures Level(g, root, 65) == []
  {
    AllReached(g, root, MAX_DEPTH, x);
  }

  // What the condition promises about the next object, with `waiting` objects in the queue.
  ghost predicate AllowsNext(g: Graph, budget: nat, seen: seq<string>, waiting: nat, x: string, d: nat) {
    && x !in seen && g.owned(x) && ChildrenBound(g, x)
    && (d == MAX_DEPTH ==> g.children(x) == [])
    && |seen| + waiting + |g.children(x)| <= budget
  }

  lemma NextAllowed(g: Graph, root: string, budget: nat, d: nat, done: seq<string>, todo: seq<string>,
                    seen: seq<string>, queue: seq<string>)
    requires SearchCondition(g, root, budget) && SearchAt(g, root, d, done, todo, seen, queue)
    requires todo != [] && d <= MAX_DEPTH && (d == MAX_DEPTH ==> |queue| == |todo|)
    ensures AllowsNext(g, budget, seen, |queue|, todo[0], d)
  {
    hide ChildrenBound, Kids, Level, UpTo, SearchCondition, SearchAt, NoRepeat;
    NextNode(g, root, d, done, todo, seen, queue);
    SeenFirst(g, root, d, done, todo, seen, queue);
    AheadNode(g, root, budget, seen, todo[0]);
    if d == MAX_DEPTH {
      LastLevel(g, root, budget, done, todo, seen, queue);
    } else {
      InnerLevel(g, root, budget, d, done, todo, seen, queue);
    }
  }

  lemma SeenFirst(g: Graph, root: string, d: nat, done: seq<string>, todo: seq<string>, seen: seq<string>,
                  queue: seq<string>)
    requires SearchAt(g, root, d, done, todo, seen, queue) && todo != [] && d <= MAX_DEPTH
    ensures seen + [todo[0]] <= UpTo(g, root, MAX_DEPTH)
  {
    hide UpTo, SearchAt, Kids, Level;
    SearchPrefix(g, root, d, done, todo, seen, queue);
    UpToGrows(g, root, d, MAX_DEPTH);
    assert todo == [todo[0]] + todo[1..];
    assert seen + [todo[0]] <= seen + todo;
  }

  lemma AheadNode(g: Graph, root: string, budget: nat, seen: seq<string>, x: string)
    requires SearchCondition(g, root, budget) && seen + [x] <= UpTo(g, root, MAX_DEPTH)
    ensures x !in seen && g.owned(x) && ChildrenBound(g, x)
  {
    var all := UpTo(g, root, MAX_DEPTH);
    hide UpTo, Level, ChildrenBound;
    assert (seen + [x])[|seen|] == all[|seen|];
    assert x in all;
    forall i | 0 <= i < |seen| ensures seen[i] != x {
      Apart(seen + [x], all, i, |seen|);
    }
  }

  lemma Apart(xs: seq<string>, all: seq<string>, i: nat, j: nat)
    requires xs <= all && NoRepeat(all) && i < j < |xs|
    ensures xs[i] != xs[j]
  {
    assert xs[i] == all[i] && xs[j] == all[j];
  }

  lemma LastLevel(g: Graph, root: string, budget: nat, done: seq<string>, todo: seq<string>, seen: seq<string>,
                  queue: seq<string>)
    requires SearchCondition(g, root, budget) && SearchAt(g, root, MAX_DEPTH, done, todo, seen, queue)
    requires todo != [] && ChildrenBound(g, todo[0]) && |queue| == |todo|
    ensures g.children(todo[0]) == []
    ensures |seen| + |queue| <= budget
  {
    var x := todo[0];
    PresentLength(g.children(x));
    assert Level(g, root, MAX_DEPTH + 1) == Kids(g, Level(g, root, MAX_DEPTH));
    assert Level(g, root, MAX_DEPTH) == done + todo;
    SearchPrefix(g, root, MAX_DEPTH, done, todo, seen, queue);
    hide Level, UpTo, Kids, SearchAt, Present;
    assert (done + todo)[|done|] == x;
    NoKids(g, done + todo, x);
  }

  lemma InnerLevel(g: Graph, root: string, budget: nat, d: nat, done: seq<string>, todo: seq<string>, seen: seq<string>,
                   queue: seq<string>)
    requires SearchCondition(g, root, budget) && SearchAt(g, root, d, done, todo, seen, queue)
    requires todo != [] && queue != [] && todo[0] == queue[0] && d < MAX_DEPTH && ChildrenBound(g, todo[0])
    ensures |seen| + |queue| + |g.children(todo[0])| <= budget
  {
    hide Level, UpTo, Kids, SearchAt, Present;
    var x := todo[0];
    PresentLength(g.children(x));
    NextNode(g, root, d, done, todo, seen, queue);
    var queue' := queue[1..] + Present(g.children(x));
    SearchPrefix(g, root, d, done + [x], todo[1..], seen + [x], queue');
    UpToGrows(g, root, d + 1, MAX_DEPTH);
  }

  lemma {:induction false} PresentLength(cs: seq<Option<string>>)
    ensures |Present(cs)| <= |cs|
    ensures (forall c | c in cs :: c.Some?) ==> |Present(cs)| == |cs|
  {
    if cs != [] {
      PresentLength(cs[1..]);
    }
  }

  lemma {:induction false} NoKids(g: Graph, xs: seq<string>, x: string)
    requires Kids(g, xs) == [] && x in xs
    ensures Present(g.children(x)) == []
  {
    var init, last := xs[..|xs| - 1], xs[|xs| - 1];
    assert xs == init + [last];
    if x != last {
      NoKids(g, init, x);
    }
  }
}
