// The bounded breadth-first snapshot of one window's accessibility tree.
module AtspiSnapshot {
  import opened Wrappers
  import opened Levels
  import opened Ancestry
  import opened Types
  import Forest

  const MAX_ELEMENTS: nat := 512

  datatype SnapshotError = Interrupted | Ambiguous | Stale

  // A visited object, with its parent object and its depth.
  datatype Visit = Visit(id: string, parent: Option<string>, depth: nat)

  function Ids(vs: seq<Visit>): seq<string> {
    seq(|vs|, i requires 0 <= i < |vs| => vs[i].id)
  }

  // Visits are distinct and owned, and each but the first hangs below an earlier one, which is its parent.
  ghost predicate IsTree(g: Graph, window: string, vs: seq<Visit>) {
    && NoRepeat(Ids(vs))
    && (forall i | 0 <= i < |vs| :: g.owned(vs[i].id))
    && (forall i | 0 <= i < |vs| :: vs[i].depth <= MAX_DEPTH)
    && (vs != [] ==> vs[0] == Visit(window, None, 0))
    && forall i | 0 < i < |vs| :: ChildOfEarlier(g, vs, vs[i], i)
  }

  ghost predicate ChildOfEarlier(g: Graph, vs: seq<Visit>, v: Visit, i: nat)
    requires i <= |vs|
  {
    && g.parent(v.id) == v.parent
    && exists j ::
       0 <= j < i && v.parent == Some(vs[j].id) && v.depth == vs[j].depth + 1
       && Some(v.id) in g.children(vs[j].id)
  }

  lemma StillChild(g: Graph, vs: seq<Visit>, ws: seq<Visit>, v: Visit, i: nat)
    requires i <= |vs| && vs <= ws && ChildOfEarlier(g, vs, v, i)
    ensures ChildOfEarlier(g, ws, v, i) && ChildOfEarlier(g, ws, v, |ws|)
  {
    var j :| 0 <= j < i && v.parent == Some(vs[j].id) && v.depth == vs[j].depth + 1
      && Some(v.id) in g.children(vs[j].id);
    assert vs[j] == ws[j];
  }

  function Min(a: nat, b: nat): nat {
    if a < b then a else b
  }

  // A visit of a child of `v`.
  predicate VisitOf(g: Graph, v: Visit, c: Option<string>, w: Visit) {
    c == Some(w.id) && w == Visit(w.id, Some(v.id), v.depth + 1) && g.parent(w.id) == Some(v.id)
  }

  // What a look at the cancellation flag and the deadline shows, at every moment of the search.
  predicate StopsAt(stops: nat -> bool, t: nat) {
    stops(t)
  }

  ghost predicate StopSeen(stops: nat -> bool, from: nat, to: nat) {
    exists t :: from <= t < to && StopsAt(stops, t)
  }

  // Queues the first `count` children, each of which must be present, owned and linked back.
  method ReadChildren(g: Graph, v: Visit, count: nat, stops: nat -> bool, from: nat)
    returns (r: Result<seq<Visit>, SnapshotError>, looks: nat)
    requires count <= |g.children(v.id)|
    ensures from <= looks && (r == Failure(Interrupted) <==> StopSeen(stops, from, looks))
    ensures r.Success? ==> |r.value| == count
    ensures r.Success? ==> forall i | 0 <= i < count ::
            ChildBound(g, v.id, g.children(v.id)[i]) && VisitOf(g, v, g.children(v.id)[i], r.value[i])
    ensures r.Success? && count == |g.children(v.id)| ==> ChildrenBound(g, v.id)
    ensures r == Failure(Stale) ==> exists i :: 0 <= i < count && !ChildBound(g, v.id, g.children(v.id)[i])
    ensures r == Failure(Stale) ==> !ChildrenBound(g, v.id)
    ensures r != Failure(Ambiguous)
  {
    var queued: seq<Visit> := [];
    looks := from;
    for i := 0 to count
      invariant |queued| == i && looks == from + i && !StopSeen(stops, from, looks)
      invariant forall k | 0 <= k < i ::
                ChildBound(g, v.id, g.children(v.id)[k]) && VisitOf(g, v, g.children(v.id)[k], queued[k])
    {
      looks := looks + 1;
      if StopsAt(stops, looks - 1) {
        return Failure(Interrupted), looks;
      }
      var child := g.children(v.id)[i];
      if child.None? || child.value == v.id || !g.owned(child.value) || g.parent(child.value) != Some(v.id) {
        assert child in g.children(v.id) && !ChildBound(g, v.id, child);
        return Failure(Stale), looks;
      }
      queued := queued + [Visit(child.value, Some(v.id), v.depth + 1)];
    }
    r := Success(queued);
  }

  // Something below the window is not what it should be.
  ghost predicate SomethingUnbound(g: Graph, window: string) {
    exists x :: ReachableFrom(g, window, x) && (!g.owned(x) || !ChildrenBound(g, x))
  }

  lemma {:induction false} VisitReachable(g: Graph, window: string, vs: seq<Visit>, v: Visit, k: nat)
    requires IsTree(g, window, vs) && k <= |vs|
    requires if k == 0 then v.id == window else ChildOfEarlier(g, vs, v, k)
    ensures ReachableFrom(g, window, v.id)
    decreases k
  {
    if k == 0 {
      assert Walk(g, window, window, 0);
    } else {
      var j :| 0 <= j < k && v.parent == Some(vs[j].id) && Some(v.id) in g.children(vs[j].id);
      VisitReachable(g, window, vs, vs[j], j);
      var n: nat :| Walk(g, window, vs[j].id, n);
      assert Walk(g, window, v.id, n + 1);
    }
  }

  lemma FirstReachable(g: Graph, window: string, elements: seq<Visit>, queue: seq<Visit>)
    requires Hanging(g, window, elements, queue) && queue != []
    ensures ReachableFrom(g, window, queue[0].id) && queue[0].depth <= MAX_DEPTH
  {
    VisitReachable(g, window, elements, queue[0], |elements|);
  }

  lemma {:induction false} PresentAll(cs: seq<Option<string>>, vs: seq<Visit>)
    requires |cs| == |vs| && forall i | 0 <= i < |cs| :: cs[i] == Some(vs[i].id)
    ensures Present(cs) == Ids(vs)
  {
    if cs != [] {
      PresentAll(cs[1..], vs[1..]);
      assert Ids(vs) == [vs[0].id] + Ids(vs[1..]);
    }
  }

  // What the loop knows of the elements so far and of the queue.
  ghost predicate Hanging(g: Graph, window: string, elements: seq<Visit>, queue: seq<Visit>) {
    && IsTree(g, window, elements)
    && (forall i | 0 <= i < |queue| :: queue[i].depth <= MAX_DEPTH)
    && if elements == [] then queue == [Visit(window, None, 0)]
       else forall i | 0 <= i < |queue| :: ChildOfEarlier(g, elements, queue[i], |elements|)
  }

  // As long as nothing was cut off, the search is in breadth-first order, and depths are levels.
  ghost predicate Searching(g: Graph, window: string, d: nat, done: seq<string>, todo: seq<string>,
                            elements: seq<Visit>, queue: seq<Visit>) {
    && SearchAt(g, window, d, done, todo, Ids(elements), Ids(queue))
    && |todo| <= |queue| && d <= MAX_DEPTH
    && forall i | 0 <= i < |queue| :: queue[i].depth == if i < |todo| then d else d + 1
  }

  // Where an object is named: as the window, or at a position among the children of a reachable object.
  datatype Place = Top | ChildAt(parent: string, index: nat)

  ghost predicate Named(g: Graph, window: string, place: Place, x: string) {
    match place
    case Top => x == window
    case ChildAt(y, i) => ReachableFrom(g, window, y) && i < |g.children(y)| && g.children(y)[i] == Some(x)
  }

  ghost predicate NamedTwice(g: Graph, window: string) {
    exists p, q, x :: p != q && Named(g, window, p, x) && Named(g, window, q, x)
  }

  // Everything visited or queued has a place of its own, below something visited.
  ghost predicate Placed(g: Graph, window: string, visited: seq<string>, all: seq<string>, places: seq<Place>) {
    && visited <= all && |places| == |all|
    && (forall i | 0 <= i < |all| :: Named(g, window, places[i], all[i]))
    && (forall i, j | 0 <= i < j < |all| :: places[i] != places[j])
    && (forall i | 0 <= i < |all| && places[i].ChildAt? :: places[i].parent in visited)
  }

  lemma MorePlaced(g: Graph, window: string, visited: seq<string>, all: seq<string>, places: seq<Place>,
                   v: Visit, queued: seq<Visit>) returns (places': seq<Place>)
    requires Placed(g, window, visited, all, places) && visited + [v.id] <= all && v.id !in visited
    requires ReachableFrom(g, window, v.id) && |queued| <= |g.children(v.id)|
    requires forall i | 0 <= i < |queued| :: g.children(v.id)[i] == Some(queued[i].id)
    ensures Placed(g, window, visited + [v.id], all + Ids(queued), places')
  {
    hide ReachableFrom;
    places' := places + seq(|queued|, i requires 0 <= i < |queued| => ChildAt(v.id, i));
    var all' := all + Ids(queued);
    forall i | 0 <= i < |all'| ensures Named(g, window, places'[i], all'[i]) {
      if i >= |all| {
        assert places'[i] == ChildAt(v.id, i - |all|) && all'[i] == queued[i - |all|].id;
      }
    }
  }

  // An object that was visited and comes up again is named at two places.
  lemma RepeatIsNamedTwice(g: Graph, window: string, visited: seq<string>, all: seq<string>, places: seq<Place>,
                           x: string)
    requires Placed(g, window, visited, all, places) && visited + [x] <= all && x in visited
    ensures NamedTwice(g, window)
  {
    hide Named;
    var i :| 0 <= i < |visited| && visited[i] == x;
    assert all[i] == visited[i] && all[|visited|] == (visited + [x])[|visited|];
    assert places[i] != places[|visited|];
  }

  ghost predicate QueuePlaced(g: Graph, window: string, elements: seq<Visit>, queue: seq<Visit>, places: seq<Place>) {
    Placed(g, window, Ids(elements), Ids(elements) + Ids(queue), places)
  }

  lemma PlacesRepeat(g: Graph, window: string, elements: seq<Visit>, waiting: seq<Visit>, places: seq<Place>)
    requires QueuePlaced(g, window, elements, waiting, places) && waiting != [] && waiting[0].id in Ids(elements)
    ensures NamedTwice(g, window)
  {
    assert Ids(waiting) == [waiting[0].id] + Ids(waiting[1..]);
    assert Ids(elements) + [waiting[0].id] <= Ids(elements) + Ids(waiting);
    RepeatIsNamedTwice(g, window, Ids(elements), Ids(elements) + Ids(waiting), places, waiting[0].id);
  }

  lemma PlacesStep(g: Graph, window: string, elements: seq<Visit>, waiting: seq<Visit>, places: seq<Place>,
                   queued: seq<Visit>) returns (places': seq<Place>)
    requires QueuePlaced(g, window, elements, waiting, places) && waiting != [] && waiting[0].id !in Ids(elements)
    requires ReachableFrom(g, window, waiting[0].id) && |queued| <= |g.children(waiting[0].id)|
    requires forall i | 0 <= i < |queued| :: VisitOf(g, waiting[0], g.children(waiting[0].id)[i], queued[i])
    ensures QueuePlaced(g, window, elements + [waiting[0]], waiting[1..] + queued, places')
  {
    hide Placed, ReachableFrom;
    var v := waiting[0];
    assert Ids(waiting) == [v.id] + Ids(waiting[1..]);
    assert Ids(elements) + [v.id] <= Ids(elements) + Ids(waiting);
    places' := MorePlaced(g, window, Ids(elements), Ids(elements) + Ids(waiting), places, v, queued);
    assert Ids(elements) + Ids(waiting) + Ids(queued) == Ids(elements + [v]) + Ids(waiting[1..] + queued);
    assert Ids(elements) + [v.id] == Ids(elements + [v]);
  }

  // Something at the depth limit has children.
  ghost predicate TooDeep(g: Graph, vs: seq<Visit>) {
    exists i :: 0 <= i < |vs| && vs[i].depth == MAX_DEPTH && g.children(vs[i].id) != []
  }

  lemma StaysTooDeep(g: Graph, vs: seq<Visit>, v: Visit)
    ensures TooDeep(g, vs) || (v.depth == MAX_DEPTH && g.children(v.id) != []) ==> TooDeep(g, vs + [v])
  {
    var ws := vs + [v];
    assert ws[|vs|] == v && forall i | 0 <= i < |vs| :: ws[i] == vs[i];
  }

  ghost predicate AllBound(g: Graph, vs: seq<Visit>) {
    forall i | 0 <= i < |vs| :: g.owned(vs[i].id) && ChildrenBound(g, vs[i].id)
  }

  // What the condition on the graph promises about the visit at hand.
  lemma Ahead(g: Graph, window: string, d: nat, done: seq<string>, todo: seq<string>, elements: seq<Visit>,
              queue: seq<Visit>)
    requires Searching(g, window, d, done, todo, elements, queue) && Hanging(g, window, elements, queue)
    requires SearchCondition(g, window, MAX_ELEMENTS) && todo != []
    ensures queue != []
    ensures AllowsNext(g, MAX_ELEMENTS, Ids(elements), |queue|, queue[0].id, queue[0].depth)
  {
    hide IsTree, ChildOfEarlier, SearchAt, SearchCondition, ChildrenBound;
    if |queue| > |todo| {
      assert queue[|todo|].depth == d + 1;
    }
    NextAllowed(g, window, MAX_ELEMENTS, d, done, todo, Ids(elements), Ids(queue));
    SameFirst(g, window, d, done, todo, elements, queue);
  }

  lemma SameFirst(g: Graph, window: string, d: nat, done: seq<string>, todo: seq<string>, elements: seq<Visit>,
                  queue: seq<Visit>)
    requires Searching(g, window, d, done, todo, elements, queue) && todo != []
    ensures queue != [] && queue[0].id == todo[0] && queue[0].depth == d
  {
    NextNode(g, window, d, done, todo, Ids(elements), Ids(queue));
  }

  // Elements and queue together stay within the element budget, so the size check at the head of
  // the loop never fires; a complete search visits the graph in breadth-first order, and unless it is
  // interrupted the search is complete exactly if the graph allows it. It is interrupted exactly if one of
  // its looks shows a stop.
  method Snapshot(g: Graph, window: string, stops: nat -> bool)
    returns (r: Result<seq<Visit>, SnapshotError>, truncated: bool, looks: nat)
    ensures r == Failure(Interrupted) <==> StopSeen(stops, 0, looks)
    ensures r.Success? ==> IsTree(g, window, r.value) && 0 < |r.value| <= MAX_ELEMENTS
    ensures r.Success? && !truncated ==>
              && Ids(r.value) == UpTo(g, window, MAX_DEPTH)
              && Level(g, window, MAX_DEPTH + 1) == []
    ensures r.Success? ==>
              && Ids(r.value) <= UpTo(g, window, 64)
              && (|r.value| == 512 || Ids(r.value) == UpTo(g, window, 64))
    ensures r.Success? && truncated ==> |r.value| == MAX_ELEMENTS || TooDeep(g, r.value)
    ensures r == Failure(Stale) ==> SomethingUnbound(g, window)
    ensures r == Failure(Ambiguous) ==> NamedTwice(g, window)
    ensures r != Failure(Interrupted) ==>
              (r.Success? && !truncated <==> SearchCondition(g, window, 512))
  {
    hide SearchCondition, ChildrenBound, AllBound, TooDeep, QueuePlaced, NamedTwice;
    hide Level, UpTo, Searching, Hanging, Present, Kids, IsTree, ReachableFrom, InOrder;
    var queue: seq<Visit> := [Visit(window, None, 0)];
    var seen: set<string> := {};
    var elements: seq<Visit> := [];
    truncated, looks := false, 0;
    ghost var d: nat, done: seq<string>, todo := 0, [], [window];
    ghost var places, full := [Top], false;
    Starts(g, window);
    OrderStarts(g, window);
    while queue != []
      invariant |elements| + |queue| <= MAX_ELEMENTS && 0 < |elements| + |queue|
      invariant !StopSeen(stops, 0, looks)
      invariant forall x :: x in seen <==> x in Ids(elements)
      invariant Hanging(g, window, elements, queue)
      invariant !truncated ==> Searching(g, window, d, done, todo, elements, queue)
      invariant InOrder(g, window, full, d, done, todo, elements, queue) && (full ==> truncated)
      invariant QueuePlaced(g, window, elements, queue, places)
      invariant truncated ==> |elements| + |queue| == MAX_ELEMENTS || TooDeep(g, elements)
      invariant truncated ==> !SearchCondition(g, window, MAX_ELEMENTS)
      invariant !truncated ==> AllBound(g, elements)
      decreases MAX_ELEMENTS - |elements|
    {
      if !full && todo == [] {
        if !truncated {
          NextSearchLevel(g, window, d, done, elements, queue);
        }
        OrderLevel(g, window, d, done, elements, queue);
        d, done, todo := d + 1, [], Ids(queue);
      }
      if !truncated && SearchCondition(g, window, MAX_ELEMENTS) {
        Ahead(g, window, d, done, todo, elements, queue);
      }
      var v := queue[0];
      ghost var waiting := queue;
      queue := queue[1..];
      looks := looks + 1;
      if StopsAt(stops, looks - 1) {
        return Failure(Interrupted), truncated, looks;
      }
      if |elements| == MAX_ELEMENTS {
        assert false;
      }
      if v.id in seen {
        PlacesRepeat(g, window, elements, waiting, places);
        return Failure(Ambiguous), truncated, looks;
      }
      FirstReachable(g, window, elements, waiting);
      if !g.owned(v.id) {
        return Failure(Stale), truncated, looks;
      }
      var children := g.children(v.id);
      ghost var before := elements;
      seen := seen + {v.id};
      elements := elements + [v];
      assert Ids(elements) == Ids(before) + [v.id];
      var count := if v.depth == MAX_DEPTH then 0 else Min(|children|, MAX_ELEMENTS - (|elements| + |queue|));
      StaysTooDeep(g, before, v);
      truncated := truncated || |children| > count;
      var queued;
      queued, looks := ReadChildren(g, v, count, stops, looks);
      if queued.Failure? {
        assert queued.error.Stale? ==> !ChildrenBound(g, v.id);
        return Failure(queued.error), truncated, looks;
      }
      Visited(g, window, before, waiting, queued.value);
      places := PlacesStep(g, window, before, waiting, places, queued.value);
      if !truncated {
        StaysBound(g, before, v);
        SearchStep(g, window, d, done, todo, before, waiting, queued.value);
      }
      OrderStep(g, window, full, d, done, todo, before, waiting, queued.value);
      full := full || (v.depth < MAX_DEPTH && |children| > count);
      if !full {
        done, todo := done + [todo[0]], todo[1..];
      }
      queue := queue + queued.value;
    }
    if !truncated {
      Complete(g, window, d, done, todo, elements);
    }
    OrderEnds(g, window, full, d, done, todo, elements);
    Grown(g, window, elements);
    r := Success(elements);
  }

  // ----- The order of every search, cut off or not -----

  // Where the search stands as long as the budget has cut nothing off. At the depth limit no children are queued.
  ghost predicate OnLevel(g: Graph, window: string, d: nat, done: seq<string>, todo: seq<string>,
                          elements: seq<Visit>, queue: seq<Visit>) {
    && d <= MAX_DEPTH && |todo| <= |queue|
    && (forall i | 0 <= i < |queue| :: queue[i].depth == if i < |todo| then d else d + 1)
    && if d < MAX_DEPTH then SearchAt(g, window, d, done, todo, Ids(elements), Ids(queue))
       else
         && Level(g, window, d) == done + todo && Ids(elements) == Above(g, window, d) + done && Ids(queue) == todo
  }

  // What has been visited and queued comes first in breadth-first order. Once the budget is `full`, nothing
  // more is queued.
  ghost predicate InOrder(g: Graph, window: string, full: bool, d: nat, done: seq<string>, todo: seq<string>,
                          elements: seq<Visit>, queue: seq<Visit>) {
    && Ids(elements) + Ids(queue) <= UpTo(g, window, MAX_DEPTH)
    && if full then |elements| + |queue| == MAX_ELEMENTS else OnLevel(g, window, d, done, todo, elements, queue)
  }

  lemma OrderStarts(g: Graph, window: string)
    ensures InOrder(g, window, false, 0, [], [window], [], [Visit(window, None, 0)])
  {
    SearchStarts(g, window);
    UpToGrows(g, window, 0, MAX_DEPTH);
    assert Ids([Visit(window, None, 0)]) == [window] && Ids([]) == [];
    assert UpTo(g, window, 0) == [window];
    hide UpTo, SearchAt;
  }

  lemma OrderLevel(g: Graph, window: string, d: nat, done: seq<string>, elements: seq<Visit>, queue: seq<Visit>)
    requires InOrder(g, window, false, d, done, [], elements, queue) && queue != []
    ensures InOrder(g, window, false, d + 1, [], Ids(queue), elements, queue)
  {
    assert d < MAX_DEPTH by {
      assert d == MAX_DEPTH ==> |Ids(queue)| == 0;
    }
    NextLevel(g, window, d, done, Ids(elements), Ids(queue));
    assert [] + Ids(queue) == Ids(queue) && Above(g, window, d + 1) + [] == Above(g, window, d + 1);
    hide SearchAt, Level, UpTo;
  }

  // One visit, with as many children queued as the budget allows.
  lemma OrderStep(g: Graph, window: string, full: bool, d: nat, done: seq<string>, todo: seq<string>,
                  elements: seq<Visit>, waiting: seq<Visit>, queued: seq<Visit>)
    requires InOrder(g, window, full, d, done, todo, elements, waiting) && waiting != [] && (full || todo != [])
    requires |elements| + |waiting| <= MAX_ELEMENTS && waiting[0].depth <= MAX_DEPTH
    requires var children := g.children(waiting[0].id);
             && |queued| == (if waiting[0].depth == MAX_DEPTH then 0
                             else Min(|children|, MAX_ELEMENTS - (|elements| + |waiting|)))
             && forall i | 0 <= i < |queued| :: VisitOf(g, waiting[0], children[i], queued[i])
    ensures var v := waiting[0];
            var full' := full || (v.depth < MAX_DEPTH && |g.children(v.id)| > |queued|);
            InOrder(g, window, full', d, if full' then done else done + [todo[0]], if full' then todo else todo[1..],
                    elements + [v], waiting[1..] + queued)
  {
    var v := waiting[0];
    VisitMoves(elements, waiting, queued);
    hide Ids, OnLevel, UpTo, Min, Present;
    if full || v.depth == MAX_DEPTH {
      assert queued == [];
      if !full {
        LastLevelStep(g, window, d, done, todo, elements, waiting);
      }
    } else {
      InnerStep(g, window, d, done, todo, elements, waiting, queued);
    }
  }

  // A visit moves one object from the queue to the elements and queues its children.
  lemma VisitMoves(elements: seq<Visit>, waiting: seq<Visit>, queued: seq<Visit>)
    requires waiting != []
    ensures Ids(elements + [waiting[0]]) + Ids(waiting[1..] + queued) == Ids(elements) + Ids(waiting) + Ids(queued)
    ensures queued == [] ==> Ids(elements) + Ids(waiting) + Ids(queued) == Ids(elements) + Ids(waiting)
  {
    assert Ids(elements + [waiting[0]]) == Ids(elements) + [waiting[0].id];
    assert Ids(waiting[1..] + queued) == Ids(waiting[1..]) + Ids(queued);
    assert Ids(waiting) == [waiting[0].id] + Ids(waiting[1..]);
  }

  lemma LastLevelStep(g: Graph, window: string, d: nat, done: seq<string>, todo: seq<string>,
                      elements: seq<Visit>, waiting: seq<Visit>)
    requires OnLevel(g, window, d, done, todo, elements, waiting) && todo != [] && waiting[0].depth == MAX_DEPTH
    ensures OnLevel(g, window, d, done + [todo[0]], todo[1..], elements + [waiting[0]], waiting[1..] + [])
  {
    hide Level, UpTo, SearchAt;
    var v := waiting[0];
    assert Ids(waiting)[0] == v.id && waiting[1..] + [] == waiting[1..] && Ids(waiting)[1..] == Ids(waiting[1..]);
    assert Ids(elements + [v]) == Ids(elements) + [v.id];
    assert done + todo == done + [todo[0]] + todo[1..];
    assert Above(g, window, d) + done + [v.id] == Above(g, window, d) + (done + [v.id]);
  }

  lemma InnerStep(g: Graph, window: string, d: nat, done: seq<string>, todo: seq<string>,
                  elements: seq<Visit>, waiting: seq<Visit>, queued: seq<Visit>)
    requires OnLevel(g, window, d, done, todo, elements, waiting) && todo != [] && waiting[0].depth < MAX_DEPTH
    requires var children := g.children(waiting[0].id);
             |queued| <= |children| && forall i | 0 <= i < |queued| :: VisitOf(g, waiting[0], children[i], queued[i])
    ensures Ids(elements) + Ids(waiting) + Ids(queued) <= UpTo(g, window, MAX_DEPTH)
    ensures |queued| == |g.children(waiting[0].id)| ==>
              OnLevel(g, window, d, done + [todo[0]], todo[1..], elements + [waiting[0]], waiting[1..] + queued)
  {
    hide Level, UpTo, SearchAt, Above, Kids, Present;
    var v, children := waiting[0], g.children(waiting[0].id);
    var seen, names := Ids(elements), Ids(waiting);
    NextNode(g, window, d, done, todo, seen, names);
    SearchPrefix(g, window, d, done + [todo[0]], todo[1..], seen + [names[0]], names[1..] + Present(children));
    UpToGrows(g, window, d + 1, MAX_DEPTH);
    PresentAll(children[..|queued|], queued);
    PresentPrefix(children, |queued|);
    assert seen + [names[0]] + (names[1..] + Present(children)) == seen + names + Present(children);
    assert seen + names + Ids(queued) <= seen + names + Present(children);
    assert Ids(elements + [v]) == seen + [v.id] && names[1..] == Ids(waiting[1..]);
    assert Ids(waiting[1..] + queued) == Ids(waiting[1..]) + Ids(queued);
    assert |queued| == |children| ==> children[..|queued|] == children;
  }

  lemma {:induction false} PresentPrefix(cs: seq<Option<string>>, n: nat)
    requires n <= |cs|
    ensures Present(cs[..n]) <= Present(cs)
  {
    if n > 0 {
      PresentPrefix(cs[1..], n - 1);
      assert cs[..n][1..] == cs[1..][..n - 1];
    }
  }

  lemma OrderEnds(g: Graph, window: string, full: bool, d: nat, done: seq<string>, todo: seq<string>,
                  elements: seq<Visit>)
    requires InOrder(g, window, full, d, done, todo, elements, [])
    ensures Ids(elements) <= UpTo(g, window, MAX_DEPTH)
    ensures |elements| == MAX_ELEMENTS || Ids(elements) == UpTo(g, window, MAX_DEPTH)
  {
    assert Ids([]) == [] && Ids(elements) + [] == Ids(elements);
    if !full {
      if d < MAX_DEPTH {
        NextLevel(g, window, d, done, Ids(elements), []);
        EmptyAfter(g, window, d + 1, MAX_DEPTH);
      } else {
        OneLevelMore(g, window, d);
        assert done + [] == done;
      }
    }
    hide SearchAt, Level, UpTo, Above, Kids;
  }

  lemma StaysBound(g: Graph, vs: seq<Visit>, v: Visit)
    requires AllBound(g, vs) && g.owned(v.id) && ChildrenBound(g, v.id)
    ensures AllBound(g, vs + [v])
  {
    hide ChildrenBound;
  }

  lemma Starts(g: Graph, window: string)
    ensures Hanging(g, window, [], [Visit(window, None, 0)])
    ensures Searching(g, window, 0, [], [window], [], [Visit(window, None, 0)])
    ensures Ids([]) == [] && AllBound(g, []) && QueuePlaced(g, window, [], [Visit(window, None, 0)], [Top])
  {
    SearchStarts(g, window);
    EmptyTree(g, window);
    hide SearchAt, IsTree, ChildOfEarlier;
    assert Ids([Visit(window, None, 0)]) == [window];
  }

  lemma EmptyTree(g: Graph, window: string)
    ensures IsTree(g, window, []) && Ids([]) == []
  {
  }

  lemma Grown(g: Graph, window: string, elements: seq<Visit>)
    requires Hanging(g, window, elements, [])
    ensures IsTree(g, window, elements)
  {
  }

  lemma NextSearchLevel(g: Graph, window: string, d: nat, done: seq<string>, elements: seq<Visit>, queue: seq<Visit>)
    requires Searching(g, window, d, done, [], elements, queue) && Hanging(g, window, elements, queue) && queue != []
    ensures Searching(g, window, d + 1, [], Ids(queue), elements, queue)
  {
    hide IsTree, ChildOfEarlier, SearchAt;
    NextLevel(g, window, d, done, Ids(elements), Ids(queue));
    assert queue[0].depth == d + 1;
  }

  // One visit keeps the tree, and everything queued still hangs below something visited.
  lemma Visited(g: Graph, window: string, elements: seq<Visit>, waiting: seq<Visit>, queued: seq<Visit>)
    requires Hanging(g, window, elements, waiting) && waiting != [] && waiting[0].id !in Ids(elements)
             && g.owned(waiting[0].id)
    requires |queued| <= |g.children(waiting[0].id)| && (waiting[0].depth == MAX_DEPTH ==> queued == [])
    requires forall i | 0 <= i < |queued| :: VisitOf(g, waiting[0], g.children(waiting[0].id)[i], queued[i])
    ensures Hanging(g, window, elements + [waiting[0]], waiting[1..] + queued)
  {
    hide ChildOfEarlier;
    assert waiting[0].depth <= MAX_DEPTH;
    TreeGrows(g, window, elements, waiting[0]);
    hide IsTree;
    QueueGrows(g, elements, waiting[0], waiting[1..], queued);
  }

  // One visit whose children were all read keeps the breadth-first order.
  lemma SearchStep(g: Graph, window: string, d: nat, done: seq<string>, todo: seq<string>,
                   elements: seq<Visit>, waiting: seq<Visit>, queued: seq<Visit>)
    requires Searching(g, window, d, done, todo, elements, waiting) && todo != [] && waiting != []
    requires var cs := g.children(waiting[0].id);
             |queued| == |cs| && forall i | 0 <= i < |cs| :: cs[i] == Some(queued[i].id)
    requires forall i | 0 <= i < |queued| :: queued[i].depth == waiting[0].depth + 1
    ensures Searching(g, window, d, done + [todo[0]], todo[1..], elements + [waiting[0]], waiting[1..] + queued)
  {
    hide SearchAt;
    var v := waiting[0];
    PresentAll(g.children(v.id), queued);
    NextNode(g, window, d, done, todo, Ids(elements), Ids(waiting));
    assert Ids(waiting)[0] == v.id && Ids(waiting)[1..] == Ids(waiting[1..]);
    assert Ids(elements + [v]) == Ids(elements) + [v.id];
    assert Ids(waiting[1..] + queued) == Ids(waiting[1..]) + Ids(queued);
  }

  lemma TreeGrows(g: Graph, window: string, vs: seq<Visit>, v: Visit)
    requires IsTree(g, window, vs) && v.depth <= MAX_DEPTH
    requires v.id !in Ids(vs) && g.owned(v.id)
    requires if vs == [] then v == Visit(window, None, 0) else ChildOfEarlier(g, vs, v, |vs|)
    ensures IsTree(g, window, vs + [v])
  {
    hide ChildOfEarlier;
    var ws := vs + [v];
    assert Ids(ws) == Ids(vs) + [v.id];
    forall i | 0 < i < |ws| ensures ChildOfEarlier(g, ws, ws[i], i) {
      StillChild(g, vs, ws, ws[i], i);
    }
  }

  // Everything in the queue still hangs below something visited.
  lemma QueueGrows(g: Graph, vs: seq<Visit>, v: Visit, queue: seq<Visit>, queued: seq<Visit>)
    requires vs != [] ==> forall i | 0 <= i < |queue| :: ChildOfEarlier(g, vs, queue[i], |vs|)
    requires vs == [] ==> queue == []
    requires |queued| <= |g.children(v.id)|
    requires forall i | 0 <= i < |queued| :: VisitOf(g, v, g.children(v.id)[i], queued[i])
    ensures forall i | 0 <= i < |queue + queued| :: ChildOfEarlier(g, vs + [v], (queue + queued)[i], |vs + [v]|)
  {
    var ws := vs + [v];
    forall i | 0 <= i < |queue + queued| ensures ChildOfEarlier(g, ws, (queue + queued)[i], |ws|) {
      if i < |queue| {
        StillChild(g, vs, ws, queue[i], |vs|);
      } else {
        var w := queued[i - |queue|];
        assert g.children(v.id)[i - |queue|] in g.children(v.id);
        assert ws[|vs|] == v && w.parent == Some(ws[|vs|].id);
      }
    }
  }

  lemma Complete(g: Graph, window: string, d: nat, done: seq<string>, todo: seq<string>, elements: seq<Visit>)
    requires Searching(g, window, d, done, todo, elements, []) && Hanging(g, window, elements, [])
    requires AllBound(g, elements) && |elements| <= MAX_ELEMENTS
    ensures Ids(elements) == UpTo(g, window, MAX_DEPTH) && Level(g, window, MAX_DEPTH + 1) == []
    ensures SearchCondition(g, window, MAX_ELEMENTS)
  {
    hide SearchAt, ChildrenBound;
    assert todo == [] && Ids([]) == [];
    NextLevel(g, window, d, done, Ids(elements), []);
    EmptyAfter(g, window, d + 1, MAX_DEPTH + 1);
    if d < MAX_DEPTH {
      EmptyAfter(g, window, d + 1, MAX_DEPTH);
    }
  }

  // An untruncated snapshot lists every object reachable from the window, each exactly once.
  lemma SnapshotIsComplete(g: Graph, window: string, vs: seq<Visit>)
    requires IsTree(g, window, vs) && Ids(vs) == UpTo(g, window, MAX_DEPTH) && Level(g, window, MAX_DEPTH + 1) == []
    ensures forall x :: ReachableFrom(g, window, x) <==> exists i :: 0 <= i < |vs| && vs[i].id == x
    ensures forall i, j | 0 <= i < j < |vs| :: vs[i].id != vs[j].id
  {
    var ids := Ids(vs);
    forall x ensures ReachableFrom(g, window, x) <==> exists i :: 0 <= i < |vs| && vs[i].id == x {
      AllReached(g, window, MAX_DEPTH, x);
      if x in ids {
        var i :| 0 <= i < |ids| && ids[i] == x;
        assert vs[i].id == x;
      }
      if exists i :: 0 <= i < |vs| && vs[i].id == x {
        var i :| 0 <= i < |vs| && vs[i].id == x;
        assert ids[i] == x;
      }
    }
    forall i, j | 0 <= i < j < |vs| ensures vs[i].id != vs[j].id {
      assert ids[i] != ids[j];
    }
  }

  // ----- The observation built from a snapshot -----

  // The element ids and fingerprints that hashing makes of the objects, and whether the validator accepts
  // their roles, names and bounds.
  datatype Naming = Naming(id: string -> string, fingerprint: string -> string, payloadOk: string -> bool)

  function ElementOf(v: Visit, index: nat, names: Naming): Forest.Element
    requires index < Forest.MAX_SEMANTIC_ELEMENTS
  {
    Forest.Element(Forest.SemanticTag(index).value, names.id(v.id),
                   if v.parent.Some? then Some(names.id(v.parent.value)) else None,
                   names.fingerprint(v.id), names.payloadOk(v.id))
  }

  function ElementsOf(vs: seq<Visit>, names: Naming): seq<Forest.Element>
    requires |vs| <= MAX_ELEMENTS
  {
    seq(|vs|, i requires 0 <= i < |vs| => ElementOf(vs[i], i, names))
  }

  // The validator's element check depends on the hashes and on roles, names and bounds alone.
  lemma SnapshotIsValid(vs: seq<Visit>, names: Naming, k: nat)
    requires k < |vs| <= MAX_ELEMENTS && forall x :: IsHash(names.id(x))
    ensures Forest.ValidElement(ElementsOf(vs, names)[k]) <==>
            names.payloadOk(vs[k].id) && IsHash(names.fingerprint(vs[k].id))
  {
    hide IsHash, Forest.ValidTag, Forest.SemanticTag;
    Forest.TagsWork(k, k);
  }

  // The elements hang as the objects do: each has its own id and fingerprint, and all but the first have
  // the element of the object as their parent whose child they are.
  lemma ElementsHang(g: Graph, window: string, vs: seq<Visit>, names: Naming, k: nat)
    requires IsTree(g, window, vs) && k < |vs| <= MAX_ELEMENTS
    ensures var es := ElementsOf(vs, names);
            && es[k].id == names.id(vs[k].id) && es[k].fingerprint == names.fingerprint(vs[k].id)
            && Forest.SemanticTag(k) == Success(es[k].tag)
            && (k == 0 ==> es[k].parent.None?)
            && (k > 0 ==> exists j :: 0 <= j < k && es[k].parent == Some(es[j].id)
                                      && Some(vs[k].id) in g.children(vs[j].id))
  {
    var es := ElementsOf(vs, names);
    if k > 0 {
      assert ChildOfEarlier(g, vs, vs[k], k);
      var j :| 0 <= j < k && vs[k].parent == Some(vs[j].id) && Some(vs[k].id) in g.children(vs[j].id);
      assert es[k].parent == Some(es[j].id);
    }
    hide Forest.SemanticTag, IsTree;
  }

  // Chains of parents only go to earlier elements.
  lemma {:induction false} ChainsGoBack(g: Graph, window: string, vs: seq<Visit>, names: Naming,
                                        links: map<string, string>, k: nat, n: nat) returns (j: nat)
    requires IsTree(g, window, vs) && |vs| <= MAX_ELEMENTS && k < |vs|
    requires Forest.LinksOf(ElementsOf(vs, names), links)
    requires Up(links, names.id(vs[k].id), n).Some?
    ensures j < |vs| && Up(links, names.id(vs[k].id), n) == Some(names.id(vs[j].id)) && j + n <= k
  {
    hide Forest.LinksOf;
    var es := ElementsOf(vs, names);
    assert es[k] == ElementOf(vs[k], k, names);
    if n == 0 {
      j := k;
    } else {
      var i := ChainsGoBack(g, window, vs, names, links, k, n - 1);
      assert es[i] == ElementOf(vs[i], i, names);
      Forest.LinkOf(es, links, i);
      assert vs[i].parent.Some? && i > 0;
      assert Up(links, names.id(vs[k].id), n) == Some(names.id(vs[i].parent.value));
      hide Up;
      assert ChildOfEarlier(g, vs, vs[i], i);
      j :| 0 <= j < i && vs[i].parent == Some(vs[j].id);
    }
  }

  // Unless element ids collide, the forest validator accepts what the snapshot builds.
  lemma SnapshotIsForest(g: Graph, window: string, vs: seq<Visit>, names: Naming)
    requires IsTree(g, window, vs) && |vs| <= MAX_ELEMENTS
    requires forall i, j | 0 <= i < |vs| && 0 <= j < |vs| && names.id(vs[i].id) == names.id(vs[j].id) :: i == j
    ensures Forest.IsForest(ElementsOf(vs, names))
  {
    var es := ElementsOf(vs, names);
    assert forall i | 0 <= i < |es| :: es[i] == ElementOf(vs[i], i, names);
    forall i, j | 0 <= i < j < |es| ensures es[i].tag != es[j].tag && es[i].id != es[j].id {
      Forest.TagsWork(i, j);
    }
    forall i | 0 <= i < |es| && es[i].parent.Some? ensures es[i].parent.value in Forest.Ids(es) {
      assert ChildOfEarlier(g, vs, vs[i], i);
      var j :| 0 <= j < i && vs[i].parent == Some(vs[j].id);
      assert es[j].id == es[i].parent.value;
    }
    hide Forest.LinksOf, Forest.UniqueTags, Forest.UniqueIds, Forest.ParentsExist, Acyclic;
    forall links | Forest.LinksOf(es, links) ensures Acyclic(links) {
      SnapshotAcyclic(g, window, vs, names, links);
    }
  }

  lemma SnapshotAcyclic(g: Graph, window: string, vs: seq<Visit>, names: Naming,
                        links: map<string, string>)
    requires IsTree(g, window, vs) && |vs| <= MAX_ELEMENTS
    requires forall i, j | 0 <= i < |vs| && 0 <= j < |vs| && names.id(vs[i].id) == names.id(vs[j].id) :: i == j
    requires Forest.LinksOf(ElementsOf(vs, names), links)
    ensures Acyclic(links)
  {
    var es := ElementsOf(vs, names);
    forall id: string, n: nat | n > 0 ensures Up(links, id, n) != Some(id) {
      if Up(links, id, n).Some? {
        UpInside(links, id, n);
        var k :| 0 <= k < |es| && es[k].id == id;
        assert es[k] == ElementOf(vs[k], k, names);
        hide IsTree, Forest.LinksOf, ElementsOf;
        var j := ChainsGoBack(g, window, vs, names, links, k, n);
        assert names.id(vs[j].id) != names.id(vs[k].id);
      }
    }
  }
}
