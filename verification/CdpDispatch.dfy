// The three browser dispatchers: which commands they send, in which order, and what they may say
// about the effect when something goes wrong.
module CdpDispatch {
  import opened Wrappers
  import opened Decision
  import Json

  const MAX_EDIT_BYTES: nat := 64 * 1024
  const STABILITY_TOLERANCE: real := 0.25
  const SCROLL_DELTA: int := 100

  datatype Direction = Up | Down | Left | Right

  // The stored identity of the element an action is aimed at.
  datatype Node = Node(
    id: nat,
    contextId: nat,
    protected: bool,
    fingerprint: string,
    geometry: string)

  datatype Plan = PlanInvoke | PlanScroll(direction: Direction) | PlanSetValue(text: Json.Text)

  // ----- The page -----

  datatype Command =
    | ResolveNode(nodeId: nat, contextId: nat)
    | LayoutMetrics
    | FrameTree
    | PartialTree(nodeId: nat)
    | BoxModel(nodeId: nat)
    | NodeAt(x: int, y: int)
    | Probe(objectId: string, withheld: bool)
    | ScrollProbe(objectId: string)
    | InvokeEffect(objectId: string)
    | ScrollEffect(objectId: string, axis: string, delta: int)
    | SetValueEffect(objectId: string, text: Json.Text)

  predicate IsEffect(c: Command) {
    c.InvokeEffect? || c.ScrollEffect? || c.SetValueEffect?
  }

  datatype Field = Flag(flag: bool) | Whole(whole: nat) | Num(num: real) | Str(str: string)

  datatype Semantics = Semantics(role: string, name: Option<string>, visible: bool, enabled: bool, invokable: bool,
                                 editable: bool)

  datatype AxNode = AxNode(backendId: Option<nat>, ignored: bool, semantics: Option<Semantics>)

  datatype Viewport = Viewport(text: string)

  // The parts of a reply that the dispatchers read; a part that is absent or of the wrong type is None.
  datatype Reply = Reply(
    failed: bool,
    value: Option<map<string, Field>>,
    objectId: Option<string>,
    viewport: Option<Viewport>,
    document: Option<string>,
    nodes: Option<seq<AxNode>>,
    border: Option<seq<real>>,
    hit: Option<nat>)

  const SILENCE := Reply(false, None, None, None, None, None, None, None)

  // What became of one command. A command of unknown fate may have acted on the page.
  datatype Answer =
    | NoLock
    | BeforeSend
    | AfterSend(acted: bool)
    | Replied(reply: Reply, acted: bool)

  predicate Sent(a: Answer) {
    a.AfterSend? || a.Replied?
  }

  predicate Acted(a: Answer) {
    Sent(a) && a.acted
  }

  // Everything outside the dispatcher, indexed by the moment it is looked at.
  datatype World = World(
    boundary: int -> Boundary,
    process: int -> bool,
    answer: (int, Command) -> Answer,
    waits: nat,
    sha: Json.Text -> string,
    geometry: Viewport -> string,
    identity: (string, nat, string, Option<string>) -> string,
    point: (seq<real>, Viewport) -> Option<(int, int)>)

  // What one look at the boundary, the browser process or the page shows.
  function BoundaryAt(w: World, t: int): Boundary {
    w.boundary(t)
  }

  predicate ProcessAt(w: World, t: int) {
    w.process(t)
  }

  function AnswerAt(w: World, t: int, c: Command): Answer {
    w.answer(t, c)
  }

  function FlagOf(reply: Reply, key: string): Option<bool> {
    if reply.value.Some? && key in reply.value.value && reply.value.value[key].Flag?
      then Some(reply.value.value[key].flag) else None
  }

  function WholeOf(reply: Reply, key: string): Option<nat> {
    if reply.value.Some? && key in reply.value.value && reply.value.value[key].Whole?
      then Some(reply.value.value[key].whole) else None
  }

  function NumOf(reply: Reply, key: string): Option<real> {
    if reply.value.Some? && key in reply.value.value && reply.value.value[key].Num?
      then Some(reply.value.value[key].num)
    else if WholeOf(reply, key).Some? then Some(WholeOf(reply, key).value as real)
    else None
  }

  function StrOf(reply: Reply, key: string): Option<string> {
    if reply.value.Some? && key in reply.value.value && reply.value.value[key].Str?
      then Some(reply.value.value[key].str) else None
  }

  // The reply has this field.
  ghost predicate Holds(reply: Reply, key: string, field: Field) {
    reply.value.Some? && key in reply.value.value && reply.value.value[key] == field
  }

  // The page runs queries without side effects, and an effect function that returns normally says
  // truthfully whether it acted.
  ghost predicate HonestPage(w: World) {
    forall t: int, c: Command ::
      var a := AnswerAt(w, t, c);
      && (!IsEffect(c) ==> !Acted(a))
      && (IsEffect(c) && a.Replied? && !a.reply.failed ==>
            forall b | Holds(a.reply, "eligible", Flag(b)) :: a.acted == b)
  }

  // ----- What is checked before an effect -----

  predicate Actionable(reply: Reply, editable: bool) {
    && !reply.failed
    && FlagOf(reply, "connected") == Some(true) && FlagOf(reply, "visible") == Some(true)
    && FlagOf(reply, "enabled") == Some(true)
    && (editable ==> FlagOf(reply, "editable") == Some(true))
  }

  function DirectionName(d: Direction): string {
    match d
    case Up => "up"
    case Down => "down"
    case Left => "left"
    case Right => "right"
  }

  predicate Scrollable(reply: Reply, d: Direction) {
    && FlagOf(reply, "connected") == Some(true) && FlagOf(reply, "visible") == Some(true)
    && FlagOf(reply, "enabled") == Some(true) && FlagOf(reply, "receives") == Some(true)
    && FlagOf(reply, DirectionName(d)) == Some(true)
  }

  predicate Distance(a: real, b: real) {
    -STABILITY_TOLERANCE <= a - b <= STABILITY_TOLERANCE
  }

  predicate Steady(first: Reply, second: Reply) {
    && first.border.Some? && second.border.Some? && |first.border.value| == |second.border.value| == 8
    && forall i | 0 <= i < 8 :: Distance(first.border.value[i], second.border.value[i])
  }

  function Point(w: World, box: Reply, layout: Reply): Option<(int, int)> {
    if box.border.Some? && layout.viewport.Some? then w.point(box.border.value, layout.viewport.value) else None
  }

  function Matching(nodes: seq<AxNode>, id: nat): seq<AxNode> {
    if nodes == [] then []
    else (if nodes[0].backendId == Some(id) && !nodes[0].ignored then [nodes[0]] else []) + Matching(nodes[1..], id)
  }

  // The one live accessibility node of the element, if it is unambiguous.
  function LiveSemantics(nodes: seq<AxNode>, id: nat): Option<Semantics> {
    var found := Matching(nodes, id);
    if |found| == 1 then found[0].semantics else None
  }

  predicate SameGeometry(w: World, node: Node, layout: Reply) {
    layout.viewport.Some? && w.geometry(layout.viewport.value) == node.geometry
  }

  // The live element is still the stored one, shown and able to do what the plan needs.
  predicate SameElement(w: World, node: Node, plan: Plan, frame: Reply, tree: Reply) {
    && frame.document.Some? && tree.nodes.Some?
    && var live := LiveSemantics(tree.nodes.value, node.id);
    && live.Some?
    && w.identity(frame.document.value, node.id, live.value.role, live.value.name) == node.fingerprint
    && live.value.visible && live.value.enabled
    && (plan.PlanInvoke? ==> live.value.invokable)
    && (plan.PlanSetValue? ==> live.value.editable)
  }

  function ObjectOf(reply: Reply): Option<string> {
    if reply.objectId.Some? && reply.objectId.value != "" then reply.objectId else None
  }

  predicate Accepted(reply: Reply) {
    !reply.failed && FlagOf(reply, "eligible") == Some(true)
  }

  predicate Declined(reply: Reply) {
    !reply.failed && FlagOf(reply, "eligible") == Some(false)
  }

  predicate Landed(d: Direction, reply: Reply) {
    var before, intended, after := NumOf(reply, "before"), NumOf(reply, "intended"), NumOf(reply, "after");
    && before.Some? && intended.Some? && after.Some? && after == intended
    && if d.Up? || d.Left? then after.value < before.value else after.value > before.value
  }

  predicate ReadsBack(w: World, text: Json.Text, reply: Reply) {
    && !reply.failed
    && StrOf(reply, "valueHash") == Some(w.sha(text))
    && WholeOf(reply, "valueLength") == Some(|text|)
    && FlagOf(reply, "valueTooLarge") == Some(false)
  }

  // ----- The commands of one dispatch -----

  datatype Exchange = Exchange(at: int, command: Command, answer: Answer)

  function Axis(d: Direction): (string, int) {
    match d
    case Up => ("y", -SCROLL_DELTA)
    case Down => ("y", SCROLL_DELTA)
    case Left => ("x", -SCROLL_DELTA)
    case Right => ("x", SCROLL_DELTA)
  }

  function Effect(plan: Plan, objectId: string): Command {
    match plan
    case PlanInvoke => InvokeEffect(objectId)
    case PlanScroll(d) => ScrollEffect(objectId, Axis(d).0, Axis(d).1)
    case PlanSetValue(text) => SetValueEffect(objectId, text)
  }

  // How many queries come before the effect.
  function Queries(plan: Plan): nat {
    if plan.PlanScroll? then 10 else 5
  }

  function R(log: seq<Exchange>, k: nat): Reply {
    if k < |log| && log[k].answer.Replied? then log[k].answer.reply else SILENCE
  }

  // The three queries that look at the live element, from position `k` on.
  function NextLook(w: World, node: Node, log: seq<Exchange>, k: nat): Option<Command> {
    if |log| == k then Some(LayoutMetrics)
    else if |log| == k + 1 then if SameGeometry(w, node, R(log, k)) then Some(FrameTree) else None
    else if |log| == k + 2 then if R(log, k + 1).document.Some? then Some(PartialTree(node.id)) else None
    else None
  }

  function NextForScroll(w: World, node: Node, d: Direction, o: string, log: seq<Exchange>): Option<Command> {
    if |log| == 1 then Some(ScrollProbe(o))
    else if |log| == 2 then if Scrollable(R(log, 1), d) then Some(BoxModel(node.id)) else None
    else if |log| == 3 then Some(BoxModel(node.id))
    else if |log| == 4 then if Steady(R(log, 2), R(log, 3)) then Some(LayoutMetrics) else None
    else if |log| == 5 then
      match Point(w, R(log, 3), R(log, 4))
      case Some(p) => Some(NodeAt(p.0, p.1))
      case None => None
    else if |log| == 6 then if R(log, 5).hit == Some(node.id) then NextLook(w, node, log, 6) else None
    else if |log| < 9 then NextLook(w, node, log, 6)
    else if |log| == 9 then if SameElement(w, node, PlanScroll(d), R(log, 7), R(log, 8)) then Some(ScrollProbe(o))
      else None
    else if |log| == 10 then
      if FlagOf(R(log, 9), DirectionName(d)) == Some(true) then Some(Effect(PlanScroll(d), o)) else None
    else None
  }

  // The next command that the replies so far allow, if any.
  function Next(w: World, node: Node, plan: Plan, log: seq<Exchange>): Option<Command> {
    if |log| == 0 then Some(ResolveNode(node.id, node.contextId))
    else
      match ObjectOf(R(log, 0))
      case None => None
      case Some(o) =>
        if plan.PlanScroll? then NextForScroll(w, node, plan.direction, o, log)
        else if |log| == 1 then Some(Probe(o, node.protected))
        else if |log| == 2 then if Actionable(R(log, 1), plan.PlanSetValue?) then NextLook(w, node, log, 2) else None
        else if |log| < 5 then NextLook(w, node, log, 2)
        else if |log| == 5 then if SameElement(w, node, plan, R(log, 3), R(log, 4)) then Some(Effect(plan, o)) else None
        else if |log| == 6 && plan.PlanSetValue? then if Accepted(R(log, 5)) then Some(Probe(o, false)) else None
        else None
  }

  // Each command was the one the replies before it allowed, and only the last can lack a reply.
  ghost predicate Follows(w: World, node: Node, plan: Plan, log: seq<Exchange>)
    decreases |log|
  {
    log == [] ||
    var init, last := log[..|log| - 1], log[|log| - 1];
    && Follows(w, node, plan, init) && Answered(init)
    && Next(w, node, plan, init) == Some(last.command)
    && last.answer == AnswerAt(w, last.at, last.command) && !last.answer.NoLock?
  }

  ghost predicate Answered(log: seq<Exchange>) {
    forall i | 0 <= i < |log| :: log[i].answer.Replied?
  }

  predicate EffectSent(plan: Plan, log: seq<Exchange>) {
    Queries(plan) < |log| && Sent(log[Queries(plan)].answer)
  }

  predicate BeforeEffect(e: EffectKnowledge) {
    !e.Unknown?
  }

  // Straight before the effect the process was alive and the boundary clear around that look.
  predicate Guarded(w: World, at: int) {
    BoundaryAt(w, at - 1).Clear? && BoundaryAt(w, at - 2).Clear? && ProcessAt(w, at - 3) && BoundaryAt(w, at - 4).Clear?
  }

  // The replies confirm the effect as far as the plan can tell.
  predicate PageConfirms(w: World, plan: Plan, log: seq<Exchange>) {
    match plan
    case PlanInvoke => |log| == 6 && Accepted(R(log, 5))
    case PlanScroll(d) => |log| == 11 && Accepted(R(log, 10)) && Landed(d, R(log, 10))
    case PlanSetValue(text) =>
      |log| == 7 && |text| <= MAX_EDIT_BYTES && Accepted(R(log, 5)) && ReadsBack(w, text, R(log, 6))
  }

  // So do they, and before a value was read back the process was still alive.
  predicate Confirmed(w: World, plan: Plan, log: seq<Exchange>) {
    PageConfirms(w, plan, log) && (plan.PlanSetValue? ==> ProcessAt(w, log[6].at - 2))
  }

  // An error is justified: it denies the effect exactly when nothing was sent, or else the page declined.
  ghost predicate Justified(w: World, node: Node, plan: Plan, log: seq<Exchange>, e: EffectKnowledge) {
    && Follows(w, node, plan, log)
    && (Queries(plan) < |log| ==> Guarded(w, log[Queries(plan)].at))
    && (!EffectSent(plan, log) ==> BeforeEffect(e))
    && (EffectSent(plan, log) && BeforeEffect(e) ==> Declined(R(log, Queries(plan))))
  }

  // What a dispatcher promises: effects only after every look allowed it, success only on confirmation.
  ghost predicate Classified(w: World, node: Node, plan: Plan, log: seq<Exchange>, r: Result<(), EffectKnowledge>) {
    match r
    case Failure(e) => Justified(w, node, plan, log, e)
    case Success(_) =>
      Follows(w, node, plan, log) && Queries(plan) < |log| && Guarded(w, log[Queries(plan)].at)
        && Confirmed(w, plan, log)
  }

  // ----- Why a dispatch fails -----

  // Between two moments the boundary was reached or the process was gone.
  ghost predicate Trouble(w: World, from: int, to: int) {
    exists t :: from <= t < to && (!BoundaryAt(w, t).Clear? || !ProcessAt(w, t))
  }

  // The next command, or the last one, got no reply.
  ghost predicate Unanswered(w: World, node: Node, plan: Plan, log: seq<Exchange>, from: int, to: int) {
    exists t, c ::
      && from <= t < to && !AnswerAt(w, t, c).Replied?
      && (Next(w, node, plan, log) == Some(c)
          || (log != [] && log[|log| - 1].at == t && log[|log| - 1].command == c))
  }

  // The replies neither allow another command nor confirm the effect, or the value is too long.
  ghost predicate Refused(w: World, node: Node, plan: Plan, log: seq<Exchange>) {
    || (plan.PlanSetValue? && |plan.text| > MAX_EDIT_BYTES)
    || (Answered(log) && Next(w, node, plan, log).None? && !PageConfirms(w, plan, log))
  }

  // An error that names the flag or the clock is right about it.
  ghost predicate NamedRightly(w: World, e: EffectKnowledge, from: int, to: int) {
    && (e.CancelledKnown? ==> exists t :: from <= t < to && BoundaryAt(w, t).IsCancelled?)
    && (e.ExpiredKnown? ==> exists t :: from <= t < to && BoundaryAt(w, t).IsExpired?)
  }

  // Every failure has a cause outside the dispatcher.
  ghost predicate Caused(w: World, node: Node, plan: Plan, log: seq<Exchange>, e: EffectKnowledge, from: int, to: int) {
    && NamedRightly(w, e, from, to)
    && (Trouble(w, from, to) || Unanswered(w, node, plan, log, from, to) || Refused(w, node, plan, log))
  }

  lemma MayStop(w: World, node: Node, plan: Plan, log: seq<Exchange>)
    requires Follows(w, node, plan, log) && |log| <= Queries(plan)
    ensures forall e :: BeforeEffect(e) ==> Justified(w, node, plan, log, e)
  {
  }

  lemma MayDoubt(w: World, node: Node, plan: Plan, log: seq<Exchange>)
    requires Follows(w, node, plan, log) && EffectSent(plan, log) && Guarded(w, log[Queries(plan)].at)
    ensures Justified(w, node, plan, log, Unknown)
    ensures Declined(R(log, Queries(plan))) ==> Justified(w, node, plan, log, NoEffect)
  {
  }

  // ----- Consequences, for every page and clock -----

  lemma NextIsEffect(w: World, node: Node, plan: Plan, log: seq<Exchange>, c: Command)
    requires Next(w, node, plan, log) == Some(c)
    ensures IsEffect(c) <==> |log| == Queries(plan)
    ensures |log| <= Queries(plan) + if plan.PlanSetValue? then 1 else 0
  {
  }

  // An effect function is sent at one place only, so at most once.
  lemma {:induction false} OneEffect(w: World, node: Node, plan: Plan, log: seq<Exchange>, i: int)
    requires Follows(w, node, plan, log) && 0 <= i < |log|
    ensures IsEffect(log[i].command) <==> i == Queries(plan)
  {
    hide Next;
    var init, last := log[..|log| - 1], log[|log| - 1];
    if i == |log| - 1 {
      NextIsEffect(w, node, plan, init, last.command);
    } else {
      OneEffect(w, node, plan, init, i);
    }
  }

  lemma {:induction false} FollowsPrefix(w: World, node: Node, plan: Plan, log: seq<Exchange>, k: int)
    requires Follows(w, node, plan, log) && 0 <= k < |log|
    ensures Follows(w, node, plan, log[..k]) && Answered(log[..k])
    ensures Next(w, node, plan, log[..k]) == Some(log[k].command)
    ensures log[k].answer == AnswerAt(w, log[k].at, log[k].command)
  {
    hide Next;
    if k < |log| - 1 {
      var init := log[..|log| - 1];
      FollowsPrefix(w, node, plan, init, k);
      assert init[..k] == log[..k];
    }
  }

  // Where the three looks at the live element begin.
  function Looks(plan: Plan): nat {
    if plan.PlanScroll? then 6 else 2
  }

  // ----- What replies say, field by field -----

  ghost predicate Shows(reply: Reply, key: string) {
    Holds(reply, key, Flag(true))
  }

  // A number, whole or not.
  ghost predicate Counts(reply: Reply, key: string, x: real) {
    Holds(reply, key, Num(x)) || exists n: nat :: Holds(reply, key, Whole(n)) && n as real == x
  }

  lemma FieldsMean(reply: Reply, key: string)
    ensures forall b :: FlagOf(reply, key) == Some(b) <==> Holds(reply, key, Flag(b))
    ensures forall n: nat :: WholeOf(reply, key) == Some(n) <==> Holds(reply, key, Whole(n))
    ensures forall t :: StrOf(reply, key) == Some(t) <==> Holds(reply, key, Str(t))
    ensures forall x :: NumOf(reply, key) == Some(x) <==> Counts(reply, key, x)
  {
    forall x ensures NumOf(reply, key) == Some(x) <==> Counts(reply, key, x) {
      if NumOf(reply, key) == Some(x) && !Holds(reply, key, Num(x)) {
        assert Holds(reply, key, Whole(WholeOf(reply, key).value));
      }
    }
  }

  // The element has one live accessibility node, with these semantics.
  ghost predicate LivesAs(nodes: seq<AxNode>, id: nat, semantics: Semantics) {
    exists i ::
      && 0 <= i < |nodes| && nodes[i] == AxNode(Some(id), false, Some(semantics))
      && forall j | 0 <= j < |nodes| && nodes[j].backendId == Some(id) && !nodes[j].ignored :: j == i
  }

  lemma {:induction false} NoneMatching(nodes: seq<AxNode>, id: nat)
    ensures Matching(nodes, id) == [] <==>
            forall j | 0 <= j < |nodes| :: nodes[j].backendId != Some(id) || nodes[j].ignored
  {
    if nodes != [] {
      NoneMatching(nodes[1..], id);
      assert forall j | 1 <= j < |nodes| :: nodes[j] == nodes[1..][j - 1];
    }
  }

  lemma {:induction false} LivesAsMeans(nodes: seq<AxNode>, id: nat, semantics: Semantics)
    ensures LiveSemantics(nodes, id) == Some(semantics) <==> LivesAs(nodes, id, semantics)
  {
    if nodes != [] {
      var rest := nodes[1..];
      LivesAsMeans(rest, id, semantics);
      NoneMatching(rest, id);
      assert forall j | 1 <= j < |nodes| :: nodes[j] == rest[j - 1];
      if nodes[0].backendId == Some(id) && !nodes[0].ignored {
        if LivesAs(nodes, id, semantics) {
          assert forall j | 0 <= j < |rest| :: nodes[j + 1] == rest[j];
        }
      } else {
        if LivesAs(rest, id, semantics) {
          var i :| 0 <= i < |rest| && rest[i] == AxNode(Some(id), false, Some(semantics))
                   && forall j | 0 <= j < |rest| && rest[j].backendId == Some(id) && !rest[j].ignored :: j == i;
          assert nodes[i + 1] == rest[i];
        }
        if LivesAs(nodes, id, semantics) {
          var i :| 0 <= i < |nodes| && nodes[i] == AxNode(Some(id), false, Some(semantics))
                   && forall j | 0 <= j < |nodes| && nodes[j].backendId == Some(id) && !nodes[j].ignored :: j == i;
          assert rest[i - 1] == nodes[i];
          assert forall j | 0 <= j < |rest| :: nodes[j + 1] == rest[j];
        }
      }
    }
  }

  // The way a scroll needs to be free.
  function Way(d: Direction): string {
    match d
    case Up => "up"
    case Down => "down"
    case Left => "left"
    case Right => "right"
  }

  // The element is the stored one, by its live accessibility node and its document, and can do what is needed.
  ghost predicate StillThere(w: World, node: Node, plan: Plan, frame: Reply, tree: Reply) {
    && frame.document.Some? && tree.nodes.Some?
    && exists live: Semantics ::
         && LivesAs(tree.nodes.value, node.id, live)
         && w.identity(frame.document.value, node.id, live.role, live.name) == node.fingerprint
         && live.visible && live.enabled
         && (plan.PlanInvoke? ==> live.invokable) && (plan.PlanSetValue? ==> live.editable)
  }

  // Two looks at a position differ by at most a quarter of a pixel in every coordinate.
  ghost predicate HeldStill(first: Reply, second: Reply) {
    && first.border.Some? && second.border.Some? && |first.border.value| == |second.border.value| == 8
    && forall i | 0 <= i < 8 ::
         var moved := first.border.value[i] - second.border.value[i]; -0.25 <= moved && moved <= 0.25
  }

  // The effect function of a plan: it scrolls by 100 pixels, backwards for up and left.
  ghost predicate Carries(plan: Plan, o: string, c: Command) {
    match plan
    case PlanInvoke => c == InvokeEffect(o)
    case PlanSetValue(text) => c == SetValueEffect(o, text)
    case PlanScroll(d) =>
      c == ScrollEffect(o, if d.Up? || d.Down? then "y" else "x", if d.Up? || d.Left? then -100 else 100)
  }

  // Everything that the replies before an effect have shown.
  ghost predicate Prepared(w: World, node: Node, plan: Plan, log: seq<Exchange>, o: string) {
    var k := if plan.PlanScroll? then 6 else 2;
    && R(log, 0).objectId == Some(o) && o != ""
    && R(log, k).viewport.Some? && w.geometry(R(log, k).viewport.value) == node.geometry
    && StillThere(w, node, plan, R(log, k + 1), R(log, k + 2))
    && Shows(R(log, 1), "connected") && Shows(R(log, 1), "visible") && Shows(R(log, 1), "enabled")
    && match plan
       case PlanScroll(d) =>
         && Shows(R(log, 1), "receives") && Shows(R(log, 1), Way(d)) && Shows(R(log, 9), Way(d))
         && HeldStill(R(log, 2), R(log, 3)) && R(log, 4).viewport.Some?
         && (exists p :: w.point(R(log, 3).border.value, R(log, 4).viewport.value) == Some(p)
                         && |log| > 5 && log[5].command == NodeAt(p.0, p.1))
         && R(log, 5).hit == Some(node.id)
       case PlanInvoke => !R(log, 1).failed
       case PlanSetValue(_) => !R(log, 1).failed && Shows(R(log, 1), "editable")
  }

  lemma ActionableMeans(reply: Reply, editable: bool)
    ensures Actionable(reply, editable) <==>
              && !reply.failed
              && Shows(reply, "connected") && Shows(reply, "visible") && Shows(reply, "enabled")
              && (editable ==> Shows(reply, "editable"))
  {
    FieldsMean(reply, "connected");
    FieldsMean(reply, "visible");
    FieldsMean(reply, "enabled");
    FieldsMean(reply, "editable");
    hide FlagOf, Holds;
  }

  lemma ScrollableMeans(reply: Reply, d: Direction)
    ensures Scrollable(reply, d) <==>
              && Shows(reply, "connected") && Shows(reply, "visible") && Shows(reply, "enabled")
              && Shows(reply, "receives") && Shows(reply, Way(d))
    ensures FlagOf(reply, DirectionName(d)) == Some(true) <==> Shows(reply, Way(d))
  {
    FieldsMean(reply, "connected");
    FieldsMean(reply, "visible");
    FieldsMean(reply, "enabled");
    FieldsMean(reply, "receives");
    FieldsMean(reply, Way(d));
    assert DirectionName(d) == Way(d);
    hide FlagOf, Holds, DirectionName, Way;
  }

  lemma SameElementMeans(w: World, node: Node, plan: Plan, frame: Reply, tree: Reply)
    ensures SameElement(w, node, plan, frame, tree) <==> StillThere(w, node, plan, frame, tree)
  {
    if tree.nodes.Some? {
      forall live ensures LiveSemantics(tree.nodes.value, node.id) == Some(live) <==>
        LivesAs(tree.nodes.value, node.id, live) {
        LivesAsMeans(tree.nodes.value, node.id, live);
      }
    }
    hide LiveSemantics, LivesAs;
  }

  lemma SteadyMeans(first: Reply, second: Reply)
    ensures Steady(first, second) <==> HeldStill(first, second)
  {
  }

  lemma EffectCarries(plan: Plan, o: string)
    ensures Carries(plan, o, Effect(plan, o))
  {
  }

  // What the page reports when an effect is confirmed.
  ghost predicate Done(w: World, plan: Plan, log: seq<Exchange>) {
    match plan
    case PlanInvoke => |log| == 6 && !R(log, 5).failed && Shows(R(log, 5), "eligible")
    case PlanScroll(d) =>
      && |log| == 11 && !R(log, 10).failed && Shows(R(log, 10), "eligible")
      && exists before, after ::
           && Counts(R(log, 10), "before", before) && Counts(R(log, 10), "after", after)
           && Counts(R(log, 10), "intended", after)
           && if d.Up? || d.Left? then after < before else before < after
    case PlanSetValue(text) =>
      && |log| == 7 && |text| <= 65536 && !R(log, 5).failed && Shows(R(log, 5), "eligible")
      && !R(log, 6).failed && Holds(R(log, 6), "valueHash", Str(w.sha(text)))
      && Holds(R(log, 6), "valueLength", Whole(|text|)) && Holds(R(log, 6), "valueTooLarge", Flag(false))
  }

  lemma ConfirmedMeans(w: World, plan: Plan, log: seq<Exchange>)
    ensures PageConfirms(w, plan, log) <==> Done(w, plan, log)
  {
    FieldsMean(R(log, 5), "eligible");
    FieldsMean(R(log, 10), "eligible");
    FieldsMean(R(log, 10), "before");
    FieldsMean(R(log, 10), "intended");
    FieldsMean(R(log, 10), "after");
    FieldsMean(R(log, 6), "valueHash");
    FieldsMean(R(log, 6), "valueLength");
    FieldsMean(R(log, 6), "valueTooLarge");
    hide FlagOf, WholeOf, StrOf, NumOf, Holds, Counts, R;
  }

  // What it takes for a plan other than scrolling to go on after `log`.
  lemma AllowsPlain(w: World, node: Node, plan: Plan, log: seq<Exchange>, c: Command)
    requires Next(w, node, plan, log) == Some(c) && !plan.PlanScroll?
    ensures |log| == 2 ==> Actionable(R(log, 1), plan.PlanSetValue?)
    ensures |log| == 3 ==> SameGeometry(w, node, R(log, 2))
    ensures |log| == 5 ==>
              && SameElement(w, node, plan, R(log, 3), R(log, 4))
              && ObjectOf(R(log, 0)).Some? && c == Effect(plan, ObjectOf(R(log, 0)).value)
  {
  }

  lemma AllowsScroll(w: World, node: Node, d: Direction, log: seq<Exchange>, c: Command)
    requires Next(w, node, PlanScroll(d), log) == Some(c)
    ensures |log| == 2 ==> Scrollable(R(log, 1), d)
    ensures |log| == 4 ==> Steady(R(log, 2), R(log, 3))
    ensures |log| == 5 ==>
              && Point(w, R(log, 3), R(log, 4)).Some?
              && var p := Point(w, R(log, 3), R(log, 4)).value; c == NodeAt(p.0, p.1)
    ensures |log| == 6 ==> R(log, 5).hit == Some(node.id)
    ensures |log| == 7 ==> SameGeometry(w, node, R(log, 6))
    ensures |log| == 9 ==> SameElement(w, node, PlanScroll(d), R(log, 7), R(log, 8))
    ensures |log| == 10 ==>
              && FlagOf(R(log, 9), DirectionName(d)) == Some(true)
              && ObjectOf(R(log, 0)).Some? && c == Effect(PlanScroll(d), ObjectOf(R(log, 0)).value)
  {
    hide Scrollable, Steady, SameGeometry, SameElement, FlagOf, Point;
  }

  // No effect is ever tried before all looks have allowed it, and it is aimed at the resolved object.
  lemma EffectIsPrepared(w: World, node: Node, plan: Plan, log: seq<Exchange>)
    requires Follows(w, node, plan, log)
    requires |log| > if plan.PlanScroll? then 10 else 5
    ensures exists o :: Prepared(w, node, plan, log, o)
                        && Carries(plan, o, log[if plan.PlanScroll? then 10 else 5].command)
  {
    hide Next, Follows, SameGeometry, SameElement, Actionable, Scrollable, Steady, FlagOf, ObjectOf, Effect, Point,
         StillThere, HeldStill, Carries;
    forall k | k in {2, 3, 4, 5, 6, 7, 9, 10} && k <= Queries(plan)
      ensures Next(w, node, plan, log[..k]) == Some(log[k].command)
    {
      FollowsPrefix(w, node, plan, log, k);
    }
    if plan.PlanScroll? {
      PreparedScroll(w, node, plan.direction, log);
    } else {
      PreparedPlain(w, node, plan, log);
    }
  }

  lemma PreparedPlain(w: World, node: Node, plan: Plan, log: seq<Exchange>)
    requires !plan.PlanScroll? && 5 < |log|
    requires forall k | k in {2, 3, 5} :: Next(w, node, plan, log[..k]) == Some(log[k].command)
    ensures ObjectOf(R(log, 0)).Some?
    ensures Prepared(w, node, plan, log, ObjectOf(R(log, 0)).value)
    ensures Carries(plan, ObjectOf(R(log, 0)).value, log[5].command)
  {
    hide Next, SameElement, Actionable, Effect, StillThere, Carries, Shows;
    AllowsPlain(w, node, plan, log[..2], log[2].command);
    AllowsPlain(w, node, plan, log[..3], log[3].command);
    AllowsPlain(w, node, plan, log[..5], log[5].command);
    ActionableMeans(R(log, 1), plan.PlanSetValue?);
    SameElementMeans(w, node, plan, R(log, 3), R(log, 4));
    EffectCarries(plan, ObjectOf(R(log, 0)).value);
  }

  lemma PreparedScroll(w: World, node: Node, d: Direction, log: seq<Exchange>)
    requires 10 < |log|
    requires forall k | k in {2, 4, 5, 6, 7, 9, 10} :: Next(w, node, PlanScroll(d), log[..k]) == Some(log[k].command)
    ensures ObjectOf(R(log, 0)).Some?
    ensures Prepared(w, node, PlanScroll(d), log, ObjectOf(R(log, 0)).value)
    ensures Carries(PlanScroll(d), ObjectOf(R(log, 0)).value, log[10].command)
  {
    hide Next, SameElement, Scrollable, Steady, FlagOf, Effect, StillThere, HeldStill, Carries, Shows;
    AllowsScroll(w, node, d, log[..2], log[2].command);
    AllowsScroll(w, node, d, log[..4], log[4].command);
    AllowsScroll(w, node, d, log[..5], log[5].command);
    AllowsScroll(w, node, d, log[..6], log[6].command);
    AllowsScroll(w, node, d, log[..7], log[7].command);
    AllowsScroll(w, node, d, log[..9], log[9].command);
    AllowsScroll(w, node, d, log[..10], log[10].command);
    ScrollableMeans(R(log, 1), d);
    ScrollableMeans(R(log, 9), d);
    SteadyMeans(R(log, 2), R(log, 3));
    SameElementMeans(w, node, PlanScroll(d), R(log, 7), R(log, 8));
    EffectCarries(PlanScroll(d), ObjectOf(R(log, 0)).value);
  }

  lemma LooksGoOn(w: World, node: Node, plan: Plan, log: seq<Exchange>)
    requires Looks(plan) < |log| < Looks(plan) + 3 && ObjectOf(R(log, 0)).Some?
    ensures Next(w, node, plan, log) == NextLook(w, node, log, Looks(plan))
  {
  }

  lemma LooksEnd(w: World, node: Node, plan: Plan, log: seq<Exchange>)
    requires |log| == Looks(plan) + 3
    ensures !SameElement(w, node, plan, R(log, Looks(plan) + 1), R(log, Looks(plan) + 2)) ==>
            Next(w, node, plan, log) == None
  {
    hide SameElement, ObjectOf, Effect;
  }

  lemma NotAccepted(w: World, node: Node, plan: Plan, log: seq<Exchange>)
    requires |log| == Queries(plan) + 1 && !Accepted(R(log, Queries(plan)))
    ensures Next(w, node, plan, log) == None && !PageConfirms(w, plan, log)
  {
    hide ObjectOf, Accepted, Landed, ReadsBack;
  }

  lemma NoWay(w: World, node: Node, d: Direction, log: seq<Exchange>)
    requires |log| == 10 && Answered(log) && FlagOf(R(log, 9), DirectionName(d)) != Some(true)
    ensures Refused(w, node, PlanScroll(d), log)
  {
    hide ObjectOf, FlagOf, Effect;
  }

  lemma NotLanded(w: World, node: Node, d: Direction, log: seq<Exchange>)
    requires |log| == 11 && Answered(log) && !Landed(d, R(log, 10))
    ensures Refused(w, node, PlanScroll(d), log)
  {
    hide ObjectOf, Landed;
  }

  // Replies that allow nothing more and confirm nothing are cause enough.
  lemma RefusalIsCause(w: World, node: Node, plan: Plan, log: seq<Exchange>, from: int, to: int)
    requires Refused(w, node, plan, log)
    ensures forall e: EffectKnowledge | e.NoEffect? || e.Unknown? :: Caused(w, node, plan, log, e, from, to)
  {
  }

  lemma NoReply(w: World, node: Node, plan: Plan, log: seq<Exchange>, from: int, to: int, t: int, c: Command)
    requires from <= t < to && !AnswerAt(w, t, c).Replied?
    requires Next(w, node, plan, log) == Some(c)
             || (log != [] && log[|log| - 1].at == t && log[|log| - 1].command == c)
    ensures Unanswered(w, node, plan, log, from, to)
  {
  }

  lemma StillNoReply(w: World, node: Node, plan: Plan, log: seq<Exchange>, from: int, to: int, later: int)
    requires to <= later
    ensures Unanswered(w, node, plan, log, from, to) ==> Unanswered(w, node, plan, log, from, later)
  {
    hide Next;
  }

  // The steps of the plans that press or fill an element.
  lemma PlainSteps(w: World, node: Node, plan: Plan, log: seq<Exchange>, o: string)
    requires !plan.PlanScroll? && log != [] && ObjectOf(R(log, 0)) == Some(o)
    ensures |log| == 1 ==> Next(w, node, plan, log) == Some(Probe(o, node.protected))
    ensures |log| == 2 ==>
              Next(w, node, plan, log) == if Actionable(R(log, 1), plan.PlanSetValue?) then Some(LayoutMetrics)
                else None
    ensures |log| == 5 ==>
              Next(w, node, plan, log) ==
              if SameElement(w, node, plan, R(log, 3), R(log, 4)) then Some(Effect(plan, o)) else None
    ensures |log| == 6 ==>
              Next(w, node, plan, log) ==
              if plan.PlanSetValue? && Accepted(R(log, 5)) then Some(Probe(o, false)) else None
    ensures |log| > 6 ==> Next(w, node, plan, log) == None
  {
    hide ObjectOf, Actionable, SameElement, Accepted, Effect;
  }

  lemma ScrollSteps(w: World, node: Node, d: Direction, log: seq<Exchange>, o: string)
    requires log != [] && ObjectOf(R(log, 0)) == Some(o)
    ensures |log| == 1 ==> Next(w, node, PlanScroll(d), log) == Some(ScrollProbe(o))
    ensures |log| == 2 ==>
              Next(w, node, PlanScroll(d), log) == if Scrollable(R(log, 1), d) then Some(BoxModel(node.id)) else None
    ensures |log| == 3 ==> Next(w, node, PlanScroll(d), log) == Some(BoxModel(node.id))
    ensures |log| == 4 ==>
              Next(w, node, PlanScroll(d), log) == if Steady(R(log, 2), R(log, 3)) then Some(LayoutMetrics) else None
    ensures |log| == 5 ==>
              var p := Point(w, R(log, 3), R(log, 4));
              Next(w, node, PlanScroll(d), log) == if p.Some? then Some(NodeAt(p.value.0, p.value.1)) else None
    ensures |log| == 6 ==>
              Next(w, node, PlanScroll(d), log) == if R(log, 5).hit == Some(node.id) then Some(LayoutMetrics) else None
    ensures |log| == 9 ==>
              Next(w, node, PlanScroll(d), log) ==
              if SameElement(w, node, PlanScroll(d), R(log, 7), R(log, 8)) then Some(ScrollProbe(o)) else None
    ensures |log| == 10 ==>
              Next(w, node, PlanScroll(d), log) ==
              if FlagOf(R(log, 9), DirectionName(d)) == Some(true) then Some(Effect(PlanScroll(d), o)) else None
    ensures |log| > 10 ==> Next(w, node, PlanScroll(d), log) == None
  {
    hide ObjectOf, Scrollable, Steady, Point, SameElement, FlagOf, Effect;
  }

  lemma OneMore(w: World, node: Node, plan: Plan, log: seq<Exchange>, e: Exchange)
    requires Follows(w, node, plan, log) && Answered(log) && Next(w, node, plan, log) == Some(e.command)
    requires e.answer == AnswerAt(w, e.at, e.command) && !e.answer.NoLock?
    ensures Follows(w, node, plan, log + [e]) && (log + [e])[..|log|] == log
    ensures e.answer.Replied? ==> Answered(log + [e]) && R(log + [e], |log|) == e.answer.reply
  {
    hide Next;
    assert (log + [e])[..|log + [e]| - 1] == log;
  }

  lemma Kept(log: seq<Exchange>, before: seq<Exchange>, k: nat)
    requires |before| <= |log| && log[..|before|] == before && k < |before|
    ensures R(log, k) == R(before, k)
  {
  }

  // On an honest page, an error that denies the effect is true, a success means one effect, and
  // nothing acts twice.
  lemma TruthfulAboutEffect(w: World, node: Node, plan: Plan, log: seq<Exchange>, r: Result<(), EffectKnowledge>,
                            i: int)
    requires HonestPage(w) && Classified(w, node, plan, log, r) && 0 <= i < |log|
    ensures Acted(log[i].answer) ==> i == Queries(plan)
    ensures r.Failure? && BeforeEffect(r.error) ==> !Acted(log[i].answer)
    ensures r.Success? && i == Queries(plan) ==> Acted(log[i].answer)
  {
    OneEffect(w, node, plan, log, i);
    FollowsPrefix(w, node, plan, log, i);
    hide Follows, Next, SameElement, SameGeometry;
    assert log[i].answer == AnswerAt(w, log[i].at, log[i].command);
  }

  // A success means that the page reported the effect as done, on everything shown before; an error
  // that denies the effect means that nothing was sent or that the page declined.
  lemma OutcomeMeans(w: World, node: Node, plan: Plan, log: seq<Exchange>, r: Result<(), EffectKnowledge>)
    requires Classified(w, node, plan, log, r)
    ensures r.Success? ==>
              && Done(w, plan, log)
              && exists o :: Prepared(w, node, plan, log, o)
                             && Carries(plan, o, log[if plan.PlanScroll? then 10 else 5].command)
    ensures r.Failure? && !r.error.Unknown? ==>
              var k := if plan.PlanScroll? then 10 else 5;
              || |log| <= k || log[k].answer.BeforeSend?
              || (!R(log, k).failed && Holds(R(log, k), "eligible", Flag(false)))
    // Before an effect was tried, the process was alive between two clear boundaries, with a third one after it.
    ensures var k := if plan.PlanScroll? then 10 else 5;
            k < |log| ==>
              && BoundaryAt(w, log[k].at - 1).Clear? && BoundaryAt(w, log[k].at - 2).Clear?
              && ProcessAt(w, log[k].at - 3) && BoundaryAt(w, log[k].at - 4).Clear?
    ensures r.Success? && plan.PlanSetValue? ==> ProcessAt(w, log[6].at - 2)
  {
    var k := Queries(plan);
    if r.Success? {
      ConfirmedMeans(w, plan, log);
      EffectIsPrepared(w, node, plan, log);
    } else if k < |log| {
      FollowsPrefix(w, node, plan, log, k);
      FieldsMean(R(log, k), "eligible");
      NotUnlocked(w, node, plan, log);
    }
    hide Done, Prepared, Carries, FlagOf, Holds, PageConfirms, Follows, Next;
  }

  // What was tried had the lock.
  lemma {:induction false} NotUnlocked(w: World, node: Node, plan: Plan, log: seq<Exchange>)
    requires Follows(w, node, plan, log)
    ensures forall i | 0 <= i < |log| :: !log[i].answer.NoLock?
  {
    hide Next;
    if log != [] {
      NotUnlocked(w, node, plan, log[..|log| - 1]);
      assert forall i | 0 <= i < |log| - 1 :: log[i] == log[..|log| - 1][i];
    }
  }

  // ----- A page that plays along -----

  // What a page answers that has the element and does what it is asked to.
  datatype Help = Help(objectId: string, document: string, live: Semantics, view: Viewport, border: seq<real>)

  // The page reports that it has scrolled as far as it meant to, against or along the axis.
  ghost predicate HasScrolled(reply: Reply, backwards: bool) {
    exists before, after ::
      && Counts(reply, "before", before) && Counts(reply, "after", after) && Counts(reply, "intended", after)
      && if backwards then after < before else before < after
  }

  ghost predicate Suits(w: World, node: Node, plan: Plan, h: Help, c: Command, reply: Reply) {
    match c
    case ResolveNode(_, _) => reply.objectId == Some(h.objectId)
    case LayoutMetrics => reply.viewport == Some(h.view)
    case FrameTree => reply.document == Some(h.document)
    case PartialTree(_) => reply.nodes.Some? && LivesAs(reply.nodes.value, node.id, h.live)
    case BoxModel(_) => reply.border == Some(h.border)
    case NodeAt(_, _) => reply.hit == Some(node.id)
    case Probe(_, withheld) =>
      && !reply.failed
      && Shows(reply, "connected") && Shows(reply, "visible") && Shows(reply, "enabled")
      && (plan.PlanSetValue? ==>
            && Shows(reply, "editable")
            && (!withheld ==>
                  && Holds(reply, "valueHash", Str(w.sha(plan.text)))
                  && Holds(reply, "valueLength", Whole(|plan.text|)) && Holds(reply, "valueTooLarge", Flag(false))))
    case ScrollProbe(_) =>
      plan.PlanScroll? ==>
        && Shows(reply, "connected") && Shows(reply, "visible") && Shows(reply, "enabled") && Shows(reply, "receives")
        && Shows(reply, Way(plan.direction))
    case InvokeEffect(_) => !reply.failed && Shows(reply, "eligible")
    case SetValueEffect(_, _) => !reply.failed && Shows(reply, "eligible")
    case ScrollEffect(_, _, delta) => !reply.failed && Shows(reply, "eligible") && HasScrolled(reply, delta < 0)
  }

  // The element is the stored one and can do what the plan needs.
  ghost predicate Fits(w: World, node: Node, plan: Plan, h: Help) {
    && h.objectId != "" && w.geometry(h.view) == node.geometry
    && w.identity(h.document, node.id, h.live.role, h.live.name) == node.fingerprint
    && h.live.visible && h.live.enabled
    && match plan
       case PlanInvoke => h.live.invokable
       case PlanSetValue(text) => h.live.editable && |text| <= 65536
       case PlanScroll(_) => |h.border| == 8 && w.point(h.border, h.view).Some?
  }

  ghost predicate PlaysAlong(w: World, node: Node, plan: Plan, h: Help) {
    && Fits(w, node, plan, h)
    && forall t: int, c: Command ::
         AnswerAt(w, t, c).Replied? && Suits(w, node, plan, h, c, AnswerAt(w, t, c).reply)
  }

  // Which kind of command stands at each place.
  lemma CommandAt(w: World, node: Node, plan: Plan, log: seq<Exchange>, c: Command)
    requires Next(w, node, plan, log) == Some(c)
    ensures |log| == 0 ==> c.ResolveNode?
    ensures !plan.PlanScroll? ==>
              && (|log| == 1 ==> c.Probe?) && (|log| == 2 ==> c == LayoutMetrics) && (|log| == 3 ==> c == FrameTree)
              && (|log| == 4 ==> c.PartialTree?)
              && (|log| == 5 ==> c.InvokeEffect? || c.SetValueEffect?)
              && (|log| == 6 ==> c.Probe? && !c.withheld) && |log| <= 6
    ensures plan.PlanScroll? ==>
              && (|log| == 1 ==> c.ScrollProbe?) && (|log| == 2 ==> c.BoxModel?) && (|log| == 3 ==> c.BoxModel?)
              && (|log| == 4 ==> c == LayoutMetrics) && (|log| == 5 ==> c.NodeAt?)
              && (|log| == 6 ==> c == LayoutMetrics) && (|log| == 7 ==> c == FrameTree)
              && (|log| == 8 ==> c.PartialTree?) && (|log| == 9 ==> c.ScrollProbe?)
              && (|log| == 10 ==> c.ScrollEffect? && (c.delta < 0 <==> plan.direction.Up? || plan.direction.Left?))
              && |log| <= 10
  {
    hide SameElement, Actionable, Scrollable, Steady, FlagOf, Accepted, SameGeometry;
  }

  // On such a page every reply suits its command.
  lemma RepliesSuit(w: World, node: Node, plan: Plan, h: Help, log: seq<Exchange>, k: nat)
    requires PlaysAlong(w, node, plan, h) && Follows(w, node, plan, log) && Answered(log) && k < |log|
    ensures Suits(w, node, plan, h, log[k].command, R(log, k))
    ensures Next(w, node, plan, log[..k]) == Some(log[k].command)
  {
    FollowsPrefix(w, node, plan, log, k);
    hide Suits, Fits, Next, Follows;
  }

  lemma AllReplies(w: World, node: Node, plan: Plan, h: Help, log: seq<Exchange>)
    requires PlaysAlong(w, node, plan, h) && Follows(w, node, plan, log) && Answered(log)
    ensures forall k | 0 <= k < |log| ::
              Suits(w, node, plan, h, log[k].command, R(log, k))
                && Next(w, node, plan, log[..k]) == Some(log[k].command)
  {
    hide Suits, Next, Follows, PlaysAlong;
    forall k | 0 <= k < |log|
      ensures Suits(w, node, plan, h, log[k].command, R(log, k))
              && Next(w, node, plan, log[..k]) == Some(log[k].command)
    {
      RepliesSuit(w, node, plan, h, log, k);
    }
  }

  lemma PlainGoesOn(w: World, node: Node, plan: Plan, h: Help, log: seq<Exchange>)
    requires PlaysAlong(w, node, plan, h) && Follows(w, node, plan, log) && Answered(log) && !plan.PlanScroll?
    ensures Next(w, node, plan, log).Some? || PageConfirms(w, plan, log)
  {
    AllReplies(w, node, plan, h, log);
    hide Follows, Next, Suits, PageConfirms;
    if log != [] {
      forall k | 0 <= k < |log| ensures PlainReply(w, node, plan, h, R(log, k), k) && k <= 6 {
        CommandAt(w, node, plan, log[..k], log[k].command);
        PlainSuits(w, node, plan, h, log[k].command, R(log, k), k);
      }
      PlainOn(w, node, plan, h, log);
    }
  }

  // What the reply at place `k` shows.
  ghost predicate PlainReply(w: World, node: Node, plan: Plan, h: Help, reply: Reply, k: nat) {
    && (k == 0 ==> ObjectOf(reply) == Some(h.objectId))
    && (k == 1 ==> Actionable(reply, plan.PlanSetValue?))
    && (k == 2 ==> SameGeometry(w, node, reply))
    && (k == 3 ==> reply.document == Some(h.document))
    && (k == 4 ==> reply.nodes.Some? && LivesAs(reply.nodes.value, node.id, h.live))
    && (k == 5 ==> Accepted(reply))
    && (k == 6 && plan.PlanSetValue? ==> ReadsBack(w, plan.text, reply))
  }

  lemma PlainSuits(w: World, node: Node, plan: Plan, h: Help, c: Command, reply: Reply, k: nat)
    requires Fits(w, node, plan, h) && Suits(w, node, plan, h, c, reply)
    requires (k == 0 ==> c.ResolveNode?) && (k == 1 ==> c.Probe?) && (k == 2 ==> c == LayoutMetrics)
             && (k == 3 ==> c == FrameTree) && (k == 4 ==> c.PartialTree?)
             && (k == 5 ==> c.InvokeEffect? || c.SetValueEffect?) && (k == 6 ==> c.Probe? && !c.withheld)
    ensures PlainReply(w, node, plan, h, reply, k)
  {
    ActionableMeans(reply, plan.PlanSetValue?);
    FieldsMean(reply, "eligible");
    FieldsMean(reply, "valueHash");
    FieldsMean(reply, "valueLength");
    FieldsMean(reply, "valueTooLarge");
    hide Actionable, FlagOf, StrOf, WholeOf, NumOf, Holds, LivesAs;
  }

  lemma PlainOn(w: World, node: Node, plan: Plan, h: Help, log: seq<Exchange>)
    requires Fits(w, node, plan, h) && !plan.PlanScroll? && 0 < |log| <= 7 && (|log| == 7 ==> plan.PlanSetValue?)
    requires forall k | 0 <= k < |log| :: PlainReply(w, node, plan, h, R(log, k), k)
    ensures Next(w, node, plan, log).Some? || PageConfirms(w, plan, log)
  {
    forall k | 0 <= k < |log| ensures PlainReply(w, node, plan, h, R(log, k), k) {
    }
    PlainSteps(w, node, plan, log, h.objectId);
    if 2 < |log| < 5 {
      LooksGoOn(w, node, plan, log);
    }
    if |log| >= 5 {
      SameElementMeans(w, node, plan, R(log, 3), R(log, 4));
    }
    hide Next, Actionable, Accepted, ReadsBack, LivesAs, SameElement, ObjectOf, Effect, SameGeometry;
  }

  // The same for scrolling.
  ghost predicate ScrollReply(w: World, node: Node, d: Direction, h: Help, reply: Reply, k: nat) {
    && (k == 0 ==> ObjectOf(reply) == Some(h.objectId))
    && (k == 1 ==> Scrollable(reply, d))
    && (k == 2 || k == 3 ==> reply.border == Some(h.border))
    && (k == 4 || k == 6 ==> reply.viewport == Some(h.view))
    && (k == 5 ==> reply.hit == Some(node.id))
    && (k == 7 ==> reply.document == Some(h.document))
    && (k == 8 ==> reply.nodes.Some? && LivesAs(reply.nodes.value, node.id, h.live))
    && (k == 9 ==> FlagOf(reply, DirectionName(d)) == Some(true))
    && (k == 10 ==> Accepted(reply) && Landed(d, reply))
  }

  lemma ScrollGoesOn(w: World, node: Node, d: Direction, h: Help, log: seq<Exchange>)
    requires PlaysAlong(w, node, PlanScroll(d), h) && Follows(w, node, PlanScroll(d), log) && Answered(log)
    ensures Next(w, node, PlanScroll(d), log).Some? || PageConfirms(w, PlanScroll(d), log)
  {
    AllReplies(w, node, PlanScroll(d), h, log);
    hide Follows, Next, Suits, PageConfirms;
    if log != [] {
      forall k | 0 <= k < |log| ensures ScrollReply(w, node, d, h, R(log, k), k) && k <= 10 {
        CommandAt(w, node, PlanScroll(d), log[..k], log[k].command);
        ScrollSuits(w, node, d, h, log[k].command, R(log, k), k);
      }
      ScrollOn(w, node, d, h, log);
    }
  }

  lemma ScrollSuits(w: World, node: Node, d: Direction, h: Help, c: Command, reply: Reply, k: nat)
    requires Fits(w, node, PlanScroll(d), h) && Suits(w, node, PlanScroll(d), h, c, reply)
    requires (k == 0 ==> c.ResolveNode?) && (k == 1 ==> c.ScrollProbe?) && (k == 2 || k == 3 ==> c.BoxModel?)
             && (k == 4 || k == 6 ==> c == LayoutMetrics) && (k == 5 ==> c.NodeAt?) && (k == 7 ==> c == FrameTree)
             && (k == 8 ==> c.PartialTree?) && (k == 9 ==> c.ScrollProbe?)
             && (k == 10 ==> c.ScrollEffect? && (c.delta < 0 <==> d.Up? || d.Left?))
    ensures ScrollReply(w, node, d, h, reply, k)
  {
    ScrollableMeans(reply, d);
    FieldsMean(reply, "eligible");
    FieldsMean(reply, "before");
    FieldsMean(reply, "intended");
    FieldsMean(reply, "after");
    hide Scrollable, FlagOf, StrOf, WholeOf, NumOf, Holds, LivesAs, Way, DirectionName, Counts;
  }

  lemma ScrollOn(w: World, node: Node, d: Direction, h: Help, log: seq<Exchange>)
    requires Fits(w, node, PlanScroll(d), h) && 0 < |log| <= 11
    requires forall k | 0 <= k < |log| :: ScrollReply(w, node, d, h, R(log, k), k)
    ensures Next(w, node, PlanScroll(d), log).Some? || PageConfirms(w, PlanScroll(d), log)
  {
    ScrollSteps(w, node, d, log, h.objectId);
    if 6 < |log| < 9 {
      LooksGoOn(w, node, PlanScroll(d), log);
    }
    if |log| >= 9 {
      SameElementMeans(w, node, PlanScroll(d), R(log, 7), R(log, 8));
    }
    hide Next, Scrollable, Accepted, Landed, LivesAs, SameElement, ObjectOf, Effect, FlagOf, R;
  }

  // Such a page allows every command of the plan, and confirms the effect.
  lemma NeverRefused(w: World, node: Node, plan: Plan, h: Help, log: seq<Exchange>)
    requires PlaysAlong(w, node, plan, h) && Follows(w, node, plan, log)
    ensures !Refused(w, node, plan, log)
  {
    if Answered(log) {
      if plan.PlanScroll? {
        ScrollGoesOn(w, node, plan.direction, h, log);
      } else {
        PlainGoesOn(w, node, plan, h, log);
      }
    }
    hide Next, PageConfirms, Follows, Answered, Suits;
  }

  // So if the page plays along, the boundary stays clear and the process alive, the dispatch succeeds.
  lemma HealthyPageSucceeds(w: World, node: Node, plan: Plan, h: Help, log: seq<Exchange>,
                            r: Result<(), EffectKnowledge>, from: int, to: int)
    requires Classified(w, node, plan, log, r) && (r.Failure? ==> Caused(w, node, plan, log, r.error, from, to))
    requires PlaysAlong(w, node, plan, h) && !Trouble(w, from, to)
    ensures r.Success? && |log| == match plan
                                   case PlanInvoke => 6
                                   case PlanScroll(_) => 11
                                   case PlanSetValue(_) => 7
  {
    if r.Failure? {
      NeverRefused(w, node, plan, h, log);
      hide Refused, Suits, Fits, Trouble, Follows, Next;
    }
  }

  // There are such pages.
  function Obliging(plan: Plan, h: Help, c: Command): Reply {
    var moved := if c.ScrollEffect? && c.delta < 0 then -1.0 else 1.0;
    var length := if plan.PlanSetValue? then |plan.text| else 0;
    Reply(false,
          Some(map["connected" := Flag(true), "visible" := Flag(true), "enabled" := Flag(true),
                   "editable" := Flag(true),
                   "receives" := Flag(true), "up" := Flag(true), "down" := Flag(true), "left" := Flag(true),
                   "right" := Flag(true), "eligible" := Flag(true), "before" := Num(0.0), "intended" := Num(moved),
                   "after" := Num(moved), "valueHash" := Str(""), "valueLength" := Whole(length),
                   "valueTooLarge" := Flag(false)]),
          Some(h.objectId), Some(h.view), Some(h.document), Some([AxNode(Some(1), false, Some(h.live))]),
            Some(h.border),
          Some(1))
  }

  lemma HealthyPageExists(plan: Plan) returns (w: World, node: Node, h: Help)
    requires plan.PlanSetValue? ==> |plan.text| <= MAX_EDIT_BYTES
    ensures PlaysAlong(w, node, plan, h) && forall from: int, to: int :: !Trouble(w, from, to)
  {
    h := Help("object", "document", Semantics("", None, true, true, true, true), Viewport(""), seq(8, _ => 0.0));
    node := Node(1, 0, false, "", "");
    w := World(_ => Clear, _ => true, (_, c) => Replied(Obliging(plan, h, c), IsEffect(c)), 0, _ => "", _ => "",
               (_, _, _, _) => "", (_, _) => Some((0, 0)));
    forall t: int, c: Command
      ensures AnswerAt(w, t, c).Replied? && Suits(w, node, plan, h, c, AnswerAt(w, t, c).reply)
    {
      ObligingSuits(w, node, plan, h, c);
    }
  }

  lemma ObligingSuits(w: World, node: Node, plan: Plan, h: Help, c: Command)
    requires node.id == 1 && (plan.PlanSetValue? ==> w.sha(plan.text) == "")
    ensures Suits(w, node, plan, h, c, Obliging(plan, h, c))
  {
    var reply := Obliging(plan, h, c);
    assert reply.nodes.value[0] == AxNode(Some(1), false, Some(h.live));
    if c.ScrollEffect? {
      var moved := if c.delta < 0 then -1.0 else 1.0;
      assert Counts(reply, "before", 0.0) && Counts(reply, "after", moved) && Counts(reply, "intended", moved);
    }
  }

  // Every command is about the element: its node, its execution context, or the object resolved for it.
  // The value of a protected element is withheld from every look before the effect.
  lemma AimedAtElement(w: World, node: Node, plan: Plan, log: seq<Exchange>, i: int)
    requires Follows(w, node, plan, log) && 0 <= i < |log|
    ensures match log[i].command
            case ResolveNode(id, context) => id == node.id && context == node.contextId
            case PartialTree(id) => id == node.id
            case BoxModel(id) => id == node.id
            case Probe(o, withheld) =>
              R(log, 0).objectId == Some(o) && (i <= 5 ==> withheld == node.protected) && (i > 5 ==> plan.PlanSetValue?)
            case ScrollProbe(o) => R(log, 0).objectId == Some(o)
            case InvokeEffect(o) => R(log, 0).objectId == Some(o)
            case SetValueEffect(o, _) => R(log, 0).objectId == Some(o)
            case ScrollEffect(o, _, _) => R(log, 0).objectId == Some(o)
            case _ => true
  {
    FollowsPrefix(w, node, plan, log, i);
    if i > 0 {
      assert R(log[..i], 0) == R(log, 0);
    }
    hide Follows, SameElement, Actionable, Scrollable, Steady, FlagOf, Accepted, SameGeometry, Point, R;
  }

  // Queries are tried only before the effect, and leave the dispatch where the plan has it.
  ghost predicate Asking(w: World, node: Node, plan: Plan, log: seq<Exchange>, c: Command) {
    Follows(w, node, plan, log) && Answered(log) && |log| < Queries(plan) && Next(w, node, plan, log) == Some(c)
  }

  ghost predicate Unsent(w: World, node: Node, plan: Plan, log: seq<Exchange>) {
    Follows(w, node, plan, log) && |log| <= Queries(plan)
  }

  // One more command has been answered.
  ghost predicate Told(w: World, node: Node, plan: Plan, before: seq<Exchange>, log: seq<Exchange>, reply: Reply) {
    && Follows(w, node, plan, log) && Answered(log)
    && |log| == |before| + 1 && log[..|before|] == before && R(log, |before|) == reply
  }

  // ----- The dispatchers -----

  class Browser {
    const world: World
    var now: int
    // Every command tried in the current dispatch, and when it began.
    ghost var log: seq<Exchange>
    ghost var began: int

    constructor (world: World)
      ensures this.world == world && log == []
    {
      this.world := world;
      now := 0;
      log := [];
    }

    // A failure so far is one of the boundary or the process.
    ghost predicate Interrupted(e: EffectKnowledge)
      reads this
    {
      NamedRightly(world, e, began, now) && Trouble(world, began, now)
    }

    ghost predicate Explained(node: Node, plan: Plan, e: EffectKnowledge)
      reads this
    {
      Caused(world, node, plan, log, e, began, now)
    }

    method Check() returns (r: Result<(), EffectKnowledge>)
      requires began <= now
      modifies `now
      ensures now == old(now) + 1
      ensures r.Success? <==> BoundaryAt(world, old(now)).Clear?
      ensures r.Failure? ==>
                r.error == if BoundaryAt(world, old(now)).IsCancelled? then CancelledKnown else ExpiredKnown
      ensures r.Failure? ==> Interrupted(r.error)
    {
      var seen := BoundaryAt(world, now);
      now := now + 1;
      match seen
      case Clear => return Success(());
      case IsCancelled => return Failure(CancelledKnown);
      case IsExpired => return Failure(ExpiredKnown);
    }

    method CheckAfter() returns (r: Result<(), EffectKnowledge>)
      requires began <= now
      modifies `now
      ensures now == old(now) + 1
      ensures r.Success? <==> BoundaryAt(world, old(now)).Clear?
      ensures r.Failure? ==> r.error.Unknown?
      ensures r.Failure? ==> Interrupted(r.error)
    {
      var seen := BoundaryAt(world, now);
      now := now + 1;
      return if seen.Clear? then Success(()) else Failure(Unknown);
    }

    method ProcessAlive() returns (alive: bool)
      requires began <= now
      modifies `now
      ensures now == old(now) + 1 && alive == ProcessAt(world, old(now))
      ensures !alive ==> Trouble(world, began, now)
    {
      alive := ProcessAt(world, now);
      now := now + 1;
    }

    method VerifyProcess() returns (r: Result<(), EffectKnowledge>)
      requires began <= now
      modifies `now
      ensures old(now) <= now
      ensures r.Failure? ==> Interrupted(r.error)
      ensures r.Failure? ==> BeforeEffect(r.error)
      ensures r.Success? ==>
              now == old(now) + 3 && BoundaryAt(world, now - 3).Clear? && ProcessAt(world, now - 2)
              && BoundaryAt(world, now - 1).Clear?
    {
      var _ :- Check();
      var alive := ProcessAlive();
      var _ :- Check();
      return if alive then Success(()) else Failure(NoEffect);
    }

    method Send(c: Command) returns (a: Answer)
      modifies this
      ensures a == AnswerAt(world, old(now), c) && now == old(now) + 1 && began == old(began)
      ensures log == if a.NoLock? then old(log) else old(log) + [Exchange(old(now), c, a)]
    {
      a := AnswerAt(world, now, c);
      log := if a.NoLock? then log else log + [Exchange(now, c, a)];
      now := now + 1;
    }

    method Query(c: Command, ghost node: Node, ghost plan: Plan) returns (r: Result<Reply, EffectKnowledge>)
      requires Asking(world, node, plan, log, c)
      requires began <= now
      modifies this
      ensures began == old(began) && old(now) <= now
      ensures r.Failure? ==> Explained(node, plan, r.error)
      ensures Unsent(world, node, plan, log)
      ensures r.Failure? ==> BeforeEffect(r.error)
      ensures r.Success? ==> Told(world, node, plan, old(log), log, r.value)
    {
      hide Next, Follows, Answered;
      var _ :- Check();
      var a := Send(c);
      if !a.NoLock? {
        OneMore(world, node, plan, old(log), Exchange(now - 1, c, a));
      }
      if !a.Replied? {
        NoReply(world, node, plan, log, began, now, now - 1, c);
      }
      if a.NoLock? {
        return Failure(NoEffect);
      }
      ghost var told := now;
      var _ :- Check();
      StillNoReply(world, node, plan, log, began, told, now);
      return if a.Replied? then Success(a.reply) else Failure(NoEffect);
    }

    // Like `Query`, but a lock that cannot be taken is reported only after the second check.
    method Ask(c: Command, ghost node: Node, ghost plan: Plan) returns (r: Result<Reply, EffectKnowledge>)
      requires Asking(world, node, plan, log, c)
      requires began <= now
      modifies this
      ensures began == old(began) && old(now) <= now
      ensures r.Failure? ==> Explained(node, plan, r.error)
      ensures Unsent(world, node, plan, log)
      ensures r.Failure? ==> BeforeEffect(r.error)
      ensures r.Success? ==> Told(world, node, plan, old(log), log, r.value)
    {
      hide Next, Follows, Answered;
      var _ :- Check();
      var a := Send(c);
      if !a.NoLock? {
        OneMore(world, node, plan, old(log), Exchange(now - 1, c, a));
      }
      if !a.Replied? {
        NoReply(world, node, plan, log, began, now, now - 1, c);
      }
      ghost var told := now;
      var _ :- Check();
      StillNoReply(world, node, plan, log, began, told, now);
      return if a.Replied? then Success(a.reply) else Failure(NoEffect);
    }

    method ResolveObject(node: Node, ghost plan: Plan) returns (r: Result<string, EffectKnowledge>)
      requires log == []
      requires began <= now
      modifies this
      ensures began == old(began) && old(now) <= now
      ensures r.Failure? ==> Explained(node, plan, r.error)
      ensures Unsent(world, node, plan, log)
      ensures r.Failure? ==> BeforeEffect(r.error)
      ensures r.Success? ==>
              Follows(world, node, plan, log) && Answered(log) && |log| == 1
              && ObjectOf(R(log, 0)) == Some(r.value)
    {
      var reply :- Ask(ResolveNode(node.id, node.contextId), node, plan);
      return if ObjectOf(reply).Some? then Success(ObjectOf(reply).value) else Failure(NoEffect);
    }

    method VerifyLive(node: Node, plan: Plan) returns (r: Result<(), EffectKnowledge>)
      requires Asking(world, node, plan, log, LayoutMetrics) && |log| == Looks(plan) && ObjectOf(R(log, 0)).Some?
      requires began <= now
      modifies this
      ensures began == old(began) && old(now) <= now
      ensures r.Failure? ==> Explained(node, plan, r.error)
      ensures Unsent(world, node, plan, log)
      ensures r.Failure? ==> BeforeEffect(r.error) && Justified(world, node, plan, log, r.error)
      ensures r.Success? ==>
                var k := Looks(plan);
                && Answered(log) && |log| == k + 3 && log[..k] == old(log)
                && SameElement(world, node, plan, R(log, k + 1), R(log, k + 2))
    {
      hide Next, Follows;
      var layout :- Query(LayoutMetrics, node, plan);
      LooksGoOn(world, node, plan, log);
      if !SameGeometry(world, node, layout) {
        return Failure(NoEffect);
      }
      var frame :- Ask(FrameTree, node, plan);
      LooksGoOn(world, node, plan, log);
      if frame.document.None? {
        return Failure(NoEffect);
      }
      var tree :- Query(PartialTree(node.id), node, plan);
      LooksEnd(world, node, plan, log);
      if !SameElement(world, node, plan, frame, tree) {
        return Failure(NoEffect);
      }
      return Success(());
    }

    // Sends an effect function, or a query after one; what a failure says depends on what was sent.
    method EffectCommand(c: Command, started: bool, ghost node: Node, ghost plan: Plan)
      returns (r: Result<Reply, EffectKnowledge>)
      requires Follows(world, node, plan, log) && Answered(log) && Next(world, node, plan, log) == Some(c)
      requires |log| == Queries(plan) + if started then 1 else 0
      requires !started ==>
               BoundaryAt(world, now - 3).Clear? && ProcessAt(world, now - 2)
               && BoundaryAt(world, now - 1).Clear?
      requires began <= now
      modifies this
      ensures began == old(began) && old(now) <= now
      ensures r.Failure? ==> Explained(node, plan, r.error)
      ensures Follows(world, node, plan, log) && |old(log)| <= |log| <= |old(log)| + 1 && log[..|old(log)|] == old(log)
      ensures !started && |log| == Queries(plan) + 1 ==> Guarded(world, log[Queries(plan)].at)
      ensures r.Failure? ==> (r.error.Unknown? <==> started || EffectSent(plan, log))
      ensures r.Failure? && !started ==> Justified(world, node, plan, log, r.error)
      ensures r.Success? ==> Told(world, node, plan, old(log), log, r.value) && log[|old(log)|].at == old(now) + 1
    {
      hide Next, Follows, Answered;
      assert log[..|log|] == log;
      if started {
        var _ :- CheckAfter();
      } else {
        var _ :- Check();
      }
      var a := Send(c);
      if !a.NoLock? {
        OneMore(world, node, plan, old(log), Exchange(now - 1, c, a));
      }
      if !a.Replied? {
        NoReply(world, node, plan, log, began, now, now - 1, c);
      }
      match a
      case Replied(reply, _) => return Success(reply);
      case NoLock => return Failure(if started then Unknown else NoEffect);
      case AfterSend(_) => return Failure(Unknown);
      case BeforeSend =>
        if started {
          return Failure(Unknown);
        }
        ghost var told := now;
        var _ :- Check();
        StillNoReply(world, node, plan, log, began, told, now);
        return Failure(NoEffect);
    }

    // The state of the object before the effect.
    method ProbeBefore(objectId: string, node: Node, ghost plan: Plan) returns (r: Result<Reply, EffectKnowledge>)
      requires Asking(world, node, plan, log, Probe(objectId, node.protected))
      requires began <= now
      modifies this
      ensures began == old(began) && old(now) <= now
      ensures r.Failure? ==> Explained(node, plan, r.error)
      ensures Unsent(world, node, plan, log)
      ensures r.Failure? ==> BeforeEffect(r.error)
      ensures r.Success? ==> Told(world, node, plan, old(log), log, r.value) && !r.value.failed
    {
      var reply :- Query(Probe(objectId, node.protected), node, plan);
      return if reply.failed || reply.value.None? then Failure(NoEffect) else Success(reply);
    }

    // Its state, value included, after the effect.
    method ProbeAfter(objectId: string, ghost node: Node, ghost plan: Plan) returns (r: Result<Reply, EffectKnowledge>)
      requires Follows(world, node, plan, log) && Answered(log) && |log| == Queries(plan) + 1
      requires Next(world, node, plan, log) == Some(Probe(objectId, false))
      requires began <= now
      modifies this
      ensures began == old(began) && old(now) <= now
      ensures r.Failure? ==> Explained(node, plan, r.error)
      ensures Follows(world, node, plan, log) && |old(log)| <= |log| <= |old(log)| + 1 && log[..|old(log)|] == old(log)
      ensures r.Failure? ==> r.error.Unknown?
      ensures r.Success? ==>
              Told(world, node, plan, old(log), log, r.value) && !r.value.failed
              && log[|old(log)|].at == old(now) + 1
    {
      var reply :- EffectCommand(Probe(objectId, false), true, node, plan);
      return if reply.failed || reply.value.None? then Failure(Unknown) else Success(reply);
    }

    // The look at the element itself, with which pressing and filling begin.
    method FindActionable(node: Node, plan: Plan) returns (r: Result<string, EffectKnowledge>)
      requires log == [] && !plan.PlanScroll?
      requires began <= now
      modifies this
      ensures began == old(began) && old(now) <= now
      ensures r.Failure? ==> Explained(node, plan, r.error)
      ensures Unsent(world, node, plan, log)
      ensures r.Failure? ==> BeforeEffect(r.error) && Justified(world, node, plan, log, r.error)
      ensures r.Success? ==>
              Asking(world, node, plan, log, LayoutMetrics) && |log| == 2
              && ObjectOf(R(log, 0)) == Some(r.value)
    {
      assert Follows(world, node, plan, log);
      hide Follows, Answered, Next, Actionable, ObjectOf;
      var _ :- VerifyProcess();
      var o :- ResolveObject(node, plan);
      PlainSteps(world, node, plan, log, o);
      ghost var before := log;
      var probe :- ProbeBefore(o, node, plan);
      Kept(log, before, 0);
      PlainSteps(world, node, plan, log, o);
      return if Actionable(probe, plan.PlanSetValue?) then Success(o) else Failure(NoEffect);
    }

    // The end that all three dispatchers share: the last checks, the effect function, and what the
    // page says about it.
    method Commit(c: Command, ghost node: Node, ghost plan: Plan) returns (r: Result<Reply, EffectKnowledge>)
      requires Follows(world, node, plan, log) && Answered(log) && Next(world, node, plan, log) == Some(c)
               && |log| == Queries(plan)
      requires began <= now
      modifies this
      ensures began == old(began) && old(now) <= now
      ensures r.Failure? ==> Explained(node, plan, r.error)
      ensures r.Failure? ==> Justified(world, node, plan, log, r.error)
      ensures r.Success? ==>
              Told(world, node, plan, old(log), log, r.value) && Guarded(world, log[|old(log)|].at)
              && Accepted(r.value)
    {
      hide Follows, Next, FlagOf, Justified, Guarded, BoundaryAt, ProcessAt;
      MayStop(world, node, plan, log);
      var _ :- Check();
      var _ :- VerifyProcess();
      var reply :- EffectCommand(c, false, node, plan);
      MayDoubt(world, node, plan, log);
      if !Accepted(reply) {
        NotAccepted(world, node, plan, log);
      }
      var _ :- CheckAfter();
      if reply.failed {
        return Failure(Unknown);
      }
      match FlagOf(reply, "eligible")
      case Some(eligible) => return if eligible then Success(reply) else Failure(NoEffect);
      case None => return Failure(Unknown);
    }

    method DispatchInvoke(node: Node) returns (r: Result<(), EffectKnowledge>)
      modifies this
      ensures Classified(world, node, PlanInvoke, log, r)
      ensures r.Failure? ==> Caused(world, node, PlanInvoke, log, r.error, old(now), now)
    {
      log, began := [], now;
      assert Follows(world, node, PlanInvoke, log);
      hide Follows, Answered, Next, SameElement, ObjectOf, FlagOf, Justified, Guarded, Accepted, BoundaryAt, ProcessAt;
      MayStop(world, node, PlanInvoke, log);
      var _ :- Check();
      var o :- FindActionable(node, PlanInvoke);
      MayStop(world, node, PlanInvoke, log);
      var _ :- Check();
      var _ :- VerifyProcess();
      ghost var before := log;
      var _ :- VerifyLive(node, PlanInvoke);
      Kept(log, before, 0);
      PlainSteps(world, node, PlanInvoke, log, o);
      var _ :- Commit(InvokeEffect(o), node, PlanInvoke);
      return Success(());
    }

    // After the effect: the process is still alive and the value reads back as the text.
    method ConfirmValue(o: string, text: Json.Text, ghost node: Node) returns (r: Result<(), EffectKnowledge>)
      requires |text| <= MAX_EDIT_BYTES
      requires Follows(world, node, PlanSetValue(text), log) && Answered(log) && |log| == 6
      requires ObjectOf(R(log, 0)) == Some(o) && Accepted(R(log, 5)) && Guarded(world, log[5].at)
      requires began <= now
      modifies this
      ensures began == old(began) && old(now) <= now
      ensures r.Failure? ==> Explained(node, PlanSetValue(text), r.error)
      ensures Classified(world, node, PlanSetValue(text), log, r)
    {
      ghost var plan := PlanSetValue(text);
      hide Follows, Next, ObjectOf, FlagOf, Justified, Guarded, Accepted, BoundaryAt, ReadsBack;
      MayDoubt(world, node, plan, log);
      PlainSteps(world, node, plan, log, o);
      var alive := ProcessAlive();
      if !alive {
        return Failure(Unknown);
      }
      ghost var before := log;
      var after := ProbeAfter(o, node, plan);
      assert EffectSent(plan, log) && log[5] == before[5];
      MayDoubt(world, node, plan, log);
      if after.Failure? {
        return Failure(after.error);
      }
      Kept(log, before, 5);
      Kept(log, before, 0);
      PlainSteps(world, node, plan, log, o);
      return if ReadsBack(world, text, after.value) then Success(()) else Failure(Unknown);
    }

    method DispatchSetValue(node: Node, text: Json.Text) returns (r: Result<(), EffectKnowledge>)
      modifies this
      ensures Classified(world, node, PlanSetValue(text), log, r)
      ensures r.Failure? ==> Caused(world, node, PlanSetValue(text), log, r.error, old(now), now)
    {
      log, began := [], now;
      ghost var plan := PlanSetValue(text);
      assert Follows(world, node, plan, log);
      hide Follows, Answered, Next, SameElement, ObjectOf, FlagOf, Justified, Guarded, Accepted, BoundaryAt, ProcessAt;
      MayStop(world, node, plan, log);
      var _ :- Check();
      if |text| > MAX_EDIT_BYTES {
        return Failure(NoEffect);
      }
      var o :- FindActionable(node, PlanSetValue(text));
      ghost var before := log;
      var _ :- VerifyLive(node, PlanSetValue(text));
      Kept(log, before, 0);
      PlainSteps(world, node, plan, log, o);
      before := log;
      var _ :- Commit(SetValueEffect(o, text), node, plan);
      Kept(log, before, 0);
      var _ :- ConfirmValue(o, text, node);
      return Success(());
    }

    // The pause between two looks at the position checks the boundary again and again.
    method WaitForStability() returns (r: Result<(), EffectKnowledge>)
      requires began <= now
      modifies `now
      ensures old(now) <= now
      ensures r.Failure? ==> Interrupted(r.error)
      ensures r.Failure? ==> BeforeEffect(r.error)
      ensures r.Success? ==>
                now == old(now) + world.waits + 1 && forall t | old(now) <= t < now :: BoundaryAt(world, t).Clear?
    {
      for i := 0 to world.waits + 1
        invariant now == old(now) + i && forall t | old(now) <= t < now :: BoundaryAt(world, t).Clear?
      {
        var _ :- Check();
      }
      return Success(());
    }

    // The element can scroll, holds still and is what the pointer would hit.
    method FindScrollable(node: Node, d: Direction) returns (r: Result<string, EffectKnowledge>)
      requires log == []
      requires began <= now
      modifies this
      ensures began == old(began) && old(now) <= now
      ensures r.Failure? ==> Explained(node, PlanScroll(d), r.error)
      ensures Unsent(world, node, PlanScroll(d), log)
      ensures r.Failure? ==> BeforeEffect(r.error) && Justified(world, node, PlanScroll(d), log, r.error)
      ensures r.Success? ==>
                Asking(world, node, PlanScroll(d), log, LayoutMetrics) && |log| == 6
                  && ObjectOf(R(log, 0)) == Some(r.value)
    {
      ghost var plan := PlanScroll(d);
      assert Follows(world, node, plan, log);
      hide Follows, Answered, Next, Scrollable, Steady, ObjectOf, Point, BoundaryAt, ProcessAt;
      var _ :- VerifyProcess();
      var o :- ResolveObject(node, plan);
      ScrollSteps(world, node, d, log, o);
      ghost var before := log;
      var probe :- Query(ScrollProbe(o), node, plan);
      Kept(log, before, 0);
      if !Scrollable(probe, d) {
        return Failure(NoEffect);
      }
      var p :- SteadyPoint(o, node, d);
      before := log;
      var hit :- Query(NodeAt(p.0, p.1), node, plan);
      Kept(log, before, 0);
      ScrollSteps(world, node, d, log, o);
      return if hit.hit == Some(node.id) then Success(o) else Failure(NoEffect);
    }

    // The middle of the element in the viewport, once two looks at its position agree.
    method SteadyPoint(ghost o: string, node: Node, ghost d: Direction) returns (r: Result<(int, int), EffectKnowledge>)
      requires Follows(world, node, PlanScroll(d), log) && Answered(log) && |log| == 2
      requires ObjectOf(R(log, 0)) == Some(o) && Scrollable(R(log, 1), d)
      requires began <= now
      modifies this
      ensures began == old(began) && old(now) <= now
      ensures r.Failure? ==> Explained(node, PlanScroll(d), r.error)
      ensures Unsent(world, node, PlanScroll(d), log)
      ensures r.Failure? ==> BeforeEffect(r.error)
      ensures r.Success? ==>
                && Asking(world, node, PlanScroll(d), log, NodeAt(r.value.0, r.value.1)) && |log| == 5
                && ObjectOf(R(log, 0)) == Some(o)
    {
      ghost var plan := PlanScroll(d);
      hide Follows, Answered, Next, Scrollable, Steady, ObjectOf, Point, BoundaryAt, ProcessAt;
      ScrollSteps(world, node, d, log, o);
      ghost var at2 := log;
      var first :- Query(BoxModel(node.id), node, plan);
      Kept(log, at2, 0);
      ScrollSteps(world, node, d, log, o);
      ghost var at3 := log;
      var _ :- WaitForStability();
      var second :- Query(BoxModel(node.id), node, plan);
      Kept(log, at3, 0);
      Kept(log, at3, 2);
      ScrollSteps(world, node, d, log, o);
      ghost var at4 := log;
      if !Steady(first, second) {
        return Failure(NoEffect);
      }
      var layout :- Query(LayoutMetrics, node, plan);
      Kept(log, at4, 0);
      Kept(log, at4, 3);
      ScrollSteps(world, node, d, log, o);
      var point := Point(world, second, layout);
      return if point.Some? then Success(point.value) else Failure(NoEffect);
    }

    method DispatchScroll(node: Node, d: Direction) returns (r: Result<(), EffectKnowledge>)
      modifies this
      ensures Classified(world, node, PlanScroll(d), log, r)
      ensures r.Failure? ==> Caused(world, node, PlanScroll(d), log, r.error, old(now), now)
    {
      log, began := [], now;
      ghost var plan := PlanScroll(d);
      assert Follows(world, node, plan, log);
      hide Follows, Answered, Next, SameElement, ObjectOf, FlagOf, Justified, Guarded, Accepted, Landed, BoundaryAt,
           ProcessAt, NamedRightly, Trouble, Unanswered, Refused;
      MayStop(world, node, plan, log);
      var _ :- Check();
      var o :- FindScrollable(node, d);
      MayStop(world, node, plan, log);
      var _ :- Check();
      var _ :- VerifyProcess();
      ghost var at6 := log;
      var _ :- VerifyLive(node, PlanScroll(d));
      Kept(log, at6, 0);
      ScrollSteps(world, node, d, log, o);
      ghost var at9 := log;
      var probe := Query(ScrollProbe(o), node, plan);
      MayStop(world, node, plan, log);
      if probe.Failure? {
        return Failure(probe.error);
      }
      Kept(log, at9, 0);
      ScrollSteps(world, node, d, log, o);
      if FlagOf(probe.value, DirectionName(d)) != Some(true) {
        NoWay(world, node, d, log);
        RefusalIsCause(world, node, plan, log, began, now);
        return Failure(NoEffect);
      }
      var reply :- Commit(ScrollEffect(o, Axis(d).0, Axis(d).1), node, plan);
      assert EffectSent(plan, log);
      MayDoubt(world, node, plan, log);
      if !Landed(d, reply) {
        NotLanded(world, node, d, log);
        RefusalIsCause(world, node, plan, log, began, now);
      }
      return if Landed(d, reply) then Success(()) else Failure(Unknown);
    }
  }
}
