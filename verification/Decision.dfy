// What the engine makes of the executor's answers: whether an action may be dispatched at all,
// and which terminal an attempted dispatch ends with.
module Decision {
  import opened Wrappers
  import opened Types
  import Json

  // ----- Requests and executor answers -----

  datatype Action =
    | Invoke | Click | TypeText | Press | Paste | Hotkey | Scroll | Move | Drag | SelectText
    | PerformSecondaryAction | SetValue(value: Json.Text)
    | Screenshot | Application | Window | Open | ClipboardWrite

  function Name(action: Action): string {
    match action
    case Invoke => "invoke"
    case Click => "click"
    case TypeText => "type_text"
    case Press => "press"
    case Paste => "paste"
    case Hotkey => "hotkey"
    case Scroll => "scroll"
    case Move => "move"
    case Drag => "drag"
    case SelectText => "select_text"
    case PerformSecondaryAction => "perform_secondary_action"
    case SetValue(_) => "set_value"
    case Screenshot => "screenshot"
    case Application => "application"
    case Window => "window"
    case Open => "open"
    case ClipboardWrite => "clipboard_write"
  }

  datatype Target = Element(fingerprintHash: string) | Coordinates | NoTarget

  datatype Policy =
    | NoVerification
    | SnapshotChanged
    | TargetState(expected: Json.Value)
    | TargetValueHash(sha256: Json.Text)

  datatype Request = Request(
    key: OutcomeKey,
    action: Action,
    target: Target,
    mode: InteractionMode,
    policy: Policy)

  // The executor's own configuration.
  datatype Session = Session(isolation: SessionIsolation, macos: bool)

  datatype ActionCapability = ActionCapability(action: string, route: DeliveryRoute, background: BackgroundSupport)

  datatype Capabilities = Capabilities(supported: seq<string>, facts: seq<ActionCapability>)

  datatype Observation = Observation(evidence: Evidence, state: Json.Value)

  datatype ExecutorError =
    | ObservationCancelled
    | ObservationExpired
    | StaleTarget
    | TargetNotFound
    | InvalidRequest
    | OtherError

  datatype EffectKnowledge = NoEffect | Unknown | CancelledKnown | ExpiredKnown

  datatype DispatchError = DispatchError(effect: EffectKnowledge, code: FailureCode)

  // What one look at the cancellation flag and then the deadline shows.
  datatype Boundary = Clear | IsCancelled | IsExpired

  // Everything the executor and the clock answer during one attempt, in order.
  datatype Attempt = Attempt(
    start: Boundary,
    capabilities: Result<Capabilities, ExecutorError>,
    afterCapabilities: Boundary,
    before: Result<Observation, ExecutorError>,
    resolved: Result<(), ExecutorError>,
    beforeDispatch: Boundary,
    contextBefore: Result<string, ExecutorError>,
    dispatched: Result<(), DispatchError>,
    afterDispatch: Boundary,
    contextAfter: Result<string, ExecutorError>,
    after: Result<Observation, ExecutorError>,
    afterVerify: Boundary)

  // ----- Requests -----

  predicate ValidIdentifier(s: string) {
    0 < |s| <= 256 &&
    forall c | c in s :: '0' <= c <= '9' || 'a' <= c <= 'z' || 'A' <= c <= 'Z' || c in {'-', '_', ':'}
  }

  // Actions on the desktop as a whole.
  predicate IsAuxiliary(action: Action) {
    action.Screenshot? || action.Application? || action.Window? || action.Open? || action.ClipboardWrite?
  }

  // Which actions fit which kind of target.
  predicate TargetFits(action: Action, target: Target, policy: Policy) {
    && (if IsAuxiliary(action) then target.NoTarget? && policy.NoVerification? else !target.NoTarget?)
    && (target.Coordinates? ==> action.Click? || action.Move? || action.Drag?)
    && (action.Drag? ==> target.Coordinates?)
    && (action.SelectText? || action.PerformSecondaryAction? ==> target.Element?)
  }

  // The part of request validation that ties a value action to its verification.
  predicate ValueIsFenced(q: Request, sha: Json.Text -> Json.Text) {
    match (q.action, q.policy)
    case (SetValue(value), TargetValueHash(sha256)) => IsHash(Json.AsChars(sha256)) && sha(value) == sha256
    case (SetValue(_), _) => false
    case (_, TargetValueHash(_)) => false
    case _ => true
  }

  // What is decided about a request before the engine looks at its ledger: the checks of the parts
  // that `Request` leaves out, and the verdict on its authority.
  datatype Screening = Screening(rest: bool, authorised: bool, sha: Json.Text -> Json.Text)

  predicate ValidRequest(q: Request, c: Screening) {
    && c.rest && !q.mode.UnknownMode? && ValidIdentifier(q.key.operationId) && TargetFits(q.action, q.target, q.policy)
    && (q.policy.TargetState? ==> Json.WithinLimits(q.policy.expected))
    && ValueIsFenced(q, c.sha)
  }

  predicate Admitted(q: Request, c: Screening) {
    ValidRequest(q, c) && c.authorised
  }

  method ValidateRequest(q: Request, c: Screening) returns (ok: bool)
    ensures ok <==> ValidRequest(q, c)
  {
    if !c.rest || q.mode.UnknownMode? || !ValidIdentifier(q.key.operationId)
      || !TargetFits(q.action, q.target, q.policy) {
      return false;
    }
    if q.policy.TargetState? {
      var small := Json.ValidateVerification(q.policy.expected);
      if !small {
        return false;
      }
    }
    return ValueIsFenced(q, c.sha);
  }

  // Which targets an action can have: the desktop as a whole takes none and no verification, a drag takes
  // coordinates, clicks and moves take either kind, and everything else takes an element.
  lemma TargetsOfActions(action: Action, target: Target, policy: Policy)
    ensures TargetFits(action, target, policy) <==>
              match action
              case Screenshot => target.NoTarget? && policy.NoVerification?
              case Application => target.NoTarget? && policy.NoVerification?
              case Window => target.NoTarget? && policy.NoVerification?
              case Open => target.NoTarget? && policy.NoVerification?
              case ClipboardWrite => target.NoTarget? && policy.NoVerification?
              case Drag => target.Coordinates?
              case Click => !target.NoTarget?
              case Move => !target.NoTarget?
              case _ => target.Element?
  {
  }

  // Operation IDs have 1 to 256 characters of these.
  lemma IdentifiersExactly(s: string)
    ensures ValidIdentifier(s) <==>
              1 <= |s| <= 256 && forall c | c in s ::
                c in "0123456789" || c in "abcdefghijklmnopqrstuvwxyz" || c in "ABCDEFGHIJKLMNOPQRSTUVWXYZ"
                  || c in "-_:"
  {
    forall c: char
      ensures '0' <= c <= '9' <==> c in "0123456789"
      ensures 'a' <= c <= 'z' <==> c in "abcdefghijklmnopqrstuvwxyz"
      ensures 'A' <= c <= 'Z' <==> c in "ABCDEFGHIJKLMNOPQRSTUVWXYZ"
    {
      Between(c, "0123456789");
      Between(c, "abcdefghijklmnopqrstuvwxyz");
      Between(c, "ABCDEFGHIJKLMNOPQRSTUVWXYZ");
    }
  }

  lemma Between(c: char, run: string)
    requires run != [] && forall i | 0 <= i < |run| :: run[i] as int == run[0] as int + i
    ensures run[0] <= c <= run[|run| - 1] <==> c in run
  {
    if run[0] <= c <= run[|run| - 1] {
      assert run[c as int - run[0] as int] == c;
    }
  }

  // A value to be set is verified by its own hash, and nothing else is.
  lemma FencedExactly(q: Request, sha: Json.Text -> Json.Text)
    ensures ValueIsFenced(q, sha) <==>
              && (q.action.SetValue? <==> q.policy.TargetValueHash?)
              && (q.action.SetValue? ==>
                  q.policy.sha256 == sha(q.action.value) && IsHash(Json.AsChars(q.policy.sha256)))
  {
  }

  // A request is admitted exactly if all of this holds.
  lemma AdmittedExactly(q: Request, c: Screening)
    ensures Admitted(q, c) <==>
              && c.rest && c.authorised && (q.mode.Interactive? || q.mode.BackgroundOnly?)
              && ValidIdentifier(q.key.operationId) && TargetFits(q.action, q.target, q.policy)
              && ValueIsFenced(q, c.sha)
              && (q.policy.TargetState? ==>
                    && Json.Nodes(q.policy.expected) <= 4096 && Json.Depth(q.policy.expected) <= 32
                    && Json.Bytes(q.policy.expected) <= 65536)
  {
  }

  // ----- Capability reports -----

  predicate RouteIsValid(c: ActionCapability) {
    if c.action in {"invoke", "set_value", "select_text", "perform_secondary_action"} then
      c.route.TargetAddressed?
    else if c.action == "application" then
      c.route.Pointer? && c.background.NoBackground?
    else if c.action in {"click", "drag", "type_text", "press", "paste", "hotkey", "move"} then
      c.route.Pointer? || c.route.PerProcessEvent?
    else if c.action == "scroll" then
      c.route.Pointer? || c.route.TargetAddressed? || c.route.PerProcessEvent?
    else
      false
  }

  predicate Distinct(names: seq<string>) {
    forall i, j | 0 <= i < j < |names| :: names[i] != names[j]
  }

  predicate DistinctFacts(facts: seq<ActionCapability>) {
    forall i, j | 0 <= i < j < |facts| :: facts[i].action != facts[j].action
  }

  function NamesOf(names: seq<string>): set<string> {
    set name | name in names
  }

  function FactNames(facts: seq<ActionCapability>): set<string> {
    set i | 0 <= i < |facts| :: facts[i].action
  }

  // No name is listed twice, every fact has a possible route, and the supported names are exactly
  // the names that have a fact.
  predicate Consistent(c: Capabilities) {
    && Distinct(c.supported) && DistinctFacts(c.facts)
    && (forall i | 0 <= i < |c.facts| :: RouteIsValid(c.facts[i]))
    && NamesOf(c.supported) == FactNames(c.facts)
  }

  function FactOf(facts: seq<ActionCapability>, name: string): Option<ActionCapability> {
    if facts == [] then None
    else if facts[0].action == name then Some(facts[0])
    else FactOf(facts[1..], name)
  }

  // The capability of an action, by a report that can be trusted about it.
  function StrictCapability(c: Capabilities, action: Action): Option<ActionCapability> {
    if Consistent(c) && Name(action) in c.supported then FactOf(c.facts, Name(action)) else None
  }

  lemma {:induction false} FactOfFinds(facts: seq<ActionCapability>, name: string)
    ensures var fact := FactOf(facts, name);
            && (fact.Some? <==> name in FactNames(facts))
            && (fact.Some? ==> fact.value in facts && fact.value.action == name)
  {
    if facts != [] {
      FactOfFinds(facts[1..], name);
      assert facts[0].action in FactNames(facts);
      forall n | n in FactNames(facts[1..]) ensures n in FactNames(facts) {
        var i :| 0 <= i < |facts[1..]| && facts[1..][i].action == n;
        assert facts[i + 1].action == n;
      }
      forall n | n in FactNames(facts) && n != facts[0].action ensures n in FactNames(facts[1..]) {
        var i :| 0 <= i < |facts| && facts[i].action == n;
        assert facts[1..][i - 1].action == n;
      }
    }
  }

  lemma SubsetOfSameSize(a: set<string>, b: set<string>)
    requires a <= b && |a| == |b|
    ensures a == b
  {
    assert b == a + (b - a);
  }

  // Collecting the supported names, giving up at the first repetition.
  method CollectNames(names: seq<string>) returns (r: Option<set<string>>)
    ensures r == if Distinct(names) then Some(NamesOf(names)) else None
  {
    var supported: set<string> := {};
    for i := 0 to |names|
      invariant supported == NamesOf(names[..i]) && Distinct(names[..i])
    {
      if names[i] in supported {
        var k :| 0 <= k < i && names[..i][k] == names[i];
        return None;
      }
      assert names[..i + 1] == names[..i] + [names[i]];
      supported := supported + {names[i]};
    }
    assert names[..|names|] == names;
    r := Some(supported);
  }

  // Collecting the facts by name, giving up at an impossible route or a repetition.
  method CollectFacts(facts: seq<ActionCapability>) returns (r: Option<map<string, ActionCapability>>)
    ensures r.Some? <==> DistinctFacts(facts) && forall i | 0 <= i < |facts| :: RouteIsValid(facts[i])
    ensures r.Some? ==> r.value.Keys == FactNames(facts)
    ensures r.Some? ==> forall i | 0 <= i < |facts| ::
            facts[i].action in r.value && r.value[facts[i].action] == facts[i]
  {
    hide RouteIsValid, FactNames, DistinctFacts;
    NoFacts();
    var found: map<string, ActionCapability> := map[];
    for i := 0 to |facts|
      invariant found.Keys == FactNames(facts[..i]) && DistinctFacts(facts[..i])
      invariant forall k | 0 <= k < i :: RouteIsValid(facts[k])
      invariant forall k | 0 <= k < i :: facts[k].action in found && found[facts[k].action] == facts[k]
    {
      if !RouteIsValid(facts[i]) {
        return None;
      }
      FactNamesSnoc(facts, i);
      if facts[i].action in found {
        return None;
      }
      found := found[facts[i].action := facts[i]];
    }
    assert facts[..|facts|] == facts;
    r := Some(found);
  }

  // The code compares sizes and one inclusion; that is enough for the two name sets to be equal.
  method StrictActionCapability(c: Capabilities, action: Action) returns (r: Option<ActionCapability>)
    ensures r == StrictCapability(c, action)
    ensures r.Some? ==> r.value in c.facts && r.value.action == Name(action) && RouteIsValid(r.value)
  {
    hide RouteIsValid, Name, FactOf, FactNames, NamesOf, Distinct, DistinctFacts;
    var supported := CollectNames(c.supported);
    if supported.None? {
      return None;
    }
    var facts := CollectFacts(c.facts);
    if facts.None? {
      return None;
    }
    assert |facts.value| == |facts.value.Keys|;
    if |supported.value| != |facts.value| || exists name :: name in supported.value && name !in facts.value {
      return None;
    }
    SubsetOfSameSize(supported.value, facts.value.Keys);
    FactOfFinds(c.facts, Name(action));
    SupportedNames(c.supported, Name(action));
    if Name(action) !in supported.value {
      return None;
    }
    r := Some(facts.value[Name(action)]);
  }

  lemma SupportedNames(names: seq<string>, name: string)
    ensures name in NamesOf(names) <==> name in names
  {
  }

  lemma NoFacts()
    ensures FactNames([]) == {} && DistinctFacts([])
  {
  }

  lemma FactNamesSnoc(facts: seq<ActionCapability>, i: nat)
    requires i < |facts|
    ensures DistinctFacts(facts[..i + 1]) <==> DistinctFacts(facts[..i]) && facts[i].action !in FactNames(facts[..i])
    ensures DistinctFacts(facts) ==> DistinctFacts(facts[..i + 1])
    ensures FactNames(facts[..i + 1]) == FactNames(facts[..i]) + {facts[i].action}
  {
    var a, b := facts[..i + 1], facts[..i];
    forall n | n in FactNames(a) ensures n in FactNames(b) + {facts[i].action} {
      var k :| 0 <= k < |a| && a[k].action == n;
      assert k < i ==> b[k].action == n;
    }
    forall n | n in FactNames(b) ensures n in FactNames(a) {
      var k :| 0 <= k < |b| && b[k].action == n;
      assert a[k].action == n;
    }
    assert a[i].action in FactNames(a);
    if DistinctFacts(a) {
      assert forall k | 0 <= k < i :: b[k] == a[k];
    }
    if DistinctFacts(b) && facts[i].action !in FactNames(b) {
      forall j, k | 0 <= j < k < |a| ensures a[j].action != a[k].action {
        assert b[j].action in FactNames(b);
      }
    }
  }

  predicate BackgroundAuthorized(c: ActionCapability, isolation: SessionIsolation) {
    match isolation
    case SharedDesktop => c.route.TargetAddressed? && c.background.Guarded?
    case HostIsolated => c.background.Guarded? || c.background.HostIsolatedOnly?
    case UnknownIsolation => false
  }

  // ----- Before the dispatch -----

  function ProtocolFailure(error: ExecutorError): (t: Terminal)
    ensures NoEffectTerminal(t)
  {
    match error
    case ObservationCancelled => CancelledBeforeEffect
    case ObservationExpired => ExpiredBeforeEffect
    case StaleTarget => Rejected(StaleTargetCode)
    case TargetNotFound => Rejected(TargetNotFoundCode)
    case InvalidRequest => Rejected(InvalidRequestCode)
    case OtherError => Failed(DispatchFailedCode)
  }

  datatype Permit = Permit(capability: ActionCapability, before: Observation, context: Option<string>)

  function AtBoundary(b: Boundary): Result<(), Terminal> {
    match b
    case Clear => Success(())
    case IsCancelled => Failure(CancelledBeforeEffect)
    case IsExpired => Failure(ExpiredBeforeEffect)
  }

  function OrFail<T>(r: Result<T, ExecutorError>): Result<T, Terminal> {
    match r
    case Success(v) => Success(v)
    case Failure(e) => Failure(ProtocolFailure(e))
  }

  function Need(condition: bool): Result<(), Terminal> {
    if condition then Success(()) else Failure(Rejected(UnsupportedCode))
  }

  // The foreground context that must be the same afterwards, where one is needed.
  function SampleContext(q: Request, s: Session, a: Attempt): Result<Option<string>, Terminal> {
    if !(q.mode.BackgroundOnly? && s.isolation.SharedDesktop?) then Success(None)
    else
      match a.contextBefore
      case Success(hash) => Success(Some(hash))
      case Failure(ObservationCancelled) => Failure(CancelledBeforeEffect)
      case Failure(ObservationExpired) => Failure(ExpiredBeforeEffect)
      case Failure(_) => Failure(Rejected(UnsupportedCode))
  }

  // All checks between the grant and the dispatch, in order.
  function Gate(q: Request, s: Session, a: Attempt): (r: Result<Permit, Terminal>)
    ensures r.Failure? ==> NoEffectTerminal(r.error)
  {
    var _ :- AtBoundary(a.start);
    var _ :- Need(!s.isolation.UnknownIsolation?);
    var _ :- AtBoundary(a.afterCapabilities);
    var capabilities :- OrFail(a.capabilities);
    var capability := StrictCapability(capabilities, q.action);
    var _ :- Need(capability.Some?);
    var _ :- Need(q.mode.BackgroundOnly? ==> BackgroundAuthorized(capability.value, s.isolation));
    var before :- OrFail(a.before);
    var _ :- OrFail(a.resolved);
    var _ :- AtBoundary(a.beforeDispatch);
    var context :- SampleContext(q, s, a);
    Success(Permit(capability.value, before, context))
  }

  // Every action has a name of its own.
  lemma NamesExactly(action: Action)
    ensures Name(action) == "invoke" <==> action.Invoke?
    ensures Name(action) == "click" <==> action.Click?
    ensures Name(action) == "type_text" <==> action.TypeText?
    ensures Name(action) == "press" <==> action.Press?
    ensures Name(action) == "paste" <==> action.Paste?
    ensures Name(action) == "hotkey" <==> action.Hotkey?
    ensures Name(action) == "scroll" <==> action.Scroll?
    ensures Name(action) == "move" <==> action.Move?
    ensures Name(action) == "drag" <==> action.Drag?
    ensures Name(action) == "select_text" <==> action.SelectText?
    ensures Name(action) == "perform_secondary_action" <==> action.PerformSecondaryAction?
    ensures Name(action) == "set_value" <==> action.SetValue?
    ensures Name(action) == "screenshot" <==> action.Screenshot?
    ensures Name(action) == "application" <==> action.Application?
    ensures Name(action) == "window" <==> action.Window?
    ensures Name(action) == "open" <==> action.Open?
    ensures Name(action) == "clipboard_write" <==> action.ClipboardWrite?
  {
  }

  // Which actions a report may list with which route and support, and which it may not list at all.
  lemma RoutesOfActions(action: Action, route: DeliveryRoute, background: BackgroundSupport)
    ensures RouteIsValid(ActionCapability(Name(action), route, background)) <==>
              match action
              case Invoke => route.TargetAddressed?
              case SetValue(_) => route.TargetAddressed?
              case SelectText => route.TargetAddressed?
              case PerformSecondaryAction => route.TargetAddressed?
              case Application => route.Pointer? && background.NoBackground?
              case Scroll => !route.UnknownRoute?
              case Screenshot => false
              case Window => false
              case Open => false
              case ClipboardWrite => false
              case _ => route.Pointer? || route.PerProcessEvent?
  {
  }

  // An attempt may dispatch exactly if every single check is passed; the order does not matter. In the
  // background that takes a guarded, target-addressed action on a shared desktop, and an action that is
  // guarded or made for isolated hosts on an isolated host.
  lemma GatePermits(q: Request, s: Session, a: Attempt)
    ensures Gate(q, s, a).Success? <==>
              && a.start.Clear? && a.afterCapabilities.Clear? && a.beforeDispatch.Clear?
              && !s.isolation.UnknownIsolation?
              && a.capabilities.Success? && Consistent(a.capabilities.value)
              && (exists fact :: fact in a.capabilities.value.facts && fact.action == Name(q.action)
                    && (q.mode.BackgroundOnly? ==>
                          || (s.isolation.SharedDesktop? && fact.route.TargetAddressed? && fact.background.Guarded?)
                          || (s.isolation.HostIsolated?
                              && (fact.background.Guarded? || fact.background.HostIsolatedOnly?))))
              && a.before.Success? && a.resolved.Success?
              && (q.mode.BackgroundOnly? && s.isolation.SharedDesktop? ==> a.contextBefore.Success?)
    ensures Gate(q, s, a).Success? ==>
              var p := Gate(q, s, a).value;
              && p.capability in a.capabilities.value.facts && p.capability.action == Name(q.action)
              && p.before == a.before.value
              && p.context == if q.mode.BackgroundOnly? && s.isolation.SharedDesktop?
                 then Some(a.contextBefore.value) else None
  {
    if a.capabilities.Success? && Consistent(a.capabilities.value) {
      var c := a.capabilities.value;
      FactOfFinds(c.facts, Name(q.action));
      SupportedNames(c.supported, Name(q.action));
      var fact := FactOf(c.facts, Name(q.action));
      forall f | f in c.facts && f.action == Name(q.action) ensures fact == Some(f) {
        SameFact(c.facts, f);
      }
      NamesOfFacts(c.facts, Name(q.action));
    }
    hide Consistent, Name, FactOf, FactNames, NamesOf;
  }

  // Background support as such, whatever else is checked.
  lemma SupportExactly(c: ActionCapability, isolation: SessionIsolation)
    ensures BackgroundAuthorized(c, isolation) <==>
              || (isolation.SharedDesktop? && c.route.TargetAddressed? && c.background.Guarded?)
              || (isolation.HostIsolated? && (c.background.Guarded? || c.background.HostIsolatedOnly?))
  {
  }

  lemma NamesOfFacts(facts: seq<ActionCapability>, name: string)
    ensures name in FactNames(facts) <==> exists f :: f in facts && f.action == name
  {
    if f :| f in facts && f.action == name {
      var i :| 0 <= i < |facts| && facts[i] == f;
      assert facts[i].action == name;
    }
  }

  lemma {:induction false} SameFact(facts: seq<ActionCapability>, f: ActionCapability)
    requires DistinctFacts(facts) && f in facts
    ensures FactOf(facts, f.action) == Some(f)
  {
    if facts[0] != f {
      assert DistinctFacts(facts[1..]);
      var i :| 0 <= i < |facts| && facts[i] == f;
      assert facts[1..][i - 1] == f;
      SameFact(facts[1..], f);
    }
  }

  // Which actions can run in the background at all.
  lemma BackgroundActions(q: Request, s: Session, a: Attempt)
    requires Gate(q, s, a).Success? && q.mode.BackgroundOnly?
    ensures !q.action.Application? && !s.isolation.UnknownIsolation?
    ensures s.isolation.SharedDesktop? ==>
              || q.action.Invoke? || q.action.SetValue? || q.action.SelectText?
              || q.action.PerformSecondaryAction? || q.action.Scroll?
    ensures var fact := Gate(q, s, a).value.capability;
            && !fact.background.NoBackground?
            && (s.isolation.SharedDesktop? ==> fact.background.Guarded? && fact.route.TargetAddressed?)
            && RouteIsValid(fact)
  {
    GatePermits(q, s, a);
    var fact := Gate(q, s, a).value.capability;
    assert fact in a.capabilities.value.facts;
    RoutesOfActions(q.action, fact.route, fact.background);
    hide RouteIsValid, Name;
  }

  // An executor error that stops a call before the dispatch keeps its meaning.
  lemma FailureNamesError(error: ExecutorError)
    ensures ProtocolFailure(error) == CancelledBeforeEffect <==> error == ObservationCancelled
    ensures ProtocolFailure(error) == ExpiredBeforeEffect <==> error == ObservationExpired
    ensures ProtocolFailure(error) == Rejected(StaleTargetCode) <==> error == ExecutorError.StaleTarget
    ensures ProtocolFailure(error) == Rejected(TargetNotFoundCode) <==> error == ExecutorError.TargetNotFound
    ensures ProtocolFailure(error) == Rejected(InvalidRequestCode) <==> error == ExecutorError.InvalidRequest
    ensures ProtocolFailure(error) == Failed(DispatchFailedCode) <==> error == OtherError
  {
  }

  // What each check would answer on its own, in the order in which they are made.
  function Verdicts(q: Request, s: Session, a: Attempt): seq<Option<Terminal>> {
    [Stop(a.start),
     if s.isolation.UnknownIsolation? then Some(Rejected(UnsupportedCode)) else None,
     Stop(a.afterCapabilities),
     ErrorOf(a.capabilities),
     if a.capabilities.Success? && StrictCapability(a.capabilities.value, q.action).None?
     then Some(Rejected(UnsupportedCode)) else None,
     if a.capabilities.Success? && q.mode.BackgroundOnly?
       && var fact := StrictCapability(a.capabilities.value, q.action);
          fact.Some? && !BackgroundAuthorized(fact.value, s.isolation)
     then Some(Rejected(UnsupportedCode)) else None,
     ErrorOf(a.before),
     ErrorOf(a.resolved),
     Stop(a.beforeDispatch),
     if !q.mode.BackgroundOnly? || !s.isolation.SharedDesktop? || a.contextBefore.Success? then None
     else if a.contextBefore.error.ObservationCancelled? || a.contextBefore.error.ObservationExpired?
     then ErrorOf(a.contextBefore)
     else Some(Rejected(UnsupportedCode))]
  }

  function Stop(b: Boundary): Option<Terminal> {
    if b.IsCancelled? then Some(CancelledBeforeEffect) else if b.IsExpired? then Some(ExpiredBeforeEffect) else None
  }

  function ErrorOf<T>(r: Result<T, ExecutorError>): Option<Terminal> {
    if r.Success? then None else Some(ProtocolFailure(r.error))
  }

  // A refused call ends with the verdict of the first check that fails.
  lemma FirstRefusalCounts(q: Request, s: Session, a: Attempt)
    ensures Gate(q, s, a).Success? <==> forall i | 0 <= i < 10 :: Verdicts(q, s, a)[i].None?
    ensures Gate(q, s, a).Failure? ==>
              exists i :: 0 <= i < 10 && Verdicts(q, s, a)[i] == Some(Gate(q, s, a).error)
                          && forall j | 0 <= j < i :: Verdicts(q, s, a)[j].None?
  {
    hide StrictCapability, BackgroundAuthorized;
    var v := Verdicts(q, s, a);
    var i := if v[0].Some? then 0 else if v[1].Some? then 1 else if v[2].Some? then 2 else if v[3].Some? then 3
             else if v[4].Some? then 4 else if v[5].Some? then 5 else if v[6].Some? then 6
             else if v[7].Some? then 7 else if v[8].Some? then 8 else 9;
    assert Gate(q, s, a).Failure? ==> v[i] == Some(Gate(q, s, a).error) && forall j | 0 <= j < i :: v[j].None?;
  }

  predicate Reports(a: Attempt, error: ExecutorError) {
    || a.capabilities == Failure(error) || a.before == Failure(error)
    || a.resolved == Failure(error) || a.contextBefore == Failure(error)
  }

  // A refusal is called cancelled or expired only if the flag, the clock or the executor said so.
  lemma GateRefuses(q: Request, s: Session, a: Attempt)
    requires Gate(q, s, a).Failure?
    ensures Gate(q, s, a).error.CancelledBeforeEffect? ==>
              || a.start.IsCancelled? || a.afterCapabilities.IsCancelled? || a.beforeDispatch.IsCancelled?
              || Reports(a, ObservationCancelled)
    ensures Gate(q, s, a).error.ExpiredBeforeEffect? ==>
              || a.start.IsExpired? || a.afterCapabilities.IsExpired? || a.beforeDispatch.IsExpired?
              || Reports(a, ObservationExpired)
  {
    hide StrictCapability, BackgroundAuthorized;
  }

  // ----- After the dispatch -----

  function ContextAfter(q: Request, s: Session, before: Option<string>,
                        after: Result<string, ExecutorError>): ContextPreservation {
    if !q.mode.BackgroundOnly? then NotApplicable
    else if s.isolation.HostIsolated? then IsolatedByHost
    else if before.None? then Unavailable
    else if after.Failure? then Unavailable
    else if after.value == before.value then UnchangedAtBoundaries
    else Changed
  }

  const VALUE_HASH: Json.Text := [118, 97, 108, 117, 101, 95, 104, 97, 115, 104]

  function Member(v: Json.Value, key: Json.Text): Option<Json.Value> {
    if v.Object? then Lookup(v.entries, key) else None
  }

  function Lookup(es: seq<Json.Entry>, key: Json.Text): Option<Json.Value> {
    if es == [] then None else if es[0].key == key then Some(es[0].value) else Lookup(es[1..], key)
  }

  // The post-action observation is of the requested target, which has not changed in between.
  predicate SameTarget(before: Evidence, after: Evidence, expected: Option<string>) {
    && before.targetFingerprintHash.Some?
    && before.targetFingerprintHash == after.targetFingerprintHash
    && before.targetFingerprintHash == expected
    && before.displayGeometryHash == after.displayGeometryHash
  }

  // JSON values are compared without regard to key order, which is equality of canonical forms.
  function Verify(policy: Policy, before: Observation, after: Option<Observation>, expected: Option<string>): Effect {
    match (policy, after)
    case (NoVerification, _) => ExecutedUnverified
    case (_, None) => ExecutedUnverified
    case (SnapshotChanged, Some(_)) => ExecutedUnverified
    case (TargetValueHash(sha256), Some(o)) =>
      if Member(o.state, VALUE_HASH) == Some(Json.String(sha256)) && SameTarget(before.evidence, o.evidence, expected)
      then Verified else ExecutedUnverified
    case (TargetState(state), Some(o)) =>
      if Json.Canonical(o.state) == Json.Canonical(state) && SameTarget(before.evidence, o.evidence, expected)
      then Verified else ExecutedUnverified
  }

  function PointerRoute(s: Session): DeliveryRoute {
    if s.macos then PerProcessEvent else Pointer
  }

  function RequestRoute(q: Request, s: Session): DeliveryRoute {
    if !q.target.Element? then Pointer
    else
      match q.action
      case Invoke => TargetAddressed
      case SetValue(_) => TargetAddressed
      case SelectText => TargetAddressed
      case PerformSecondaryAction => TargetAddressed
      case Scroll => if s.macos then PointerRoute(s) else TargetAddressed
      case _ => PointerRoute(s)
  }

  function RecoveredContext(mode: InteractionMode, isolation: SessionIsolation): ContextPreservation {
    if mode.Interactive? then NotApplicable
    else if mode.BackgroundOnly? && isolation.HostIsolated? then IsolatedByHost
    else Unavailable
  }

  function EmptyReceipt(q: Request, s: Session): Receipt {
    Receipt(Name(q.action), q.key.actionHash, RequestRoute(q, s), s.isolation, q.mode,
            RecoveredContext(q.mode, s.isolation), UnknownEffect, None, None)
  }

  function OkOption<T, E>(r: Result<T, E>): Option<T> {
    if r.Success? then Some(r.value) else None
  }

  function ExpectedFingerprint(q: Request): Option<string> {
    if q.target.Element? then Some(q.target.fingerprintHash) else None
  }

  // The receipt of a dispatch that returned Ok well within its boundaries, and whether the
  // boundary was reached while looking at the result.
  function Observed(q: Request, s: Session, p: Permit, a: Attempt): (Receipt, bool) {
    var context := ContextAfter(q, s, p.context, a.contextAfter);
    var after := OkOption(a.after);
    var late := !a.afterVerify.Clear? || a.after == Failure(ObservationCancelled)
      || a.after == Failure(ObservationExpired);
    var effect := if late || context.Changed? || context.Unavailable? then UnknownEffect
                  else Verify(q.policy, p.before, after, ExpectedFingerprint(q));
    (Receipt(Name(q.action), q.key.actionHash, p.capability.route, s.isolation, q.mode, context, effect,
             Some(p.before.evidence), if after.Some? then Some(after.value.evidence) else None), late)
  }

  // The terminal of an attempted dispatch, and whether it may have had an effect.
  function Settle(q: Request, s: Session, p: Permit, a: Attempt): (r: (Terminal, bool))
    ensures r.1 <==> a.dispatched.Success? || a.dispatched.error.effect.Unknown?
    ensures if r.1 then EffectTerminal(r.0) else NoEffectTerminal(r.0)
  {
    var unknown := EmptyReceipt(q, s).(before := Some(p.before.evidence),
                                       context := ContextAfter(q, s, p.context, a.contextAfter));
    match a.dispatched
    case Success(_) =>
      if !a.afterDispatch.Clear? then (OutcomeUnknown(unknown, BoundaryReached), true)
      else
        var (receipt, late) := Observed(q, s, p, a);
        if !receipt.effect.UnknownEffect? && (q.policy.NoVerification? || receipt.effect.Verified?)
        then (Succeeded(receipt), true)
        else (OutcomeUnknown(receipt,
                             if late then BoundaryReached
                             else if receipt.context.Changed? || receipt.context.Unavailable? then ContextUnproven
                             else VerificationFailed), true)
    case Failure(error) =>
      match error.effect
      case Unknown => (OutcomeUnknown(unknown, EffectUnknown), true)
      case CancelledKnown => (CancelledBeforeEffect, false)
      case ExpiredKnown => (ExpiredBeforeEffect, false)
      case NoEffect =>
        match a.afterDispatch
        case IsCancelled => (CancelledBeforeEffect, false)
        case IsExpired => (ExpiredBeforeEffect, false)
        case Clear => (Rejected(error.code), false)
  }

  // Which terminal an attempt ends with, for every answer of the executor and the clock.
  lemma SettlesExactly(q: Request, s: Session, p: Permit, a: Attempt)
    ensures var t := Settle(q, s, p, a).0;
            var late := !a.afterVerify.Clear?
                        || a.after == Failure(ObservationCancelled) || a.after == Failure(ObservationExpired);
            var context := ContextAfter(q, s, p.context, a.contextAfter);
            match a.dispatched
            case Failure(error) =>
              && (t.OutcomeUnknown? <==> error.effect.Unknown?) && (t.OutcomeUnknown? ==> t.message == EffectUnknown)
              && (t.CancelledBeforeEffect? <==>
                    error.effect.CancelledKnown? || (error.effect.NoEffect? && a.afterDispatch.IsCancelled?))
              && (t.ExpiredBeforeEffect? <==>
                    error.effect.ExpiredKnown? || (error.effect.NoEffect? && a.afterDispatch.IsExpired?))
              && (error.effect.NoEffect? && a.afterDispatch.Clear? ==> t == Rejected(error.code))
            case Success(_) =>
              && (t.Succeeded? || t.OutcomeUnknown?)
              && (t.OutcomeUnknown? ==>
                    && (t.message == BoundaryReached <==> !a.afterDispatch.Clear? || late)
                    && (t.message == ContextUnproven <==>
                          a.afterDispatch.Clear? && !late && (context.Changed? || context.Unavailable?))
                    && (t.message in {BoundaryReached, ContextUnproven, VerificationFailed}))
  {
    hide Verify, ContextAfter, EmptyReceipt;
  }

  // What the engine says about the foreground context. It is unchanged only if it could be sampled
  // twice with the same result, and only for background actions on a shared desktop.
  lemma ContextMeans(q: Request, s: Session, a: Attempt)
    requires Gate(q, s, a).Success?
    ensures var context := ContextAfter(q, s, Gate(q, s, a).value.context, a.contextAfter);
            && (context.NotApplicable? <==> !q.mode.BackgroundOnly?)
            && (context.IsolatedByHost? <==> q.mode.BackgroundOnly? && s.isolation.HostIsolated?)
            && (q.mode.BackgroundOnly? && s.isolation.SharedDesktop? ==>
                  && a.contextBefore.Success?
                  && (context.Unavailable? <==> a.contextAfter.Failure?)
                  && (context.UnchangedAtBoundaries? <==> a.contextAfter == a.contextBefore)
                  && (context.Changed? <==> a.contextAfter.Success? && a.contextAfter != a.contextBefore))
  {
    GatePermits(q, s, a);
    hide Gate;
  }

  // A receipt recovered without any sample says what a run would say that could not take one.
  lemma RecoveredContextFits(q: Request, s: Session, error: ExecutorError)
    requires !q.mode.UnknownMode?
    ensures RecoveredContext(q.mode, s.isolation) == ContextAfter(q, s, None, Failure(error))
    ensures forall isolation :: RecoveredContext(UnknownMode, isolation) == Unavailable
  {
  }

  // Every receipt names the request it belongs to, the observation made before the dispatch, the one
  // made afterwards if there is one, and no other route than the report or the action allows.
  lemma ReceiptIsTrue(q: Request, s: Session, a: Attempt)
    requires Gate(q, s, a).Success?
    ensures var p := Gate(q, s, a).value;
            var t := Settle(q, s, p, a).0;
            t.Succeeded? || t.OutcomeUnknown? ==>
              var r := t.receipt;
              && r.actionName == Name(q.action) && r.actionHash == q.key.actionHash
              && r.isolation == s.isolation && r.mode == q.mode && r.before == Some(a.before.value.evidence)
              && r.context == ContextAfter(q, s, p.context, a.contextAfter)
              && (if a.dispatched.Success? && a.afterDispatch.Clear?
                  then r.route == p.capability.route
                       && r.after == (if a.after.Success? then Some(a.after.value.evidence) else None)
                  else r.route == RequestRoute(q, s) && r.after == None && r.effect == UnknownEffect)
              && (t.Succeeded? ==> r.effect == if q.policy.NoVerification? then ExecutedUnverified else Verified)
  {
    GatePermits(q, s, a);
    hide Gate, ContextAfter, Name;
  }

  // The route of a receipt when no report is at hand is one that a report may give, wherever the
  // request is valid and the action is one that can be dispatched at all.
  lemma RouteFits(q: Request, s: Session, background: BackgroundSupport)
    requires TargetFits(q.action, q.target, q.policy) && !IsAuxiliary(q.action)
    ensures RouteIsValid(ActionCapability(Name(q.action), RequestRoute(q, s), background))
    ensures RequestRoute(q, s) ==
              if q.target.Coordinates? then Pointer
              else if q.action.Invoke? || q.action.SetValue? || q.action.SelectText? || q.action.PerformSecondaryAction?
              then TargetAddressed
              else if s.macos then PerProcessEvent
              else if q.action.Scroll? then TargetAddressed
              else Pointer
  {
    RoutesOfActions(q.action, RequestRoute(q, s), background);
    hide RouteIsValid, Name;
  }

  lemma {:induction false} LookupFinds(es: seq<Json.Entry>, key: Json.Text)
    requires Json.DistinctKeys(es)
    ensures Lookup(es, key).None? <==> forall i | 0 <= i < |es| :: es[i].key != key
    ensures forall i | 0 <= i < |es| && es[i].key == key :: Lookup(es, key) == Some(es[i].value)
  {
    if es != [] {
      assert Json.DistinctKeys(es[1..]);
      LookupFinds(es[1..], key);
      assert forall i | 1 <= i < |es| :: es[i] == es[1..][i - 1];
    }
  }

  // What has been verified: the requested state or value hash, on the target of the request, which has
  // kept its fingerprint and its geometry.
  lemma VerifiesExactly(policy: Policy, before: Observation, after: Option<Observation>, expected: Option<string>)
    requires after.Some? ==> Json.Valid(after.value.state)
    requires policy.TargetState? ==> Json.Valid(policy.expected)
    ensures Verify(policy, before, after, expected) in {Verified, ExecutedUnverified}
    ensures Verify(policy, before, after, expected).Verified? <==>
              && after.Some? && expected.Some?
              && before.evidence.targetFingerprintHash == expected
              && after.value.evidence.targetFingerprintHash == expected
              && before.evidence.displayGeometryHash == after.value.evidence.displayGeometryHash
              && match policy
                 case TargetState(state) => Json.Same(after.value.state, state)
                 case TargetValueHash(sha256) =>
                   && after.value.state.Object?
                   && exists e :: e in after.value.state.entries
                                  && Json.AsChars(e.key) == "value_hash" && e.value == Json.String(sha256)
                 case _ => false
  {
    if policy.TargetState? && after.Some? {
      Json.CanonicalEqual(after.value.state, policy.expected);
    }
    if policy.TargetValueHash? && after.Some? && after.value.state.Object? {
      MemberIs(after.value.state.entries, Json.String(policy.sha256));
    }
    hide Json.Canonical, Json.Same, Json.Valid, Lookup;
  }

  lemma MemberIs(es: seq<Json.Entry>, v: Json.Value)
    requires Json.DistinctKeys(es)
    ensures Lookup(es, VALUE_HASH) == Some(v) <==>
            exists e :: e in es && Json.AsChars(e.key) == "value_hash" && e.value == v
  {
    LookupFinds(es, VALUE_HASH);
    ValueHashIs(VALUE_HASH);
    if Lookup(es, VALUE_HASH) == Some(v) {
      var i :| 0 <= i < |es| && es[i].key == VALUE_HASH;
      assert es[i] in es;
    }
    if e :| e in es && Json.AsChars(e.key) == "value_hash" && e.value == v {
      ValueHashIs(e.key);
      var i :| 0 <= i < |es| && es[i] == e;
    }
  }

  lemma ValueHashIs(key: Json.Text)
    ensures Json.AsChars(key) == "value_hash" <==> key == VALUE_HASH
  {
    var name := "value_hash";
    assert |VALUE_HASH| == |name| && forall i | 0 <= i < |name| :: VALUE_HASH[i] as char == name[i];
    if Json.AsChars(key) == name {
      assert |key| == |name|;
      forall i | 0 <= i < |key| ensures key[i] == VALUE_HASH[i] {
        assert Json.AsChars(key)[i] == name[i];
      }
    }
  }

  // ----- What a fresh success proves -----

  // Exactly when an attempt that passed the gate succeeds.
  lemma SucceedsExactly(q: Request, s: Session, a: Attempt)
    requires Gate(q, s, a).Success?
    ensures var p := Gate(q, s, a).value;
            var context := ContextAfter(q, s, p.context, a.contextAfter);
            Settle(q, s, p, a).0.Succeeded? <==>
              && a.dispatched.Success? && a.afterDispatch.Clear? && a.afterVerify.Clear?
              && a.after != Failure(ObservationCancelled) && a.after != Failure(ObservationExpired)
              && !context.Changed? && !context.Unavailable?
              && (q.policy.NoVerification?
                  || Verify(q.policy, p.before, OkOption(a.after), ExpectedFingerprint(q)).Verified?)
  {
  }

  // The same without the names used above: an attempt that passed the gate succeeds if and only if it was
  // dispatched, met no boundary, kept its context, and observed what it was asked to verify.
  lemma SuccessExactly(q: Request, s: Session, a: Attempt)
    requires Gate(q, s, a).Success?
    requires a.after.Success? ==> Json.Valid(a.after.value.state)
    requires q.policy.TargetState? ==> Json.Valid(q.policy.expected)
    ensures Settle(q, s, Gate(q, s, a).value, a).0.Succeeded? <==>
              && a.dispatched.Success? && a.afterDispatch.Clear? && a.afterVerify.Clear?
              && a.after != Failure(ObservationCancelled) && a.after != Failure(ObservationExpired)
              && (q.mode.BackgroundOnly? && s.isolation.SharedDesktop? ==> a.contextAfter == a.contextBefore)
              && (q.policy.NoVerification?
                  || (a.after.Success? && q.target.Element?
                      && a.before.value.evidence.targetFingerprintHash == Some(q.target.fingerprintHash)
                      && a.after.value.evidence.targetFingerprintHash == Some(q.target.fingerprintHash)
                      && a.before.value.evidence.displayGeometryHash == a.after.value.evidence.displayGeometryHash
                      && match q.policy
                         case TargetState(state) => Json.Same(a.after.value.state, state)
                         case TargetValueHash(sha256) =>
                           && a.after.value.state.Object?
                           && exists e :: e in a.after.value.state.entries
                                          && Json.AsChars(e.key) == "value_hash" && e.value == Json.String(sha256)
                         case _ => false))
  {
    SucceedsExactly(q, s, a);
    ContextMeans(q, s, a);
    GatePermits(q, s, a);
    VerifiesExactly(q.policy, a.before.value, OkOption(a.after), ExpectedFingerprint(q));
    hide Gate, Settle, ContextAfter, Verify, Json.Same, Json.Valid;
  }

  // A background success on a shared desktop was target-addressed and guarded, by a consistent
  // report, and the foreground context was the same right before and right after.
  lemma BackgroundSuccess(q: Request, s: Session, a: Attempt)
    requires Gate(q, s, a).Success? && Settle(q, s, Gate(q, s, a).value, a).0.Succeeded?
    requires q.mode.BackgroundOnly? && s.isolation.SharedDesktop?
    ensures a.capabilities.Success? && Consistent(a.capabilities.value)
    ensures exists fact :: fact in a.capabilities.value.facts && fact.action == Name(q.action)
                           && fact.route.TargetAddressed? && fact.background.Guarded?
    ensures a.contextBefore.Success? && a.contextAfter == a.contextBefore
    ensures var receipt := Settle(q, s, Gate(q, s, a).value, a).0.receipt;
            receipt.context.UnchangedAtBoundaries? && receipt.route.TargetAddressed?
  {
    hide Name, Consistent;
    FactOfFinds(a.capabilities.value.facts, Name(q.action));
    assert Consistent(a.capabilities.value);
    var fact := Gate(q, s, a).value.capability;
    assert fact in a.capabilities.value.facts;
  }

  // A success with an expected state observed that state, up to the order of object keys, on the
  // fenced target.
  lemma StateSuccess(q: Request, s: Session, a: Attempt)
    requires Gate(q, s, a).Success? && Settle(q, s, Gate(q, s, a).value, a).0.Succeeded? && q.policy.TargetState?
    ensures a.after.Success? && q.target.Element?
    ensures Json.Valid(a.after.value.state) && Json.Valid(q.policy.expected) ==>
            Json.Same(a.after.value.state, q.policy.expected)
    ensures SameTarget(a.before.value.evidence, a.after.value.evidence, Some(q.target.fingerprintHash))
  {
    SucceedsExactly(q, s, a);
    GatePermits(q, s, a);
    hide Gate, Settle, Json.Canonical, Json.Same, Json.Valid;
    if Json.Valid(a.after.value.state) && Json.Valid(q.policy.expected) {
      Json.CanonicalEqual(a.after.value.state, q.policy.expected);
    }
  }

  // A successful `set_value` read back the hash of the requested value, on the fenced target,
  // whose fingerprint and display geometry are the ones observed before.
  lemma SetValueSuccess(q: Request, s: Session, a: Attempt, sha: Json.Text -> Json.Text)
    requires ValueIsFenced(q, sha) && q.action.SetValue?
    requires Gate(q, s, a).Success? && Settle(q, s, Gate(q, s, a).value, a).0.Succeeded?
    ensures a.before.Success? && a.after.Success? && q.target.Element?
    ensures Member(a.after.value.state, VALUE_HASH) == Some(Json.String(sha(q.action.value)))
    ensures a.before.value.evidence.targetFingerprintHash == Some(q.target.fingerprintHash)
    ensures a.after.value.evidence.targetFingerprintHash == Some(q.target.fingerprintHash)
    ensures a.before.value.evidence.displayGeometryHash == a.after.value.evidence.displayGeometryHash
  {
    SucceedsExactly(q, s, a);
  }

  // Unless the hash collides, a page that reports the hash of its value holds the requested value.
  lemma SetValueHolds(q: Request, s: Session, a: Attempt, sha: Json.Text -> Json.Text, live: Json.Text)
    requires ValueIsFenced(q, sha) && q.action.SetValue?
    requires forall x :: sha(x) == sha(q.action.value) ==> x == q.action.value
    requires Gate(q, s, a).Success? && Settle(q, s, Gate(q, s, a).value, a).0.Succeeded?
    requires a.after.Success? && Member(a.after.value.state, VALUE_HASH) == Some(Json.String(sha(live)))
    ensures live == q.action.value
  {
    SetValueSuccess(q, s, a, sha);
    assert sha(live) == sha(q.action.value);
  }
}
