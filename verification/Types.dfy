// The protocol's value types, shared by the ledger, the engine and the run-level model.
module Types {
  import opened Wrappers

  newtype byte = x: int | 0 <= x < 256

  datatype InteractionMode = Interactive | BackgroundOnly | UnknownMode

  datatype SessionIsolation = SharedDesktop | HostIsolated | UnknownIsolation

  datatype DeliveryRoute = TargetAddressed | Pointer | PerProcessEvent | UnknownRoute

  datatype BackgroundSupport = Guarded | HostIsolatedOnly | NoBackground

  datatype ContextPreservation = NotApplicable | UnchangedAtBoundaries | Changed | Unavailable | IsolatedByHost

  datatype Effect = Verified | ExecutedUnverified | UnknownEffect

  datatype FailureCode =
    | InvalidRequestCode
    | StaleTargetCode
    | TargetNotFoundCode
    | UnsupportedCode
    | DispatchFailedCode
    | OtherCode

  // Every message the engine puts in a terminal is one of these fixed texts.
  datatype Message =
    | InterruptedOutcome
    | BoundaryReached
    | ContextUnproven
    | VerificationFailed
    | EffectUnknown
    | DurabilityUnknown
    | Refusal

  datatype Evidence = Evidence(
    observationHash: string,
    targetFingerprintHash: Option<string>,
    displayGeometryHash: string)

  datatype Receipt = Receipt(
    actionName: string,
    actionHash: string,
    route: DeliveryRoute,
    isolation: SessionIsolation,
    mode: InteractionMode,
    context: ContextPreservation,
    effect: Effect,
    before: Option<Evidence>,
    after: Option<Evidence>)

  datatype Terminal =
    | Succeeded(receipt: Receipt)
    | Rejected(code: FailureCode)
    | Failed(code: FailureCode)
    | CancelledBeforeEffect
    | ExpiredBeforeEffect
    | OutcomeUnknown(receipt: Receipt, message: Message)

  datatype OutcomeKey = OutcomeKey(operationId: string, actionHash: string)

  // A terminal acknowledgement.
  datatype Ack = Ack(key: OutcomeKey, terminal: Terminal, replayed: bool)

  // A SHA-256 digest in lower-case hexadecimal.
  predicate IsHash(s: string) {
    |s| == 64 && forall i | 0 <= i < 64 :: '0' <= s[i] <= '9' || 'a' <= s[i] <= 'f'
  }

  lemma HashExactly(s: string)
    ensures IsHash(s) <==> |s| == 64 && forall c | c in s :: c in "0123456789abcdef"
  {
    forall c: char ensures '0' <= c <= '9' || 'a' <= c <= 'f' <==> c in "0123456789abcdef" {
      var digits := "0123456789abcdef";
      if '0' <= c <= '9' {
        assert digits[c as int - '0' as int] == c;
      } else if 'a' <= c <= 'f' {
        assert digits[10 + (c as int - 'a' as int)] == c;
      }
    }
    assert forall i | 0 <= i < |s| :: s[i] in s;
  }

  // The only terminals that do not deny an effect.
  predicate Honest(t: Terminal) {
    t.Succeeded? || t.OutcomeUnknown?
  }

  predicate Interrupted(t: Terminal) {
    t.OutcomeUnknown? && t.message == InterruptedOutcome
  }

  // What the engine may report once `dispatch` returned Ok or an error of unknown effect.
  predicate EffectTerminal(t: Terminal) {
    Honest(t) && !Interrupted(t)
  }

  predicate NoEffectTerminal(t: Terminal) {
    !Honest(t)
  }

  function PersistenceUnknown(ack: Ack): Ack {
    match ack.terminal
    case Succeeded(receipt) => ack.(terminal := OutcomeUnknown(receipt, DurabilityUnknown))
    case _ => ack
  }
}
