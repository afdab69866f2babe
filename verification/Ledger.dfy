// The operation ledger as a sequence of records: what a scan finds, and which logs are well formed.
module Ledger {
  import opened Wrappers
  import opened Types

  // What a claim remembers about its request; older claims lack some facts.
  datatype ClaimFacts = ClaimFacts(
    actionName: Option<string>,
    route: Option<DeliveryRoute>,
    isolation: Option<SessionIsolation>,
    mode: Option<InteractionMode>)

  datatype LedgerRecord = ClaimRecord(key: OutcomeKey, facts: ClaimFacts) | TerminalRecord(ack: Ack)

  predicate IsClaimOf(r: LedgerRecord, op: string) {
    r.ClaimRecord? && r.key.operationId == op
  }

  predicate IsTerminalOf(r: LedgerRecord, op: string) {
    r.TerminalRecord? && r.ack.key.operationId == op
  }

  // The last claim and the last terminal of an operation, which is what both scan loops keep.
  function ClaimOf(rs: seq<LedgerRecord>, op: string): (claim: Option<LedgerRecord>)
    ensures claim.Some? ==> IsClaimOf(claim.value, op)
  {
    if rs == [] then None
    else if IsClaimOf(rs[|rs| - 1], op) then Some(rs[|rs| - 1])
    else ClaimOf(rs[..|rs| - 1], op)
  }

  function LastTerminal(rs: seq<LedgerRecord>, op: string): (ack: Option<Ack>)
    ensures ack.Some? ==> ack.value.key.operationId == op
  {
    if rs == [] then None
    else if IsTerminalOf(rs[|rs| - 1], op) then Some(rs[|rs| - 1].ack)
    else LastTerminal(rs[..|rs| - 1], op)
  }

  predicate ClaimedBy(rs: seq<LedgerRecord>, key: OutcomeKey) {
    var claim := ClaimOf(rs, key.operationId);
    claim.Some? && claim.value.key == key
  }

  // One claim an operation, and terminals only after the claim of the same operation and hash.
  predicate WellFormed(rs: seq<LedgerRecord>) {
    rs == [] || (WellFormed(rs[..|rs| - 1]) && Admits(rs[..|rs| - 1], rs[|rs| - 1]))
  }

  predicate Admits(rs: seq<LedgerRecord>, r: LedgerRecord) {
    match r
    case ClaimRecord(key, _) => ClaimOf(rs, key.operationId).None?
    case TerminalRecord(ack) => ClaimedBy(rs, ack.key)
  }

  // No terminal of `op` from position `n` on.
  ghost predicate Quiet(rs: seq<LedgerRecord>, n: nat, op: string) {
    forall i | n <= i < |rs| :: !IsTerminalOf(rs[i], op)
  }

  ghost predicate HonestFor(rs: seq<LedgerRecord>, op: string) {
    forall i | 0 <= i < |rs| :: IsTerminalOf(rs[i], op) ==> Honest(rs[i].ack.terminal)
  }

  lemma Snoc(rs: seq<LedgerRecord>, r: LedgerRecord, op: string)
    ensures ClaimOf(rs + [r], op) == if IsClaimOf(r, op) then Some(r) else ClaimOf(rs, op)
    ensures LastTerminal(rs + [r], op) == if IsTerminalOf(r, op) then Some(r.ack) else LastTerminal(rs, op)
    ensures WellFormed(rs + [r]) == (WellFormed(rs) && Admits(rs, r))
  {
    assert (rs + [r])[..|rs + [r]| - 1] == rs;
  }

  // A longer well-formed log keeps the claims of a shorter one.
  lemma {:induction false} ClaimStays(rs: seq<LedgerRecord>, rs': seq<LedgerRecord>, op: string)
    requires WellFormed(rs') && rs <= rs'
    ensures WellFormed(rs)
    ensures ClaimOf(rs, op).Some? ==> ClaimOf(rs', op) == ClaimOf(rs, op)
  {
    if rs == rs' {
    } else {
      ClaimStays(rs, rs'[..|rs'| - 1], op);
    }
  }

  lemma {:induction false} LastTerminalStays(rs: seq<LedgerRecord>, rs': seq<LedgerRecord>, op: string)
    requires rs <= rs' && Quiet(rs', |rs|, op)
    ensures LastTerminal(rs', op) == LastTerminal(rs, op)
  {
    if rs != rs' {
      var init := rs'[..|rs'| - 1];
      assert forall i | |rs| <= i < |init| :: init[i] == rs'[i];
      LastTerminalStays(rs, init, op);
    }
  }

  lemma {:induction false} HonestLast(rs: seq<LedgerRecord>, op: string)
    requires HonestFor(rs, op)
    ensures var t := LastTerminal(rs, op); t.Some? ==> Honest(t.value.terminal)
  {
    if rs != [] && !IsTerminalOf(rs[|rs| - 1], op) {
      HonestLast(rs[..|rs| - 1], op);
    }
  }

  lemma {:induction false} NoTerminalMeans(rs: seq<LedgerRecord>, op: string)
    ensures LastTerminal(rs, op).None? <==> Quiet(rs, 0, op)
  {
    if rs != [] {
      var init := rs[..|rs| - 1];
      NoTerminalMeans(init, op);
      if LastTerminal(rs, op).None? {
        assert forall i | 0 <= i < |rs| :: i < |init| ==> rs[i] == init[i];
      } else if !IsTerminalOf(rs[|rs| - 1], op) {
        var i :| 0 <= i < |init| && IsTerminalOf(init[i], op);
        assert IsTerminalOf(rs[i], op);
      }
    }
  }

  lemma {:induction false} ClaimOfAt(rs: seq<LedgerRecord>, op: string) returns (i: nat)
    requires ClaimOf(rs, op).Some?
    ensures i < |rs| && rs[i] == ClaimOf(rs, op).value
  {
    if IsClaimOf(rs[|rs| - 1], op) {
      i := |rs| - 1;
    } else {
      i := ClaimOfAt(rs[..|rs| - 1], op);
    }
  }

  lemma OneClaim(rs: seq<LedgerRecord>, i: nat, j: nat)
    requires WellFormed(rs) && i < j < |rs| && rs[i].ClaimRecord? && rs[j].ClaimRecord?
    ensures rs[i].key.operationId != rs[j].key.operationId
  {
    hide LastTerminal;
    var op := rs[i].key.operationId;
    assert rs[..i + 1][..i] == rs[..i] && rs[..j + 1][..j] == rs[..j];
    ClaimStays(rs[..j + 1], rs, op);
    ClaimStays(rs[..i + 1], rs[..j], op);
  }

  lemma ClaimBefore(rs: seq<LedgerRecord>, j: nat) returns (i: nat)
    requires WellFormed(rs) && j < |rs| && rs[j].TerminalRecord?
    ensures i < j && rs[i].ClaimRecord? && rs[i].key == rs[j].ack.key
  {
    var op := rs[j].ack.key.operationId;
    assert rs[..j + 1][..j] == rs[..j];
    ClaimStays(rs[..j + 1], rs, op);
    i := ClaimOfAt(rs[..j], op);
  }

  // What well-formedness means, position by position.
  lemma WellFormedMeans(rs: seq<LedgerRecord>)
    requires WellFormed(rs)
    ensures forall i, j | 0 <= i < j < |rs| && rs[i].ClaimRecord? && rs[j].ClaimRecord? ::
              rs[i].key.operationId != rs[j].key.operationId
    ensures forall j | 0 <= j < |rs| && rs[j].TerminalRecord? ::
              exists i :: 0 <= i < j && rs[i].ClaimRecord? && rs[i].key == rs[j].ack.key
  {
    hide WellFormed;
    forall i, j | 0 <= i < j < |rs| && rs[i].ClaimRecord? && rs[j].ClaimRecord?
      ensures rs[i].key.operationId != rs[j].key.operationId
    {
      OneClaim(rs, i, j);
    }
    forall j | 0 <= j < |rs| && rs[j].TerminalRecord?
      ensures exists i :: 0 <= i < j && rs[i].ClaimRecord? && rs[i].key == rs[j].ack.key
    {
      var i := ClaimBefore(rs, j);
    }
  }

  // The loop shared by `claim` and `status`: each matching record overwrites the previous one.
  method Scan(rs: seq<LedgerRecord>, op: string) returns (claim: Option<LedgerRecord>, terminal: Option<Ack>)
    ensures claim == ClaimOf(rs, op)
    ensures terminal == LastTerminal(rs, op)
  {
    claim, terminal := None, None;
    for i := 0 to |rs|
      invariant claim == ClaimOf(rs[..i], op)
      invariant terminal == LastTerminal(rs[..i], op)
    {
      assert rs[..i + 1] == rs[..i] + [rs[i]];
      Snoc(rs[..i], rs[i], op);
      match rs[i] {
        case ClaimRecord(key, _) =>
          if key.operationId == op {
            claim := Some(rs[i]);
          }
        case TerminalRecord(ack) =>
          if ack.key.operationId == op {
            terminal := Some(ack);
          }
      }
    }
    assert rs[..|rs|] == rs;
  }
}
