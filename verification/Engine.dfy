// `execute` and `status` as they are written: straight-line code over the two ledgers and the
// executor. A ghost copy of the run-level model accompanies every call; each piece of code is shown
// to be a sequence of its steps, so every guarantee of whole runs holds of these methods.
module Engines {
  import opened Wrappers
  import opened Jsonl
  import opened Types
  import opened Ledger
  import opened Machine
  import opened MachineInv
  import opened MachineSteps
  import opened OperationLedgers
  import D = Decision
  import Json

  // ----- Reachable states are closed under steps -----

  lemma {:induction false} RunSnoc(c: LedgerCodec, s: State, steps: seq<Step>, step: Step)
    requires Legal(c, s, steps) && Enabled(c, Run(c, s, steps), step)
    ensures Legal(c, s, steps + [step])
    ensures Run(c, s, steps + [step]) == Do(c, Run(c, s, steps), step)
    decreases |steps|
  {
    hide Do, Enabled;
    if steps == [] {
      assert steps + [step] == [step] && [step][1..] == [];
    } else {
      RunSnoc(c, Do(c, s, steps[0]), steps[1..], step);
      assert (steps + [step])[1..] == steps[1..] + [step];
    }
  }

  lemma ReachStep(c: LedgerCodec, s: State, p: nat, action: Action)
    requires Reachable(c, s) && CanAct(c, s, p, action)
    ensures Reachable(c, DoAct(c, s, p, action))
  {
    hide DoAct;
    var s0, steps :| Init(s0) && Legal(c, s0, steps) && Run(c, s0, steps) == s;
    RunSnoc(c, s0, steps, Act(p, action));
  }

  lemma ReachHere(c: LedgerCodec, s: State, p: nat)
    requires ValidCodec(c) && Reachable(c, s) && p < |s.procs|
    ensures IsProc(s, p)
    ensures Holds(s.procs[p].pc) <==> DiskOf(s, p).holder == Some(p)
  {
    hide Reachable, Inv, ValidCodec;
    ReachableInv(c, s);
    Here(c, s, p);
  }

  // What is known of the file of a process: the repair and the scan succeed, and the log is well formed.
  lemma KnownRecords(c: LedgerCodec, s: State, p: nat)
    requires ValidCodec(c) && Reachable(c, s) && p < |s.procs|
    ensures IsProc(s, p)
    ensures var cache := DiskOf(s, p).cache;
            && Repaired(c, cache) == Success(Whole(cache)) && Recs(c, Whole(cache)) == Recs(c, cache)
            && WellFormed(Recs(c, cache))
            && (s.procs[p].pc.Scanning? ==> ReadRecords(c, cache) == Success(Recs(c, cache)))
  {
    hide Reachable, ValidCodec;
    ReachableInv(c, s);
    Here(c, s, p);
    var cache := DiskOf(s, p).cache;
    WholeKeeps(c, cache);
    if s.procs[p].pc.Scanning? {
      ReadBack(c, cache);
    }
    hide Inv, HostInv, GoodHistory, LockInv, PcInv, FileInv, Recs, Whole, Repaired, ReadRecords, WellFormed;
  }

  // A terminal found with a claim has the claim's key; without a claim there is none.
  lemma KnownTerminal(rs: seq<LedgerRecord>, op: string)
    requires WellFormed(rs)
    ensures var claim, last := ClaimOf(rs, op), LastTerminal(rs, op);
            last.Some? ==> claim.Some? && last.value.key == claim.value.key
  {
    TerminalKey(rs, op);
  }

  datatype ClaimResult = New | Replay(ack: Ack) | RecoveredUnknown(facts: ClaimFacts)

  // Which logs give which result. The only failures are those of the file and another request's claim.
  predicate ClaimFits(rs: seq<LedgerRecord>, key: OutcomeKey, r: Result<ClaimResult, Reason>) {
    var claim, last := ClaimOf(rs, key.operationId), LastTerminal(rs, key.operationId);
    match r
    case Failure(reason) => reason.Io? || (reason.Conflict? && claim.Some? && claim.value.key != key)
    case Success(New) => claim.None?
    case Success(Replay(ack)) => claim.Some? && claim.value.key == key && last == Some(ack) && ack.key == key
    case Success(RecoveredUnknown(facts)) => claim == Some(ClaimRecord(key, facts)) && last.None?
  }

  function ModeOf(facts: ClaimFacts): InteractionMode {
    if facts.mode.Some? then facts.mode.value else UnknownMode
  }

  // The receipt of an operation whose outcome was never recorded, from what its claim remembers. The
  // context is judged by the mode of whoever asks.
  function RecoveredReceipt(key: OutcomeKey, facts: ClaimFacts, asked: InteractionMode): Receipt {
    var isolation := if facts.isolation.Some? then facts.isolation.value else UnknownIsolation;
    Receipt(if facts.actionName.Some? then facts.actionName.value else "unknown", key.actionHash,
            if facts.route.Some? then facts.route.value else UnknownRoute,
            isolation, ModeOf(facts), D.RecoveredContext(asked, isolation), UnknownEffect, None, None)
  }

  function FactsOf(q: D.Request, s: D.Session): ClaimFacts {
    ClaimFacts(Some(D.Name(q.action)),
               Some(if q.action.Scroll? then UnknownRoute else D.RequestRoute(q, s)),
               Some(s.isolation), Some(q.mode))
  }

  // A claim remembers everything that the receipt of its request says, except the route of a scroll.
  lemma ClaimRemembers(q: D.Request, s: D.Session)
    ensures RecoveredReceipt(q.key, FactsOf(q, s), q.mode) ==
            if q.action.Scroll? then D.EmptyReceipt(q, s).(route := UnknownRoute) else D.EmptyReceipt(q, s)
    ensures RecoveredReceipt(q.key, FactsOf(q, s), ModeOf(FactsOf(q, s))) ==
            RecoveredReceipt(q.key, FactsOf(q, s), q.mode)
  {
  }

  function AnswerOf(r: Result<Ack, Reason>): Answer {
    match r
    case Success(ack) => Acknowledged(ack)
    case Failure(reason) => Error(reason)
  }

  // What a call may answer, given whether it dispatched and what the executor said.
  ghost predicate Outcome(q: D.Request, session: D.Session, a: D.Attempt, attempted: bool, r: Result<Ack, Reason>) {
    var gate := D.Gate(q, session, a);
    attempted ==>
      && gate.Success?
      && var (terminal, effect) := D.Settle(q, session, gate.value, a);
         var ack := Ack(q.key, terminal, false);
         if effect then r.Success? && (r.value == ack || r.value == PersistenceUnknown(ack))
         else r.Success? ==> r.value == ack
  }

  // What the host's answer to a recovery makes of an operation that has no outcome of its own.
  function Recovered(answer: HostAnswer, receipt: Receipt): Terminal {
    if answer.Recorded? then answer.terminal else OutcomeUnknown(receipt, InterruptedOutcome)
  }

  function HealedBy(answer: HostAnswer, ack: Ack): Ack {
    if answer.Recorded? then ack.(terminal := answer.terminal) else ack
  }

  // Whether a call dispatches: only what nobody claimed before, the host grants and every check permits.
  predicate Dispatches(q: D.Request, session: D.Session, a: D.Attempt, rs: seq<LedgerRecord>, answer: HostAnswer) {
    ClaimOf(rs, q.key.operationId).None? && answer.Grant? && D.Gate(q, session, a).Success?
  }

  // What an operation that nobody claimed before is answered: the outcome of its dispatch, the refusal
  // of a check, or what the host has recorded.
  function NewAnswer(q: D.Request, session: D.Session, a: D.Attempt, answer: HostAnswer): Ack {
    var gate := D.Gate(q, session, a);
    Ack(q.key,
        if !answer.Grant? then Recovered(answer, D.EmptyReceipt(q, session))
        else if gate.Failure? then gate.error
        else D.Settle(q, session, gate.value, a).0,
        false)
  }

  // What a call is answered if nothing fails: a new operation as above, and an operation claimed before
  // with its last terminal or, if that is missing or interrupted, with what the host recorded.
  function Expected(q: D.Request, session: D.Session, a: D.Attempt, rs: seq<LedgerRecord>, answer: HostAnswer):
    Result<Ack, Reason> {
    var claim, last := ClaimOf(rs, q.key.operationId), LastTerminal(rs, q.key.operationId);
    if claim.None? then Success(NewAnswer(q, session, a, answer))
    else if claim.value.key != q.key then Failure(Conflict)
    else if last.None? then
      Success(Ack(q.key, Recovered(answer, RecoveredReceipt(q.key, claim.value.facts, q.mode)), false))
    else if Interrupted(last.value.terminal) then Success(HealedBy(answer, last.value).(replayed := true))
    else Success(last.value.(replayed := true))
  }

  // What a call may be answered, `calm` if nothing failed: then it dispatches exactly if it should, and
  // the answer is the expected one. Otherwise it is this answer, or after a dispatch its
  // durability-unknown form, or a failure of the file or the host.
  ghost predicate Explained(q: D.Request, session: D.Session, a: D.Attempt, rs: seq<LedgerRecord>, answer: HostAnswer,
                            calm: bool, attempted: bool, r: Result<Ack, Reason>) {
    var expected := Expected(q, session, a, rs, answer);
    && (attempted ==> Dispatches(q, session, a, rs, answer))
    && (calm ==> r == expected && (attempted <==> Dispatches(q, session, a, rs, answer)))
    && (r.Success? ==>
          r == expected || (attempted && expected.Success? && r.value == PersistenceUnknown(expected.value)))
    && (r.Failure? ==> r == expected || (!calm && (r.error.Io? || r.error.HostLedger?)))
  }

  // The same for `status`, which stores what it recovers but dispatches nothing.
  function ExpectedStatus(op: string, rs: seq<LedgerRecord>, recording: bool,
                          entries: map<OutcomeKey, Option<Terminal>>): Option<Ack> {
    var claim, last := ClaimOf(rs, op), LastTerminal(rs, op);
    if claim.None? then None
    else
      var key := claim.value.key;
      var answer := HostBegin(recording, entries, key).0;
      var facts := claim.value.facts;
      Some(if last.None? then Ack(key, Recovered(answer, RecoveredReceipt(key, facts, ModeOf(facts))), false)
           else if Interrupted(last.value.terminal) then HealedBy(answer, last.value)
           else last.value)
  }

  ghost predicate StatusExplained(op: string, rs: seq<LedgerRecord>, recording: bool,
                                  entries: map<OutcomeKey, Option<Terminal>>, calm: bool,
                                  r: Result<Option<Ack>, Reason>) {
    if r.Success? then r.value == ExpectedStatus(op, rs, recording, entries)
    else !calm && (r.error.Io? || r.error.HostLedger?)
  }

  lemma NotAttempted(q: D.Request, session: D.Session, a: D.Attempt)
    ensures forall r :: Outcome(q, session, a, false, r)
  {
  }

  // A success after a dispatch of its own is the terminal the executor's answers lead to, with all
  // that such a terminal proves.
  lemma FreshSuccess(q: D.Request, session: D.Session, a: D.Attempt, ack: Ack, c: D.Screening)
    requires Outcome(q, session, a, true, Success(ack)) && ack.terminal.Succeeded? && D.Admitted(q, c)
    ensures a.dispatched.Success? && a.afterDispatch.Clear? && a.afterVerify.Clear?
    ensures !q.policy.NoVerification? ==> ack.terminal.receipt.effect.Verified?
    ensures q.mode.BackgroundOnly? && session.isolation.SharedDesktop? ==>
              && ack.terminal.receipt.route.TargetAddressed? && ack.terminal.receipt.context.UnchangedAtBoundaries?
              && a.contextBefore.Success? && a.contextAfter == a.contextBefore
              && a.capabilities.Success? && D.Consistent(a.capabilities.value)
    ensures q.action.SetValue? ==>
              && a.after.Success? && q.target.Element?
              && D.Member(a.after.value.state, D.VALUE_HASH) == Some(Json.String(c.sha(q.action.value)))
              && a.after.value.evidence.targetFingerprintHash == Some(q.target.fingerprintHash)
  {
    D.SucceedsExactly(q, session, a);
    if q.mode.BackgroundOnly? && session.isolation.SharedDesktop? {
      D.BackgroundSuccess(q, session, a);
    }
    if q.action.SetValue? {
      D.SetValueSuccess(q, session, a, c.sha);
    }
  }

  ghost predicate NoDispatchAfter(h: seq<Event>, h': seq<Event>) {
    h <= h' && forall i | |h| <= i < |h'| :: !h'[i].Dispatched?
  }

  // Where each answer of the host leads.
  lemma AskLeads(s: State, p: nat, receipt: Receipt)
    requires IsProc(s, p) && s.procs[p].pc.Asking?
    ensures var s' := DoAsk(s, p, receipt);
            var Asking(call, key, why) := s.procs[p].pc;
            var (decision, host) := HostBegin(s.hosted, s.host, key);
            && IsProc(s', p) && s'.host == host && NoDispatchAfter(s.history, s'.history)
            && DiskOf(s', p).durable == DiskOf(s, p).durable && DiskOf(s', p).cache == DiskOf(s, p).cache
            && if decision.Recorded? then
                 s'.procs[p].pc == if why.Heal? then Finishing(call, why.ack.(terminal := decision.terminal), Healed, 0)
                                   else Finishing(call, Ack(key, decision.terminal, false), Plain, 0)
               else if why.Heal? then
                 && s'.procs[p].pc.Idle? && DiskOf(s', p).holder == Release(DiskOf(s, p), p).holder
                 && s.history < s'.history
                 && s'.history[|s'.history| - 1] == Returned(s.procs[p].file, call,
                     Acknowledged(ReplayOf(call, why.ack)))
               else
                 s'.procs[p].pc == if why.Fresh? && decision.Grant? then Ready(key)
                                   else Finishing(call, Ack(key, OutcomeUnknown(receipt, InterruptedOutcome), false),
                                                  Plain, 0)
  {
    hide HostBegin;
  }

  lemma AskFailsLeads(s: State, p: nat, applied: bool)
    requires IsProc(s, p) && s.procs[p].pc.Asking?
    ensures var s' := DoAskFails(s, p, applied);
            var Asking(call, key, _) := s.procs[p].pc;
            && IsProc(s', p) && s'.host == (if applied then HostBegin(s.hosted, s.host, key).1 else s.host)
            && NoDispatchAfter(s.history, s'.history) && s.history < s'.history
            && DiskOf(s', p) == Release(DiskOf(s, p), p) && s'.procs[p].pc.Idle?
            && s'.history[|s'.history| - 1] == Returned(s.procs[p].file, call, Error(HostLedger))
  {
    hide HostBegin;
  }

  // The history between `from` and `to` is that of this request: its answer ends it, or it was not
  // admitted and left no trace.
  ghost predicate Served(q: D.Request, c: D.Screening, f: nat, h: seq<Event>, from: nat, to: nat,
                         r: Result<Ack, Reason>) {
    && from <= to <= |h|
    && if D.Admitted(q, c) then from < to && h[to - 1] == Returned(f, Call.Execute(q.key), AnswerOf(r))
       else from == to && r.Failure? && (r.error.InvalidRequest? || r.error.AuthorityDenied?)
  }

  lemma StillServed(q: D.Request, c: D.Screening, f: nat, h: seq<Event>, h': seq<Event>, from: nat, to: nat,
                    r: Result<Ack, Reason>)
    requires Served(q, c, f, h, from, to, r) && h <= h'
    ensures Served(q, c, f, h', from, to, r)
  {
    hide D.Admitted;
    if 0 < to {
      assert h'[to - 1] == h[to - 1];
    }
  }

  lemma NowServed(q: D.Request, c: D.Screening, f: nat, h: seq<Event>, h': seq<Event>, r: Result<Ack, Reason>)
    requires h <= h'
    requires if D.Admitted(q, c) then h < h' && h'[|h'| - 1] == Returned(f, Call.Execute(q.key), AnswerOf(r))
             else h' == h && r.Failure? && (r.error.InvalidRequest? || r.error.AuthorityDenied?)
    ensures Served(q, c, f, h', |h|, |h'|, r)
  {
  }

  predicate IsVerified(r: Result<Ack, Reason>) {
    r.Success? && r.value.terminal.Succeeded? && r.value.terminal.receipt.effect.Verified?
  }

  lemma VerifiedMeans()
    ensures forall r :: IsVerified(r) <==>
              r.Success? && r.value.terminal.Succeeded? && r.value.terminal.receipt.effect == Verified
  {
  }

  class Engine {
    const ledger: OperationLedger
    const outcomes: OutcomeLedger
    const session: D.Session
    const me: nat
    ghost var world: State

    // The engine of process `me` in a system that has run for a while.
    constructor (ledger: OperationLedger, outcomes: OutcomeLedger, session: D.Session, me: nat, ghost world: State)
      requires ValidCodec(ledger.codec) && Reachable(ledger.codec, world) && IsProc(world, me)
      requires world.procs[me].pc.Idle? && DiskOf(world, me) == Disk(ledger.durable, ledger.cache, ledger.holder)
      requires world.host == outcomes.entries && world.hosted == outcomes.recording
      ensures Valid() && this.ledger == ledger && this.outcomes == outcomes && this.world == world
    {
      this.ledger, this.outcomes, this.session, this.me, this.world := ledger, outcomes, session, me, world;
      new;
      ReachHere(ledger.codec, world, me);
    }

    ghost predicate WorldOk()
      reads this
    {
      && ValidCodec(ledger.codec) && Reachable(ledger.codec, world) && IsProc(world, me)
      && (Holds(world.procs[me].pc) <==> DiskOf(world, me).holder == Some(me))
    }

    // The ghost world agrees with both ledgers.
    ghost predicate Coupled()
      reads this, ledger, outcomes
    {
      && WorldOk()
      && DiskOf(world, me).durable == ledger.durable && DiskOf(world, me).cache == ledger.cache
      && world.host == outcomes.entries && world.hosted == outcomes.recording
    }

    ghost predicate Valid()
      reads this, ledger, outcomes
    {
      Coupled() && Pc().Idle? && DiskOf(world, me).holder == ledger.holder
    }

    ghost function Pc(): Pc
      reads this
      requires IsProc(world, me)
    {
      world.procs[me].pc
    }

    ghost function File(): nat
      reads this
      requires IsProc(world, me)
    {
      world.procs[me].file
    }

    // The call has ended: its lock is free and its answer is the last event.
    ghost predicate Ended(h: seq<Event>, call: Call, answer: Answer)
      reads this
    {
      && IsProc(world, me) && Pc().Idle? && DiskOf(world, me).holder.None?
      && world.history == h + [Returned(File(), call, answer)]
    }

    // The same, with other events in between.
    ghost predicate Answered(h: seq<Event>, call: Call, answer: Answer)
      reads this
    {
      && IsProc(world, me) && Pc().Idle? && DiskOf(world, me).holder.None?
      && h < world.history && world.history[|world.history| - 1] == Returned(File(), call, answer)
    }

    // Nothing was dispatched since history `h`.
    ghost predicate NoDispatch(h: seq<Event>)
      reads this
    {
      NoDispatchAfter(h, world.history)
    }

    // Time has passed on both ledgers.
    ghost predicate Later(file: nat, host: nat)
      reads this, ledger, outcomes
    {
      file <= ledger.now && host <= outcomes.now
    }

    // No operation on the file has failed since `from`.
    ghost predicate FileCalm(from: nat)
      reads this, ledger
    {
      NoFault(ledger.faults, from, ledger.now)
    }

    // No call of the host ledger has failed since `from`.
    ghost predicate HostCalm(from: nat)
      reads this, outcomes
    {
      NoFault(outcomes.faults, from, outcomes.now)
    }

    // The next step of the accompanying run.
    ghost method Take(action: Action)
      requires WorldOk() && CanAct(ledger.codec, world, me, action)
      modifies this`world
      ensures WorldOk()
      ensures world == DoAct(ledger.codec, old(world), me, action)
      ensures world.procs[me].file == old(world.procs[me].file) && world.hosted == old(world.hosted)
    {
      hide Reachable, ValidCodec;
      ReachStep(ledger.codec, world, me, action);
      ghost var f := world.procs[me].file;
      ghost var n := |world.procs|;
      world := DoAct(ledger.codec, world, me, action);
      ActKeepsOthers(ledger.codec, old(world), me, action);
      ReachHere(ledger.codec, world, me);
    }

    // ----- Taking the lock and repairing the file -----

    method Acquire(call: Call) returns (ok: bool)
      requires Valid()
      modifies this`world, ledger`holder
      ensures Coupled() && File() == old(File())
      ensures ok <==> old(ledger.holder).None?
      ensures !ok ==> ledger.holder == old(ledger.holder)
      ensures ok ==> Pc() == Repairing(call) && ledger.holder == Some(me) && world.history == old(world.history)
      ensures !ok ==> Valid() && world.history == old(world.history) + [Returned(File(), call, Error(LockWait))]
    {
      hide Reachable, ValidCodec;
      Take(Start(call));
      ok := ledger.TryLock(me);
      if ok {
        Take(Lock);
      } else {
        Take(GiveUp);
      }
    }

    // The repair at the start of a call; the lock is still held whatever comes out.
    method RepairTail(call: Call) returns (r: Result<(), Reason>)
      requires Coupled() && Pc() == Repairing(call)
      modifies this`world, ledger`durable, ledger`cache, ledger`now
      ensures Coupled() && File() == old(File())
      ensures Later(old(ledger.now), old(outcomes.now))
      ensures r.Success? <==> FileCalm(old(ledger.now))
      ensures r.Success? ==> Pc() == Scanning(call) && world.history == old(world.history)
      ensures r.Success? ==> Recs(ledger.codec, ledger.cache) == Recs(ledger.codec, old(ledger.cache))
      ensures r.Failure? ==> r.error.Io? && Ended(old(world.history), call, Error(r.error))
    {
      hide Reachable, ValidCodec, Repaired, Recs, Whole;
      KnownRecords(ledger.codec, world, me);
      var repaired := ledger.RepairTail();
      if repaired == Failure(Io) && DiskOf(world, me).cache == ledger.cache {
        Take(Fail);
      } else {
        Take(Inspect);
        if repaired == Failure(Io) {
          Take(Fail);
        } else if repaired.Success? && repaired.value {
          Take(Sync);
        }
      }
      r := if repaired.Success? then Success(()) else Failure(repaired.error);
    }

    // ----- The local ledger -----

    ghost method TakeWrite(n: nat)
      requires WorldOk() && Appending(Pc()) && Pc().done == 0 && n <= |Frame(ledger.codec, RecordOf(Pc()))|
      modifies this`world
      ensures WorldOk() && File() == old(File()) && world.hosted == old(world.hosted) && world.host == old(world.host)
      ensures Pc() == old(Pc()).(done := n) && world.history == old(world.history)
      ensures DiskOf(world, me) ==
                old(DiskOf(world, me)).(
                  cache := old(DiskOf(world, me).cache) + Frame(ledger.codec, RecordOf(old(Pc())))[..n])
    {
      hide Reachable, ValidCodec, Frame;
      if n > 0 {
        Take(Write(n));
      } else {
        assert DiskOf(world, me).cache + Frame(ledger.codec, RecordOf(Pc()))[..0] == DiskOf(world, me).cache;
      }
    }

    // The bytes of a record that reached the file, and whether they were synced.
    ghost method TakeAppend(ok: bool, n: nat)
      requires WorldOk() && Appending(Pc()) && Pc().done == 0
      requires n <= |Frame(ledger.codec, RecordOf(Pc()))| && (ok ==> n == |Frame(ledger.codec, RecordOf(Pc()))|)
      modifies this`world
      ensures WorldOk() && File() == old(File()) && world.hosted == old(world.hosted) && world.host == old(world.host)
      ensures var cache := old(DiskOf(world, me).cache) + Frame(ledger.codec, RecordOf(old(Pc())))[..n];
              && DiskOf(world, me).cache == cache
              && DiskOf(world, me).durable == if ok then cache else old(DiskOf(world, me).durable)
      ensures old(Pc().Claiming?) ==>
                if ok
                then Pc() == Asking(Call.Execute(old(Pc().key)), old(Pc().key), Fresh)
                  && world.history == old(world.history)
                else Ended(old(world.history), Call.Execute(old(Pc().key)), Error(Io))
      ensures old(Pc().Finishing?) ==>
                var Finishing(call, ack, mode, _) := old(Pc());
                if ok then Ended(old(world.history), call, Acknowledged(AckOf(call, ack, mode)))
                else if mode.AfterEffect?
                  then Pc() == Mending(PersistenceUnknown(ack)) && world.history == old(world.history)
                else if mode.Mended? then Ended(old(world.history), call, Acknowledged(ack))
                else Ended(old(world.history), call, Error(Io))
    {
      hide Reachable, ValidCodec, Frame;
      FrameNonEmpty(ledger.codec, RecordOf(Pc()));
      TakeWrite(n);
      if ok {
        Take(Sync);
      } else {
        Take(Fail);
      }
    }

    // Looks the operation up and claims it if nobody has.
    method Claim(key: OutcomeKey, facts: ClaimFacts) returns (r: Result<ClaimResult, Reason>)
      requires Coupled() && Pc() == Scanning(Call.Execute(key))
      modifies this`world, ledger`durable, ledger`cache, ledger`now
      ensures Coupled() && File() == old(File())
      ensures Later(old(ledger.now), old(outcomes.now))
      ensures r == Failure(Io) <==> !FileCalm(old(ledger.now))
      ensures r == Success(New) ==> Pc() == Asking(Call.Execute(key), key, Fresh) && world.history == old(world.history)
      ensures r.Success? && r.value.RecoveredUnknown? ==>
                Pc() == Asking(Call.Execute(key), key, Recover) && world.history == old(world.history)
      ensures r.Success? && r.value.Replay? ==>
                var ack := r.value.ack;
                if Interrupted(ack.terminal)
                then Pc() == Asking(Call.Execute(key), ack.key, Heal(ack)) && world.history == old(world.history)
                else Ended(old(world.history), Call.Execute(key), Acknowledged(ack.(replayed := true)))
      ensures r.Failure? ==> Ended(old(world.history), Call.Execute(key), Error(r.error))
      ensures ClaimFits(Recs(ledger.codec, old(ledger.cache)), key, r)
    {
      hide Reachable, ValidCodec, Frame, ReadRecords, ClaimOf, LastTerminal, Recs, Whole, Repaired;
      KnownRecords(ledger.codec, world, me);
      KnownTerminal(Recs(ledger.codec, ledger.cache), key.operationId);
      hide WellFormed;
      var records := ledger.Records();
      if records == Failure(Io) {
        Take(Fail);
        return Failure(Io);
      }
      Take(Look(facts));
      if records.Failure? {
        return Failure(CorruptLedger);
      }
      var claim, terminal := Scan(records.value, key.operationId);
      if claim.Some? {
        if claim.value.key.actionHash != key.actionHash {
          return Failure(Conflict);
        }
        return Success(if terminal.Some? then Replay(terminal.value) else RecoveredUnknown(claim.value.facts));
      }
      var ok;
      ghost var n;
      ok, n := ledger.Append(ClaimRecord(key, facts));
      TakeAppend(ok, n);
      r := if ok then Success(New) else Failure(Io);
    }

    // Appends a terminal acknowledgement.
    method Finish(ack: Ack) returns (ok: bool)
      requires Coupled() && Pc().Finishing? && Pc().ack == ack && Pc().done == 0
      modifies this`world, ledger`durable, ledger`cache, ledger`now
      ensures Coupled() && File() == old(File())
      ensures Later(old(ledger.now), old(outcomes.now))
      ensures ok <==> FileCalm(old(ledger.now))
      ensures var Finishing(call, _, mode, _) := old(Pc());
              if ok then Ended(old(world.history), call, Acknowledged(AckOf(call, ack, mode)))
              else if mode.AfterEffect?
                then Pc() == Mending(PersistenceUnknown(ack)) && world.history == old(world.history)
              else if mode.Mended? then Ended(old(world.history), call, Acknowledged(ack))
              else Ended(old(world.history), call, Error(Io))
    {
      hide Reachable, ValidCodec, Frame;
      ghost var n;
      ok, n := ledger.Append(TerminalRecord(ack));
      TakeAppend(ok, n);
    }

    // The repair after a failed append.
    method MendTail(ack: Ack) returns (ok: bool)
      requires Coupled() && Pc() == Mending(ack)
      modifies this`world, ledger`durable, ledger`cache, ledger`now
      ensures Coupled() && File() == old(File())
      ensures Later(old(ledger.now), old(outcomes.now))
      ensures ok <==> FileCalm(old(ledger.now))
      ensures ok ==> Pc() == Finishing(Call.Execute(ack.key), ack, Mended, 0) && world.history == old(world.history)
      ensures !ok ==> Ended(old(world.history), Call.Execute(ack.key), Acknowledged(ack))
    {
      hide Reachable, ValidCodec, Repaired, Recs, Whole;
      KnownRecords(ledger.codec, world, me);
      var repaired := ledger.RepairTail();
      if repaired == Failure(Io) && DiskOf(world, me).cache == ledger.cache {
        Take(Fail);
      } else {
        Take(Inspect);
        if repaired == Failure(Io) {
          Take(Fail);
        } else if repaired.Success? && repaired.value {
          Take(Sync);
        }
      }
      ok := repaired.Success?;
    }

    // Once an effect is possible, a failed append is repaired and retried as an unknown outcome,
    // and the call is answered whatever comes of that.
    method FinishAfterEffect(ack: Ack) returns (answer: Ack)
      requires Coupled() && Pc() == Finishing(Call.Execute(ack.key), ack, AfterEffect, 0)
      modifies this`world, ledger`durable, ledger`cache, ledger`now
      ensures Coupled() && File() == old(File())
      ensures Later(old(ledger.now), old(outcomes.now))
      ensures FileCalm(old(ledger.now)) ==> answer == ack
      ensures Ended(old(world.history), Call.Execute(ack.key), Acknowledged(answer))
      ensures answer == ack || answer == PersistenceUnknown(ack)
    {
      hide Reachable, ValidCodec;
      var ok := Finish(ack);
      if ok {
        return ack;
      }
      answer := PersistenceUnknown(ack);
      ok := MendTail(answer);
      if ok {
        ok := Finish(answer);
      }
    }

    // ----- The host ledger -----

    // Asks the host about an operation; the receipt is for an outcome nobody recorded.
    method AskHost(call: Call, key: OutcomeKey, ghost why: Why, receipt: Receipt) returns (r: Result<HostAnswer, ()>)
      requires Coupled() && Pc() == Asking(call, key, why)
      modifies this`world, outcomes
      ensures Coupled() && File() == old(File())
      ensures Later(old(ledger.now), old(outcomes.now))
      ensures r.Success? <==> HostCalm(old(outcomes.now))
      ensures NoDispatch(old(world.history))
      ensures r.Failure? ==> Answered(old(world.history), call, Error(HostLedger))
      ensures r.Success? ==>
                match r.value
                case Recorded(t) =>
                  Pc() == if why.Heal? then Finishing(call, why.ack.(terminal := t), Healed, 0)
                    else Finishing(call, Ack(key, t, false), Plain, 0)
                case _ =>
                  if why.Heal? then Answered(old(world.history), call, Acknowledged(ReplayOf(call, why.ack)))
                  else if why.Fresh? && r.value.Grant? then Pc() == Ready(key)
                  else Pc() == Finishing(call, Ack(key, OutcomeUnknown(receipt, InterruptedOutcome), false), Plain, 0)
      ensures r.Success? ==> r.value == HostBegin(outcomes.recording, old(outcomes.entries), key).0
    {
      hide Reachable, ValidCodec, HostBegin, DoInspect, DoSync, DoLook, DoWrite, DoRecord, DoRecordFails, DoFail,
           Frame, DoAsk, DoAskFails, NoDispatchAfter;
      ghost var applied;
      r, applied := outcomes.Begin(key);
      if r.Failure? {
        AskFailsLeads(world, me, applied);
        Take(AskFails(applied));
      } else {
        AskLeads(world, me, receipt);
        Take(Ask(receipt));
      }
    }

    // An interrupted outcome heals to what the host recorded, if it recorded one.
    method ReconcileInterrupted(call: Call, ack: Ack) returns (r: Result<Ack, Reason>)
      requires Coupled() && Pc() == Asking(call, ack.key, Heal(ack))
      modifies this`world, ledger`durable, ledger`cache, ledger`now, outcomes
      ensures Coupled() && File() == old(File())
      ensures Later(old(ledger.now), old(outcomes.now))
      ensures r == Failure(HostLedger) <==> !HostCalm(old(outcomes.now))
      ensures r == Failure(Io) <==> HostCalm(old(outcomes.now)) && !FileCalm(old(ledger.now))
      ensures r.Failure? ==> r.error.Io? || r.error.HostLedger?
      ensures NoDispatch(old(world.history)) && Answered(old(world.history), call, AnswerOf(r))
      ensures r.Success? ==>
                r.value == ReplayOf(call,
                                    HealedBy(HostBegin(outcomes.recording, old(outcomes.entries), ack.key).0, ack))
    {
      hide Reachable, ValidCodec, HostBegin;
      var decision := AskHost(call, ack.key, Heal(ack), RecoveredReceipt(ack.key, NO_FACTS, UnknownMode));
      if decision.Failure? {
        return Failure(HostLedger);
      }
      if !decision.value.Recorded? {
        return Success(ReplayOf(call, ack));
      }
      var healed := ack.(terminal := decision.value.terminal);
      var ok := Finish(healed);
      r := if ok then Success(ReplayOf(call, healed)) else Failure(Io);
    }

    // A claim without a terminal: the host's terminal if it has one, otherwise an interrupted outcome.
    method RecoverClaim(call: Call, key: OutcomeKey, facts: ClaimFacts, asked: InteractionMode)
      returns (r: Result<Ack, Reason>)
      requires Coupled() && Pc() == Asking(call, key, Recover)
      modifies this`world, ledger`durable, ledger`cache, ledger`now, outcomes
      ensures Coupled() && File() == old(File())
      ensures Later(old(ledger.now), old(outcomes.now))
      ensures r == Failure(HostLedger) <==> !HostCalm(old(outcomes.now))
      ensures r == Failure(Io) <==> HostCalm(old(outcomes.now)) && !FileCalm(old(ledger.now))
      ensures r.Failure? ==> r.error.Io? || r.error.HostLedger?
      ensures NoDispatch(old(world.history)) && Answered(old(world.history), call, AnswerOf(r))
      ensures r.Success? ==>
                var answer := HostBegin(outcomes.recording, old(outcomes.entries), key).0;
                r.value == Ack(key, Recovered(answer, RecoveredReceipt(key, facts, asked)), false)
    {
      hide Reachable, ValidCodec, HostBegin;
      var receipt := RecoveredReceipt(key, facts, asked);
      var decision := AskHost(call, key, Recover, receipt);
      if decision.Failure? {
        return Failure(HostLedger);
      }
      var terminal := Recovered(decision.value, receipt);
      var ok := Finish(Ack(key, terminal, false));
      r := if ok then Success(Ack(key, terminal, false)) else Failure(Io);
    }

    // ----- Dispatch -----

    // A terminal that denies any effect: the host must accept it before it is stored.
    method FinishEarly(key: OutcomeKey, terminal: Terminal) returns (r: Result<Ack, Reason>)
      requires Coupled() && Pc() == Recording(key, terminal, false)
      modifies this`world, ledger`durable, ledger`cache, ledger`now, outcomes
      ensures Coupled() && File() == old(File())
      ensures Later(old(ledger.now), old(outcomes.now))
      ensures r == Failure(HostLedger) <==> !HostCalm(old(outcomes.now))
      ensures r == Failure(Io) <==> HostCalm(old(outcomes.now)) && !FileCalm(old(ledger.now))
      ensures r.Failure? ==> r.error.Io? || r.error.HostLedger?
      ensures NoDispatch(old(world.history)) && Answered(old(world.history), Call.Execute(key), AnswerOf(r))
      ensures r.Success? ==> r.value == Ack(key, terminal, false)
    {
      hide Reachable, ValidCodec;
      var ok;
      ghost var applied;
      ok, applied := outcomes.Record(key, terminal);
      if !ok {
        Take(RecordFails(applied));
        return Failure(HostLedger);
      }
      Take(Record);
      ok := Finish(Ack(key, terminal, false));
      r := if ok then Success(Ack(key, terminal, false)) else Failure(Io);
    }

    // A terminal after a possible effect: whatever fails, the call is answered with it or with an
    // unknown outcome.
    method FinishEffect(key: OutcomeKey, terminal: Terminal) returns (ack: Ack)
      requires Coupled() && Pc() == Recording(key, terminal, true)
      modifies this`world, ledger`durable, ledger`cache, ledger`now, outcomes
      ensures Coupled() && File() == old(File())
      ensures Later(old(ledger.now), old(outcomes.now))
      ensures FileCalm(old(ledger.now)) && HostCalm(old(outcomes.now)) ==> ack == Ack(key, terminal, false)
      ensures NoDispatch(old(world.history)) && Answered(old(world.history), Call.Execute(key), Acknowledged(ack))
      ensures ack == Ack(key, terminal, false) || ack == PersistenceUnknown(Ack(key, terminal, false))
    {
      hide Reachable, ValidCodec;
      ack := Ack(key, terminal, false);
      var ok;
      ghost var applied;
      ok, applied := outcomes.Record(key, terminal);
      if ok {
        Take(Record);
      } else {
        Take(RecordFails(applied));
        ack := PersistenceUnknown(ack);
      }
      ack := FinishAfterEffect(ack);
    }

    ghost predicate DispatchedSince(h: seq<Event>, key: OutcomeKey)
      reads this
      requires IsProc(world, me)
    {
      h <= world.history && exists i :: |h| <= i < |world.history| && world.history[i] == Dispatched(File(), key)
    }

    // All checks, then the dispatch, then its outcome.
    method AttemptDispatch(q: D.Request, a: D.Attempt) returns (r: Result<Ack, Reason>, ghost attempted: bool)
      requires Coupled() && Pc() == Ready(q.key)
      modifies this`world, ledger`durable, ledger`cache, ledger`now, outcomes
      ensures Coupled() && File() == old(File()) && Answered(old(world.history), Call.Execute(q.key), AnswerOf(r))
      ensures if attempted then DispatchedSince(old(world.history), q.key) else NoDispatch(old(world.history))
      ensures Outcome(q, session, a, attempted, r)
      ensures Later(old(ledger.now), old(outcomes.now))
      ensures attempted <==> D.Gate(q, session, a).Success?
      ensures FileCalm(old(ledger.now)) && HostCalm(old(outcomes.now)) ==> r == Success(NewAnswer(q, session, a, Grant))
      ensures r.Success? ==> r.value == NewAnswer(q, session, a, Grant)
                             || (attempted && r.value == PersistenceUnknown(NewAnswer(q, session, a, Grant)))
      ensures r.Failure? ==> r.error.Io? || r.error.HostLedger?
    {
      hide Reachable, ValidCodec, D.Gate, D.Settle, DoInspect, DoSync, DoWrite, DoAsk, DoAskFails, DoRecord,
           DoRecordFails, DoLook, DoFail, Frame, HostBegin;
      ghost var h := world.history;
      var gate := D.Gate(q, session, a);
      if gate.Failure? {
        Take(Refuse(gate.error));
        r := FinishEarly(q.key, gate.error);
        return r, false;
      }
      Take(Dispatch);
      assert world.history[|h|] == Dispatched(File(), q.key);
      var (terminal, effect) := D.Settle(q, session, gate.value, a);
      Take(Settle(terminal, effect));
      assert world.history[|h|] == Dispatched(File(), q.key);
      if effect {
        var ack := FinishEffect(q.key, terminal);
        r := Success(ack);
      } else {
        r := FinishEarly(q.key, terminal);
      }
      attempted := true;
    }

    // ----- The two calls -----

    // A newly claimed operation.
    method RunNew(q: D.Request, a: D.Attempt) returns (r: Result<Ack, Reason>, ghost attempted: bool)
      requires Coupled() && Pc() == Asking(Call.Execute(q.key), q.key, Fresh)
      modifies this`world, ledger`durable, ledger`cache, ledger`now, outcomes
      ensures Coupled() && File() == old(File()) && Answered(old(world.history), Call.Execute(q.key), AnswerOf(r))
      ensures if attempted then DispatchedSince(old(world.history), q.key) else NoDispatch(old(world.history))
      ensures Outcome(q, session, a, attempted, r)
      ensures Later(old(ledger.now), old(outcomes.now))
      ensures var answer := HostBegin(outcomes.recording, old(outcomes.entries), q.key).0;
              var calm := FileCalm(old(ledger.now)) && HostCalm(old(outcomes.now));
              && (attempted ==> answer.Grant? && D.Gate(q, session, a).Success?)
              && (calm ==> r == Success(NewAnswer(q, session, a, answer))
                           && (attempted <==> answer.Grant? && D.Gate(q, session, a).Success?))
              && (r.Success? ==> r.value == NewAnswer(q, session, a, answer)
                                 || (attempted && r.value == PersistenceUnknown(NewAnswer(q, session, a, answer))))
              && (r.Failure? ==> r.error.Io? || r.error.HostLedger?)
    {
      hide Reachable, ValidCodec, Outcome, HostBegin, D.Gate, D.Settle, D.EmptyReceipt;
      NotAttempted(q, session, a);
      attempted := false;
      var receipt := D.EmptyReceipt(q, session);
      var decision := AskHost(Call.Execute(q.key), q.key, Fresh, receipt);
      if decision.Failure? {
        return Failure(HostLedger), false;
      }
      if decision.value.Grant? {
        r, attempted := AttemptDispatch(q, a);
        return;
      }
      var terminal := Recovered(decision.value, receipt);
      var ok := Finish(Ack(q.key, terminal, false));
      r := if ok then Success(Ack(q.key, terminal, false)) else Failure(Io);
    }

    // `execute` while it holds the lock.
    method ExecuteLocked(q: D.Request, a: D.Attempt) returns (r: Result<Ack, Reason>, ghost attempted: bool)
      requires Coupled() && Pc() == Repairing(Call.Execute(q.key))
      modifies this`world, ledger`durable, ledger`cache, ledger`now, outcomes
      ensures Coupled() && File() == old(File()) && Answered(old(world.history), Call.Execute(q.key), AnswerOf(r))
      ensures if attempted then DispatchedSince(old(world.history), q.key) else NoDispatch(old(world.history))
      ensures Outcome(q, session, a, attempted, r)
      ensures r != Failure(LockWait)
      ensures Explained(q, session, a, Recs(ledger.codec, old(ledger.cache)),
                        HostBegin(outcomes.recording, old(outcomes.entries), q.key).0,
                        FileCalm(old(ledger.now)) && HostCalm(old(outcomes.now)), attempted, r)
    {
      hide Reachable, ValidCodec, Outcome, HostBegin, NewAnswer, D.Gate, Recs, ClaimOf, LastTerminal, RecoveredReceipt;
      NotAttempted(q, session, a);
      attempted := false;
      var repaired := RepairTail(Call.Execute(q.key));
      if repaired.Failure? {
        return Failure(repaired.error), false;
      }
      var claimed := Claim(q.key, FactsOf(q, session));
      if claimed.Failure? {
        return Failure(claimed.error), false;
      }
      match claimed.value {
        case New => r, attempted := RunNew(q, a);
        case RecoveredUnknown(facts) => r := RecoverClaim(Call.Execute(q.key), q.key, facts, q.mode);
        case Replay(ack) =>
          if Interrupted(ack.terminal) {
            r := ReconcileInterrupted(Call.Execute(q.key), ack);
          } else {
            r := Success(ack.(replayed := true));
          }
      }
    }

    // A request that is not admitted fails at once and changes nothing.
    method Execute(q: D.Request, c: D.Screening, a: D.Attempt) returns (r: Result<Ack, Reason>, ghost attempted: bool)
      requires Valid()
      modifies this`world, ledger, outcomes
      ensures Valid() && File() == old(File()) && ledger.holder == old(ledger.holder)
      ensures !D.Admitted(q, c) ==>
                && r == Failure(if D.ValidRequest(q, c) then AuthorityDenied else InvalidRequest) && !attempted
                && world == old(world) && ledger.cache == old(ledger.cache) && outcomes.entries == old(outcomes.entries)
      ensures D.Admitted(q, c) ==>
                && old(world.history) < world.history
                && world.history[|world.history| - 1] == Returned(File(), Call.Execute(q.key), AnswerOf(r))
      ensures old(world.history) <= world.history
      ensures if attempted then DispatchedSince(old(world.history), q.key) else NoDispatch(old(world.history))
      ensures Outcome(q, session, a, attempted, r)
      ensures D.Admitted(q, c) ==> (r == Failure(LockWait) <==> old(ledger.holder).Some?)
      ensures r == Failure(LockWait) ==> ledger.cache == old(ledger.cache) && outcomes.entries == old(outcomes.entries)
      ensures D.Admitted(q, c) && old(ledger.holder).None? ==>
                Explained(q, session, a, Recs(ledger.codec, old(ledger.cache)),
                          HostBegin(outcomes.recording, old(outcomes.entries), q.key).0,
                          FileCalm(old(ledger.now)) && HostCalm(old(outcomes.now)), attempted, r)
    {
      hide Reachable, ValidCodec, Outcome, Explained, HostBegin, Recs, D.ValidRequest;
      NotAttempted(q, session, a);
      attempted := false;
      var valid := D.ValidateRequest(q, c);
      if !valid {
        return Failure(InvalidRequest), false;
      }
      if !c.authorised {
        return Failure(AuthorityDenied), false;
      }
      var ok := Acquire(Call.Execute(q.key));
      if !ok {
        return Failure(LockWait), false;
      }
      r, attempted := ExecuteLocked(q, a);
      ledger.holder := None;
    }

    // Runs requests in order and stops after the first result that is not verified. `marks` tells how
    // long the history was before each call and after the last.
    method ExecuteBatch(qs: seq<D.Request>, cs: seq<D.Screening>, attempts: seq<D.Attempt>)
      returns (results: seq<Result<Ack, Reason>>, ghost marks: seq<nat>, ghost attempted: seq<bool>)
      requires Valid() && |attempts| == |qs| == |cs|
      modifies this`world, ledger, outcomes
      ensures Valid() && File() == old(File()) && old(world.history) <= world.history
      ensures |results| <= |qs| && |marks| == |results| + 1 && |attempted| == |results|
      ensures forall i | 0 <= i < |results| - 1 ::
                results[i].Success? && results[i].value.terminal.Succeeded?
                && results[i].value.terminal.receipt.effect == Verified
      ensures |results| < |qs| ==>
                && results != []
                && var last := results[|results| - 1];
                   last.Success? && last.value.terminal.Succeeded? ==> last.value.terminal.receipt.effect != Verified
      ensures old(ledger.holder).None? ==> forall i | 0 <= i < |results| :: results[i] != Failure(LockWait)
      ensures marks[0] == |old(world.history)| && marks[|results|] == |world.history|
      ensures forall i | 0 <= i < |results| ::
                && Served(qs[i], cs[i], File(), world.history, marks[i], marks[i + 1], results[i])
                && Outcome(qs[i], session, attempts[i], attempted[i], results[i])
    {
      VerifiedMeans();
      hide Reachable, ValidCodec, Outcome, Explained, HostBegin, Recs, D.Admitted, Served, ClaimOf, LastTerminal,
           IsVerified, NoDispatchAfter, DispatchedSince, NoFault, D.ValidRequest, DiskOf;
      results, marks, attempted := [], [|world.history|], [];
      while |results| < |qs|
        invariant Valid() && File() == old(File()) && old(world.history) <= world.history && |results| <= |qs|
        invariant |marks| == |results| + 1 && |attempted| == |results|
        invariant marks[0] == |old(world.history)| && marks[|results|] == |world.history|
        invariant ledger.holder == old(ledger.holder)
        invariant forall i | 0 <= i < |results| :: IsVerified(results[i])
        invariant old(ledger.holder).None? ==> forall i | 0 <= i < |results| :: results[i] != Failure(LockWait)
        invariant forall i | 0 <= i < |results| ::
                    && Served(qs[i], cs[i], File(), world.history, marks[i], marks[i + 1], results[i])
                    && Outcome(qs[i], session, attempts[i], attempted[i], results[i])
        decreases |qs| - |results|
      {
        ghost var n, h := |results|, world.history;
        var r;
        ghost var dispatched;
        r, dispatched := Execute(qs[|results|], cs[|results|], attempts[|results|]);
        forall i | 0 <= i < n ensures Served(qs[i], cs[i], File(), world.history, marks[i], marks[i + 1], results[i]) {
          StillServed(qs[i], cs[i], File(), h, world.history, marks[i], marks[i + 1], results[i]);
        }
        NowServed(qs[n], cs[n], File(), h, world.history, r);
        results, marks, attempted := results + [r], marks + [|world.history|], attempted + [dispatched];
        if !IsVerified(r) {
          return;
        }
      }
    }

    // `status` while it holds the lock.
    method StatusLocked(op: string) returns (r: Result<Option<Ack>, Reason>)
      requires Coupled() && Pc() == Repairing(Call.Status(op))
      modifies this`world, ledger`durable, ledger`cache, ledger`now, outcomes
      ensures Coupled() && File() == old(File())
      ensures NoDispatch(old(world.history)) && Answered(old(world.history), Call.Status(op), StatusAnswer(r))
      ensures Later(old(ledger.now), old(outcomes.now))
      ensures r != Failure(LockWait)
      ensures StatusExplained(op, Recs(ledger.codec, old(ledger.cache)), outcomes.recording, old(outcomes.entries),
                              FileCalm(old(ledger.now)) && HostCalm(old(outcomes.now)), r)
    {
      hide Reachable, ValidCodec, ReadRecords, ClaimOf, LastTerminal, Recs, HostBegin, RecoveredReceipt, Whole,
           Repaired, DoInspect, DoSync, DoWrite, DoAsk, DoAskFails, DoRecord, DoRecordFails, Frame;
      var repaired := RepairTail(Call.Status(op));
      if repaired.Failure? {
        return Failure(repaired.error);
      }
      KnownRecords(ledger.codec, world, me);
      KnownTerminal(Recs(ledger.codec, ledger.cache), op);
      hide WellFormed;
      var records := ledger.Records();
      if records == Failure(Io) {
        Take(Fail);
        return Failure(Io);
      }
      Take(Look(NO_FACTS));
      if records.Failure? {
        return Failure(CorruptLedger);
      }
      var claim, terminal := Scan(records.value, op);
      var answer;
      if terminal.Some? {
        if !Interrupted(terminal.value.terminal) {
          return Success(terminal);
        }
        answer := ReconcileInterrupted(Call.Status(op), terminal.value);
      } else if claim.None? {
        return Success(None);
      } else {
        var facts := claim.value.facts;
        answer := RecoverClaim(Call.Status(op), claim.value.key, facts, ModeOf(facts));
      }
      r := if answer.Success? then Success(Some(answer.value)) else Failure(answer.error);
    }

    method Status(op: string) returns (r: Result<Option<Ack>, Reason>)
      requires Valid()
      modifies this`world, ledger, outcomes
      ensures Valid() && File() == old(File()) && ledger.holder == old(ledger.holder)
      ensures !D.ValidIdentifier(op) ==>
                && r == Failure(InvalidRequest)
                && world == old(world) && ledger.cache == old(ledger.cache) && outcomes.entries == old(outcomes.entries)
      ensures D.ValidIdentifier(op) ==>
                && old(world.history) < world.history
                && world.history[|world.history| - 1] == Returned(File(), Call.Status(op), StatusAnswer(r))
                && (r == Failure(LockWait) <==> old(ledger.holder).Some?)
      ensures r == Failure(LockWait) ==> ledger.cache == old(ledger.cache) && outcomes.entries == old(outcomes.entries)
      ensures D.ValidIdentifier(op) && old(ledger.holder).None? ==>
                StatusExplained(op, Recs(ledger.codec, old(ledger.cache)), outcomes.recording, old(outcomes.entries),
                                FileCalm(old(ledger.now)) && HostCalm(old(outcomes.now)), r)
      ensures NoDispatch(old(world.history))
    {
      hide Reachable, ValidCodec, Recs, StatusExplained, D.ValidIdentifier;
      if !D.ValidIdentifier(op) {
        return Failure(InvalidRequest);
      }
      var ok := Acquire(Call.Status(op));
      if !ok {
        return Failure(LockWait);
      }
      r := StatusLocked(op);
      ledger.holder := None;
    }
  }

  function StatusAnswer(r: Result<Option<Ack>, Reason>): Answer {
    match r
    case Success(Some(ack)) => Acknowledged(ack)
    case Success(None) => NotFound
    case Failure(reason) => Error(reason)
  }

  const NO_FACTS := ClaimFacts(None, None, None, None)
}
