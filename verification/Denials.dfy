// With a shared host ledger, a denial of an effect is always the host's own: so no engine, on
// whatever file, denies what another one has dispatched.
module Denials {
  import opened Jsonl
  import opened Types
  import opened Ledger
  import opened Machine
  import opened MachineInv
  import opened MachineSteps
  import opened MachineMoves
  import opened Guarantees

  // A terminal that denies an effect is the one the host holds for the key.
  predicate HostsDenial(s: State, ack: Ack) {
    Honest(ack.terminal) || HostHolds(s, ack.key, ack.terminal)
  }

  predicate LogDenials(s: State, rs: seq<LedgerRecord>) {
    forall i | 0 <= i < |rs| && rs[i].TerminalRecord? :: HostsDenial(s, rs[i].ack)
  }

  // When an answer denies an effect, no dispatch of its key on any file can have had one.
  ghost predicate FairAnswer(h: seq<Event>, e: Event) {
    e.Returned? && e.answer.Acknowledged? && !Honest(e.answer.ack.terminal) ==>
      forall f: nat :: !Live(h, f, e.answer.ack.key)
  }

  ghost predicate FairHistory(h: seq<Event>) {
    forall i | 0 <= i < |h| :: FairAnswer(h[..i], h[i])
  }

  ghost predicate DenialInv(c: LedgerCodec, s: State) {
    && s.hosted
    && (forall f | 0 <= f < |s.disks| :: LogDenials(s, Recs(c, s.disks[f].cache)))
    && (forall p | 0 <= p < |s.procs| && Carried(s.procs[p].pc).Some? :: HostsDenial(s, Carried(s.procs[p].pc).value))
    && FairHistory(s.history)
  }

  // ----- What a process may carry -----

  ghost predicate CarriesFair(s: State, s': State, pc: Pc, pc': Pc) {
    Carried(pc').Some? ==> HostsDenial(s', Carried(pc').value) || Carried(pc') == Carried(pc)
  }

  lemma ActCarries(c: LedgerCodec, s: State, p: nat, action: Action)
    requires ValidCodec(c) && Inv(c, s) && CanAct(c, s, p, action) && s.hosted
    ensures IsProc(s, p) && IsProc(DoAct(c, s, p, action), p)
    ensures CarriesFair(s, DoAct(c, s, p, action), s.procs[p].pc, DoAct(c, s, p, action).procs[p].pc)
  {
    Here(c, s, p);
    if action.Look? {
      LookCarries(c, s, p, action.facts);
    } else if action.Ask? {
      AskCarries(c, s, p, action.receipt);
    } else if action.Record? || action.RecordFails? {
      RecordCarries(c, s, p, action);
    } else {
      OtherCarries(c, s, p, action);
    }
  }

  lemma LookCarries(c: LedgerCodec, s: State, p: nat, facts: ClaimFacts)
    requires IsProc(s, p) && s.procs[p].pc.Scanning?
    ensures IsProc(DoLook(c, s, p, facts), p) && Carried(DoLook(c, s, p, facts).procs[p].pc).None?
  {
    hide ReadRecords, ClaimOf, LastTerminal;
  }

  lemma AskCarries(c: LedgerCodec, s: State, p: nat, receipt: Receipt)
    requires Inv(c, s) && IsProc(s, p) && s.procs[p].pc.Asking? && s.hosted
    ensures IsProc(DoAsk(s, p, receipt), p)
    ensures CarriesFair(s, DoAsk(s, p, receipt), s.procs[p].pc, DoAsk(s, p, receipt).procs[p].pc)
  {
    HealKey(c, s, p);
    hide Inv;
  }

  lemma RecordedHonestly(c: LedgerCodec, s: State, p: nat)
    requires Inv(c, s) && IsProc(s, p) && s.procs[p].pc.Recording?
    ensures s.procs[p].pc.effect ==> Honest(s.procs[p].pc.terminal)
  {
    Here(c, s, p);
    hide Inv, HostInv, FileInv, LockInv, GoodHistory, Recs, Torn;
  }

  lemma RecordHolds(s: State, p: nat, action: Action)
    requires IsProc(s, p) && s.procs[p].pc.Recording? && s.hosted
    requires s.procs[p].pc.effect ==> Honest(s.procs[p].pc.terminal)
    requires action.Record? || action.RecordFails?
    ensures var s' := if action.Record? then DoRecord(s, p) else DoRecordFails(s, p, action.applied);
            IsProc(s', p) && CarriesFair(s, s', s.procs[p].pc, s'.procs[p].pc)
  {
    hide Release, DiskOf;
  }

  lemma RecordCarries(c: LedgerCodec, s: State, p: nat, action: Action)
    requires Inv(c, s) && CanAct(c, s, p, action) && (action.Record? || action.RecordFails?) && s.hosted
    ensures IsProc(s, p) && IsProc(DoAct(c, s, p, action), p)
    ensures CarriesFair(s, DoAct(c, s, p, action), s.procs[p].pc, DoAct(c, s, p, action).procs[p].pc)
  {
    RecordedHonestly(c, s, p);
    hide *;
    RecordHolds(s, p, action);
  }

  lemma OtherCarries(c: LedgerCodec, s: State, p: nat, action: Action)
    requires CanAct(c, s, p, action) && !action.Look? && !action.Ask? && !action.Record? && !action.RecordFails?
    ensures IsProc(s, p) && IsProc(DoAct(c, s, p, action), p)
    ensures CarriesFair(s, DoAct(c, s, p, action), s.procs[p].pc, DoAct(c, s, p, action).procs[p].pc)
  {
    hide Frame, Repaired, DoLook, DoAsk, DoRecord, DoRecordFails;
  }

  // ----- One step -----

  lemma DenialStays(s: State, s': State, ack: Ack)
    requires HostsDenial(s, ack) && HostGrows(s.host, s'.host)
    ensures HostsDenial(s', ack)
  {
  }

  lemma LogDenialsStay(s: State, s': State, rs: seq<LedgerRecord>)
    requires LogDenials(s, rs) && HostGrows(s.host, s'.host)
    ensures LogDenials(s', rs)
  {
    forall i | 0 <= i < |rs| && rs[i].TerminalRecord? ensures HostsDenial(s', rs[i].ack) {
      DenialStays(s, s', rs[i].ack);
    }
  }

  lemma LogDenialsMove(c: LedgerCodec, s: State, d: Disk, d': Disk, pc: Pc)
    requires LogDenials(s, Recs(c, d.cache)) && RecordsMove(c, d, d', pc)
    requires Carried(pc).Some? ==> HostsDenial(s, Carried(pc).value)
    ensures LogDenials(s, Recs(c, d'.cache))
  {
    hide Recs;
  }

  // A denial that the host holds leaves no dispatch that can have had an effect.
  lemma DenialIsTrue(c: LedgerCodec, s: State, ack: Ack, f: nat)
    requires Inv(c, s) && s.hosted && HostsDenial(s, ack) && !Honest(ack.terminal)
    ensures !Live(s.history, f, ack.key)
  {
    hide FileInv, PcInv, GoodHistory, LockInv;
  }

  // A fitting answer denies an effect only if the log or the process does.
  lemma FittingIsFair(c: LedgerCodec, s: State, d: Disk, pc: Pc, f: nat, e: Event)
    requires ReplyFits(c, d, pc, f, e) && LogDenials(s, Recs(c, d.cache))
    requires Carried(pc).Some? ==> HostsDenial(s, Carried(pc).value)
    requires pc.Asking? && pc.why.Heal? ==> Interrupted(pc.why.ack.terminal)
    ensures e.answer.Acknowledged? ==> HostsDenial(s, e.answer.ack)
  {
    var rs := Recs(c, d.cache);
    if pc.Scanning? && LastTerminal(rs, OpOf(pc.call)).Some? {
      var i := LastTerminalAt(rs, OpOf(pc.call));
    }
    hide Recs, LastTerminal;
  }

  lemma FairAppend(h: seq<Event>, h': seq<Event>, i: int)
    requires h <= h' && |h| <= i < |h'| && FairAnswer(h[..|h|], h'[i])
    requires forall j | |h| <= j < i :: !h'[j].Dispatched?
    ensures FairAnswer(h'[..i], h'[i])
  {
    assert h[..|h|] == h;
    forall f: nat, k: OutcomeKey | Live(h'[..i], f, k) ensures Live(h, f, k) {
      var j :| 0 <= j < i && h'[..i][j] == Dispatched(f, k);
      assert h'[j] == Dispatched(f, k);
      assert j < |h|;
      assert h[j] == h'[j];
      assert forall m | 0 <= m < |h| :: h'[..i][m] == h[m];
    }
  }

  lemma HealsInterrupted(c: LedgerCodec, d: Disk, h: seq<Event>, f: nat, pc: Pc)
    requires PcInv(c, d, h, f, pc)
    ensures pc.Asking? && pc.why.Heal? ==> Interrupted(pc.why.ack.terminal)
  {
    hide Recs, Torn;
  }

  lemma FairReply(c: LedgerCodec, s: State, p: nat, e: Event)
    requires Inv(c, s) && DenialInv(c, s) && IsProc(s, p)
    requires ReplyFits(c, DiskOf(s, p), s.procs[p].pc, s.procs[p].file, e)
    ensures FairAnswer(s.history, e)
  {
    Here(c, s, p);
    var d, pc, f := DiskOf(s, p), s.procs[p].pc, s.procs[p].file;
    HealsInterrupted(c, d, s.history, f, pc);
    hide Inv, HostInv, FileInv, PcInv, LockInv, GoodHistory, FairHistory, FairAnswer, ReplyFits, LogDenials,
         HostsDenial;
    FittingIsFair(c, s, d, pc, f, e);
    FairNow(c, s, e);
  }

  lemma FairAct(c: LedgerCodec, s: State, p: nat, action: Action)
    requires ValidCodec(c) && Inv(c, s) && CanAct(c, s, p, action) && DenialInv(c, s)
    ensures FairHistory(DoAct(c, s, p, action).history)
  {
    ActReplies(c, s, p, action);
    NewEvents(c, s, p, action);
    var h, h' := s.history, DoAct(c, s, p, action).history;
    hide DoAct, CanAct, Inv, Recs, ValidCodec, ReplyFits, LogDenials, HostsDenial, FairAnswer;
    forall i | 0 <= i < |h'| ensures FairAnswer(h'[..i], h'[i]) {
      if i < |h| {
        assert h'[..i] == h[..i];
      } else if h'[i].Returned? {
        FairReply(c, s, p, h'[i]);
        assert h[..|h|] == h;
        FairAppend(h, h', i);
      }
    }
  }

  lemma FairNow(c: LedgerCodec, s: State, e: Event)
    requires Inv(c, s) && s.hosted && (e.Returned? && e.answer.Acknowledged? ==> HostsDenial(s, e.answer.ack))
    ensures FairAnswer(s.history, e)
  {
    hide Inv, HostsDenial, Live;
    if e.Returned? && e.answer.Acknowledged? && !Honest(e.answer.ack.terminal) {
      forall f: nat ensures !Live(s.history, f, e.answer.ack.key) {
        DenialIsTrue(c, s, e.answer.ack, f);
      }
    }
  }

  // No step both dispatches and answers.
  lemma NewEvents(c: LedgerCodec, s: State, p: nat, action: Action)
    requires CanAct(c, s, p, action)
    ensures var h' := DoAct(c, s, p, action).history;
            forall i, j | |s.history| <= j < i < |h'| && h'[i].Returned? :: !h'[j].Dispatched?
  {
    if action.Ask? || action.AskFails? {
      AskEvents(c, s, p, action);
    } else {
      OtherEvents(c, s, p, action);
    }
    hide DoAct;
  }

  lemma AskEvents(c: LedgerCodec, s: State, p: nat, action: Action)
    requires CanAct(c, s, p, action) && (action.Ask? || action.AskFails?)
    ensures var h' := DoAct(c, s, p, action).history;
            forall j | |s.history| <= j < |h'| :: !h'[j].Dispatched?
  {
    var Asking(call, key, why) := s.procs[p].pc;
    var grants := GrantEvents(s, p, key, action.Ask? && why.Fresh?);
    assert |grants| <= 1 && (grants != [] ==> !grants[0].Dispatched?);
    var f, h', turn := s.procs[p].file, DoAct(c, s, p, action).history,
      if action.Ask? then AskTurn(HostBegin(s.hosted, s.host, key).0, call, key, why, action.receipt)
        else Ends(Error(HostLedger));
    hide HostBegin, AskTurn;
    var answers := if turn.Ends? then [Returned(f, call, turn.answer)] else [];
    assert h' == s.history + (grants + answers) || h' == s.history + answers;
    hide DoAct;
    NewLater(s.history, grants + answers);
    NewLater(s.history, answers);
  }

  lemma NewLater(h: seq<Event>, es: seq<Event>)
    requires forall k | 0 <= k < |es| :: !es[k].Dispatched?
    ensures forall j | |h| <= j < |h + es| :: !(h + es)[j].Dispatched?
  {
  }

  lemma OtherEvents(c: LedgerCodec, s: State, p: nat, action: Action)
    requires CanAct(c, s, p, action) && !action.Ask? && !action.AskFails?
    ensures var h' := DoAct(c, s, p, action).history;
            forall i, j | |s.history| <= j < i < |h'| && h'[i].Returned? :: !h'[j].Dispatched?
  {
    hide Frame, Repaired, ReadRecords, LookTurn, HostBegin, DoAsk, DoAskFails;
  }

  lemma DenialAct(c: LedgerCodec, s: State, p: nat, action: Action)
    requires ValidCodec(c) && Inv(c, s) && CanAct(c, s, p, action) && DenialInv(c, s)
    ensures DenialInv(c, DoAct(c, s, p, action))
  {
    var s' := DoAct(c, s, p, action);
    FairAct(c, s, p, action);
    ActKeepsOthers(c, s, p, action);
    LogsFair(c, s, p, action);
    CarriedFair(c, s, p, action);
    hide FairHistory, DoAct, CanAct, Recs, LogDenials, HostsDenial, Inv;
  }

  lemma LogsFair(c: LedgerCodec, s: State, p: nat, action: Action)
    requires ValidCodec(c) && Inv(c, s) && CanAct(c, s, p, action) && DenialInv(c, s)
    ensures var s' := DoAct(c, s, p, action);
            forall f | 0 <= f < |s'.disks| :: LogDenials(s', Recs(c, s'.disks[f].cache))
  {
    hide FairHistory, FileInv, PcInv, GoodHistory, LockInv, Recs, RecordsMove, LogDenials, HostsDenial, HostGrows;
    ActHost(c, s, p, action);
    hide Inv, HostInv, DoAct, CanAct;
    ActKeepsOthers(c, s, p, action);
    ActRecords(c, s, p, action);
    var s' := DoAct(c, s, p, action);
    LogDenialsMove(c, s, DiskOf(s, p), DiskOf(s', p), s.procs[p].pc);
    forall f | 0 <= f < |s'.disks| ensures LogDenials(s', Recs(c, s'.disks[f].cache)) {
      LogDenialsStay(s, s', Recs(c, s'.disks[f].cache));
    }
  }

  lemma CarriedFair(c: LedgerCodec, s: State, p: nat, action: Action)
    requires ValidCodec(c) && Inv(c, s) && CanAct(c, s, p, action) && DenialInv(c, s)
    ensures var s' := DoAct(c, s, p, action);
            forall q | 0 <= q < |s'.procs| && Carried(s'.procs[q].pc).Some? ::
              HostsDenial(s', Carried(s'.procs[q].pc).value)
  {
    hide FairHistory, FileInv, PcInv, GoodHistory, LockInv, LogDenials, HostsDenial, HostGrows, Carried;
    ActHost(c, s, p, action);
    hide Inv, HostInv, DoAct, CanAct;
    ActKeepsOthers(c, s, p, action);
    ActCarries(c, s, p, action);
    var s' := DoAct(c, s, p, action);
    forall q | 0 <= q < |s'.procs| && Carried(s'.procs[q].pc).Some?
      ensures HostsDenial(s', Carried(s'.procs[q].pc).value)
    {
      if Carried(s.procs[q].pc).Some? {
        DenialStays(s, s', Carried(s.procs[q].pc).value);
      }
    }
  }

  lemma DenialPowerLoss(c: LedgerCodec, s: State, images: seq<seq<byte>>)
    requires ValidCodec(c) && Inv(c, s) && Enabled(c, s, PowerLoss(images)) && DenialInv(c, s)
    ensures DenialInv(c, Do(c, s, PowerLoss(images)))
  {
    var s' := Do(c, s, PowerLoss(images));
    hide FairHistory;
    forall f | 0 <= f < |s'.disks| ensures LogDenials(s', Recs(c, s'.disks[f].cache)) {
      assert FileInv(c, s.disks[f], s.history, f);
      hide Inv, Recs, Clean, Whole, CrashImage, ValidCodec, WellFormed, AllEarned;
      CrashKeeps(c, s.disks[f].durable, s.disks[f].cache, images[f]);
      assert LogDenials(s, Recs(c, s.disks[f].cache));
    }
  }

  lemma DenialStep(c: LedgerCodec, s: State, step: Step)
    requires ValidCodec(c) && Inv(c, s) && Enabled(c, s, step) && DenialInv(c, s)
    ensures DenialInv(c, Do(c, s, step))
  {
    match step {
      case Act(p, action) =>
        hide Inv, DoAct, CanAct, ValidCodec, DenialInv;
        DenialAct(c, s, p, action);
      case PowerLoss(images) =>
        hide Inv, ValidCodec, DenialInv, CrashImage;
        DenialPowerLoss(c, s, images);
      case WriteBack(f, image) =>
        hide Inv, ValidCodec, CrashImage, Recs, FairHistory;
        SameDenials(s, Do(c, s, step));
    }
  }

  lemma SameDenials(s: State, s': State)
    requires s'.host == s.host
    ensures forall rs :: LogDenials(s, rs) ==> LogDenials(s', rs)
    ensures forall ack :: HostsDenial(s, ack) ==> HostsDenial(s', ack)
  {
  }

  // ----- All runs -----

  lemma {:induction false} DenialRun(c: LedgerCodec, s: State, steps: seq<Step>)
    requires ValidCodec(c) && Inv(c, s) && Legal(c, s, steps) && DenialInv(c, s)
    ensures DenialInv(c, Run(c, s, steps))
    decreases |steps|
  {
    hide Inv, Do, ValidCodec, DenialInv;
    if steps != [] {
      DenialStep(c, s, steps[0]);
      StepKeeps(c, s, steps[0]);
      DenialRun(c, Do(c, s, steps[0]), steps[1..]);
    }
  }

  lemma {:induction false} RunHosted(c: LedgerCodec, s: State, steps: seq<Step>)
    requires Legal(c, s, steps)
    ensures Run(c, s, steps).hosted == s.hosted
    decreases |steps|
  {
    hide DoAct, CanAct, CrashImage;
    if steps != [] {
      if steps[0].Act? {
        ActKeepsOthers(c, s, steps[0].p, steps[0].action);
      }
      RunHosted(c, Do(c, s, steps[0]), steps[1..]);
    }
  }

  lemma ReachableDenials(c: LedgerCodec, s: State)
    requires ValidCodec(c) && Reachable(c, s) && s.hosted
    ensures DenialInv(c, s)
  {
    hide Inv, ValidCodec, DenialInv;
    var s0, steps :| Init(s0) && Legal(c, s0, steps) && Run(c, s0, steps) == s;
    RunHosted(c, s0, steps);
    InitHolds(c, s0);
    InitDenials(c, s0);
    DenialRun(c, s0, steps);
  }

  lemma InitDenials(c: LedgerCodec, s: State)
    requires ValidCodec(c) && Init(s) && s.hosted
    ensures DenialInv(c, s)
  {
    NoRecords(c);
    hide Recs;
  }

  lemma NoRecords(c: LedgerCodec)
    requires ValidCodec(c)
    ensures Recs(c, []) == []
  {
    LogParts<LedgerRecord>(c, [], []);
    assert Image<LedgerRecord>(c, []) + [] == [];
    hide *;
  }

  // With a shared host ledger, once a key was dispatched on one file and its effect not ruled out, no
  // acknowledgement of that key by an engine on any file denies it.
  lemma NeverDeniedAnywhere(c: LedgerCodec, s: State, i: nat, j: nat)
    requires ValidCodec(c) && Reachable(c, s) && s.hosted && i < j < |s.history|
    requires s.history[i].Dispatched? && Disproved(s.history[i].file, s.history[i].key) !in s.history[..j]
    requires s.history[j].Returned? && s.history[j].answer.Acknowledged?
    requires s.history[j].answer.ack.key == s.history[i].key
    ensures Honest(s.history[j].answer.ack.terminal)
  {
    hide Reachable, ValidCodec;
    ReachableDenials(c, s);
    assert FairAnswer(s.history[..j], s.history[j]);
    assert s.history[..j][i] == s.history[i];
    assert Live(s.history[..j], s.history[i].file, s.history[i].key);
  }
}
