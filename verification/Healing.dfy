// Which outcomes are final: a synced last terminal that says more than "not recorded" is the answer
// of every later call, and a claim without such a terminal heals to what the host recorded.
module Healing {
  import opened Wrappers
  import opened Jsonl
  import opened Types
  import opened Ledger
  import opened Machine
  import opened MachineInv
  import opened MachineSteps
  import opened MachineMoves
  import opened Guarantees

  // The file's last word on an operation is synced.
  ghost predicate LastWord(c: LedgerCodec, d: Disk, ack: Ack) {
    var rs, durable, op := Recs(c, d.cache), Recs(c, d.durable), ack.key.operationId;
    ClaimedBy(durable, ack.key) && LastTerminal(durable, op) == Some(ack) && Quiet(rs, |durable|, op)
  }

  // Nobody works on the operation, and its last word is a real outcome.
  ghost predicate Fixed(c: LedgerCodec, s: State, f: nat, ack: Ack) {
    && f < |s.disks| && !Interrupted(ack.terminal) && LastWord(c, s.disks[f], ack)
    && forall p | 0 <= p < |s.procs| && s.procs[p].file == f :: Topic(s.procs[p].pc) != Some(ack.key.operationId)
  }

  // Since history `h`, every answer of this file about the operation is an error or the same outcome.
  ghost predicate SaysOnly(h: seq<Event>, h': seq<Event>, f: nat, ack: Ack) {
    && h <= h'
    && forall i | |h| <= i < |h'| && h'[i].Returned? && h'[i].file == f && OpOf(h'[i].call) == ack.key.operationId ::
         Repeats(h'[i].answer, ack)
  }

  predicate Repeats(answer: Answer, ack: Ack) {
    answer.Error? || (answer.Acknowledged? && SameOutcome(answer.ack, ack))
  }

  // ----- One step -----

  // Every log between the synced and the current one has the same last word.
  lemma LastWordBetween(durable: seq<LedgerRecord>, mid: seq<LedgerRecord>, rs: seq<LedgerRecord>, ack: Ack)
    requires WellFormed(rs) && durable <= mid <= rs
    requires var op := ack.key.operationId;
             ClaimedBy(durable, ack.key) && LastTerminal(durable, op) == Some(ack) && Quiet(rs, |durable|, op)
    ensures var op := ack.key.operationId;
            ClaimedBy(mid, ack.key) && LastTerminal(mid, op) == Some(ack) && Quiet(mid, |durable|, op)
              && Quiet(rs, |mid|, op)
  {
    var op := ack.key.operationId;
    ClaimStays(mid, rs, op);
    ClaimStays(durable, mid, op);
    LastTerminalStays(durable, mid, op);
  }

  lemma LastWordMoves(c: LedgerCodec, d: Disk, d': Disk, pc: Pc, ack: Ack)
    requires ValidCodec(c) && Clean(c, d.cache) && Whole(d.durable) <= d.cache && WellFormed(Recs(c, d.cache))
    requires LastWord(c, d, ack) && RecordsMove(c, d, d', pc) && Topic(pc) != Some(ack.key.operationId)
    ensures LastWord(c, d', ack)
  {
    DurablePrefix(c, d.durable, d.cache);
    hide Recs, Clean, Whole, ClaimOf, LastTerminal, WellFormed, ValidCodec;
    var rs, op := Recs(c, d.cache), ack.key.operationId;
    LastWordBetween(Recs(c, d.durable), rs, rs, ack);
    if Recs(c, d'.cache) != rs {
      assert !IsTerminalOf(RecordOf(pc), op);
    }
  }

  lemma FixedAct(c: LedgerCodec, s: State, p: nat, action: Action, f: nat, ack: Ack)
    requires ValidCodec(c) && Inv(c, s) && CanAct(c, s, p, action) && Fixed(c, s, f, ack)
    ensures Fixed(c, DoAct(c, s, p, action), f, ack)
  {
    ActKeepsOthers(c, s, p, action);
    if s.procs[p].file == f {
      FixedHere(c, s, p, action, ack);
    }
    hide DoAct, CanAct, Inv, LastWord;
  }

  lemma FixedHere(c: LedgerCodec, s: State, p: nat, action: Action, ack: Ack)
    requires ValidCodec(c) && Inv(c, s) && CanAct(c, s, p, action) && IsProc(s, p)
    requires Fixed(c, s, s.procs[p].file, ack)
    ensures IsProc(DoAct(c, s, p, action), p) && LastWord(c, DiskOf(DoAct(c, s, p, action), p), ack)
    ensures Topic(DoAct(c, s, p, action).procs[p].pc) != Some(ack.key.operationId)
  {
    Here(c, s, p);
    hide DoAct, CanAct, Inv, HostInv, PcInv, LockInv, GoodHistory, Recs, ValidCodec, RecordsMove, LastWord, Clean,
         Whole;
    hide WellFormed, TopicMoves;
    ActRecords(c, s, p, action);
    ActTopic(c, s, p, action);
    LastWordMoves(c, DiskOf(s, p), DiskOf(DoAct(c, s, p, action), p), s.procs[p].pc, ack);
    FixedTopic(c, DiskOf(s, p), s.procs[p].pc, DoAct(c, s, p, action).procs[p].pc, ack);
  }

  lemma FixedTopic(c: LedgerCodec, d: Disk, pc: Pc, pc': Pc, ack: Ack)
    requires ValidCodec(c) && Clean(c, d.cache) && Whole(d.durable) <= d.cache && WellFormed(Recs(c, d.cache))
    requires LastWord(c, d, ack) && !Interrupted(ack.terminal)
    requires TopicMoves(c, d, pc, pc') && Topic(pc) != Some(ack.key.operationId)
    ensures Topic(pc') != Some(ack.key.operationId)
  {
    LastWordSays(c, d, ack);
    hide Recs, Clean, Whole, LastTerminal, WellFormed;
  }

  lemma LastWordSays(c: LedgerCodec, d: Disk, ack: Ack)
    requires ValidCodec(c) && Clean(c, d.cache) && Whole(d.durable) <= d.cache && WellFormed(Recs(c, d.cache))
    requires LastWord(c, d, ack)
    ensures LastTerminal(Recs(c, d.cache), ack.key.operationId) == Some(ack)
  {
    DurablePrefix(c, d.durable, d.cache);
    hide Recs, Clean, Whole, ClaimOf, LastTerminal, WellFormed;
    LastWordBetween(Recs(c, d.durable), Recs(c, d.cache), Recs(c, d.cache), ack);
  }

  // A process answers the call it was made for.
  lemma TopicOfCall(c: LedgerCodec, d: Disk, h: seq<Event>, f: nat, pc: Pc)
    requires PcInv(c, d, h, f, pc) && Topic(pc).Some?
    ensures !pc.Idle? && Topic(pc) == Some(OpOf(CallOf(pc)))
  {
    hide Recs, ClaimOf, LastTerminal, Written, HonestWhenLive, NotDispatched, NotSettled, EarnedIf, Live;
  }

  lemma FittingRepeats(c: LedgerCodec, d: Disk, pc: Pc, f: nat, e: Event, ack: Ack)
    requires ReplyFits(c, d, pc, f, e) && OpOf(e.call) == ack.key.operationId
    requires Topic(pc) != Some(ack.key.operationId) && (Topic(pc).Some? ==> Topic(pc) == Some(OpOf(CallOf(pc))))
    requires LastTerminal(Recs(c, d.cache), ack.key.operationId) == Some(ack)
    ensures Repeats(e.answer, ack)
  {
    hide Recs, LastTerminal;
  }

  lemma FixedAnswers(c: LedgerCodec, s: State, p: nat, action: Action, f: nat, ack: Ack)
    requires ValidCodec(c) && Inv(c, s) && CanAct(c, s, p, action) && Fixed(c, s, f, ack)
    ensures SaysOnly(s.history, DoAct(c, s, p, action).history, f, ack)
  {
    Here(c, s, p);
    ActReplies(c, s, p, action);
    var d, pc, h' := DiskOf(s, p), s.procs[p].pc, DoAct(c, s, p, action).history;
    hide DoAct, CanAct, Inv, HostInv, LockInv, GoodHistory, Recs, ValidCodec, LastWord, Clean, Whole, WellFormed, PcInv;
    hide Repeats, ReplyFits, LastTerminal;
    forall i | |s.history| <= i < |h'| && h'[i].Returned? && h'[i].file == f && OpOf(h'[i].call) == ack.key.operationId
      ensures Repeats(h'[i].answer, ack)
    {
      assert ReplyFits(c, d, pc, s.procs[p].file, h'[i]);
      FitsFile(c, d, pc, s.procs[p].file, h'[i]);
      if Topic(pc).Some? {
        TopicOfCall(c, d, s.history, f, pc);
      }
      LastWordSays(c, d, ack);
      FittingRepeats(c, d, pc, f, h'[i], ack);
    }
  }

  lemma FitsFile(c: LedgerCodec, d: Disk, pc: Pc, f: nat, e: Event)
    requires ReplyFits(c, d, pc, f, e)
    ensures e.file == f
  {
  }

  // A synced last word is in every image that a crash can leave.
  lemma LastWordSurvives(c: LedgerCodec, d: Disk, h: seq<Event>, f: nat, image: seq<byte>, ack: Ack)
    requires ValidCodec(c) && FileInv(c, d, h, f) && CrashImage(d.durable, d.cache, image) && LastWord(c, d, ack)
    ensures LastWord(c, d.(durable := image), ack) && forall holder :: LastWord(c, Disk(image, image, holder), ack)
  {
    hide Recs, Clean, Whole, CrashImage, ValidCodec, WellFormed, AllEarned;
    CrashKeeps(c, d.durable, d.cache, image);
    LastWordBetween(Recs(c, d.durable), Recs(c, image), Recs(c, d.cache), ack);
  }

  lemma FixedWriteBack(c: LedgerCodec, s: State, g: nat, image: seq<byte>, f: nat, ack: Ack)
    requires ValidCodec(c) && Inv(c, s) && Enabled(c, s, WriteBack(g, image)) && Fixed(c, s, f, ack)
    ensures Fixed(c, Do(c, s, WriteBack(g, image)), f, ack)
  {
    if g == f {
      LastWordSurvives(c, s.disks[f], s.history, f, image, ack);
      hide Inv, CrashImage, ValidCodec, LastWord;
    }
  }

  lemma FixedPowerLoss(c: LedgerCodec, s: State, images: seq<seq<byte>>, f: nat, ack: Ack)
    requires ValidCodec(c) && Inv(c, s) && Enabled(c, s, PowerLoss(images)) && Fixed(c, s, f, ack)
    ensures Fixed(c, Do(c, s, PowerLoss(images)), f, ack)
  {
    LastWordSurvives(c, s.disks[f], s.history, f, images[f], ack);
    hide Inv, CrashImage, ValidCodec, LastWord;
  }

  lemma FixedStep(c: LedgerCodec, s: State, step: Step, f: nat, ack: Ack)
    requires ValidCodec(c) && Inv(c, s) && Enabled(c, s, step) && Fixed(c, s, f, ack)
    ensures Fixed(c, Do(c, s, step), f, ack) && SaysOnly(s.history, Do(c, s, step).history, f, ack)
  {
    hide Inv, DoAct, ValidCodec, Fixed, CrashImage;
    match step {
      case Act(p, action) =>
        FixedAct(c, s, p, action, f, ack);
        FixedAnswers(c, s, p, action, f, ack);
      case PowerLoss(images) => FixedPowerLoss(c, s, images, f, ack);
      case WriteBack(g, image) => FixedWriteBack(c, s, g, image, f, ack);
    }
  }

  // ----- All runs -----

  lemma {:induction false} FixedRun(c: LedgerCodec, s: State, steps: seq<Step>, f: nat, ack: Ack)
    requires ValidCodec(c) && Inv(c, s) && Legal(c, s, steps) && Fixed(c, s, f, ack)
    ensures SaysOnly(s.history, Run(c, s, steps).history, f, ack)
    decreases |steps|
  {
    hide Inv, Do, ValidCodec, Fixed, Repeats;
    if steps != [] {
      var s1 := Do(c, s, steps[0]);
      FixedStep(c, s, steps[0], f, ack);
      StepKeeps(c, s, steps[0]);
      FixedRun(c, s1, steps[1..], f, ack);
      SaysOn(s.history, s1.history, Run(c, s1, steps[1..]).history, f, ack);
    }
  }

  lemma SaysOn(h: seq<Event>, h1: seq<Event>, h2: seq<Event>, f: nat, ack: Ack)
    requires SaysOnly(h, h1, f, ack) && SaysOnly(h1, h2, f, ack)
    ensures SaysOnly(h, h2, f, ack)
  {
    hide Repeats;
    forall i | |h| <= i < |h2| && h2[i].Returned? && h2[i].file == f && OpOf(h2[i].call) == ack.key.operationId
      ensures Repeats(h2[i].answer, ack)
    {
      if i < |h1| {
        assert h2[i] == h1[i];
      }
    }
  }

  lemma FreeIsFixed(c: LedgerCodec, s: State, f: nat, ack: Ack)
    requires Inv(c, s) && f < |s.disks| && s.disks[f].holder.None?
    requires !Interrupted(ack.terminal) && LastWord(c, s.disks[f], ack)
    ensures Fixed(c, s, f, ack)
  {
    hide FileInv, PcInv, HostInv, GoodHistory, LastWord;
    forall p | 0 <= p < |s.procs| && s.procs[p].file == f ensures Topic(s.procs[p].pc).None? {
      assert IsProc(s, p);
    }
  }

  // Once the last word on an operation is synced and the lock is free, it is the answer of every
  // later call, over all crashes, whoever stored it and whatever outcome it is.
  lemma LastWordStays(c: LedgerCodec, s: State, f: nat, ack: Ack, steps: seq<Step>)
    requires ValidCodec(c) && Reachable(c, s) && Legal(c, s, steps) && f < |s.disks| && s.disks[f].holder.None?
    requires !Interrupted(ack.terminal) && LastWord(c, s.disks[f], ack)
    ensures SaysOnly(s.history, Run(c, s, steps).history, f, ack)
  {
    hide Inv, Reachable, ValidCodec, Fixed, LastWord;
    ReachableInv(c, s);
    FreeIsFixed(c, s, f, ack);
    FixedRun(c, s, steps, f, ack);
  }

  // ----- Healing -----

  predicate AsksFor(call: Call, key: OutcomeKey) {
    call == Execute(key) || call == Status(key.operationId)
  }

  // The log has the claim, but no outcome, or only that none was recorded.
  predicate Unsettled(rs: seq<LedgerRecord>, call: Call, key: OutcomeKey) {
    AsksFor(call, key) && ClaimedBy(rs, key) && Open(rs, key.operationId)
  }

  // Where a call can stand that will answer with the terminal the host recorded.
  predicate HealsAt(rs: seq<LedgerRecord>, pc: Pc, key: OutcomeKey, terminal: Terminal) {
    match pc
    case Repairing(call) => Unsettled(rs, call, key)
    case Syncing(call) => Unsettled(rs, call, key)
    case Scanning(call) => Unsettled(rs, call, key)
    case Asking(call, k, why) => AsksFor(call, key) && k == key && !why.Fresh?
    case Finishing(call, ack, mode, _) =>
      AsksFor(call, key) && ack.key == key && ack.terminal == terminal && (mode.Plain? || mode.Healed?)
    case _ => false
  }

  ghost predicate HealPath(c: LedgerCodec, s: State, p: nat, key: OutcomeKey) {
    && IsProc(s, p) && s.hosted && key in s.host && s.host[key].Some?
    && HealsAt(Recs(c, DiskOf(s, p).cache), s.procs[p].pc, key, s.host[key].value)
  }

  // What will be stored.
  function HealAck(rs: seq<LedgerRecord>, key: OutcomeKey, terminal: Terminal): Ack {
    var last := LastTerminal(rs, key.operationId);
    if last.Some? then last.value.(terminal := terminal) else Ack(key, terminal, false)
  }

  // How many steps are left.
  function HealSteps(c: LedgerCodec, rs: seq<LedgerRecord>, pc: Pc, key: OutcomeKey, terminal: Terminal): nat {
    var size := |Frame(c, TerminalRecord(HealAck(rs, key, terminal)))|;
    match pc
    case Finishing(_, _, _, _) => BytesLeft(c, pc) + 1
    case Asking(_, _, _) => size + 2
    case Scanning(_) => size + 3
    case Syncing(_) => size + 4
    case _ => size + 5
  }

  ghost function HealWork(c: LedgerCodec, s: State, p: nat, key: OutcomeKey): nat
    requires HealPath(c, s, p, key)
  {
    HealSteps(c, Recs(c, DiskOf(s, p).cache), s.procs[p].pc, key, s.host[key].value)
  }

  // The call has just answered with the host's terminal, which is from now on the file's last word.
  ghost predicate HealedNow(c: LedgerCodec, s: State, s': State, p: nat, key: OutcomeKey)
    requires HealPath(c, s, p, key)
  {
    exists ack: Ack, stored: Ack ::
      && s'.history == s.history + [Returned(s.procs[p].file, CallOf(s.procs[p].pc), Acknowledged(ack))]
      && ack.key == key && ack.terminal == s.host[key].value
      && SameOutcome(stored, ack) && Fixed(c, s', s.procs[p].file, stored)
  }

  ghost predicate HealNearer(c: LedgerCodec, s: State, s': State, p: nat, key: OutcomeKey)
    requires HealPath(c, s, p, key)
  {
    && HealPath(c, s', p, key) && s'.host[key] == s.host[key] && HealWork(c, s', p, key) < HealWork(c, s, p, key)
    && s'.procs[p].file == s.procs[p].file && CallOf(s'.procs[p].pc) == CallOf(s.procs[p].pc)
  }

  // ----- The steps of a healing call -----

  lemma HealInspect(c: LedgerCodec, s: State, p: nat, key: OutcomeKey)
    requires ValidCodec(c) && HealPath(c, s, p, key) && s.procs[p].pc.Repairing? && Clean(c, DiskOf(s, p).cache)
    ensures HealNearer(c, s, DoInspect(c, s, p), p, key)
  {
    WholeKeeps(c, DiskOf(s, p).cache);
    hide Repaired, Recs, Whole, Clean, Frame, ClaimOf, LastTerminal;
  }

  lemma HealSync(c: LedgerCodec, s: State, p: nat, key: OutcomeKey)
    requires HealPath(c, s, p, key) && s.procs[p].pc.Syncing?
    ensures HealNearer(c, s, DoSync(s, p), p, key)
  {
    hide Recs, Frame, ClaimOf, LastTerminal;
  }

  lemma HealLook(c: LedgerCodec, s: State, p: nat, key: OutcomeKey, facts: ClaimFacts)
    requires ValidCodec(c) && Inv(c, s) && HealPath(c, s, p, key) && CanAct(c, s, p, Look(facts))
    ensures HealNearer(c, s, DoAct(c, s, p, Look(facts)), p, key)
  {
    Here(c, s, p);
    LookIs(c, s, p, facts);
    var call, rs := s.procs[p].pc.call, Recs(c, DiskOf(s, p).cache);
    TerminalKey(rs, key.operationId);
    HealTurn(rs, call, key, facts);
    var why: Why :| !why.Fresh? && LookTurn(rs, call, facts) == Goes(Asking(call, key, why));
    assert HealsAt(rs, Asking(call, key, why), key, s.host[key].value);
    StepsLeft(c, rs, call, key, why, s.host[key].value);
    hide *;
    Turns(s, p, Asking(call, key, why));
    HealGoto(c, s, p, key, Asking(call, key, why));
  }

  lemma Turns(s: State, p: nat, pc: Pc)
    requires IsProc(s, p) && !pc.Idle?
    ensures Turned(s, p, CallOf(pc), Goes(pc)) == Goto(s, p, pc)
  {
  }

  lemma StepsLeft(c: LedgerCodec, rs: seq<LedgerRecord>, call: Call, key: OutcomeKey, why: Why, terminal: Terminal)
    ensures HealSteps(c, rs, Asking(call, key, why), key, terminal) < HealSteps(c, rs, Scanning(call), key, terminal)
    ensures var ack := HealAck(rs, key, terminal);
            forall mode :: HealSteps(c, rs, Finishing(call, ack, mode, 0), key, terminal)
                           < HealSteps(c, rs, Asking(call, key, why), key, terminal)
  {
    hide HealAck, Frame;
  }

  // A healing call that goes on to its next stop.
  lemma HealGoto(c: LedgerCodec, s: State, p: nat, key: OutcomeKey, pc: Pc)
    requires HealPath(c, s, p, key) && HealsAt(Recs(c, DiskOf(s, p).cache), pc, key, s.host[key].value)
    requires !pc.Idle? && !s.procs[p].pc.Idle? && CallOf(pc) == CallOf(s.procs[p].pc)
    requires HealSteps(c, Recs(c, DiskOf(s, p).cache), pc, key, s.host[key].value) < HealWork(c, s, p, key)
    ensures HealNearer(c, s, Goto(s, p, pc), p, key)
  {
    hide Recs, HealsAt, HealSteps, CallOf;
  }

  lemma HealTurn(rs: seq<LedgerRecord>, call: Call, key: OutcomeKey, facts: ClaimFacts)
    requires Unsettled(rs, call, key)
    requires var t := LastTerminal(rs, key.operationId); t.Some? ==> ClaimedBy(rs, t.value.key)
    ensures exists why: Why :: !why.Fresh? && LookTurn(rs, call, facts) == Goes(Asking(call, key, why))
  {
    hide ClaimOf, LastTerminal;
    var t := LastTerminal(rs, key.operationId);
    assert LookTurn(rs, call, facts) == Goes(Asking(call, key, if t.Some? then Heal(t.value) else Recover));
  }

  lemma HealAsk(c: LedgerCodec, s: State, p: nat, key: OutcomeKey, receipt: Receipt)
    requires ValidCodec(c) && Inv(c, s) && HealPath(c, s, p, key) && s.procs[p].pc.Asking?
    ensures HealNearer(c, s, DoAsk(s, p, receipt), p, key)
  {
    Here(c, s, p);
    var pc, rs, terminal := s.procs[p].pc, Recs(c, DiskOf(s, p).cache), s.host[key].value;
    var ack, mode := HealAck(rs, key, terminal), if pc.why.Heal? then Healed else Plain;
    assert if pc.why.Heal? then pc.why.ack.(terminal := terminal) == ack && ack.key == key
           else ack == Ack(key, terminal, false);
    StepsLeft(c, rs, pc.call, key, pc.why, terminal);
    AskRecorded(s, p, receipt, ack, mode);
    var pc' := Finishing(pc.call, ack, mode, 0);
    assert HealsAt(rs, pc', key, terminal);
    assert HealSteps(c, rs, pc', key, terminal) < HealWork(c, s, p, key);
    hide *;
    HealGoto(c, s, p, key, pc');
  }

  // The answer of a host that has recorded the key changes nothing but the process.
  lemma AskRecorded(s: State, p: nat, receipt: Receipt, ack: Ack, mode: FinishMode)
    requires IsProc(s, p) && s.hosted && s.procs[p].pc.Asking? && s.procs[p].pc.key in s.host
    requires s.host[s.procs[p].pc.key] == Some(ack.terminal)
    requires var pc := s.procs[p].pc;
             if pc.why.Heal? then mode == Healed && ack == pc.why.ack.(terminal := ack.terminal)
             else mode == Plain && ack == Ack(pc.key, ack.terminal, false)
    ensures DoAsk(s, p, receipt) == Goto(s, p, Finishing(s.procs[p].pc.call, ack, mode, 0))
  {
    assert GrantEvents(s, p, s.procs[p].pc.key, s.procs[p].pc.why.Fresh?) == [];
    assert s.history + [] == s.history;
    assert s.(host := s.host, history := s.history) == s;
  }

  lemma HealWrite(c: LedgerCodec, s: State, p: nat, key: OutcomeKey, n: nat)
    requires HealPath(c, s, p, key) && s.procs[p].pc.Finishing? && CanAct(c, s, p, Write(n))
    ensures HealNearer(c, s, DoWrite(c, s, p, n), p, key)
  {
    hide Frame, Recs, ClaimOf, LastTerminal;
  }

  lemma HealFinish(c: LedgerCodec, s: State, p: nat, key: OutcomeKey)
    requires ValidCodec(c) && Inv(c, s) && HealPath(c, s, p, key)
    requires s.procs[p].pc.Finishing? && CanAct(c, s, p, Sync)
    ensures HealedNow(c, s, DoSync(s, p), p, key)
  {
    Here(c, s, p);
    var pc, f := s.procs[p].pc, s.procs[p].file;
    var s', rs := DoSync(s, p), Recs(c, DiskOf(s, p).cache);
    assert ClaimedBy(rs, key) && LastTerminal(rs, key.operationId) == Some(pc.ack);
    NotInterrupted(c, s, key);
    hide Inv, HostInv, FileInv, PcInv, LockInv, GoodHistory, ValidCodec, Recs, Frame, ClaimOf, LastTerminal, CanAct;
    var ack := AckOf(pc.call, pc.ack, pc.mode);
    assert LastWord(c, s'.disks[f], pc.ack);
    HolderAlone(c, s, p);
    assert Fixed(c, s', f, pc.ack);
    assert SameOutcome(pc.ack, ack);
    assert s'.history == s.history + [Returned(f, CallOf(pc), Acknowledged(ack))];
  }

  // Whoever else uses the file waits.
  lemma HolderAlone(c: LedgerCodec, s: State, p: nat)
    requires Inv(c, s) && IsProc(s, p) && Holds(s.procs[p].pc)
    ensures forall q | 0 <= q < |s.procs| && q != p && s.procs[q].file == s.procs[p].file :: !Holds(s.procs[q].pc)
  {
    hide FileInv, PcInv, HostInv, GoodHistory;
    forall q | 0 <= q < |s.procs| && q != p && s.procs[q].file == s.procs[p].file ensures !Holds(s.procs[q].pc) {
      assert IsProc(s, q) && IsProc(s, p);
    }
  }

  // Steps of a healing call that do not fail bring it closer to its end, which is the host's terminal.
  lemma HealStep(c: LedgerCodec, s: State, p: nat, key: OutcomeKey, action: Action)
    requires ValidCodec(c) && Inv(c, s) && HealPath(c, s, p, key) && CanAct(c, s, p, action)
    requires !action.Die? && !action.Fail? && !action.AskFails?
    ensures HealNearer(c, s, DoAct(c, s, p, action), p, key) || HealedNow(c, s, DoAct(c, s, p, action), p, key)
  {
    Here(c, s, p);
    hide Inv, HostInv, FileInv, PcInv, LockInv, GoodHistory, ValidCodec, Recs, Frame, HealNearer, HealedNow, HealPath;
    hide DoInspect, DoSync, DoAsk, DoWrite, DoLook, DoAct, CanAct, DiskOf;
    HealPc(c, s, p, key);
    HealActs(c, s, p, action);
    match s.procs[p].pc {
      case Repairing(_) => HealInspect(c, s, p, key);
      case Syncing(_) => HealSync(c, s, p, key);
      case Scanning(_) => HealLook(c, s, p, key, action.facts);
      case Asking(_, _, _) => HealAsk(c, s, p, key, action.receipt);
      case Finishing(_, _, _, _) =>
        if action.Write? {
          HealWrite(c, s, p, key, action.n);
        } else {
          HealFinish(c, s, p, key);
        }
    }
  }

  // What a process at such a place can do.
  lemma HealActs(c: LedgerCodec, s: State, p: nat, action: Action)
    requires CanAct(c, s, p, action) && !action.Die? && !action.Fail? && !action.AskFails?
    ensures IsProc(s, p)
    ensures var pc := s.procs[p].pc;
            && (pc.Repairing? ==> action.Inspect? && DoAct(c, s, p, action) == DoInspect(c, s, p))
            && (pc.Syncing? ==> action.Sync? && DoAct(c, s, p, action) == DoSync(s, p))
            && (pc.Scanning? ==> action.Look?)
            && (pc.Asking? ==> action.Ask? && DoAct(c, s, p, action) == DoAsk(s, p, action.receipt))
            && (pc.Finishing? && action.Write? ==> DoAct(c, s, p, action) == DoWrite(c, s, p, action.n))
            && (pc.Finishing? && !action.Write? ==> action.Sync? && DoAct(c, s, p, action) == DoSync(s, p))
  {
    hide DoInspect, DoSync, DoAsk, DoWrite, DoLook, DoRecord, DoRecordFails, DoAskFails, DoFail, Frame;
  }

  lemma HealPc(c: LedgerCodec, s: State, p: nat, key: OutcomeKey)
    requires HealPath(c, s, p, key)
    ensures IsProc(s, p) && Holds(s.procs[p].pc)
    ensures var pc := s.procs[p].pc; pc.Repairing? || pc.Syncing? || pc.Scanning? || pc.Asking? || pc.Finishing?
  {
    hide Recs;
  }

  // ----- Runs of a healing call -----

  // No power failure, and process `p` is not killed and meets no failing input, output or host call.
  predicate Unhindered(steps: seq<Step>, p: nat) {
    forall i | 0 <= i < |steps| ::
      && !steps[i].PowerLoss?
      && (steps[i].Act? && steps[i].p == p ==>
            !steps[i].action.Die? && !steps[i].action.Fail? && !steps[i].action.AskFails?)
  }

  lemma HealOthers(c: LedgerCodec, s: State, step: Step, p: nat, key: OutcomeKey)
    requires ValidCodec(c) && Inv(c, s) && Enabled(c, s, step) && HealPath(c, s, p, key)
    requires !step.PowerLoss? && !(step.Act? && step.p == p)
    ensures var s' := Do(c, s, step);
            && HealPath(c, s', p, key) && s'.host[key] == s.host[key] && s'.procs[p] == s.procs[p]
            && HealWork(c, s', p, key) == HealWork(c, s, p, key)
  {
    HealPc(c, s, p, key);
    HolderAlone(c, s, p);
    StepHost(c, s, step);
    Here(c, s, p);
    if step.Act? {
      ActKeepsOthers(c, s, step.p, step.action);
    }
    hide Inv, HostInv, FileInv, PcInv, LockInv, GoodHistory, ValidCodec, Recs, Frame, DoAct, CanAct, CrashImage,
         HealsAt;
    hide HealSteps;
  }

  ghost predicate HealedSince(h: seq<Event>, h': seq<Event>, f: nat, call: Call, key: OutcomeKey, terminal: Terminal) {
    exists i, ack: Ack ::
      && |h| <= i < |h'| && h'[i] == Returned(f, call, Acknowledged(ack))
      && ack.key == key && ack.terminal == terminal && SaysOnly(h'[..i + 1], h', f, ack)
  }

  // After `n` steps of process `p` between the two states: still on the path with as much less to do,
  // or answered for good.
  ghost predicate HealsBy(c: LedgerCodec, s: State, s': State, p: nat, key: OutcomeKey, n: nat)
    requires HealPath(c, s, p, key)
  {
    || HealedSince(s.history, s'.history, s.procs[p].file, CallOf(s.procs[p].pc), key, s.host[key].value)
    || (HealPath(c, s', p, key) && HealWork(c, s', p, key) + n <= HealWork(c, s, p, key))
  }

  lemma HealsLonger(c: LedgerCodec, s: State, s1: State, s2: State, p: nat, key: OutcomeKey, n: nat)
    requires HealPath(c, s, p, key) && HealPath(c, s1, p, key) && s.history <= s1.history
    requires s1.host[key] == s.host[key] && s1.procs[p].file == s.procs[p].file
    requires CallOf(s1.procs[p].pc) == CallOf(s.procs[p].pc)
    requires HealsBy(c, s1, s2, p, key, n)
    ensures HealWork(c, s1, p, key) <= HealWork(c, s, p, key) ==> HealsBy(c, s, s2, p, key, n)
    ensures HealWork(c, s1, p, key) < HealWork(c, s, p, key) ==> HealsBy(c, s, s2, p, key, n + 1)
  {
    var f, call, terminal := HealFacts(c, s, p, key);
    hide HealPath, HealWork, HealedSince, CallOf;
    HealedEarlier(s.history, s1.history, s2.history, f, call, key, terminal);
  }

  // A call that finds a claim without an outcome, or with an interrupted one, of a key that the host
  // has recorded: over every run in which it is not hindered, whatever the others do, it comes to its
  // end within a number of its own steps known beforehand, answers with the host's terminal, and so
  // does every later call, until the end of the run.
  lemma {:induction false} HealsToHost(c: LedgerCodec, s: State, p: nat, key: OutcomeKey, steps: seq<Step>)
    requires ValidCodec(c) && Inv(c, s) && Legal(c, s, steps) && Unhindered(steps, p) && HealPath(c, s, p, key)
    ensures HealsBy(c, s, Run(c, s, steps), p, key, Moves(steps, p))
    decreases |steps|
  {
    if steps == [] {
      hide HealPath, HealWork, HealedSince;
    } else {
      var s1, rest := Do(c, s, steps[0]), steps[1..];
      assert Unhindered(rest, p);
      hide Inv, ValidCodec, Do, HealPath, HealWork, HealsBy, CallOf, HealedNow;
      StepKeeps(c, s, steps[0]);
      StepHistory(c, s, steps[0]);
      if steps[0].Act? && steps[0].p == p {
        HealOwn(c, s, p, key, steps[0].action);
        if HealedNow(c, s, s1, p, key) {
          HealedStays(c, s, s1, rest, p, key, Moves(steps, p));
        } else {
          HealsToHost(c, s1, p, key, rest);
          HealsLonger(c, s, s1, Run(c, s1, rest), p, key, Moves(rest, p));
        }
      } else {
        HealOthers(c, s, steps[0], p, key);
        HealsToHost(c, s1, p, key, rest);
        HealsLonger(c, s, s1, Run(c, s1, rest), p, key, Moves(rest, p));
      }
    }
  }

  lemma HealFacts(c: LedgerCodec, s: State, p: nat, key: OutcomeKey) returns (f: nat, call: Call, terminal: Terminal)
    requires HealPath(c, s, p, key)
    ensures IsProc(s, p) && key in s.host && s.host[key] == Some(terminal) && s.procs[p].file == f
    ensures !s.procs[p].pc.Idle? && CallOf(s.procs[p].pc) == call
  {
    HealPc(c, s, p, key);
    f, call, terminal := s.procs[p].file, CallOf(s.procs[p].pc), s.host[key].value;
  }

  lemma HealOwn(c: LedgerCodec, s: State, p: nat, key: OutcomeKey, action: Action)
    requires ValidCodec(c) && Inv(c, s) && HealPath(c, s, p, key) && CanAct(c, s, p, action)
    requires !action.Die? && !action.Fail? && !action.AskFails?
    ensures var s' := Do(c, s, Act(p, action)); HealNearer(c, s, s', p, key) || HealedNow(c, s, s', p, key)
  {
    hide Inv, ValidCodec, HealPath, HealNearer, HealedNow, DoAct, CanAct;
    HealStep(c, s, p, key, action);
  }

  lemma HealedStays(c: LedgerCodec, s: State, s1: State, rest: seq<Step>, p: nat, key: OutcomeKey, n: nat)
    requires ValidCodec(c) && HealPath(c, s, p, key) && HealedNow(c, s, s1, p, key) && Inv(c, s1) && Legal(c, s1, rest)
    ensures HealsBy(c, s, Run(c, s1, rest), p, key, n)
  {
    var f, call, terminal := HealFacts(c, s, p, key);
    hide Inv, ValidCodec, HealPath, Fixed, Legal, Run, CallOf, Repeats;
    var ack: Ack, stored: Ack :|
      && s1.history == s.history + [Returned(f, call, Acknowledged(ack))]
      && ack.key == key && ack.terminal == terminal
      && SameOutcome(stored, ack) && Fixed(c, s1, f, stored);
    FixedRun(c, s1, rest, f, stored);
    var h' := Run(c, s1, rest).history;
    assert h'[..|s.history| + 1] == s1.history;
    assert h'[|s.history|] == s1.history[|s.history|];
    SameSays(s1.history, h', f, stored, ack);
  }

  lemma SameSays(h: seq<Event>, h': seq<Event>, f: nat, stored: Ack, ack: Ack)
    requires SaysOnly(h, h', f, stored) && SameOutcome(stored, ack)
    ensures SaysOnly(h, h', f, ack)
  {
  }

  lemma HealedEarlier(h: seq<Event>, h1: seq<Event>, h2: seq<Event>, f: nat, call: Call, key: OutcomeKey,
                      terminal: Terminal)
    requires h <= h1
    ensures HealedSince(h1, h2, f, call, key, terminal) ==> HealedSince(h, h2, f, call, key, terminal)
  {
    hide SaysOnly;
  }
}
