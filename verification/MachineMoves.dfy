// What one action of a process can do to its file, to what the process works on, and which answers
// it can give.
module MachineMoves {
  import opened Wrappers
  import opened Jsonl
  import opened Types
  import opened Ledger
  import opened Machine
  import opened MachineInv
  import opened MachineSteps

  // The operation a process works on, once it has looked it up.
  function Topic(pc: Pc): Option<string> {
    match pc
    case Claiming(key, _, _) => Some(key.operationId)
    case Asking(_, key, _) => Some(key.operationId)
    case Ready(key) => Some(key.operationId)
    case Dispatching(key) => Some(key.operationId)
    case Recording(key, _, _) => Some(key.operationId)
    case Finishing(_, ack, _, _) => Some(ack.key.operationId)
    case Mending(ack) => Some(ack.key.operationId)
    case MendSyncing(ack) => Some(ack.key.operationId)
    case _ => None
  }

  // The acknowledgement a process is about to store and return.
  function Carried(pc: Pc): Option<Ack> {
    match pc
    case Finishing(_, ack, _, _) => Some(ack)
    case Mending(ack) => Some(ack)
    case MendSyncing(ack) => Some(ack)
    case _ => None
  }

  predicate HostHolds(s: State, key: OutcomeKey, terminal: Terminal) {
    key in s.host && s.host[key] == Some(terminal)
  }

  // No outcome is stored yet, or only that none was recorded.
  predicate Open(rs: seq<LedgerRecord>, op: string) {
    var t := LastTerminal(rs, op);
    t.Some? ==> Interrupted(t.value.terminal)
  }

  // A file gains at most the record being appended, and its synced part either stays or catches up.
  ghost predicate RecordsMove(c: LedgerCodec, d: Disk, d': Disk, pc: Pc) {
    var rs, rs' := Recs(c, d.cache), Recs(c, d'.cache);
    && (rs' == rs || (Appending(pc) && rs' == rs + [RecordOf(pc)]))
    && (d'.durable == d.durable || d'.durable == d'.cache == d.cache)
  }

  // Steps that concern the process and its file alone.
  predicate OnFile(action: Action) {
    || action.Start? || action.Lock? || action.GiveUp? || action.Inspect? || action.Sync? || action.Write?
    || action.Fail? || action.Die?
  }

  lemma ActRecords(c: LedgerCodec, s: State, p: nat, action: Action)
    requires ValidCodec(c) && Inv(c, s) && CanAct(c, s, p, action)
    ensures IsProc(s, p) && IsProc(DoAct(c, s, p, action), p)
    ensures RecordsMove(c, DiskOf(s, p), DiskOf(DoAct(c, s, p, action), p), s.procs[p].pc)
  {
    Here(c, s, p);
    var d, pc := DiskOf(s, p), s.procs[p].pc;
    if action.Inspect? {
      InspectRecords(c, s, p);
    } else if action.Write? {
      WriteRecords(c, s, p, action.n);
    } else if OnFile(action) {
      FileRecords(c, s, p, action);
    } else {
      OtherRecords(c, s, p, action);
    }
  }

  lemma InspectRecords(c: LedgerCodec, s: State, p: nat)
    requires ValidCodec(c) && IsProc(s, p) && (s.procs[p].pc.Repairing? || s.procs[p].pc.Mending?)
    requires Clean(c, DiskOf(s, p).cache)
    ensures IsProc(DoInspect(c, s, p), p)
    ensures RecordsMove(c, DiskOf(s, p), DiskOf(DoInspect(c, s, p), p), s.procs[p].pc)
  {
    WholeKeeps(c, DiskOf(s, p).cache);
    hide Repaired, Recs, Whole, Clean;
  }

  lemma WriteRecords(c: LedgerCodec, s: State, p: nat, n: nat)
    requires ValidCodec(c) && IsProc(s, p) && CanAct(c, s, p, Write(n))
    requires Clean(c, DiskOf(s, p).cache)
    requires Written(c, DiskOf(s, p).cache, RecordOf(s.procs[p].pc), s.procs[p].pc.done)
    ensures IsProc(DoWrite(c, s, p, n), p)
    ensures RecordsMove(c, DiskOf(s, p), DiskOf(DoWrite(c, s, p, n), p), s.procs[p].pc)
  {
    WriteDisk(c, s, p, n);
    hide Recs, DurableLen, Image, Clean, Whole, Frame, DoWrite, DiskOf, RecordsMove;
    BytesMove(c, DiskOf(s, p), DiskOf(DoWrite(c, s, p, n), p), s.procs[p].pc, n);
  }

  lemma BytesMove(c: LedgerCodec, d: Disk, d': Disk, pc: Pc, n: nat)
    requires ValidCodec(c) && Clean(c, d.cache) && Appending(pc) && Written(c, d.cache, RecordOf(pc), pc.done)
    requires n > 0 && pc.done + n <= |Frame(c, RecordOf(pc))|
    requires d' == d.(cache := d.cache + Frame(c, RecordOf(pc))[pc.done..pc.done + n])
    ensures RecordsMove(c, d, d', pc)
  {
    hide Recs, DurableLen, Image, Clean, Whole;
    WriteChunk(c, d.cache, RecordOf(pc), pc.done, n);
  }

  lemma WriteDisk(c: LedgerCodec, s: State, p: nat, n: nat)
    requires IsProc(s, p) && CanAct(c, s, p, Write(n))
    ensures IsProc(DoWrite(c, s, p, n), p)
    ensures var pc, d := s.procs[p].pc, DiskOf(s, p);
            DiskOf(DoWrite(c, s, p, n), p) == d.(cache := d.cache + Frame(c, RecordOf(pc))[pc.done..pc.done + n])
  {
    hide Frame;
  }

  lemma FileRecords(c: LedgerCodec, s: State, p: nat, action: Action)
    requires CanAct(c, s, p, action) && OnFile(action) && !action.Inspect? && !action.Write?
    ensures IsProc(s, p) && IsProc(DoAct(c, s, p, action), p)
    ensures RecordsMove(c, DiskOf(s, p), DiskOf(DoAct(c, s, p, action), p), s.procs[p].pc)
  {
    hide Frame, Recs, ReadRecords, RecordsMove, RecordOf;
    var d, d' := DiskOf(s, p), DiskOf(DoAct(c, s, p, action), p);
    assert d'.cache == d.cache && (d'.durable == d.durable || d'.durable == d.cache);
    SameRecords(c, d, d', s.procs[p].pc);
  }

  lemma OtherRecords(c: LedgerCodec, s: State, p: nat, action: Action)
    requires CanAct(c, s, p, action) && !OnFile(action)
    ensures IsProc(s, p) && IsProc(DoAct(c, s, p, action), p)
    ensures RecordsMove(c, DiskOf(s, p), DiskOf(DoAct(c, s, p, action), p), s.procs[p].pc)
  {
    hide Frame, Recs, ReadRecords, DoLook, DoAsk, RecordsMove, HostBegin, RecordOf;
    var s' := DoAct(c, s, p, action);
    match action {
      case Look(facts) => LookDisk(c, s, p, facts);
      case Ask(receipt) => AskDisk(s, p, receipt);
      case _ =>
    }
    assert IsProc(s', p);
    var d, d' := DiskOf(s, p), DiskOf(s', p);
    assert d'.cache == d.cache && (d'.durable == d.durable || d'.durable == d.cache);
    SameRecords(c, d, d', s.procs[p].pc);
  }

  lemma SameRecords(c: LedgerCodec, d: Disk, d': Disk, pc: Pc)
    requires d'.cache == d.cache && (d'.durable == d.durable || d'.durable == d.cache)
    ensures RecordsMove(c, d, d', pc)
  {
  }

  lemma LookDisk(c: LedgerCodec, s: State, p: nat, facts: ClaimFacts)
    requires IsProc(s, p) && s.procs[p].pc.Scanning?
    ensures var s' := DoLook(c, s, p, facts);
            && IsProc(s', p) && s'.host == s.host
            && DiskOf(s', p).cache == DiskOf(s, p).cache && DiskOf(s', p).durable == DiskOf(s, p).durable
  {
    hide ReadRecords, ClaimOf, LastTerminal;
  }

  lemma AskDisk(s: State, p: nat, receipt: Receipt)
    requires IsProc(s, p) && s.procs[p].pc.Asking?
    ensures var s' := DoAsk(s, p, receipt);
            && IsProc(s', p)
            && DiskOf(s', p).cache == DiskOf(s, p).cache && DiskOf(s', p).durable == DiskOf(s, p).durable
  {
  }

  // ----- What a process works on -----

  // A process takes up an operation only in a scan that finds no final outcome of it.
  ghost predicate TopicMoves(c: LedgerCodec, d: Disk, pc: Pc, pc': Pc) {
    || Topic(pc').None? || Topic(pc') == Topic(pc)
    || (pc.Scanning? && Topic(pc') == Some(OpOf(pc.call)) && Open(Recs(c, d.cache), OpOf(pc.call)))
  }

  lemma ActTopic(c: LedgerCodec, s: State, p: nat, action: Action)
    requires ValidCodec(c) && Inv(c, s) && CanAct(c, s, p, action)
    ensures IsProc(s, p) && IsProc(DoAct(c, s, p, action), p)
    ensures TopicMoves(c, DiskOf(s, p), s.procs[p].pc, DoAct(c, s, p, action).procs[p].pc)
  {
    Here(c, s, p);
    if action.Look? {
      LookTopic(c, s, p, action.facts);
    } else if action.Ask? {
      AskTopic(c, s, p, action.receipt);
    } else if OnFile(action) {
      FileTopic(c, s, p, action);
    } else {
      OtherTopic(c, s, p, action);
    }
  }

  lemma FileTopic(c: LedgerCodec, s: State, p: nat, action: Action)
    requires CanAct(c, s, p, action) && OnFile(action)
    ensures IsProc(s, p) && IsProc(DoAct(c, s, p, action), p)
    ensures var pc, pc' := s.procs[p].pc, DoAct(c, s, p, action).procs[p].pc;
            Topic(pc').None? || Topic(pc') == Topic(pc)
  {
    hide Frame, Repaired, DiskOf, RecordOf, Recs;
  }

  lemma OtherTopic(c: LedgerCodec, s: State, p: nat, action: Action)
    requires CanAct(c, s, p, action) && !OnFile(action) && !action.Look? && !action.Ask?
    ensures IsProc(s, p) && IsProc(DoAct(c, s, p, action), p)
    ensures var pc, pc' := s.procs[p].pc, DoAct(c, s, p, action).procs[p].pc;
            Topic(pc').None? || Topic(pc') == Topic(pc)
  {
    hide Frame, DiskOf, RecordOf, HostBegin, Recs;
  }

  lemma LookTopic(c: LedgerCodec, s: State, p: nat, facts: ClaimFacts)
    requires ValidCodec(c) && Inv(c, s) && CanAct(c, s, p, Look(facts))
    ensures IsProc(s, p) && IsProc(DoAct(c, s, p, Look(facts)), p)
    ensures TopicMoves(c, DiskOf(s, p), s.procs[p].pc, DoAct(c, s, p, Look(facts)).procs[p].pc)
  {
    Here(c, s, p);
    LookIs(c, s, p, facts);
    var call, rs := s.procs[p].pc.call, Recs(c, DiskOf(s, p).cache);
    TurnTopic(rs, call, facts);
    hide Inv, HostInv, FileInv, PcInv, Recs, LookTurn, GoodHistory, LockInv, DoAct, CanAct, ValidCodec, Open;
  }

  lemma TurnTopic(rs: seq<LedgerRecord>, call: Call, facts: ClaimFacts)
    requires WellFormed(rs)
    ensures var turn := LookTurn(rs, call, facts);
            turn.Goes? ==> Topic(turn.pc) == Some(OpOf(call)) && Open(rs, OpOf(call))
  {
    if ClaimOf(rs, OpOf(call)).None? {
      NoClaimNoTerminal(rs, OpOf(call));
    }
    hide WellFormed, ClaimOf, LastTerminal;
  }

  lemma NoClaimNoTerminal(rs: seq<LedgerRecord>, op: string)
    requires WellFormed(rs) && ClaimOf(rs, op).None?
    ensures LastTerminal(rs, op).None?
  {
    TerminalKey(rs, op);
  }

  lemma AskTopic(c: LedgerCodec, s: State, p: nat, receipt: Receipt)
    requires Inv(c, s) && IsProc(s, p) && s.procs[p].pc.Asking?
    ensures IsProc(DoAsk(s, p, receipt), p)
    ensures var pc, pc' := s.procs[p].pc, DoAsk(s, p, receipt).procs[p].pc;
            Topic(pc').None? || Topic(pc') == Topic(pc)
  {
    Here(c, s, p);
    HealKey(c, s, p);
    hide Inv, HostInv, FileInv, PcInv, GoodHistory, LockInv;
  }

  // ----- Answers -----

  // Every answer about an operation repeats what the log or the process holds.
  ghost predicate ReplyFits(c: LedgerCodec, d: Disk, pc: Pc, f: nat, e: Event) {
    && e.Returned? && e.file == f && !pc.Idle? && e.call == CallOf(pc)
    && match e.answer
       case Error(_) => true
       case NotFound => pc.Scanning? && LastTerminal(Recs(c, d.cache), OpOf(pc.call)).None?
       case Acknowledged(ack) =>
         || (Carried(pc).Some? && SameOutcome(ack, Carried(pc).value))
         || (pc.Asking? && pc.why.Heal? && SameOutcome(ack, pc.why.ack))
         || (pc.Scanning? && SaysLog(Recs(c, d.cache), OpOf(pc.call), ack))
  }

  predicate SameOutcome(ack: Ack, ack': Ack) {
    ack.key == ack'.key && ack.terminal == ack'.terminal
  }

  predicate SaysLog(rs: seq<LedgerRecord>, op: string, ack: Ack) {
    var t := LastTerminal(rs, op);
    t.Some? && SameOutcome(ack, t.value) && !Interrupted(t.value.terminal)
  }

  ghost predicate RepliesFit(c: LedgerCodec, s: State, s': State, p: nat)
    requires IsProc(s, p)
  {
    && s.history <= s'.history
    && forall i | |s.history| <= i < |s'.history| && s'.history[i].Returned? ::
         ReplyFits(c, DiskOf(s, p), s.procs[p].pc, s.procs[p].file, s'.history[i])
  }

  lemma ActReplies(c: LedgerCodec, s: State, p: nat, action: Action)
    requires ValidCodec(c) && Inv(c, s) && CanAct(c, s, p, action)
    ensures IsProc(s, p) && RepliesFit(c, s, DoAct(c, s, p, action), p)
  {
    Here(c, s, p);
    if action.Look? {
      LookReplies(c, s, p, action.facts);
    } else if action.Ask? {
      AskReplies(c, s, p, action.receipt);
    } else if OnFile(action) {
      FileReplies(c, s, p, action);
    } else {
      OtherReplies(c, s, p, action);
    }
  }

  lemma FileReplies(c: LedgerCodec, s: State, p: nat, action: Action)
    requires CanAct(c, s, p, action) && OnFile(action)
    ensures IsProc(s, p) && RepliesFit(c, s, DoAct(c, s, p, action), p)
  {
    hide Frame, Repaired, Recs, LastTerminal, DiskOf, SaysLog, RecordOf;
  }

  lemma OtherReplies(c: LedgerCodec, s: State, p: nat, action: Action)
    requires CanAct(c, s, p, action) && !OnFile(action) && !action.Look? && !action.Ask?
    ensures IsProc(s, p) && RepliesFit(c, s, DoAct(c, s, p, action), p)
  {
    hide Frame, Recs, LastTerminal, DiskOf, SaysLog, RecordOf, HostBegin;
  }

  lemma LookReplies(c: LedgerCodec, s: State, p: nat, facts: ClaimFacts)
    requires ValidCodec(c) && Inv(c, s) && CanAct(c, s, p, Look(facts))
    ensures IsProc(s, p) && RepliesFit(c, s, DoAct(c, s, p, Look(facts)), p)
  {
    LookIs(c, s, p, facts);
    TurnAnswer(Recs(c, DiskOf(s, p).cache), s.procs[p].pc.call, facts);
    hide Inv, Recs, LookTurn, DoAct, CanAct, ValidCodec, LastTerminal, SaysLog;
  }

  lemma TurnAnswer(rs: seq<LedgerRecord>, call: Call, facts: ClaimFacts)
    ensures var turn := LookTurn(rs, call, facts);
            && (turn == Ends(NotFound) ==> LastTerminal(rs, OpOf(call)).None?)
            && (turn.Ends? && turn.answer.Acknowledged? ==> SaysLog(rs, OpOf(call), turn.answer.ack))
  {
    hide ClaimOf, LastTerminal;
  }

  lemma AskReplies(c: LedgerCodec, s: State, p: nat, receipt: Receipt)
    requires IsProc(s, p) && s.procs[p].pc.Asking?
    ensures RepliesFit(c, s, DoAsk(s, p, receipt), p)
  {
    hide Recs, LastTerminal, HostBegin;
  }
}
