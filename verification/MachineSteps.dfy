// Every step of the protocol machine keeps its invariant.
module MachineSteps {
  import opened Wrappers
  import opened Jsonl
  import opened Types
  import opened Ledger
  import opened Machine
  import opened MachineInv

  // ----- Shared arguments -----

  // Syncs and write-backs only make more of the same records durable.
  ghost predicate MoreDurable(c: LedgerCodec, d: Disk, d': Disk) {
    && d'.cache == d.cache && Whole(d'.durable) <= d.cache
    && Recs(c, d.durable) <= Recs(c, d'.durable) <= Recs(c, d.cache)
  }

  lemma DurableGrows(c: LedgerCodec, d: Disk, d': Disk, h: seq<Event>, f: nat, pc: Pc)
    requires ValidCodec(c) && FileInv(c, d, h, f) && PcInv(c, d, h, f, pc) && MoreDurable(c, d, d')
    ensures FileInv(c, d', h, f) && PcInv(c, d', h, f, pc)
  {
    var rs, durable, durable' := Recs(c, d.cache), Recs(c, d.durable), Recs(c, d'.durable);
    forall k: OutcomeKey | ClaimedBy(durable, k) ensures ClaimedBy(durable', k) {
      ClaimStays(durable', rs, k.operationId);
      ClaimStays(durable, durable', k.operationId);
    }
    forall e | e in h && Settles(e) && e.file == f ensures SettledIn(durable', rs, e) {
      LastTerminalStays(durable, durable', OpOf(e.call));
    }
  }

  // What the scan finds agrees with the durable claims.
  lemma DurableClaims(c: LedgerCodec, d: Disk, h: seq<Event>, f: nat, op: string)
    requires ValidCodec(c) && FileInv(c, d, h, f)
    ensures Recs(c, d.durable) <= Recs(c, d.cache)
    ensures forall k: OutcomeKey | k.operationId == op && ClaimedBy(Recs(c, d.durable), k) ::
            ClaimedBy(Recs(c, d.cache), k)
  {
    DurablePrefix(c, d.durable, d.cache);
    ClaimStays(Recs(c, d.durable), Recs(c, d.cache), op);
  }

  // The host part of a step that leaves the host alone.
  lemma HostKept(s: State, s': State, p: nat, es: seq<Event>)
    requires HostInv(s) && LockInv(s) && StepShape(s, s', p, es) && s'.host == s.host
    requires forall e | e in es :: e.Returned?
    requires UsesGrant(s'.procs[p].pc) ==>
               && UsesGrant(s.procs[p].pc) && s'.procs[p].pc.key == s.procs[p].pc.key
               && (s'.procs[p].pc.Ready? ==> s.procs[p].pc.Ready?)
    ensures HostInv(s')
  {
    var h, h' := s.history, s'.history;
    assert forall f: nat, k: OutcomeKey :: Dispatched(f, k) in h' <==> Dispatched(f, k) in h;
    assert forall f: nat, k: OutcomeKey :: Live(h', f, k) <==> Live(h, f, k);
    forall q | 0 <= q < |s'.procs| && UsesGrant(s'.procs[q].pc) && s'.hosted ensures GrantInv(s', q) {
      assert GrantInv(s, q);
    }
  }

  // The state after a step of process `p` that leaves the host alone.
  function Moved(s: State, p: nat, d: Disk, pc: Pc, es: seq<Event>): State
    requires IsProc(s, p)
  {
    s.(disks := s.disks[s.procs[p].file := d], procs := s.procs[p := s.procs[p].(pc := pc)], history := s.history + es)
  }

  // What the invariant says about process `p` and its file.
  lemma Here(c: LedgerCodec, s: State, p: nat)
    requires Inv(c, s) && p < |s.procs|
    ensures IsProc(s, p)
    ensures var f, d, pc := s.procs[p].file, DiskOf(s, p), s.procs[p].pc;
            && FileInv(c, d, s.history, f) && PcInv(c, d, s.history, f, pc)
            && (Holds(pc) <==> d.holder == Some(p))
    ensures HostInv(s) && LockInv(s) && GoodHistory(s.hosted, s.history)
  {
    hide FileInv, PcInv, HostInv, GoodHistory;
  }

  ghost predicate GoodReplies(s: State, f: nat, es: seq<Event>) {
    es == [] || (|es| == 1 && es[0].Returned? && es[0].file == f && GoodEvent(s.hosted, s.history, es[0]))
  }

  predicate KeepsGrant(pc: Pc, pc': Pc) {
    UsesGrant(pc') ==> UsesGrant(pc) && pc'.key == pc.key && (pc'.Ready? ==> pc.Ready?)
  }

  // A step that leaves the host alone and at most returns an answer.
  lemma LocalStep(c: LedgerCodec, s: State, p: nat, d: Disk, pc: Pc, es: seq<Event>)
    requires Inv(c, s) && IsProc(s, p) && LockShape(DiskOf(s, p), d, p, pc)
    requires KeepsGrant(s.procs[p].pc, pc)
    requires GoodReplies(s, s.procs[p].file, es)
    requires DiskOf(s, p).holder != Some(p) ==> forall e | e in es :: !e.answer.Acknowledged?
    requires FileInv(c, d, s.history + es, s.procs[p].file)
    requires PcInv(c, d, s.history + es, s.procs[p].file, pc)
    ensures Inv(c, Moved(s, p, d, pc, es))
  {
    hide FileInv, PcInv, HostInv, Inv, GoodEvent, GoodHistory, StepShape, LockInv;
    Here(c, s, p);
    var s' := Moved(s, p, d, pc, es);
    MovedShape(s, p, d, pc, es);
    HostKept(s, s', p, es);
    if es == [] {
      assert s'.history == s.history;
    } else {
      assert es == [es[0]];
      GoodSnoc(s.hosted, s.history, es[0]);
    }
    Assemble(c, s, s', p, es);
  }

  lemma MovedShape(s: State, p: nat, d: Disk, pc: Pc, es: seq<Event>)
    requires IsProc(s, p) && LockShape(DiskOf(s, p), d, p, pc)
    requires forall e | e in es :: e.Stored? || e.file == s.procs[p].file
    requires DiskOf(s, p).holder != Some(p) ==> forall e | e in es :: e.Returned? && !e.answer.Acknowledged?
    ensures StepShape(s, Moved(s, p, d, pc, es), p, es)
  {
  }

  // A step that only moves the process on.
  lemma Advance(c: LedgerCodec, s: State, p: nat, pc: Pc)
    requires Inv(c, s) && IsProc(s, p)
    requires Holds(pc) <==> Holds(s.procs[p].pc)
    requires KeepsGrant(s.procs[p].pc, pc)
    requires PcInv(c, DiskOf(s, p), s.history, s.procs[p].file, pc)
    ensures Inv(c, Goto(s, p, pc))
  {
    hide FileInv, PcInv, HostInv, Inv, GoodEvent;
    Here(c, s, p);
    assert s.history + [] == s.history;
    LocalStep(c, s, p, DiskOf(s, p), pc, []);
    assert Moved(s, p, DiskOf(s, p), pc, []) == Goto(s, p, pc);
  }

  // A step that changes the file and moves the process on.
  lemma AdvanceWith(c: LedgerCodec, s: State, p: nat, d: Disk, pc: Pc)
    requires Inv(c, s) && IsProc(s, p) && Holds(pc) && !UsesGrant(pc)
    requires DiskOf(s, p).holder == d.holder == Some(p)
    requires FileInv(c, d, s.history, s.procs[p].file) && PcInv(c, d, s.history, s.procs[p].file, pc)
    ensures Inv(c, Goto(SetDisk(s, p, d), p, pc))
  {
    hide FileInv, PcInv, HostInv, Inv, GoodEvent;
    assert s.history + [] == s.history;
    LocalStep(c, s, p, d, pc, []);
    assert Moved(s, p, d, pc, []) == Goto(SetDisk(s, p, d), p, pc);
  }

  // A call that ends without an acknowledgement.
  lemma PlainReply(c: LedgerCodec, s: State, p: nat, call: Call, answer: Answer)
    requires Inv(c, s) && IsProc(s, p) && !s.procs[p].pc.Idle? && !answer.Acknowledged?
    requires GoodAnswer(s.history, s.procs[p].file, call, answer)
    ensures Inv(c, Reply(s, p, call, answer))
  {
    Here(c, s, p);
    var f, d := s.procs[p].file, DiskOf(s, p);
    var e := Returned(f, call, answer);
    FileFrame(c, d, s.history, [e], f);
    hide HostInv, Inv, GoodAnswer;
    LocalStep(c, s, p, Release(d, p), Idle, [e]);
    assert Moved(s, p, Release(d, p), Idle, [e]) == Reply(s, p, call, answer);
  }

  // A call that ends with an acknowledgement, by the holder of the lock.
  lemma AckReply(c: LedgerCodec, s: State, p: nat, call: Call, ack: Ack)
    requires Inv(c, s) && IsProc(s, p) && Holds(s.procs[p].pc)
    requires GoodAnswer(s.history, s.procs[p].file, call, Acknowledged(ack))
    requires var e := Returned(s.procs[p].file, call, Acknowledged(ack));
             Settles(e) ==> SettledIn(Recs(c, DiskOf(s, p).durable), Recs(c, DiskOf(s, p).cache), e)
    ensures Inv(c, Reply(s, p, call, Acknowledged(ack)))
  {
    Here(c, s, p);
    var f, d := s.procs[p].file, DiskOf(s, p);
    var e := Returned(f, call, Acknowledged(ack));
    Answered(c, d, s.history, e, f);
    hide HostInv, Inv, GoodAnswer, SettledIn;
    LocalStep(c, s, p, Release(d, p), Idle, [e]);
    assert Moved(s, p, Release(d, p), Idle, [e]) == Reply(s, p, call, Acknowledged(ack));
  }

  lemma Answered(c: LedgerCodec, d: Disk, h: seq<Event>, e: Event, f: nat)
    requires FileInv(c, d, h, f) && e.Returned?
    requires e.file == f && Settles(e) ==> SettledIn(Recs(c, d.durable), Recs(c, d.cache), e)
    ensures FileInv(c, d, h + [e], f)
  {
    hide HonestFor, ClaimedBy, WellFormed, Clean, Whole, Recs;
    assert forall k: OutcomeKey :: Dispatched(f, k) in h + [e] <==> Dispatched(f, k) in h;
    assert forall k: OutcomeKey :: Live(h + [e], f, k) <==> Live(h, f, k);
  }

  // ----- The steps -----

  lemma StartStep(c: LedgerCodec, s: State, p: nat, call: Call)
    requires Inv(c, s) && CanAct(c, s, p, Start(call))
    ensures Inv(c, DoAct(c, s, p, Start(call)))
  {
    Advance(c, s, p, Waiting(call));
  }

  lemma LockStep(c: LedgerCodec, s: State, p: nat)
    requires Inv(c, s) && CanAct(c, s, p, Lock)
    ensures Inv(c, DoAct(c, s, p, Lock))
  {
    hide HostInv, Inv;
    Here(c, s, p);
    var d := DiskOf(s, p).(holder := Some(p));
    var pc := Repairing(s.procs[p].pc.call);
    assert s.history + [] == s.history;
    LocalStep(c, s, p, d, pc, []);
    assert Moved(s, p, d, pc, []) == DoAct(c, s, p, Lock);
  }

  lemma DieStep(c: LedgerCodec, s: State, p: nat)
    requires Inv(c, s) && CanAct(c, s, p, Die)
    ensures Inv(c, DoAct(c, s, p, Die))
  {
    hide HostInv, Inv;
    Here(c, s, p);
    var d := Release(DiskOf(s, p), p);
    assert s.history + [] == s.history;
    LocalStep(c, s, p, d, Idle, []);
    assert Moved(s, p, d, Idle, []) == DoAct(c, s, p, Die);
  }

  lemma Truncated(c: LedgerCodec, d: Disk, h: seq<Event>, f: nat)
    requires ValidCodec(c) && FileInv(c, d, h, f)
    ensures FileInv(c, d.(cache := Whole(d.cache)), h, f)
    ensures Recs(c, Whole(d.cache)) == Recs(c, d.cache) && Torn(Whole(d.cache)) == []
    ensures Repaired(c, d.cache) == Success(Whole(d.cache))
  {
    WholeKeeps(c, d.cache);
    WholeMonotone(d.durable, d.cache);
    hide HonestFor, ClaimedBy, WellFormed, Clean, Recs, SettledIn, Live;
  }

  lemma InspectStep(c: LedgerCodec, s: State, p: nat)
    requires ValidCodec(c) && Inv(c, s) && CanAct(c, s, p, Inspect)
    ensures Inv(c, DoAct(c, s, p, Inspect))
  {
    hide HostInv, Inv, FileInv, Recs, ClaimedBy, NotSettled, Whole, Torn, Repaired, ValidCodec;
    Here(c, s, p);
    var f, d, pc := s.procs[p].file, DiskOf(s, p), s.procs[p].pc;
    Truncated(c, d, s.history, f);
    var d' := d.(cache := Whole(d.cache));
    var cut := Whole(d.cache) != d.cache;
    var pc' := match pc
               case Repairing(call) => if cut then Syncing(call) else Scanning(call)
               case Mending(ack) => if cut then MendSyncing(ack) else Finishing(Execute(ack.key), ack, Mended, 0);
    AdvanceWith(c, s, p, d', pc');
  }

  lemma SyncStep(c: LedgerCodec, s: State, p: nat)
    requires ValidCodec(c) && Inv(c, s) && CanAct(c, s, p, Sync)
    ensures Inv(c, DoAct(c, s, p, Sync))
  {
    Here(c, s, p);
    var f, d, pc := s.procs[p].file, DiskOf(s, p), s.procs[p].pc;
    var d' := d.(durable := d.cache);
    Synced(c, d, s.history, f, pc);
    hide HostInv, Inv, FileInv, PcInv, Frame;
    AdvanceWith(c, s, p, d', pc);
    var s1 := Goto(SetDisk(s, p, d'), p, pc);
    assert DiskOf(s1, p) == d' && s1.procs == s.procs && s1.history == s.history;
    if pc.Finishing? {
      FinishReply(c, s1, p);
    } else {
      AfterSync(c, s1, p);
    }
    assert s1 == SetDisk(s, p, d');
  }

  // The last sync of an append ends the call.
  lemma FinishReply(c: LedgerCodec, s: State, p: nat)
    requires ValidCodec(c) && Inv(c, s) && IsProc(s, p) && s.procs[p].pc.Finishing?
    requires s.procs[p].pc.done == |Frame(c, RecordOf(s.procs[p].pc))|
    requires DiskOf(s, p).durable == DiskOf(s, p).cache
    ensures var Finishing(call, ack, mode, _) := s.procs[p].pc;
            Inv(c, Reply(s, p, call, Acknowledged(AckOf(call, ack, mode))))
  {
    hide HostInv, Inv, FileInv, Recs, ClaimOf, LastTerminal, Frame;
    Here(c, s, p);
    var Finishing(call, ack, mode, _) := s.procs[p].pc;
    Lookup(c, DiskOf(s, p), s.history, s.procs[p].file, OpOf(call));
    AckReply(c, s, p, call, AckOf(call, ack, mode));
  }

  lemma AfterSync(c: LedgerCodec, s: State, p: nat)
    requires Inv(c, s) && IsProc(s, p) && DiskOf(s, p).durable == DiskOf(s, p).cache
    requires var pc := s.procs[p].pc;
             pc.Syncing? || pc.MendSyncing? || (pc.Claiming? && pc.done == |Frame(c, RecordOf(pc))|)
    ensures match s.procs[p].pc
            case Syncing(call) => Inv(c, Goto(s, p, Scanning(call)))
            case MendSyncing(ack) => Inv(c, Goto(s, p, Finishing(Execute(ack.key), ack, Mended, 0)))
            case Claiming(key, _, _) => Inv(c, Goto(s, p, Asking(Execute(key), key, Fresh)))
            case _ => true
  {
    hide HostInv, Inv, FileInv, Recs, ClaimOf, LastTerminal;
    Here(c, s, p);
    match s.procs[p].pc {
      case Syncing(call) => Advance(c, s, p, Scanning(call));
      case MendSyncing(ack) => Advance(c, s, p, Finishing(Execute(ack.key), ack, Mended, 0));
      case Claiming(key, _, _) => Advance(c, s, p, Asking(Execute(key), key, Fresh));
      case _ =>
    }
  }

  lemma Synced(c: LedgerCodec, d: Disk, h: seq<Event>, f: nat, pc: Pc)
    requires ValidCodec(c) && FileInv(c, d, h, f) && PcInv(c, d, h, f, pc)
    ensures FileInv(c, d.(durable := d.cache), h, f) && PcInv(c, d.(durable := d.cache), h, f, pc)
  {
    DurablePrefix(c, d.durable, d.cache);
    DurableGrows(c, d, d.(durable := d.cache), h, f, pc);
  }

  lemma RefuseStep(c: LedgerCodec, s: State, p: nat, terminal: Terminal)
    requires Inv(c, s) && CanAct(c, s, p, Refuse(terminal))
    ensures Inv(c, DoAct(c, s, p, Refuse(terminal)))
  {
    hide HostInv, Inv, FileInv, Recs;
    Here(c, s, p);
    Advance(c, s, p, Recording(s.procs[p].pc.key, terminal, false));
  }

  // A whole record has been added to the file.
  lemma RecordAdded(c: LedgerCodec, d: Disk, d': Disk, h: seq<Event>, f: nat, r: LedgerRecord)
    requires FileInv(c, d, h, f)
    requires d'.durable == d.durable && d.cache <= d'.cache && Clean(c, d'.cache)
    requires Recs(c, d'.cache) == Recs(c, d.cache) + [r] && Admits(Recs(c, d.cache), r)
    requires r.TerminalRecord? ==>
               && HonestWhenLive(h, f, r.ack.key.operationId, r.ack.terminal)
               && NotSettled(h, f, r.ack.key.operationId)
               && EarnedIf(h, f, r.ack)
    ensures FileInv(c, d', h, f)
  {
    hide Recs, Clean, Whole, Earned, ClaimedBy, LastTerminal;
    var rs, rs' := Recs(c, d.cache), Recs(c, d'.cache);
    Snoc(rs, r, "");
    forall k: OutcomeKey | Live(h, f, k) ensures HonestFor(rs', k.operationId) {
      assert HonestFor(rs, k.operationId);
    }
    forall e | e in h && Settles(e) && e.file == f ensures SettledIn(Recs(c, d.durable), rs', e) {
      assert SettledIn(Recs(c, d.durable), rs, e);
    }
  }

  lemma BytesWritten(c: LedgerCodec, d: Disk, d': Disk, h: seq<Event>, f: nat, pc: Pc, n: nat)
    requires ValidCodec(c) && FileInv(c, d, h, f) && PcInv(c, d, h, f, pc)
    requires Appending(pc) && n > 0 && pc.done + n <= |Frame(c, RecordOf(pc))|
    requires d' == d.(cache := d.cache + Frame(c, RecordOf(pc))[pc.done..pc.done + n])
    ensures FileInv(c, d', h, f) && PcInv(c, d', h, f, pc.(done := pc.done + n))
  {
    hide Recs, DurableLen, Image, ClaimOf, LastTerminal, WellFormed, Clean, Whole, Live, SettledIn, AllEarned;
    var r := RecordOf(pc);
    WriteChunk(c, d.cache, r, pc.done, n);
    if pc.done + n == |Frame(c, r)| {
      RecordAdded(c, d, d', h, f, r);
      Snoc(Recs(c, d.cache), r, OpOf(CallOf(pc)));
    }
  }

  lemma WriteStep(c: LedgerCodec, s: State, p: nat, n: nat)
    requires ValidCodec(c) && Inv(c, s) && CanAct(c, s, p, Write(n))
    ensures Inv(c, DoAct(c, s, p, Write(n)))
  {
    hide FileInv, PcInv, Inv, HostInv, Frame;
    Here(c, s, p);
    var d, pc := DiskOf(s, p), s.procs[p].pc;
    var d' := d.(cache := d.cache + Frame(c, RecordOf(pc))[pc.done..pc.done + n]);
    BytesWritten(c, d, d', s.history, s.procs[p].file, pc, n);
    AdvanceWith(c, s, p, d', pc.(done := pc.done + n));
  }

  lemma GiveUpStep(c: LedgerCodec, s: State, p: nat)
    requires Inv(c, s) && CanAct(c, s, p, GiveUp)
    ensures Inv(c, DoAct(c, s, p, GiveUp))
  {
    hide Inv;
    PlainReply(c, s, p, s.procs[p].pc.call, Error(LockWait));
  }

  // ----- Looking up an operation -----

  // A repaired file is read back exactly.
  lemma ReadBack(c: LedgerCodec, cache: seq<byte>)
    requires ValidCodec(c) && Clean(c, cache) && Torn(cache) == []
    ensures ReadRecords(c, cache) == Success(Recs(c, cache))
  {
    assert Whole(cache) == cache;
    ReadImage(c, Recs(c, cache));
  }

  // The last terminal of an operation carries its claim's key.
  lemma {:induction false} TerminalKey(rs: seq<LedgerRecord>, op: string)
    requires WellFormed(rs)
    ensures var t := LastTerminal(rs, op); t.Some? ==> ClaimedBy(rs, t.value.key)
  {
    if rs != [] {
      var init := rs[..|rs| - 1];
      TerminalKey(init, op);
      ClaimStays(init, rs, op);
    }
  }

  lemma {:induction false} LastTerminalAt(rs: seq<LedgerRecord>, op: string) returns (i: nat)
    requires LastTerminal(rs, op).Some?
    ensures i < |rs| && rs[i] == TerminalRecord(LastTerminal(rs, op).value)
  {
    if IsTerminalOf(rs[|rs| - 1], op) {
      i := |rs| - 1;
    } else {
      i := LastTerminalAt(rs[..|rs| - 1], op);
    }
  }

  // What a stored terminal, or its absence, says about the history.
  lemma Lookup(c: LedgerCodec, d: Disk, h: seq<Event>, f: nat, op: string)
    requires ValidCodec(c) && FileInv(c, d, h, f)
    ensures var rs := Recs(c, d.cache); var t := LastTerminal(rs, op); var claim := ClaimOf(rs, op);
            && (t.Some? ==>
                ClaimedBy(rs, t.value.key) && HonestWhenLive(h, f, op, t.value.terminal)
                && EarnedIf(h, f, t.value))
            && (forall x | x in h && Settles(x) && x.file == f && OpOf(x.call) == op :: t == Some(x.answer.ack))
            && (forall k: OutcomeKey | k.operationId == op && Dispatched(f, k) in h :: ClaimedBy(rs, k))
  {
    var rs, durable := Recs(c, d.cache), Recs(c, d.durable);
    DurableClaims(c, d, h, f, op);
    TerminalKey(rs, op);
    if LastTerminal(rs, op).Some? {
      var i := LastTerminalAt(rs, op);
    }
    hide Earned;
    forall k: OutcomeKey | k.operationId == op && Live(h, f, k) && LastTerminal(rs, op).Some?
      ensures Honest(LastTerminal(rs, op).value.terminal)
    {
      HonestLast(rs, op);
    }
    forall x | x in h && Settles(x) && x.file == f && OpOf(x.call) == op
      ensures LastTerminal(rs, op) == Some(x.answer.ack)
    {
      assert SettledIn(durable, rs, x);
      LastTerminalStays(durable, rs, op);
    }
  }

  lemma ReplayStep(c: LedgerCodec, s: State, p: nat, call: Call, ack: Ack)
    requires ValidCodec(c) && Inv(c, s) && IsProc(s, p) && s.procs[p].pc == Scanning(call)
    requires LastTerminal(Recs(c, DiskOf(s, p).cache), OpOf(call)) == Some(ack)
    requires call.Execute? ==> ack.key == call.key
    ensures Inv(c, Turned(s, p, call, ReplayTurn(call, ack)))
  {
    hide HostInv, Inv, FileInv, Recs, ClaimOf, LastTerminal;
    Here(c, s, p);
    Lookup(c, DiskOf(s, p), s.history, s.procs[p].file, OpOf(call));
    if Interrupted(ack.terminal) {
      Advance(c, s, p, Asking(call, ack.key, Heal(ack)));
    } else {
      var ack' := ReplayOf(call, ack);
      assert !Settles(Returned(s.procs[p].file, call, Acknowledged(ack')));
      AckReply(c, s, p, call, ack');
    }
  }

  // The scan reads back the records of the repaired file.
  lemma LookIs(c: LedgerCodec, s: State, p: nat, facts: ClaimFacts)
    requires ValidCodec(c) && Inv(c, s) && CanAct(c, s, p, Look(facts))
    ensures IsProc(s, p) && s.procs[p].pc.Scanning?
    ensures var call := s.procs[p].pc.call;
            DoAct(c, s, p, Look(facts)) == Turned(s, p, call, LookTurn(Recs(c, DiskOf(s, p).cache), call, facts))
  {
    Here(c, s, p);
    ReadBack(c, DiskOf(s, p).cache);
    hide HostInv, Inv, FileInv, Recs, ReadRecords, ValidCodec, Torn, Frame, LookTurn, Turned;
  }

  lemma LookStep(c: LedgerCodec, s: State, p: nat, facts: ClaimFacts)
    requires ValidCodec(c) && Inv(c, s) && CanAct(c, s, p, Look(facts))
    ensures Inv(c, DoAct(c, s, p, Look(facts)))
  {
    Here(c, s, p);
    LookIs(c, s, p, facts);
    hide HostInv, Inv, FileInv, Recs, ClaimOf, LastTerminal, ReadRecords, ValidCodec, Torn, Frame, DoAct, CanAct, PcInv;
    var f, d, call, h := s.procs[p].file, DiskOf(s, p), s.procs[p].pc.call, s.history;
    var rs, op := Recs(c, d.cache), OpOf(call);
    Lookup(c, d, h, f, op);
    var claim, terminal := ClaimOf(rs, op), LastTerminal(rs, op);
    if claim.None? {
      if call.Execute? {
        LookClaims(c, s, p, facts);
      } else if terminal.None? {
        PlainReply(c, s, p, call, NotFound);
      }
    } else if call.Execute? && claim.value.key.actionHash != call.key.actionHash {
      PlainReply(c, s, p, call, Error(Conflict));
    } else if terminal.Some? {
      ReplayStep(c, s, p, call, terminal.value);
    } else {
      LookRecovers(c, s, p);
    }
  }

  lemma LookClaims(c: LedgerCodec, s: State, p: nat, facts: ClaimFacts)
    requires ValidCodec(c) && Inv(c, s) && IsProc(s, p) && s.procs[p].pc.Scanning? && s.procs[p].pc.call.Execute?
    requires ClaimOf(Recs(c, DiskOf(s, p).cache), OpOf(s.procs[p].pc.call)).None?
    ensures Inv(c, Goto(s, p, Claiming(s.procs[p].pc.call.key, facts, 0)))
  {
    Here(c, s, p);
    hide HostInv, Inv, FileInv, Recs, ClaimOf, LastTerminal, ValidCodec, Torn, Frame;
    var call := s.procs[p].pc.call;
    Lookup(c, DiskOf(s, p), s.history, s.procs[p].file, OpOf(call));
    FrameNonEmpty(c, ClaimRecord(call.key, facts));
    Advance(c, s, p, Claiming(call.key, facts, 0));
  }

  lemma LookRecovers(c: LedgerCodec, s: State, p: nat)
    requires ValidCodec(c) && Inv(c, s) && IsProc(s, p) && s.procs[p].pc.Scanning?
    requires var call, rs := s.procs[p].pc.call, Recs(c, DiskOf(s, p).cache);
             && ClaimOf(rs, OpOf(call)).Some? && LastTerminal(rs, OpOf(call)).None?
             && (call.Execute? ==> ClaimOf(rs, OpOf(call)).value.key == call.key)
    ensures var call := s.procs[p].pc.call;
            Inv(c, Goto(s, p, Asking(call, ClaimOf(Recs(c, DiskOf(s, p).cache), OpOf(call)).value.key, Recover)))
  {
    Here(c, s, p);
    hide HostInv, Inv, FileInv, Recs, ClaimOf, LastTerminal, ValidCodec, Torn, Frame;
    var call := s.procs[p].pc.call;
    Advance(c, s, p, Asking(call, ClaimOf(Recs(c, DiskOf(s, p).cache), OpOf(call)).value.key, Recover));
  }

  lemma FrameNonEmpty(c: LedgerCodec, r: LedgerRecord)
    ensures |Frame(c, r)| > 0
    ensures Frame(c, r)[..0] == []
  {
  }

  // ----- Host calls -----

  // A step of process `p` together with a change of the host ledger.
  lemma HostStep(c: LedgerCodec, s: State, p: nat, pc: Pc, es: seq<Event>, host: map<OutcomeKey, Option<Terminal>>)
    requires Inv(c, s) && IsProc(s, p) && DiskOf(s, p).holder == Some(p) && Holds(pc)
    requires forall e | e in es :: e.Stored? || e.file == s.procs[p].file
    requires var s' := Moved(s, p, DiskOf(s, p), pc, es).(host := host);
             HostInv(s') && GoodHistory(s'.hosted, s'.history)
    requires FileInv(c, DiskOf(s, p), s.history + es, s.procs[p].file)
    requires PcInv(c, DiskOf(s, p), s.history + es, s.procs[p].file, pc)
    ensures Inv(c, Moved(s, p, DiskOf(s, p), pc, es).(host := host))
  {
    hide FileInv, PcInv, HostInv, Inv, GoodHistory;
    Here(c, s, p);
    var s' := Moved(s, p, DiskOf(s, p), pc, es).(host := host);
    MovedShape(s, p, DiskOf(s, p), pc, es);
    assert StepShape(s, s', p, es);
    Assemble(c, s, s', p, es);
  }

  // `begin` grants a key the host has not seen.
  function Granting(s: State, p: nat, key: OutcomeKey, usable: bool): State
    requires IsProc(s, p)
  {
    s.(host := s.host[key := None], history := s.history + [Granted(s.procs[p].file, key, usable)])
  }

  lemma GrantHost(s: State, p: nat, key: OutcomeKey, usable: bool)
    requires HostInv(s) && GoodHistory(s.hosted, s.history)
    requires IsProc(s, p) && s.hosted && key !in s.host && s.procs[p].pc.Asking?
    ensures HostInv(Granting(s, p, key, usable))
    ensures GoodHistory(s.hosted, Granting(s, p, key, usable).history)
  {
    var s' := Granting(s, p, key, usable);
    var h, h' := s.history, s'.history;
    assert forall f: nat, k: OutcomeKey :: Dispatched(f, k) in h' <==> Dispatched(f, k) in h;
    assert forall f: nat, k: OutcomeKey :: Live(h', f, k) <==> Live(h, f, k);
    forall q | 0 <= q < |s.procs| && UsesGrant(s.procs[q].pc) ensures GrantInv(s', q) {
      assert GrantInv(s, q);
    }
    GoodSnoc(s.hosted, h, Granted(s.procs[p].file, key, usable));
  }

  lemma GrantStep(c: LedgerCodec, s: State, p: nat, key: OutcomeKey, usable: bool)
    requires Inv(c, s) && IsProc(s, p) && s.hosted && key !in s.host && s.procs[p].pc.Asking?
    ensures Inv(c, Granting(s, p, key, usable))
  {
    hide FileInv, PcInv, HostInv, Inv, GoodHistory;
    Here(c, s, p);
    var f, d, pc := s.procs[p].file, DiskOf(s, p), s.procs[p].pc;
    var es := [Granted(f, key, usable)];
    var host := s.host[key := None];
    GrantHost(s, p, key, usable);
    FileFrame(c, d, s.history, es, f);
    PcFrame(c, d, s.history, es, f, pc);
    assert Moved(s, p, d, pc, es).(host := host) == Granting(s, p, key, usable);
    HostStep(c, s, p, pc, es, host);
  }

  // A new claim that got its permit may be dispatched.
  lemma PermitStep(c: LedgerCodec, s: State, p: nat, key: OutcomeKey)
    requires Inv(c, s) && IsProc(s, p) && s.procs[p].pc == Asking(Execute(key), key, Fresh)
    requires s.hosted ==>
               && key in s.host && s.host[key].None?
               && Granted(s.procs[p].file, key, true) in s.history
               && (forall g: nat :: Dispatched(g, key) !in s.history)
               && (forall q | 0 <= q < |s.procs| && UsesGrant(s.procs[q].pc) :: s.procs[q].pc.key != key)
    ensures Inv(c, Goto(s, p, Ready(key)))
  {
    hide FileInv, Inv, HostInv, GoodHistory, Recs, ClaimOf, LastTerminal;
    Here(c, s, p);
    var f, d := s.procs[p].file, DiskOf(s, p);
    PermitHost(s, p, key);
    assert s.history + [] == s.history;
    assert Moved(s, p, d, Ready(key), []).(host := s.host) == Goto(s, p, Ready(key));
    HostStep(c, s, p, Ready(key), [], s.host);
  }

  lemma PermitHost(s: State, p: nat, key: OutcomeKey)
    requires HostInv(s) && IsProc(s, p) && s.procs[p].pc == Asking(Execute(key), key, Fresh)
    requires s.hosted ==>
               && key in s.host && s.host[key].None?
               && Granted(s.procs[p].file, key, true) in s.history
               && (forall g: nat :: Dispatched(g, key) !in s.history)
               && (forall q | 0 <= q < |s.procs| && UsesGrant(s.procs[q].pc) :: s.procs[q].pc.key != key)
    ensures HostInv(Goto(s, p, Ready(key)))
  {
    var s' := Goto(s, p, Ready(key));
    forall q | 0 <= q < |s'.procs| && UsesGrant(s'.procs[q].pc) && s'.hosted ensures GrantInv(s', q) {
      if q != p {
        assert GrantInv(s, q);
      }
    }
  }

  // The terminal an answer of the host leads to.
  lemma ResolveStep(c: LedgerCodec, s: State, p: nat, ack: Ack, mode: FinishMode)
    requires ValidCodec(c) && Inv(c, s) && IsProc(s, p) && s.procs[p].pc.Asking?
    requires var Asking(call, key, why) := s.procs[p].pc;
             && ack.key == key && (mode.Plain? || mode.Healed?)
             && (Interrupted(ack.terminal) || (s.hosted && key in s.host && s.host[key] == Some(ack.terminal)))
    ensures Inv(c, Goto(s, p, Finishing(s.procs[p].pc.call, ack, mode, 0)))
  {
    hide HostInv, Inv, FileInv, Recs, ClaimOf, LastTerminal, Frame;
    Here(c, s, p);
    var f, d, h := s.procs[p].file, DiskOf(s, p), s.history;
    var Asking(call, key, why) := s.procs[p].pc;
    var op := key.operationId;
    Lookup(c, d, h, f, op);
    RecordedIsHonest(c, s, p, key);
    FrameNonEmpty(c, TerminalRecord(ack));
    Advance(c, s, p, Finishing(call, ack, mode, 0));
  }

  // What the host recorded for the claimed key is honest about this file's dispatch.
  lemma RecordedIsHonest(c: LedgerCodec, s: State, p: nat, key: OutcomeKey)
    requires ValidCodec(c) && Inv(c, s) && IsProc(s, p) && ClaimedBy(Recs(c, DiskOf(s, p).cache), key)
    ensures s.hosted && key in s.host && s.host[key].Some? ==>
              && HonestWhenLive(s.history, s.procs[p].file, key.operationId, s.host[key].value)
              && (s.host[key].value.Succeeded? ==> Earned(s.history, s.procs[p].file, key))
  {
    hide Inv, FileInv, Recs, ClaimOf, LastTerminal;
    Here(c, s, p);
    Lookup(c, DiskOf(s, p), s.history, s.procs[p].file, key.operationId);
  }

  lemma KeepInterrupted(c: LedgerCodec, s: State, p: nat)
    requires ValidCodec(c) && Inv(c, s) && IsProc(s, p) && s.procs[p].pc.Asking? && s.procs[p].pc.why.Heal?
    ensures var Asking(call, _, why) := s.procs[p].pc;
            Inv(c, Reply(s, p, call, Acknowledged(ReplayOf(call, why.ack))))
  {
    hide HostInv, Inv, FileInv, Recs, ClaimOf, LastTerminal;
    Here(c, s, p);
    var Asking(call, key, why) := s.procs[p].pc;
    Lookup(c, DiskOf(s, p), s.history, s.procs[p].file, key.operationId);
    AckReply(c, s, p, call, ReplayOf(call, why.ack));
  }

  // What is known of a key the host has never seen.
  lemma Unseen(c: LedgerCodec, s: State, key: OutcomeKey)
    requires Inv(c, s) && s.hosted && key !in s.host
    ensures forall g: nat :: Dispatched(g, key) !in s.history
    ensures forall q | 0 <= q < |s.procs| && UsesGrant(s.procs[q].pc) :: s.procs[q].pc.key != key
  {
    hide FileInv, PcInv, GoodHistory;
    forall q | 0 <= q < |s.procs| && UsesGrant(s.procs[q].pc) ensures s.procs[q].pc.key != key {
      assert GrantInv(s, q);
    }
  }

  lemma AskStep(c: LedgerCodec, s: State, p: nat, receipt: Receipt)
    requires ValidCodec(c) && Inv(c, s) && CanAct(c, s, p, Ask(receipt))
    ensures Inv(c, DoAct(c, s, p, Ask(receipt)))
  {
    hide HostInv, Inv, FileInv, PcInv, GoodHistory;
    var Asking(call, key, why) := s.procs[p].pc;
    var grant := s.hosted && key !in s.host;
    var s1 := if grant then Granting(s, p, key, why.Fresh?) else s;
    if grant {
      Unseen(c, s, key);
      GrantStep(c, s, p, key, why.Fresh?);
    }
    assert s.history + [] == s.history;
    if s.hosted && !grant && s.host[key].Some? {
      var terminal := s.host[key].value;
      if why.Heal? {
        HealKey(c, s, p);
        ResolveStep(c, s1, p, why.ack.(terminal := terminal), Healed);
      } else {
        ResolveStep(c, s1, p, Ack(key, terminal, false), Plain);
      }
    } else if why.Heal? {
      KeepInterrupted(c, s1, p);
    } else if why.Fresh? && (grant || !s.hosted) {
      HealKey(c, s, p);
      PermitStep(c, s1, p, key);
    } else {
      ResolveStep(c, s1, p, Ack(key, OutcomeUnknown(receipt, InterruptedOutcome), false), Plain);
    }
  }

  lemma HealKey(c: LedgerCodec, s: State, p: nat)
    requires Inv(c, s) && IsProc(s, p) && s.procs[p].pc.Asking?
    ensures var Asking(call, key, why) := s.procs[p].pc;
            (why.Heal? ==> why.ack.key == key) && (why.Fresh? ==> call == Execute(key))
  {
    hide HostInv, FileInv;
  }

  lemma AskFailsStep(c: LedgerCodec, s: State, p: nat, applied: bool)
    requires Inv(c, s) && CanAct(c, s, p, AskFails(applied))
    ensures Inv(c, DoAct(c, s, p, AskFails(applied)))
  {
    hide HostInv, Inv, FileInv, PcInv, GoodHistory;
    var Asking(call, key, _) := s.procs[p].pc;
    assert s.history + [] == s.history;
    if applied && key !in s.host {
      GrantStep(c, s, p, key, false);
      PlainReply(c, Granting(s, p, key, false), p, call, Error(HostLedger));
    } else {
      PlainReply(c, s, p, call, Error(HostLedger));
    }
  }

  // ----- Dispatch and its outcome -----

  lemma {:induction false} DisprovedWasDispatched(hosted: bool, h: seq<Event>, f: nat, k: OutcomeKey)
    requires GoodHistory(hosted, h) && Disproved(f, k) in h
    ensures Dispatched(f, k) in h
  {
    var i :| 0 <= i < |h| && h[i] == Disproved(f, k);
    assert GoodEvent(hosted, h[..i], h[i]);
  }

  lemma DispatchHost(s: State, p: nat, key: OutcomeKey)
    requires HostInv(s) && LockInv(s) && IsProc(s, p) && s.procs[p].pc == Ready(key)
    ensures HostInv(Moved(s, p, DiskOf(s, p), Dispatching(key), [Dispatched(s.procs[p].file, key)]))
  {
    var e := Dispatched(s.procs[p].file, key);
    var s' := Moved(s, p, DiskOf(s, p), Dispatching(key), [e]);
    var h, h' := s.history, s'.history;
    assert forall f: nat, k: OutcomeKey :: Dispatched(f, k) in h' <==> Dispatched(f, k) in h || Dispatched(f, k) == e;
    assert forall f: nat, k: OutcomeKey :: Live(h', f, k) ==> Live(h, f, k) || Dispatched(f, k) == e;
    if s.hosted {
      assert GrantInv(s, p);
      forall q | 0 <= q < |s'.procs| && UsesGrant(s'.procs[q].pc) ensures GrantInv(s', q) {
        assert GrantInv(s, q);
        if q != p {
          OwnKeys(s, p, q);
        }
      }
    }
  }

  // No two processes use the same grant.
  lemma OwnKeys(s: State, p: nat, q: nat)
    requires HostInv(s) && s.hosted && p < |s.procs| && q < |s.procs| && p != q
    requires UsesGrant(s.procs[p].pc) && UsesGrant(s.procs[q].pc)
    ensures s.procs[p].pc.key != s.procs[q].pc.key
  {
  }

  lemma DispatchFile(c: LedgerCodec, d: Disk, h: seq<Event>, f: nat, key: OutcomeKey)
    requires FileInv(c, d, h, f) && PcInv(c, d, h, f, Ready(key)) && Disproved(f, key) !in h
    ensures FileInv(c, d, h + [Dispatched(f, key)], f)
    ensures PcInv(c, d, h + [Dispatched(f, key)], f, Dispatching(key))
  {
    hide Recs, Whole, Clean, Torn, ClaimOf, WellFormed, SettledIn;
    var h', op := h + [Dispatched(f, key)], key.operationId;
    NoTerminalMeans(Recs(c, d.cache), op);
    assert forall k: OutcomeKey :: Dispatched(f, k) in h' <==> Dispatched(f, k) in h || k == key;
    assert forall k: OutcomeKey :: Disproved(f, k) in h' <==> Disproved(f, k) in h;
  }

  lemma DispatchStep(c: LedgerCodec, s: State, p: nat)
    requires Inv(c, s) && CanAct(c, s, p, Dispatch)
    ensures Inv(c, DoAct(c, s, p, Dispatch))
  {
    hide FileInv, Inv, GoodHistory;
    Here(c, s, p);
    var f, d, key, h := s.procs[p].file, DiskOf(s, p), s.procs[p].pc.key, s.history;
    var e := Dispatched(f, key);
    if Disproved(f, key) in h {
      DisprovedWasDispatched(s.hosted, h, f, key);
    }
    DispatchFile(c, d, h, f, key);
    DispatchHost(s, p, key);
    assert GoodEvent(s.hosted, h, e) by {
      assert s.hosted ==> GrantInv(s, p);
    }
    GoodSnoc(s.hosted, h, e);
    hide HostInv, PcInv, GoodEvent;
    HostStep(c, s, p, Dispatching(key), [e], s.host);
    assert Moved(s, p, d, Dispatching(key), [e]).(host := s.host) == DoAct(c, s, p, Dispatch);
  }

  lemma DisproofHost(s: State, p: nat, key: OutcomeKey, terminal: Terminal)
    requires HostInv(s) && LockInv(s) && IsProc(s, p) && s.procs[p].pc == Dispatching(key)
    ensures HostInv(Moved(s, p, DiskOf(s, p), Recording(key, terminal, false), [Disproved(s.procs[p].file, key)]))
  {
    var s' := Moved(s, p, DiskOf(s, p), Recording(key, terminal, false), [Disproved(s.procs[p].file, key)]);
    var h, h' := s.history, s'.history;
    assert forall f: nat, k: OutcomeKey :: Dispatched(f, k) in h' <==> Dispatched(f, k) in h;
    assert forall f: nat, k: OutcomeKey :: Live(h', f, k) ==> Live(h, f, k);
    forall q | 0 <= q < |s'.procs| && UsesGrant(s'.procs[q].pc) && s'.hosted ensures GrantInv(s', q) {
      assert GrantInv(s, q);
    }
  }

  lemma DisproofFile(c: LedgerCodec, d: Disk, h: seq<Event>, f: nat, key: OutcomeKey, terminal: Terminal)
    requires ValidCodec(c) && FileInv(c, d, h, f) && PcInv(c, d, h, f, Dispatching(key)) && NoEffectTerminal(terminal)
    ensures FileInv(c, d, h + [Disproved(f, key)], f)
    ensures PcInv(c, d, h + [Disproved(f, key)], f, Recording(key, terminal, false))
  {
    hide Recs, Whole, Clean, Torn, ClaimOf, LastTerminal, WellFormed, HonestFor, SettledIn, ValidCodec;
    Lookup(c, d, h, f, key.operationId);
    var h' := h + [Disproved(f, key)];
    assert forall k: OutcomeKey :: Dispatched(f, k) in h' <==> Dispatched(f, k) in h;
    assert forall k: OutcomeKey :: Live(h', f, k) <==> Live(h, f, k) && k != key;
  }

  lemma SettleStep(c: LedgerCodec, s: State, p: nat, terminal: Terminal, effect: bool)
    requires ValidCodec(c) && Inv(c, s) && CanAct(c, s, p, Settle(terminal, effect))
    ensures Inv(c, DoAct(c, s, p, Settle(terminal, effect)))
  {
    hide HostInv, FileInv, Inv, Recs, ClaimOf, LastTerminal, ValidCodec;
    Here(c, s, p);
    var f, d, key, h := s.procs[p].file, DiskOf(s, p), s.procs[p].pc.key, s.history;
    if effect {
      Advance(c, s, p, Recording(key, terminal, true));
    } else {
      var e := Disproved(f, key);
      DisproofFile(c, d, h, f, key, terminal);
      DisproofHost(s, p, key, terminal);
      GoodSnoc(s.hosted, h, e);
      HostStep(c, s, p, Recording(key, terminal, false), [e], s.host);
      assert Moved(s, p, d, Recording(key, terminal, false), [e]).(host := s.host)
          == DoAct(c, s, p, Settle(terminal, effect));
    }
  }

  // ----- Recording a terminal with the host -----

  lemma StoreHost(s: State, p: nat, pc: Pc)
    requires HostInv(s) && IsProc(s, p) && s.hosted && s.procs[p].pc.Recording? && !UsesGrant(pc)
    requires var Recording(key, terminal, _) := s.procs[p].pc;
             && !Interrupted(terminal) && HonestWhenLive(s.history, s.procs[p].file, key.operationId, terminal)
             && (terminal.Succeeded? ==> Dispatched(s.procs[p].file, key) in s.history)
    ensures var Recording(key, terminal, _) := s.procs[p].pc;
            var s' := Moved(s, p, DiskOf(s, p), pc, [Stored(key, terminal)]).(host := s.host[key := Some(terminal)]);
            HostInv(s') && GoodEvent(s.hosted, s.history, Stored(key, terminal))
  {
    var Recording(key, terminal, _) := s.procs[p].pc;
    var s' := Moved(s, p, DiskOf(s, p), pc, [Stored(key, terminal)]).(host := s.host[key := Some(terminal)]);
    var h, h' := s.history, s'.history;
    assert GrantInv(s, p);
    EarnedStays(h, [Stored(key, terminal)]);
    if terminal.Succeeded? {
      assert Dispatched(s.procs[p].file, key) in h && Granted(s.procs[p].file, key, true) in h;
      assert HostEarned(h, key);
    }
    assert forall f: nat, k: OutcomeKey :: Dispatched(f, k) in h' <==> Dispatched(f, k) in h;
    assert forall f: nat, k: OutcomeKey :: Live(h', f, k) <==> Live(h, f, k);
    forall q | 0 <= q < |s'.procs| && UsesGrant(s'.procs[q].pc) ensures GrantInv(s', q) {
      assert q != p && GrantInv(s, q);
      OwnKeys(s, p, q);
    }
  }

  // The acknowledgement about to be appended.
  lemma StorePc(c: LedgerCodec, d: Disk, h: seq<Event>, f: nat, pc: Pc, ack: Ack, mode: FinishMode)
    requires ValidCodec(c) && FileInv(c, d, h, f) && PcInv(c, d, h, f, pc) && pc.Recording?
    requires mode == (if pc.effect then AfterEffect else Plain)
    requires ack in {Ack(pc.key, pc.terminal, false), PersistenceUnknown(Ack(pc.key, pc.terminal, false))}
    ensures PcInv(c, d, h, f, Finishing(Execute(pc.key), ack, mode, 0))
  {
    hide Recs, Frame, ClaimOf, LastTerminal, ValidCodec, FileInv;
    Lookup(c, d, h, f, pc.key.operationId);
    FrameNonEmpty(c, TerminalRecord(ack));
  }

  // Recording, by a call that answers or by one that fails after it took effect.
  lemma StoreStep(c: LedgerCodec, s: State, p: nat, ack: Ack, mode: FinishMode)
    requires ValidCodec(c) && Inv(c, s) && IsProc(s, p) && s.procs[p].pc.Recording?
    requires var Recording(key, terminal, effect) := s.procs[p].pc;
             && mode == (if effect then AfterEffect else Plain)
             && ack in {Ack(key, terminal, false), PersistenceUnknown(Ack(key, terminal, false))}
    ensures var Recording(key, terminal, effect) := s.procs[p].pc;
            var pc := Finishing(Execute(key), ack, mode, 0);
            Inv(c, Goto(Store(s, key, terminal), p, pc)) && Inv(c, Goto(s, p, pc))
  {
    hide FileInv, Inv, HostInv, PcInv, GoodEvent, ValidCodec;
    Here(c, s, p);
    var f, d, h := s.procs[p].file, DiskOf(s, p), s.history;
    var Recording(key, terminal, effect) := s.procs[p].pc;
    var pc := Finishing(Execute(key), ack, mode, 0);
    StorePc(c, d, h, f, s.procs[p].pc, ack, mode);
    Advance(c, s, p, pc);
    if s.hosted {
      var e := Stored(key, terminal);
      RecordingMeans(c, d, h, f, s.procs[p].pc);
      StoreHost(s, p, pc);
      PcFrame(c, d, h, [e], f, pc);
      FileFrame(c, d, h, [e], f);
      GoodSnoc(s.hosted, h, e);
      var host := s.host[key := Some(terminal)];
      HostStep(c, s, p, pc, [e], host);
      assert Moved(s, p, d, pc, [e]).(host := host) == Goto(Store(s, key, terminal), p, pc);
    }
  }

  lemma RecordingMeans(c: LedgerCodec, d: Disk, h: seq<Event>, f: nat, pc: Pc)
    requires PcInv(c, d, h, f, pc) && pc.Recording?
    ensures !Interrupted(pc.terminal) && HonestWhenLive(h, f, pc.key.operationId, pc.terminal)
    ensures pc.terminal.Succeeded? ==> Dispatched(f, pc.key) in h
  {
  }

  lemma RecordStep(c: LedgerCodec, s: State, p: nat)
    requires ValidCodec(c) && Inv(c, s) && CanAct(c, s, p, Record)
    ensures Inv(c, DoAct(c, s, p, Record))
  {
    hide Inv;
    var Recording(key, terminal, effect) := s.procs[p].pc;
    StoreStep(c, s, p, Ack(key, terminal, false), if effect then AfterEffect else Plain);
  }

  lemma RecordFailsStep(c: LedgerCodec, s: State, p: nat, applied: bool)
    requires ValidCodec(c) && Inv(c, s) && CanAct(c, s, p, RecordFails(applied))
    ensures Inv(c, DoAct(c, s, p, RecordFails(applied)))
  {
    hide Inv;
    var Recording(key, terminal, effect) := s.procs[p].pc;
    var ack := Ack(key, terminal, false);
    var s1 := if applied then Store(s, key, terminal) else s;
    if effect {
      StoreStep(c, s, p, PersistenceUnknown(ack), AfterEffect);
    } else {
      StoreStep(c, s, p, ack, Plain);
      var s2 := Goto(s1, p, Finishing(Execute(key), ack, Plain, 0));
      PlainReply(c, s2, p, Execute(key), Error(HostLedger));
      assert s2.procs[p := s2.procs[p].(pc := Idle)] == s.procs[p := s.procs[p].(pc := Idle)];
    }
  }

  // ----- Failures -----

  lemma FailStep(c: LedgerCodec, s: State, p: nat)
    requires ValidCodec(c) && Inv(c, s) && CanAct(c, s, p, Fail)
    ensures Inv(c, DoAct(c, s, p, Fail))
  {
    hide Inv, HostInv, FileInv, Recs, ClaimOf, LastTerminal, Frame, Torn, Written;
    Here(c, s, p);
    var pc := s.procs[p].pc;
    if pc.Finishing? && pc.mode.AfterEffect? {
      Advance(c, s, p, Mending(PersistenceUnknown(pc.ack)));
    } else if (pc.Finishing? && pc.mode.Mended?) || pc.Mending? || pc.MendSyncing? {
      Lookup(c, DiskOf(s, p), s.history, s.procs[p].file, OpOf(CallOf(pc)));
      AckReply(c, s, p, CallOf(pc), pc.ack);
    } else {
      PlainReply(c, s, p, CallOf(pc), Error(Io));
    }
  }

  lemma WrittenBack(c: LedgerCodec, d: Disk, image: seq<byte>, h: seq<Event>, f: nat, pc: Pc)
    requires ValidCodec(c) && FileInv(c, d, h, f) && PcInv(c, d, h, f, pc) && CrashImage(d.durable, d.cache, image)
    ensures FileInv(c, d.(durable := image), h, f) && PcInv(c, d.(durable := image), h, f, pc)
  {
    CrashKeeps(c, d.durable, d.cache, image);
    DurableGrows(c, d, d.(durable := image), h, f, pc);
  }

  lemma WriteBackStep(c: LedgerCodec, s: State, f: nat, image: seq<byte>)
    requires ValidCodec(c) && Inv(c, s) && Enabled(c, s, WriteBack(f, image))
    ensures Inv(c, Do(c, s, WriteBack(f, image)))
  {
    hide FileInv, PcInv, CrashImage, ValidCodec, GoodHistory, HostInv;
    var d := s.disks[f];
    var s' := Do(c, s, WriteBack(f, image));
    NothingIdle(c, d, s.history, f);
    WrittenBack(c, d, image, s.history, f, Idle);
    forall p | 0 <= p < |s'.procs|
      ensures IsProc(s', p) && PcInv(c, DiskOf(s', p), s'.history, s'.procs[p].file, s'.procs[p].pc)
    {
      Here(c, s, p);
      if s.procs[p].file == f {
        WrittenBack(c, d, image, s.history, f, s.procs[p].pc);
      }
    }
    HostSame(s, s');
    LocksSame(s, s', f, image);
  }

  lemma LocksSame(s: State, s': State, f: nat, image: seq<byte>)
    requires LockInv(s) && f < |s.disks|
    requires s' == s.(disks := s.disks[f := s.disks[f].(durable := image)])
    ensures LockInv(s')
  {
    forall p | 0 <= p < |s'.procs|
      ensures IsProc(s', p) && (Holds(s'.procs[p].pc) ==> DiskOf(s', p).holder == Some(p))
    {
      assert IsProc(s, p);
    }
  }

  lemma HostSame(s: State, s': State)
    requires HostInv(s) && s' == s.(disks := s'.disks)
    ensures HostInv(s')
  {
    forall q | 0 <= q < |s'.procs| && UsesGrant(s'.procs[q].pc) && s'.hosted ensures GrantInv(s', q) {
      assert GrantInv(s, q);
    }
  }

  lemma NothingIdle(c: LedgerCodec, d: Disk, h: seq<Event>, f: nat)
    ensures PcInv(c, d, h, f, Idle)
  {
  }

  // What is known of a log and its synced part holds of every log in between.
  lemma ShorterLog(h: seq<Event>, f: nat, durable: seq<LedgerRecord>, rs': seq<LedgerRecord>, rs: seq<LedgerRecord>)
    requires WellFormed(rs) && durable <= rs' <= rs && AllEarned(h, f, rs)
    requires forall k: OutcomeKey | Dispatched(f, k) in h :: ClaimedBy(durable, k)
    requires forall k: OutcomeKey | Live(h, f, k) :: HonestFor(rs, k.operationId)
    requires forall e | e in h && Settles(e) && e.file == f :: SettledIn(durable, rs, e)
    ensures WellFormed(rs') && AllEarned(h, f, rs')
    ensures forall k: OutcomeKey | Dispatched(f, k) in h :: ClaimedBy(rs', k)
    ensures forall k: OutcomeKey | Live(h, f, k) :: HonestFor(rs', k.operationId)
    ensures forall e | e in h && Settles(e) && e.file == f :: SettledIn(rs', rs', e)
  {
    hide WellFormed, ClaimOf, LastTerminal, Earned, Live;
    ClaimStays(rs', rs, "");
    forall k: OutcomeKey | ClaimedBy(durable, k) ensures ClaimedBy(rs', k) {
      ClaimStays(durable, rs', k.operationId);
    }
    forall e | e in h && Settles(e) && e.file == f ensures SettledIn(rs', rs', e) {
      assert SettledIn(durable, rs, e);
      LastTerminalStays(durable, rs', OpOf(e.call));
    }
  }

  // After a power failure a file holds what was synced and perhaps more of what was written.
  lemma Rebooted(c: LedgerCodec, d: Disk, image: seq<byte>, h: seq<Event>, f: nat)
    requires ValidCodec(c) && FileInv(c, d, h, f) && CrashImage(d.durable, d.cache, image)
    ensures FileInv(c, Disk(image, image, None), h, f)
  {
    assert Whole(image) <= image;
    hide Recs, Clean, CrashImage, ValidCodec, Whole, WellFormed, AllEarned, ClaimedBy, Live, HonestFor, SettledIn,
         Settles;
    CrashKeeps(c, d.durable, d.cache, image);
    ShorterLog(h, f, Recs(c, d.durable), Recs(c, image), Recs(c, d.cache));
  }

  lemma PowerLossStep(c: LedgerCodec, s: State, images: seq<seq<byte>>)
    requires ValidCodec(c) && Inv(c, s) && Enabled(c, s, PowerLoss(images))
    ensures Inv(c, Do(c, s, PowerLoss(images)))
  {
    hide FileInv, CrashImage;
    var s' := Do(c, s, PowerLoss(images));
    forall f | 0 <= f < |s'.disks| ensures FileInv(c, s'.disks[f], s'.history, f) {
      Rebooted(c, s.disks[f], images[f], s.history, f);
    }
    assert forall p | 0 <= p < |s.procs| :: IsProc(s, p) && s'.procs[p] == s.procs[p].(pc := Idle);
  }

  // A step adds to the history and moves only its own process.
  ghost predicate OnlyMoves(s: State, s': State, q: nat)
    requires IsProc(s, q)
  {
    && s'.hosted == s.hosted && s.history <= s'.history && |s'.disks| == |s.disks| && |s'.procs| == |s.procs|
    && (forall p | 0 <= p < |s.procs| ::
          s'.procs[p].file == s.procs[p].file && (p == q || s'.procs[p] == s.procs[p]))
    && (forall g | 0 <= g < |s.disks| && g != s.procs[q].file :: s'.disks[g] == s.disks[g])
    // A process that neither holds nor gets the lock leaves its file alone.
    && (DiskOf(s, q).holder.Some? && DiskOf(s, q).holder != Some(q) && !Holds(s.procs[q].pc) ==>
          s'.disks[s.procs[q].file] == DiskOf(s, q))
  }

  lemma ActKeepsOthers(c: LedgerCodec, s: State, q: nat, action: Action)
    requires CanAct(c, s, q, action)
    ensures IsProc(s, q) && OnlyMoves(s, DoAct(c, s, q, action), q)
  {
    match action {
      case Look(facts) => LookKeepsOthers(c, s, q, facts);
      case Ask(receipt) => AskKeepsOthers(s, q, receipt);
      case Inspect => InspectKeepsOthers(c, s, q);
      case _ =>
        if action.Fail? {
          FailKeepsOthers(c, s, q);
        } else if action.Sync? || action.Write? {
          IoKeepsOthers(c, s, q, action);
        } else if action.AskFails? || action.Record? || action.RecordFails? {
          HostKeepsOthers(c, s, q, action);
        } else {
          TurnKeepsOthers(c, s, q, action);
        }
    }
    hide *;
  }

  lemma IoKeepsOthers(c: LedgerCodec, s: State, q: nat, action: Action)
    requires CanAct(c, s, q, action) && (action.Sync? || action.Write?)
    ensures IsProc(s, q) && OnlyMoves(s, DoAct(c, s, q, action), q)
  {
    hide Frame, DoLook, DoAsk, DoInspect, DoAskFails, DoRecord, DoRecordFails, DoFail;
  }

  lemma FailKeepsOthers(c: LedgerCodec, s: State, q: nat)
    requires IsProc(s, q) && DoesIo(s.procs[q].pc)
    ensures OnlyMoves(s, DoFail(s, q), q)
  {
  }

  lemma HostKeepsOthers(c: LedgerCodec, s: State, q: nat, action: Action)
    requires CanAct(c, s, q, action) && (action.AskFails? || action.Record? || action.RecordFails?)
    ensures IsProc(s, q) && OnlyMoves(s, DoAct(c, s, q, action), q)
  {
    hide Frame, DoLook, DoAsk, DoInspect, DoSync, DoWrite, DoFail, HostBegin;
  }

  lemma TurnKeepsOthers(c: LedgerCodec, s: State, q: nat, action: Action)
    requires CanAct(c, s, q, action) && !action.Look? && !action.Ask? && !action.Inspect?
    requires !DoesIo(s.procs[q].pc) || action.Die?
    requires !action.AskFails? && !action.Record? && !action.RecordFails?
    ensures IsProc(s, q) && OnlyMoves(s, DoAct(c, s, q, action), q)
  {
    hide Frame, DoLook, DoAsk, DoInspect, DoSync, DoWrite, DoAskFails, DoRecord, DoRecordFails, DoFail;
  }

  lemma LookKeepsOthers(c: LedgerCodec, s: State, q: nat, facts: ClaimFacts)
    requires IsProc(s, q) && s.procs[q].pc.Scanning?
    ensures OnlyMoves(s, DoLook(c, s, q, facts), q)
  {
    hide ReadRecords, ClaimOf, LastTerminal;
  }

  lemma AskKeepsOthers(s: State, q: nat, receipt: Receipt)
    requires IsProc(s, q) && s.procs[q].pc.Asking?
    ensures OnlyMoves(s, DoAsk(s, q, receipt), q)
  {
  }

  lemma InspectKeepsOthers(c: LedgerCodec, s: State, q: nat)
    requires IsProc(s, q) && (s.procs[q].pc.Repairing? || s.procs[q].pc.Mending?)
    ensures OnlyMoves(s, DoInspect(c, s, q), q)
  {
    hide Repaired;
  }

  // ----- All steps, all runs -----

  lemma StepKeeps(c: LedgerCodec, s: State, step: Step)
    requires ValidCodec(c) && Inv(c, s) && Enabled(c, s, step)
    ensures Inv(c, Do(c, s, step))
  {
    hide Inv, DoAct, ValidCodec;
    match step {
      case WriteBack(f, image) => WriteBackStep(c, s, f, image);
      case PowerLoss(images) => PowerLossStep(c, s, images);
      case Act(p, action) =>
        match action {
          case Start(call) => StartStep(c, s, p, call);
          case Lock => LockStep(c, s, p);
          case GiveUp => GiveUpStep(c, s, p);
          case Inspect => InspectStep(c, s, p);
          case Sync => SyncStep(c, s, p);
          case Look(facts) => LookStep(c, s, p, facts);
          case Write(n) => WriteStep(c, s, p, n);
          case Ask(receipt) => AskStep(c, s, p, receipt);
          case AskFails(applied) => AskFailsStep(c, s, p, applied);
          case Refuse(terminal) => RefuseStep(c, s, p, terminal);
          case Dispatch => DispatchStep(c, s, p);
          case Settle(terminal, effect) => SettleStep(c, s, p, terminal, effect);
          case Record => RecordStep(c, s, p);
          case RecordFails(applied) => RecordFailsStep(c, s, p, applied);
          case Fail => FailStep(c, s, p);
          case Die => DieStep(c, s, p);
        }
    }
  }

  lemma {:induction false} RunKeeps(c: LedgerCodec, s: State, steps: seq<Step>)
    requires ValidCodec(c) && Inv(c, s) && Legal(c, s, steps)
    ensures Inv(c, Run(c, s, steps))
    decreases |steps|
  {
    hide Inv, Do, ValidCodec;
    if steps != [] {
      StepKeeps(c, s, steps[0]);
      RunKeeps(c, Do(c, s, steps[0]), steps[1..]);
    }
  }

  lemma ReachableInv(c: LedgerCodec, s: State)
    requires ValidCodec(c) && Reachable(c, s)
    ensures Inv(c, s)
  {
    hide Inv, ValidCodec;
    var s0, steps :| Init(s0) && Legal(c, s0, steps) && Run(c, s0, steps) == s;
    InitHolds(c, s0);
    RunKeeps(c, s0, steps);
  }
}
