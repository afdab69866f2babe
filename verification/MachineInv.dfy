// The invariant of the protocol machine, and its preservation by every step.
module MachineInv {
  import opened Wrappers
  import opened Jsonl
  import opened Types
  import opened Ledger
  import opened Machine

  // ----- Facts about histories -----

  ghost predicate NotDispatched(h: seq<Event>, f: nat, op: string) {
    forall k: OutcomeKey | k.operationId == op :: Dispatched(f, k) !in h
  }

  // A dispatch whose effect the executor has not ruled out.
  ghost predicate Live(h: seq<Event>, f: nat, k: OutcomeKey) {
    Dispatched(f, k) in h && Disproved(f, k) !in h
  }

  ghost predicate HonestWhenLive(h: seq<Event>, f: nat, op: string, t: Terminal) {
    forall k: OutcomeKey | k.operationId == op && Live(h, f, k) :: Honest(t)
  }

  // Somebody dispatched the operation: a process of this file, or the holder of the host's grant.
  ghost predicate Earned(h: seq<Event>, f: nat, k: OutcomeKey) {
    exists g: nat :: Dispatched(g, k) in h && (g == f || Granted(g, k, true) in h)
  }

  ghost predicate EarnedIf(h: seq<Event>, f: nat, ack: Ack) {
    ack.terminal.Succeeded? ==> Earned(h, f, ack.key)
  }

  ghost predicate AllEarned(h: seq<Event>, f: nat, rs: seq<LedgerRecord>) {
    forall i | 0 <= i < |rs| && rs[i].TerminalRecord? :: EarnedIf(h, f, rs[i].ack)
  }

  // A fresh answer of `execute` that is not `outcome_unknown`.
  predicate Settles(e: Event) {
    && e.Returned? && e.call.Execute? && e.answer.Acknowledged?
    && !e.answer.ack.replayed && !e.answer.ack.terminal.OutcomeUnknown?
  }

  ghost predicate NotSettled(h: seq<Event>, f: nat, op: string) {
    forall e | e in h && Settles(e) && e.file == f :: OpOf(e.call) != op
  }

  // Events of one file that cannot disturb what is known about file `f`.
  predicate Irrelevant(e: Event, f: nat) {
    || e.Stored? || e.Granted? || e.file != f
    || (e.Returned? && !e.answer.Acknowledged?)
  }

  // ----- What every event promises, given the history before it -----

  ghost predicate Matches(call: Call, ack: Ack) {
    match call
    case Execute(key) => ack.key == key
    case Status(op) => ack.key.operationId == op
  }

  ghost predicate GoodAnswer(h: seq<Event>, f: nat, call: Call, answer: Answer) {
    match answer
    case Error(reason) => reason != InvalidLedger && reason != CorruptLedger
    case NotFound =>
      && call.Status?
      && (forall k: OutcomeKey | k.operationId == OpOf(call) :: !Live(h, f, k))
      && NotSettled(h, f, OpOf(call))
    case Acknowledged(ack) =>
      && Matches(call, ack)
      && HonestWhenLive(h, f, OpOf(call), ack.terminal)
      && EarnedIf(h, f, ack)
      && (forall k: OutcomeKey | k.operationId == OpOf(call) && Dispatched(f, k) in h :: ack.key == k)
      && forall x | x in h && Settles(x) && x.file == f && OpOf(x.call) == OpOf(call) ::
           ack.terminal == x.answer.ack.terminal && ack.key == x.answer.ack.key
  }

  ghost predicate GoodEvent(hosted: bool, h: seq<Event>, e: Event) {
    match e
    case Dispatched(f, key) =>
      && NotDispatched(h, f, key.operationId)
      && (hosted ==> Granted(f, key, true) in h && forall g: nat :: Dispatched(g, key) !in h)
    case Disproved(f, key) => Dispatched(f, key) in h
    case Granted(_, key, _) => hosted && forall g: nat, u: bool :: Granted(g, key, u) !in h
    case Stored(key, terminal) =>
      && hosted && !Interrupted(terminal)
      && (exists g: nat :: Granted(g, key, true) in h)
      && forall t: Terminal :: Stored(key, t) !in h
    case Returned(f, call, answer) => GoodAnswer(h, f, call, answer)
  }

  ghost predicate GoodHistory(hosted: bool, h: seq<Event>) {
    forall i | 0 <= i < |h| :: GoodEvent(hosted, h[..i], h[i])
  }

  lemma GoodSnoc(hosted: bool, h: seq<Event>, e: Event)
    requires GoodHistory(hosted, h) && GoodEvent(hosted, h, e)
    ensures GoodHistory(hosted, h + [e])
  {
    var h' := h + [e];
    forall i | 0 <= i < |h'| ensures GoodEvent(hosted, h'[..i], h'[i]) {
      assert h'[..i] == h[..i];
      assert h[..|h|] == h;
    }
  }

  // ----- The invariant -----

  // What holds of a file whoever uses it.
  ghost predicate FileInv(c: LedgerCodec, d: Disk, h: seq<Event>, f: nat) {
    var rs, durable := Recs(c, d.cache), Recs(c, d.durable);
    && Clean(c, d.cache) && Whole(d.durable) <= d.cache && WellFormed(rs)
    && AllEarned(h, f, rs)
    && (forall k: OutcomeKey | Dispatched(f, k) in h :: ClaimedBy(durable, k))
    && (forall k: OutcomeKey | Live(h, f, k) :: HonestFor(rs, k.operationId))
    && (forall e | e in h && Settles(e) && e.file == f :: SettledIn(durable, rs, e))
  }

  ghost predicate SettledIn(durable: seq<LedgerRecord>, rs: seq<LedgerRecord>, e: Event)
    requires Settles(e)
  {
    var ack := e.answer.ack;
    var op := ack.key.operationId;
    && OpOf(e.call) == op
    && ClaimedBy(durable, ack.key)
    && LastTerminal(durable, op) == Some(ack)
    && Quiet(rs, |durable|, op)
  }

  // How much of the record being appended is in the file.
  ghost predicate Written(c: LedgerCodec, cache: seq<byte>, r: LedgerRecord, done: nat) {
    var frame := Frame(c, r);
    && done <= |frame|
    && Torn(cache) == if done < |frame| then frame[..done] else []
  }

  ghost predicate ClaimedAndOpen(rs: seq<LedgerRecord>, key: OutcomeKey) {
    ClaimedBy(rs, key) && LastTerminal(rs, key.operationId).None?
  }

  // What the process that holds the lock knows about its file.
  ghost predicate PcInv(c: LedgerCodec, d: Disk, h: seq<Event>, f: nat, pc: Pc) {
    var rs, durable := Recs(c, d.cache), Recs(c, d.durable);
    match pc
    case Idle => true
    case Waiting(_) => true
    case Repairing(_) => true
    case Syncing(_) => Torn(d.cache) == []
    case Scanning(_) => Torn(d.cache) == []
    case Claiming(key, facts, done) =>
      && Written(c, d.cache, RecordOf(pc), done)
      && NotDispatched(h, f, key.operationId)
      && LastTerminal(rs, key.operationId).None?
      && ClaimOf(rs, key.operationId) == if done < |Frame(c, RecordOf(pc))| then None else Some(RecordOf(pc))
    case Asking(call, key, why) =>
      && Torn(d.cache) == [] && OpOf(call) == key.operationId && (call.Execute? ==> call.key == key)
      && ClaimedBy(rs, key)
      && (match why
          case Fresh =>
            call == Execute(key) && ClaimedBy(durable, key) && ClaimedAndOpen(rs, key)
            && NotDispatched(h, f, key.operationId)
          case Recover => ClaimedAndOpen(rs, key)
          case Heal(ack) =>
            LastTerminal(rs, key.operationId) == Some(ack) && Interrupted(ack.terminal)
            && ack.key == key)
    case Ready(key) =>
      && Torn(d.cache) == []
      && ClaimedBy(durable, key) && ClaimedAndOpen(rs, key) && NotDispatched(h, f, key.operationId)
    case Dispatching(key) =>
      && Torn(d.cache) == []
      && ClaimedBy(durable, key) && ClaimedAndOpen(rs, key) && Live(h, f, key)
    case Recording(key, terminal, effect) =>
      && Torn(d.cache) == []
      && ClaimedBy(durable, key) && ClaimedAndOpen(rs, key)
      && (if effect then EffectTerminal(terminal) else NoEffectTerminal(terminal))
      && HonestWhenLive(h, f, key.operationId, terminal)
      && (terminal.Succeeded? ==> Dispatched(f, key) in h)
    case Finishing(call, ack, mode, done) =>
      && Written(c, d.cache, RecordOf(pc), done)
      && Matches(call, ack) && ClaimedBy(rs, ack.key)
      && HonestWhenLive(h, f, ack.key.operationId, ack.terminal)
      && EarnedIf(h, f, ack)
      && NotSettled(h, f, ack.key.operationId)
      && (mode.AfterEffect? || mode.Mended? ==> call == Execute(ack.key) && EffectTerminal(ack.terminal))
      && (mode.Mended? ==> !ack.terminal.Succeeded?)
      && (done == |Frame(c, RecordOf(pc))| ==> LastTerminal(rs, ack.key.operationId) == Some(ack))
    case Mending(ack) =>
      && ClaimedBy(rs, ack.key) && NotSettled(h, f, ack.key.operationId)
      && EffectTerminal(ack.terminal) && !ack.terminal.Succeeded?
    case MendSyncing(ack) =>
      && Torn(d.cache) == []
      && ClaimedBy(rs, ack.key) && NotSettled(h, f, ack.key.operationId)
      && EffectTerminal(ack.terminal) && !ack.terminal.Succeeded?
  }

  // What the host ledger and the use of its grants promise.
  ghost predicate HostInv(s: State) {
    && (!s.hosted ==> s.host == map[])
    && (forall k | k in s.host && s.host[k].Some? :: !Interrupted(s.host[k].value))
    && (forall k | k in s.host && s.host[k].Some? && s.host[k].value.Succeeded? :: HostEarned(s.history, k))
    && (forall f: nat, k: OutcomeKey, u: bool | Granted(f, k, u) in s.history :: k in s.host)
    && (forall k: OutcomeKey, t: Terminal | Stored(k, t) in s.history :: k in s.host && s.host[k] == Some(t))
    && (s.hosted ==>
          && (forall f: nat, k: OutcomeKey | Dispatched(f, k) in s.history :: k in s.host)
          && (forall f: nat, k: OutcomeKey | Live(s.history, f, k) ::
              k in s.host && (s.host[k].Some? ==> Honest(s.host[k].value)))
          && (forall p | 0 <= p < |s.procs| && UsesGrant(s.procs[p].pc) :: GrantInv(s, p))
          && (forall p, q | 0 <= p < q < |s.procs| && UsesGrant(s.procs[p].pc) && UsesGrant(s.procs[q].pc) ::
                s.procs[p].pc.key != s.procs[q].pc.key))
  }

  ghost predicate HostEarned(h: seq<Event>, k: OutcomeKey) {
    exists g: nat :: Dispatched(g, k) in h && Granted(g, k, true) in h
  }

  ghost predicate GrantInv(s: State, p: nat)
    requires p < |s.procs| && UsesGrant(s.procs[p].pc)
  {
    var key := s.procs[p].pc.key;
    && key in s.host && s.host[key].None?
    && Granted(s.procs[p].file, key, true) in s.history
    && (s.procs[p].pc.Ready? ==> forall g: nat :: Dispatched(g, key) !in s.history)
    // Only this file can have dispatched the key.
    && (forall g: nat | Live(s.history, g, key) :: g == s.procs[p].file)
  }

  ghost predicate LockInv(s: State) {
    && (forall p | 0 <= p < |s.procs| :: IsProc(s, p) && (Holds(s.procs[p].pc) ==> DiskOf(s, p).holder == Some(p)))
    && (forall f, q | 0 <= f < |s.disks| && s.disks[f].holder == Some(q) ::
          q < |s.procs| && s.procs[q].file == f && Holds(s.procs[q].pc))
  }

  ghost predicate Inv(c: LedgerCodec, s: State) {
    && LockInv(s)
    && (forall f | 0 <= f < |s.disks| :: FileInv(c, s.disks[f], s.history, f))
    && (forall p | 0 <= p < |s.procs| ::
        IsProc(s, p) && PcInv(c, DiskOf(s, p), s.history, s.procs[p].file, s.procs[p].pc))
    && HostInv(s)
    && GoodHistory(s.hosted, s.history)
  }

  lemma InitHolds(c: LedgerCodec, s: State)
    requires ValidCodec(c) && Init(s)
    ensures Inv(c, s)
  {
    EmptyFile(c, s.history);
  }

  lemma EmptyFile(c: LedgerCodec, h: seq<Event>)
    requires ValidCodec(c) && h == []
    ensures forall f: nat :: FileInv(c, Disk([], [], None), h, f)
  {
    LogParts<LedgerRecord>(c, [], []);
  }

  // ----- Frames -----

  lemma EarnedStays(h: seq<Event>, es: seq<Event>)
    ensures forall f: nat, k: OutcomeKey | Earned(h, f, k) :: Earned(h + es, f, k)
    ensures forall k: OutcomeKey | HostEarned(h, k) :: HostEarned(h + es, k)
    ensures forall f: nat, rs: seq<LedgerRecord> | AllEarned(h, f, rs) :: AllEarned(h + es, f, rs)
  {
    forall f: nat, k: OutcomeKey | Earned(h, f, k) ensures Earned(h + es, f, k) {
      var g: nat :| Dispatched(g, k) in h && (g == f || Granted(g, k, true) in h);
      assert Dispatched(g, k) in h + es;
    }
    forall k: OutcomeKey | HostEarned(h, k) ensures HostEarned(h + es, k) {
      var g: nat :| Dispatched(g, k) in h && Granted(g, k, true) in h;
      assert Dispatched(g, k) in h + es;
    }
  }

  lemma Unmoved(h: seq<Event>, e: Event, f: nat)
    requires Irrelevant(e, f)
    ensures forall k: OutcomeKey :: Dispatched(f, k) in h + [e] <==> Dispatched(f, k) in h
    ensures forall k: OutcomeKey :: Live(h + [e], f, k) <==> Live(h, f, k)
    ensures forall op :: NotDispatched(h + [e], f, op) <==> NotDispatched(h, f, op)
    ensures forall op :: NotSettled(h + [e], f, op) <==> NotSettled(h, f, op)
  {
    forall op ensures NotSettled(h + [e], f, op) <==> NotSettled(h, f, op) {
      if NotSettled(h + [e], f, op) {
        forall x | x in h && Settles(x) && x.file == f ensures OpOf(x.call) != op {
          assert x in h + [e];
        }
      }
    }
  }

  lemma {:induction false} PcFrame(c: LedgerCodec, d: Disk, h: seq<Event>, es: seq<Event>, f: nat, pc: Pc)
    requires PcInv(c, d, h, f, pc) && forall e | e in es :: Irrelevant(e, f)
    ensures PcInv(c, d, h + es, f, pc)
    decreases |es|
  {
    hide Recs, Torn, ClaimOf, LastTerminal, Written, ClaimedBy, Whole, Clean, WellFormed, HonestFor, SettledIn,
         Earned, AllEarned;
    if es == [] {
      assert h + es == h;
    } else {
      Unmoved(h, es[0], f);
      EarnedStays(h, [es[0]]);
      PcFrame(c, d, h + [es[0]], es[1..], f, pc);
      assert h + [es[0]] + es[1..] == h + es;
    }
  }

  lemma {:induction false} FileFrame(c: LedgerCodec, d: Disk, h: seq<Event>, es: seq<Event>, f: nat)
    requires FileInv(c, d, h, f) && forall e | e in es :: Irrelevant(e, f)
    ensures FileInv(c, d, h + es, f)
    decreases |es|
  {
    hide Recs, Torn, ClaimOf, LastTerminal, Written, ClaimedBy, Whole, Clean, WellFormed, HonestFor, SettledIn,
         Earned, AllEarned;
    if es == [] {
      assert h + es == h;
    } else {
      Unmoved(h, es[0], f);
      EarnedStays(h, [es[0]]);
      FileFrame(c, d, h + [es[0]], es[1..], f);
      assert h + [es[0]] + es[1..] == h + es;
    }
  }

  // The lock of a disk as one process may change it.
  predicate LockShape(d: Disk, d': Disk, p: nat, pc': Pc) {
    && (d'.holder == Some(p) <==> Holds(pc'))
    && (d.holder != None && d.holder != Some(p) ==> d' == d)
    && (d'.holder == d.holder || d'.holder == None || d'.holder == Some(p))
  }

  // `s'` differs from `s` only in process `p`, its file, the host and one more event.
  ghost predicate StepShape(s: State, s': State, p: nat, es: seq<Event>) {
    && IsProc(s, p) && IsProc(s', p)
    && s'.hosted == s.hosted
    && s'.procs == s.procs[p := s'.procs[p]] && s'.procs[p].file == s.procs[p].file
    && s'.disks == s.disks[s.procs[p].file := DiskOf(s', p)]
    && LockShape(DiskOf(s, p), DiskOf(s', p), p, s'.procs[p].pc)
    && s'.history == s.history + es
    && (forall e | e in es :: e.Stored? || e.file == s.procs[p].file)
    && (DiskOf(s, p).holder != Some(p) ==> forall e | e in es :: e.Returned? && !e.answer.Acknowledged?)
  }

  // What remains to be shown of a step by process `p`.
  lemma Assemble(c: LedgerCodec, s: State, s': State, p: nat, es: seq<Event>)
    requires Inv(c, s) && StepShape(s, s', p, es)
    requires FileInv(c, DiskOf(s', p), s'.history, s.procs[p].file)
    requires PcInv(c, DiskOf(s', p), s'.history, s.procs[p].file, s'.procs[p].pc)
    requires HostInv(s')
    requires GoodHistory(s'.hosted, s'.history)
    ensures Inv(c, s')
  {
    hide FileInv, PcInv, HostInv;
    forall g | 0 <= g < |s'.disks| ensures FileInv(c, s'.disks[g], s'.history, g) {
      if g != s.procs[p].file {
        FileFrame(c, s.disks[g], s.history, es, g);
      }
    }
    forall q | 0 <= q < |s'.procs|
      ensures IsProc(s', q) && PcInv(c, DiskOf(s', q), s'.history, s'.procs[q].file, s'.procs[q].pc)
    {
      if q != p {
        OtherProc(c, s, s', p, es, q);
      }
    }
    LocksKept(s, s', p, es);
  }

  lemma OtherProc(c: LedgerCodec, s: State, s': State, p: nat, es: seq<Event>, q: nat)
    requires Inv(c, s) && StepShape(s, s', p, es) && q < |s.procs| && q != p
    ensures IsProc(s', q) && PcInv(c, DiskOf(s', q), s'.history, s'.procs[q].file, s'.procs[q].pc)
  {
    hide FileInv, HostInv;
    assert IsProc(s, q) && s'.procs[q] == s.procs[q];
    if Holds(s.procs[q].pc) {
      assert DiskOf(s, q).holder == Some(q);
      assert DiskOf(s', q) == DiskOf(s, q);
      PcFrame(c, DiskOf(s, q), s.history, es, s.procs[q].file, s.procs[q].pc);
    }
  }

  lemma LocksKept(s: State, s': State, p: nat, es: seq<Event>)
    requires LockInv(s) && StepShape(s, s', p, es)
    ensures LockInv(s')
  {
    var f := s.procs[p].file;
    forall q | 0 <= q < |s'.procs|
      ensures IsProc(s', q) && (Holds(s'.procs[q].pc) ==> DiskOf(s', q).holder == Some(q))
    {
      assert IsProc(s, q);
      if q != p && Holds(s.procs[q].pc) && s.procs[q].file == f {
        assert DiskOf(s, p).holder == Some(q);
      }
    }
    forall g, q | 0 <= g < |s'.disks| && s'.disks[g].holder == Some(q)
      ensures q < |s'.procs| && s'.procs[q].file == g && Holds(s'.procs[q].pc)
    {
      if g == f && q != p {
        assert s.disks[g].holder == Some(q);
      }
    }
  }
}
