// Runs that show where the guarantees end: what needs the shared host ledger, and which answers may
// still change.
module Limits {
  import opened Wrappers
  import opened Jsonl
  import opened Types
  import opened Ledger
  import opened Machine
  import opened MachineSteps
  import opened Engines

  // `x` differs from `s` only in process `p`, its file and the history.
  ghost predicate At(s: State, x: State, p: nat, d: Disk, pc: Pc, h: seq<Event>) {
    && IsProc(s, p) && IsProc(x, p) && |x.procs| == |s.procs| && |x.disks| == |s.disks|
    && !x.hosted && x.host == map[] && x.history == h
    && x.procs[p] == s.procs[p].(pc := pc) && DiskOf(x, p) == d
    && (forall q | 0 <= q < |s.procs| && q != p :: x.procs[q] == s.procs[q])
    && (forall g | 0 <= g < |s.disks| && g != s.procs[p].file :: x.disks[g] == s.disks[g])
  }

  lemma Go(c: LedgerCodec, x: State, p: nat, action: Action) returns (y: State)
    requires Reachable(c, x) && CanAct(c, x, p, action)
    ensures Reachable(c, y) && y == DoAct(c, x, p, action)
  {
    ReachStep(c, x, p, action);
    y := DoAct(c, x, p, action);
  }

  lemma Locks(c: LedgerCodec, s: State, x: State, p: nat, call: Call, durable: seq<byte>, cache: seq<byte>,
              h: seq<Event>) returns (y: State)
    requires Reachable(c, x) && At(s, x, p, Disk(durable, cache, None), Idle, h)
    ensures Reachable(c, y) && At(s, y, p, Disk(durable, cache, Some(p)), Repairing(call), h)
  {
    hide Reachable;
    y := Go(c, x, p, Start(call));
    assert At(s, y, p, Disk(durable, cache, None), Waiting(call), h);
    y := Go(c, y, p, Lock);
  }

  lemma Inspects(c: LedgerCodec, s: State, x: State, p: nat, call: Call, durable: seq<byte>, cache: seq<byte>,
                 h: seq<Event>) returns (y: State)
    requires Reachable(c, x) && At(s, x, p, Disk(durable, cache, Some(p)), Repairing(call), h)
             && Repaired(c, cache) == Success(cache)
    ensures Reachable(c, y) && At(s, y, p, Disk(durable, cache, Some(p)), Scanning(call), h)
  {
    hide Reachable, Repaired;
    y := Go(c, x, p, Inspect);
  }

  // A call finds an undamaged log as it is.
  lemma Opens(c: LedgerCodec, s: State, x: State, p: nat, call: Call, rs: seq<LedgerRecord>, durable: seq<byte>,
              h: seq<Event>) returns (y: State)
    requires ValidCodec(c) && Reachable(c, x) && At(s, x, p, Disk(durable, Image(c, rs), None), Idle, h)
    ensures Reachable(c, y) && At(s, y, p, Disk(durable, Image(c, rs), Some(p)), Scanning(call), h)
  {
    assert Image(c, rs) + [] == Image(c, rs);
    LogParts(c, rs, []);
    WholeKeeps(c, Image(c, rs));
    hide *;
    y := Locks(c, s, x, p, call, durable, Image(c, rs), h);
    y := Inspects(c, s, y, p, call, durable, Image(c, rs), h);
  }

  // The record being appended is written in one piece.
  lemma Appends(c: LedgerCodec, s: State, x: State, p: nat, durable: seq<byte>, rs: seq<LedgerRecord>, pc: Pc,
                h: seq<Event>) returns (y: State)
    requires Reachable(c, x) && At(s, x, p, Disk(durable, Image(c, rs), Some(p)), pc, h) && Appending(pc)
             && pc.done == 0
    ensures var r := RecordOf(pc);
            Reachable(c, y) && At(s, y, p, Disk(durable, Image(c, rs + [r]), Some(p)), pc.(done := |Frame(c, r)|), h)
  {
    var r := RecordOf(pc);
    FrameNonEmpty(c, r);
    ImageSnoc(c, rs, r);
    hide Image, Frame, Reachable;
    y := Go(c, x, p, Write(|Frame(c, r)|));
    assert Frame(c, r)[0..|Frame(c, r)|] == Frame(c, r);
  }

  lemma Claims(c: LedgerCodec, s: State, x: State, p: nat, key: OutcomeKey, facts: ClaimFacts, h: seq<Event>)
    returns (y: State)
    requires ValidCodec(c) && Reachable(c, x) && At(s, x, p, Disk([], [], Some(p)), Scanning(Execute(key)), h)
    ensures var log := Image(c, [ClaimRecord(key, facts)]);
            Reachable(c, y) && At(s, y, p, Disk(log, log, Some(p)), Asking(Execute(key), key, Fresh), h)
  {
    assert Image(c, []) == [] && ReadRecords(c, []) == Success([]);
    hide Reachable, Image;
    var pc := Claiming(key, facts, 0);
    y := Go(c, x, p, Look(facts));
    assert At(s, y, p, Disk([], [], Some(p)), pc, h);
    y := Appends(c, s, y, p, [], [], pc, h);
    assert [] + [RecordOf(pc)] == [ClaimRecord(key, facts)];
    y := Go(c, y, p, Sync);
  }

  lemma Permits(c: LedgerCodec, s: State, x: State, p: nat, key: OutcomeKey, d: Disk, receipt: Receipt, h: seq<Event>)
    returns (y: State)
    requires Reachable(c, x) && At(s, x, p, d, Asking(Execute(key), key, Fresh), h)
    ensures Reachable(c, y) && At(s, y, p, d, Dispatching(key), h + [Dispatched(s.procs[p].file, key)])
  {
    hide Reachable;
    y := Go(c, x, p, Ask(receipt));
    assert At(s, y, p, d, Ready(key), h);
    y := Go(c, y, p, Dispatch);
  }

  // On an empty file an operation is claimed, granted and dispatched.
  lemma Dispatches(c: LedgerCodec, s: State, p: nat, key: OutcomeKey, facts: ClaimFacts, receipt: Receipt)
    returns (y: State)
    requires ValidCodec(c) && Reachable(c, s) && IsProc(s, p) && !s.hosted && s.host == map[]
    requires s.procs[p].pc.Idle? && DiskOf(s, p) == Disk([], [], None)
    ensures var log := Image(c, [ClaimRecord(key, facts)]);
            Reachable(c, y) && At(s, y, p, Disk(log, log, Some(p)), Dispatching(key),
                                  s.history + [Dispatched(s.procs[p].file, key)])
  {
    assert Image(c, []) == [] && At(s, s, p, Disk([], [], None), Idle, s.history);
    hide *;
    var log := Image(c, [ClaimRecord(key, facts)]);
    y := Opens(c, s, s, p, Execute(key), [], [], s.history);
    y := Claims(c, s, y, p, key, facts, s.history);
    y := Permits(c, s, y, p, key, Disk(log, log, Some(p)), receipt, s.history);
  }

  const TWO_FILES := State(false, [Disk([], [], None), Disk([], [], None)], [Proc(0, Idle), Proc(1, Idle)], map[], [])

  lemma FreshReachable(c: LedgerCodec)
    ensures Reachable(c, TWO_FILES)
  {
    assert Init(TWO_FILES) && Legal(c, TWO_FILES, []) && Run(c, TWO_FILES, []) == TWO_FILES;
  }

  // Without a host ledger, two engines with their own files both dispatch one operation.
  lemma TwoFilesDispatchTwice(c: LedgerCodec, key: OutcomeKey, facts: ClaimFacts, receipt: Receipt) returns (y: State)
    requires ValidCodec(c)
    ensures Reachable(c, y) && y.history == [Dispatched(0, key), Dispatched(1, key)]
  {
    hide Reachable, ValidCodec, Image;
    FreshReachable(c);
    y := Dispatches(c, TWO_FILES, 0, key, facts, receipt);
    y := Dispatches(c, y, 1, key, facts, receipt);
  }

  lemma Records(c: LedgerCodec, s: State, x: State, p: nat, key: OutcomeKey, d: Disk, receipt: Receipt, h: seq<Event>)
    returns (y: State)
    requires Reachable(c, x) && At(s, x, p, d, Dispatching(key), h)
    ensures Reachable(c, y) && At(s, y, p, d,
                                  Finishing(Execute(key), Ack(key, Succeeded(receipt), false), AfterEffect, 0), h)
  {
    hide Reachable;
    y := Go(c, x, p, Settle(Succeeded(receipt), true));
    assert At(s, y, p, d, Recording(key, Succeeded(receipt), true), h);
    y := Go(c, y, p, Record);
  }

  lemma FailsTwice(c: LedgerCodec, s: State, x: State, p: nat, d: Disk, ack: Ack, n: nat, h: seq<Event>)
    returns (y: State)
    requires Reachable(c, x) && d.holder == Some(p)
             && At(s, x, p, d, Finishing(Execute(ack.key), ack, AfterEffect, n), h)
    ensures Reachable(c, y)
    ensures At(s, y, p, d.(holder := None), Idle,
               h + [Returned(s.procs[p].file, Execute(ack.key), Acknowledged(PersistenceUnknown(ack)))])
  {
    hide Reachable;
    y := Go(c, x, p, Fail);
    assert At(s, y, p, d, Mending(PersistenceUnknown(ack)), h);
    y := Go(c, y, p, Fail);
  }

  // After the dispatch: the success is written, but neither the sync nor the repair goes through.
  lemma LosesSync(c: LedgerCodec, s: State, x: State, p: nat, key: OutcomeKey, rs: seq<LedgerRecord>,
                  receipt: Receipt, h: seq<Event>) returns (y: State)
    requires Reachable(c, x) && At(s, x, p, Disk(Image(c, rs), Image(c, rs), Some(p)), Dispatching(key), h)
    ensures var ack := Ack(key, Succeeded(receipt), false);
            && Reachable(c, y)
            && At(s, y, p, Disk(Image(c, rs), Image(c, rs + [TerminalRecord(ack)]), None), Idle,
                  h + [Returned(s.procs[p].file, Execute(key), Acknowledged(PersistenceUnknown(ack)))])
  {
    hide Reachable, Image, At, Frame, PersistenceUnknown;
    var ack := Ack(key, Succeeded(receipt), false);
    var log := Image(c, rs);
    var pc := Finishing(Execute(key), ack, AfterEffect, 0);
    y := Records(c, s, x, p, key, Disk(log, log, Some(p)), receipt, h);
    y := Appends(c, s, y, p, log, rs, pc, h);
    y := FailsTwice(c, s, y, p, Disk(log, Image(c, rs + [TerminalRecord(ack)]), Some(p)), ack,
                    |Frame(c, RecordOf(pc))|, h);
  }

  // A returned `outcome_unknown` can be followed by a `succeeded`: the success had reached the file
  // although its sync failed. Only other fresh answers are final.
  lemma UnknownCanChange(c: LedgerCodec, key: OutcomeKey, facts: ClaimFacts, receipt: Receipt) returns (y: State)
    requires ValidCodec(c)
    ensures var ack := Ack(key, Succeeded(receipt), false);
            Reachable(c, y) && y.history ==
            [Dispatched(0, key),
             Returned(0, Execute(key), Acknowledged(ack.(terminal := OutcomeUnknown(receipt, DurabilityUnknown)))),
             Returned(0, Status(key.operationId), Acknowledged(ack))]
  {
    hide Reachable, ValidCodec, Image;
    FreshReachable(c);
    var ack := Ack(key, Succeeded(receipt), false);
    var claim := [ClaimRecord(key, facts)];
    var rs := claim + [TerminalRecord(ack)];
    y := Dispatches(c, TWO_FILES, 0, key, facts, receipt);
    y := LosesSync(c, TWO_FILES, y, 0, key, claim, receipt, y.history);
    y := Opens(c, TWO_FILES, y, 0, Status(key.operationId), rs, Image(c, claim), y.history);
    y := Replays(c, TWO_FILES, y, 0, key, facts, ack, Image(c, claim), y.history);
  }

  lemma Replays(c: LedgerCodec, s: State, x: State, p: nat, key: OutcomeKey, facts: ClaimFacts, ack: Ack,
                durable: seq<byte>, h: seq<Event>) returns (y: State)
    requires ValidCodec(c) && Reachable(c, x) && ack.key == key && ack.terminal.Succeeded?
    requires At(s, x, p, Disk(durable, Image(c, [ClaimRecord(key, facts)] + [TerminalRecord(ack)]), Some(p)),
                Scanning(Status(key.operationId)), h)
    ensures Reachable(c, y)
    ensures y.history == h + [Returned(s.procs[p].file, Status(key.operationId), Acknowledged(ack))]
  {
    var rs := [ClaimRecord(key, facts)] + [TerminalRecord(ack)];
    ReadImage(c, rs);
    Snoc([ClaimRecord(key, facts)], TerminalRecord(ack), key.operationId);
    hide Reachable, Image, ReadRecords, ClaimOf, LastTerminal, ValidCodec;
    y := Go(c, x, p, Look(facts));
  }
}
