// What the protocol guarantees over whole runs: any interleaving of processes, any failures,
// any number of crashes and power losses.
module Guarantees {
  import opened Wrappers
  import opened Jsonl
  import opened Types
  import opened Ledger
  import opened Machine
  import opened MachineInv
  import opened MachineSteps

  // ----- At most one dispatch -----

  // A ledger file never sees two dispatches of one operation, whatever their hashes.
  lemma AtMostOnce(c: LedgerCodec, s: State, i: nat, j: nat)
    requires ValidCodec(c) && Reachable(c, s) && i < j < |s.history|
    requires s.history[i].Dispatched? && s.history[j].Dispatched? && s.history[i].file == s.history[j].file
    ensures s.history[i].key.operationId != s.history[j].key.operationId
  {
    hide FileInv, PcInv, HostInv, Reachable, ValidCodec;
    ReachableInv(c, s);
    assert GoodEvent(s.hosted, s.history[..j], s.history[j]);
    assert s.history[..j][i] == s.history[i];
  }

  // With a shared host ledger this holds for an operation and hash over all ledger files.
  lemma AtMostOnceShared(c: LedgerCodec, s: State, i: nat, j: nat)
    requires ValidCodec(c) && Reachable(c, s) && s.hosted && i < j < |s.history|
    requires s.history[i].Dispatched? && s.history[j].Dispatched?
    ensures s.history[i].key != s.history[j].key
  {
    hide FileInv, PcInv, HostInv, Reachable, ValidCodec;
    ReachableInv(c, s);
    assert GoodEvent(s.hosted, s.history[..j], s.history[j]);
    assert s.history[..j][i] == s.history[i];
  }

  // A dispatched operation has its claim among the synced records, now and after any crash.
  lemma DispatchedIsClaimed(c: LedgerCodec, s: State, f: nat, key: OutcomeKey)
    requires ValidCodec(c) && Reachable(c, s) && Dispatched(f, key) in s.history && f < |s.disks|
    ensures ClaimedBy(Recs(c, s.disks[f].durable), key)
  {
    hide PcInv, HostInv, Reachable, ValidCodec, GoodHistory;
    ReachableInv(c, s);
    assert FileInv(c, s.disks[f], s.history, f);
  }

  // ----- The log -----

  // Whatever was torn, a file is a sequence of framed records and at most one unterminated one:
  // the repair keeps exactly the former, and the reader then returns exactly those records.
  lemma LogIsReadable(c: LedgerCodec, s: State, f: nat)
    requires ValidCodec(c) && Reachable(c, s) && f < |s.disks|
    ensures var cache := s.disks[f].cache; var rs := Recs(c, cache);
            && cache == Image(c, rs) + Torn(cache) && NEWLINE !in Torn(cache)
            && Repaired(c, cache) == Success(Image(c, rs))
            && ReadRecords(c, Image(c, rs)) == Success(rs)
            && WellFormed(rs)
            && Recs(c, s.disks[f].durable) <= rs
  {
    ReachableInv(c, s);
    var d := s.disks[f];
    assert FileInv(c, d, s.history, f);
    hide PcInv, HostInv, Reachable, GoodHistory, LockInv;
    CleanParts(c, d.cache);
    WholeKeeps(c, d.cache);
    ReadImage(c, Recs(c, d.cache));
    DurablePrefix(c, d.durable, d.cache);
  }

  // Every append starts on an empty or newline-terminated file.
  lemma AppendsStartClean(c: LedgerCodec, s: State, p: nat)
    requires ValidCodec(c) && Reachable(c, s) && p < |s.procs| && Appending(s.procs[p].pc) && s.procs[p].pc.done == 0
    ensures IsProc(s, p) && Torn(DiskOf(s, p).cache) == []
  {
    hide FileInv, HostInv, Reachable, ValidCodec, GoodHistory;
    ReachableInv(c, s);
    Here(c, s, p);
    FrameNonEmpty(c, RecordOf(s.procs[p].pc));
  }

  // No call ever ends because the ledger looks damaged.
  lemma NeverDamaged(c: LedgerCodec, s: State, i: nat)
    requires ValidCodec(c) && Reachable(c, s) && i < |s.history| && s.history[i].Returned?
    ensures s.history[i].answer != Error(InvalidLedger) && s.history[i].answer != Error(CorruptLedger)
  {
    hide FileInv, PcInv, HostInv, Reachable, ValidCodec;
    ReachableInv(c, s);
    assert GoodEvent(s.hosted, s.history[..i], s.history[i]);
  }

  // ----- Answers -----

  // Once an operation was dispatched and its effect not ruled out, no later answer denies it.
  lemma NeverDenied(c: LedgerCodec, s: State, i: nat, j: nat)
    requires ValidCodec(c) && Reachable(c, s) && i < j < |s.history|
    requires s.history[i].Dispatched? && s.history[j].Returned? && s.history[i].file == s.history[j].file
    requires OpOf(s.history[j].call) == s.history[i].key.operationId
    requires Disproved(s.history[i].file, s.history[i].key) !in s.history[..j]
    requires !s.history[j].answer.Error?
    ensures s.history[j].answer.Acknowledged? && Honest(s.history[j].answer.ack.terminal)
  {
    hide FileInv, PcInv, HostInv, Reachable, ValidCodec;
    ReachableInv(c, s);
    var h := s.history[..j];
    assert GoodEvent(s.hosted, h, s.history[j]);
    assert h[i] == s.history[i];
    assert Live(h, s.history[i].file, s.history[i].key);
  }

  // A fresh answer of `execute` that is not `outcome_unknown` is the answer of every later call.
  lemma StableAnswer(c: LedgerCodec, s: State, i: nat, j: nat)
    requires ValidCodec(c) && Reachable(c, s) && i < j < |s.history|
    requires Settles(s.history[i]) && s.history[j].Returned? && s.history[i].file == s.history[j].file
    requires OpOf(s.history[i].call) == OpOf(s.history[j].call)
    requires !s.history[j].answer.Error?
    ensures s.history[j].answer.Acknowledged?
    ensures s.history[j].answer.ack.terminal == s.history[i].answer.ack.terminal
    ensures s.history[j].answer.ack.key == s.history[i].call.key
  {
    hide FileInv, PcInv, HostInv, Reachable, ValidCodec;
    ReachableInv(c, s);
    var h := s.history[..j];
    assert GoodEvent(s.hosted, h, s.history[j]);
    assert GoodEvent(s.hosted, s.history[..i], s.history[i]);
    assert h[i] == s.history[i];
  }

  // An acknowledgement answers the operation that was asked for; `execute` never acknowledges
  // a request whose hash differs from the one first claimed.
  lemma AnswersMatch(c: LedgerCodec, s: State, i: nat, j: nat)
    requires ValidCodec(c) && Reachable(c, s) && i < |s.history| && j < |s.history|
    requires s.history[i].Returned? && s.history[i].answer.Acknowledged?
    requires s.history[j].Dispatched? && s.history[i].file == s.history[j].file && s.history[j].file < |s.disks|
    requires s.history[j].key.operationId == OpOf(s.history[i].call) && j < i
    ensures s.history[i].answer.ack.key == s.history[j].key
    ensures s.history[i].call.Execute? ==> s.history[i].call.key == s.history[j].key
  {
    hide FileInv, PcInv, HostInv, Reachable, ValidCodec;
    ReachableInv(c, s);
    var h := s.history[..i];
    assert GoodEvent(s.hosted, h, s.history[i]);
    assert h[j] == s.history[j];
  }

  lemma EventsGood(c: LedgerCodec, s: State)
    requires ValidCodec(c) && Reachable(c, s)
    ensures forall k | 0 <= k < |s.history| :: GoodEvent(s.hosted, s.history[..k], s.history[k])
  {
    hide FileInv, PcInv, HostInv, LockInv, Reachable, ValidCodec, GoodEvent;
    ReachableInv(c, s);
  }

  // A reported success was dispatched before: by this file, or by the holder of the host's grant.
  lemma NoInventedSuccess(c: LedgerCodec, s: State, i: nat) returns (j: nat)
    requires ValidCodec(c) && Reachable(c, s) && i < |s.history|
    requires s.history[i].Returned? && s.history[i].answer.Acknowledged? && s.history[i].answer.ack.terminal.Succeeded?
    ensures j < i && s.history[j].Dispatched? && s.history[j].key == s.history[i].answer.ack.key
    ensures s.hosted || s.history[j].file == s.history[i].file
  {
    EventsGood(c, s);
    hide FileInv, PcInv, HostInv, Inv, Reachable, ValidCodec, GoodHistory;
    var h := s.history[..i];
    assert GoodEvent(s.hosted, h, s.history[i]);
    var f, key := s.history[i].file, s.history[i].answer.ack.key;
    var g: nat :| Dispatched(g, key) in h && (g == f || Granted(g, key, true) in h);
    j :| 0 <= j < |h| && h[j] == Dispatched(g, key);
    if g != f {
      var k :| 0 <= k < |h| && h[k] == Granted(g, key, true);
      assert GoodEvent(s.hosted, s.history[..k], s.history[k]);
    }
  }

  // ----- The host ledger -----

  // Entries only move from absent to granted to recorded; a recorded terminal never changes.
  ghost predicate HostGrows(host: map<OutcomeKey, Option<Terminal>>, host': map<OutcomeKey, Option<Terminal>>) {
    && host.Keys <= host'.Keys
    && forall k | k in host && host[k].Some? :: host'[k] == host[k]
  }

  lemma ActHost(c: LedgerCodec, s: State, p: nat, action: Action)
    requires HostInv(s) && CanAct(c, s, p, action)
    ensures HostGrows(s.host, DoAct(c, s, p, action).host)
  {
    hide HostInv, Frame, ReadRecords, Repaired, ClaimOf, LastTerminal;
    if action.Record? || action.RecordFails? {
      RecordHost(s, p);
    } else if action.Ask? || action.AskFails? {
      hide HostGrows;
      BeginHost(s, s.procs[p].pc.key);
    } else {
      assert DoAct(c, s, p, action).host == s.host;
    }
  }

  lemma BeginHost(s: State, key: OutcomeKey)
    ensures HostGrows(s.host, s.host) && HostGrows(s.host, HostBegin(s.hosted, s.host, key).1)
  {
  }

  lemma RecordHost(s: State, p: nat)
    requires HostInv(s) && IsProc(s, p) && s.procs[p].pc.Recording?
    ensures HostGrows(s.host, s.host)
    ensures HostGrows(s.host, Store(s, s.procs[p].pc.key, s.procs[p].pc.terminal).host)
  {
    if s.hosted {
      assert GrantInv(s, p);
    }
  }

  lemma StepHost(c: LedgerCodec, s: State, step: Step)
    requires Inv(c, s) && Enabled(c, s, step)
    ensures HostGrows(s.host, Do(c, s, step).host)
  {
    hide FileInv, PcInv, GoodHistory, HostInv, DoAct;
    if step.Act? {
      ActHost(c, s, step.p, step.action);
    }
  }

  lemma {:induction false} HostMonotone(c: LedgerCodec, s: State, steps: seq<Step>)
    requires ValidCodec(c) && Inv(c, s) && Legal(c, s, steps)
    ensures HostGrows(s.host, Run(c, s, steps).host)
    decreases |steps|
  {
    hide Inv, Do, ValidCodec;
    if steps != [] {
      StepHost(c, s, steps[0]);
      StepKeeps(c, s, steps[0]);
      HostMonotone(c, Do(c, s, steps[0]), steps[1..]);
    }
  }

  // The engine records at most one terminal a key, only under a usable grant, never an
  // interrupted one, and the host still holds it.
  lemma RecordedOnce(c: LedgerCodec, s: State, i: nat, j: nat)
    requires ValidCodec(c) && Reachable(c, s) && i < |s.history| && j < |s.history|
    requires s.history[i].Stored? && s.history[j].Stored? && s.history[i].key == s.history[j].key
    ensures i == j
    ensures !Interrupted(s.history[i].terminal)
    ensures s.history[i].key in s.host && s.host[s.history[i].key] == Some(s.history[i].terminal)
  {
    hide FileInv, PcInv, Reachable, ValidCodec;
    ReachableInv(c, s);
    assert GoodEvent(s.hosted, s.history[..i], s.history[i]);
    assert s.history[i] in s.history;
    hide GoodHistory, GoodEvent, HostInv;
    if i < j {
      KeysApart(s.hosted, s.history, i, j);
    } else if j < i {
      KeysApart(s.hosted, s.history, j, i);
    }
  }

  // Two grants, or two recorded terminals, are for different keys.
  lemma KeysApart(hosted: bool, h: seq<Event>, i: int, j: int)
    requires GoodHistory(hosted, h) && 0 <= i < j < |h|
    requires (h[i].Stored? && h[j].Stored?) || (h[i].Granted? && h[j].Granted?)
    ensures h[i].key != h[j].key
  {
    assert GoodEvent(hosted, h[..j], h[j]);
    assert h[..j][i] == h[i];
  }

  lemma GrantBefore(hosted: bool, h: seq<Event>, g: nat, key: OutcomeKey) returns (k: nat)
    requires GoodHistory(hosted, h) && Dispatched(g, key) in h && hosted
    ensures k < |h| && h[k] == Granted(g, key, true)
  {
    var j :| 0 <= j < |h| && h[j] == Dispatched(g, key);
    assert GoodEvent(hosted, h[..j], h[j]);
    k :| 0 <= k < j && h[..j][k] == Granted(g, key, true);
  }

  // A grant obtained while recovering is never followed, or preceded, by a dispatch of its key.
  lemma RecoveryGrantUnused(c: LedgerCodec, s: State, f: nat, g: nat, key: OutcomeKey)
    requires ValidCodec(c) && Reachable(c, s) && Granted(f, key, false) in s.history
    ensures Dispatched(g, key) !in s.history
  {
    hide FileInv, PcInv, HostInv, Reachable, ValidCodec;
    ReachableInv(c, s);
    var i :| 0 <= i < |s.history| && s.history[i] == Granted(f, key, false);
    assert GoodEvent(s.hosted, s.history[..i], s.history[i]);
    hide GoodHistory, GoodEvent;
    if Dispatched(g, key) in s.history {
      var k := GrantBefore(s.hosted, s.history, g, key);
      if i < k {
        KeysApart(s.hosted, s.history, i, k);
      } else {
        KeysApart(s.hosted, s.history, k, i);
      }
    }
  }

  // ----- One call -----

  // Between a dispatch that may have had an effect and the end of its call.
  predicate EffectPath(pc: Pc) {
    || (pc.Recording? && pc.effect)
    || (pc.Finishing? && (pc.mode.AfterEffect? || pc.mode.Mended?))
    || pc.Mending? || pc.MendSyncing?
  }

  function PathKey(pc: Pc): OutcomeKey
    requires EffectPath(pc)
  {
    if pc.Recording? then pc.key else pc.ack.key
  }

  // How many more steps such a call can take: the bytes still to be written, and what comes after.
  function Work(c: LedgerCodec, pc: Pc): nat
    requires EffectPath(pc)
  {
    match pc
    case Recording(key, terminal, _) =>
      var ack := Ack(key, terminal, false);
      1 + AppendWork(c, ack) + AppendWork(c, PersistenceUnknown(ack))
    case Finishing(_, ack, AfterEffect, _) => BytesLeft(c, pc) + 1 + MendWork(c, PersistenceUnknown(ack))
    case Mending(ack) => MendWork(c, ack)
    case MendSyncing(ack) => |Frame(c, TerminalRecord(ack))| + 2
    case Finishing(_, ack, _, _) => BytesLeft(c, pc) + 1
  }

  function MendWork(c: LedgerCodec, ack: Ack): nat {
    |Frame(c, TerminalRecord(ack))| + 3
  }

  function AppendWork(c: LedgerCodec, ack: Ack): nat {
    |Frame(c, TerminalRecord(ack))| + 1 + MendWork(c, PersistenceUnknown(ack))
  }

  function BytesLeft(c: LedgerCodec, pc: Pc): nat {
    if Appending(pc) && pc.done <= |Frame(c, RecordOf(pc))| then |Frame(c, RecordOf(pc))| - pc.done else 0
  }

  // Process `p` has less left to do on its path, or has just answered `succeeded` or a plain
  // `outcome_unknown`.
  ghost predicate Progresses(c: LedgerCodec, s: State, s': State, p: nat) {
    && IsProc(s, p) && EffectPath(s.procs[p].pc) && IsProc(s', p)
    && var key := PathKey(s.procs[p].pc);
    var pc' := s'.procs[p].pc;
    || (EffectPath(pc') && PathKey(pc') == key && Work(c, pc') < Work(c, s.procs[p].pc))
    || (pc'.Idle? && exists ack: Ack ::
          && s'.history == s.history + [Returned(s.procs[p].file, Execute(key), Acknowledged(ack))]
          && ack.key == key && EffectTerminal(ack.terminal))
  }

  // Every step of such a call makes progress, whatever fails in it.
  lemma EffectIsAnswered(c: LedgerCodec, s: State, p: nat, action: Action)
    requires ValidCodec(c) && Inv(c, s) && CanAct(c, s, p, action) && !action.Die?
    requires IsProc(s, p) && EffectPath(s.procs[p].pc)
    ensures Progresses(c, s, DoAct(c, s, p, action), p)
  {
    hide Inv, HostInv, FileInv, Recs, ClaimOf, LastTerminal, Frame, Torn, ValidCodec, Repaired, NotSettled, ClaimedBy;
    Here(c, s, p);
    var pc := s.procs[p].pc;
    if pc.Recording? {
      RecordingProgresses(c, s, p, action);
    } else if pc.Finishing? {
      FinishingProgresses(c, s, p, action);
    } else {
      MendingProgresses(c, s, p, action);
    }
  }

  lemma RecordingProgresses(c: LedgerCodec, s: State, p: nat, action: Action)
    requires CanAct(c, s, p, action) && !action.Die? && IsProc(s, p)
    requires s.procs[p].pc.Recording? && EffectPath(s.procs[p].pc)
    ensures Progresses(c, s, DoAct(c, s, p, action), p)
  {
    hide Frame;
  }

  lemma FinishingProgresses(c: LedgerCodec, s: State, p: nat, action: Action)
    requires CanAct(c, s, p, action) && !action.Die? && IsProc(s, p)
    requires var pc := s.procs[p].pc;
             && pc.Finishing? && EffectPath(pc) && pc.call == Execute(pc.ack.key) && EffectTerminal(pc.ack.terminal)
             && pc.done <= |Frame(c, RecordOf(pc))|
    ensures Progresses(c, s, DoAct(c, s, p, action), p)
  {
    hide Frame;
    var pc, s' := s.procs[p].pc, DoAct(c, s, p, action);
    if s'.procs[p].pc.Idle? {
      assert s'.history == s.history + [Returned(s.procs[p].file, Execute(pc.ack.key), Acknowledged(pc.ack))];
    }
  }

  lemma MendingProgresses(c: LedgerCodec, s: State, p: nat, action: Action)
    requires CanAct(c, s, p, action) && !action.Die? && IsProc(s, p)
    requires var pc := s.procs[p].pc; (pc.Mending? || pc.MendSyncing?) && EffectTerminal(pc.ack.terminal)
    ensures Progresses(c, s, DoAct(c, s, p, action), p)
  {
    hide Frame, Repaired;
    var pc, s' := s.procs[p].pc, DoAct(c, s, p, action);
    if s'.procs[p].pc.Idle? {
      assert s'.history == s.history + [Returned(s.procs[p].file, Execute(pc.ack.key), Acknowledged(pc.ack))];
    }
  }

  // The steps that process `p` takes in a run.
  function Moves(steps: seq<Step>, p: nat): nat {
    if steps == [] then 0 else Moves(steps[1..], p) + if steps[0].Act? && steps[0].p == p then 1 else 0
  }

  // No power failure, and nobody kills process `p`.
  predicate Undisturbed(steps: seq<Step>, p: nat) {
    forall i | 0 <= i < |steps| :: !steps[i].PowerLoss? && steps[i] != Act(p, Die)
  }

  ghost predicate AnsweredSince(h: seq<Event>, h': seq<Event>, f: nat, key: OutcomeKey) {
    exists i, ack: Ack ::
      && |h| <= i < |h'| && h'[i] == Returned(f, Execute(key), Acknowledged(ack))
      && ack.key == key && EffectTerminal(ack.terminal)
  }

  // After `n` steps of process `p` between the two states: answered, or as much nearer to it.
  ghost predicate AnswersBy(c: LedgerCodec, s: State, s': State, p: nat, n: nat)
    requires IsProc(s, p) && EffectPath(s.procs[p].pc)
  {
    var key := PathKey(s.procs[p].pc);
    || AnsweredSince(s.history, s'.history, s.procs[p].file, key)
    || (IsProc(s', p) && EffectPath(s'.procs[p].pc) && PathKey(s'.procs[p].pc) == key
        && Work(c, s'.procs[p].pc) + n <= Work(c, s.procs[p].pc))
  }

  // Once an effect is possible, the call is answered within a number of its own steps that is known
  // beforehand, whatever other processes do and whatever writes, syncs, truncations and host calls fail.
  lemma {:induction false} EffectAnsweredInTime(c: LedgerCodec, s: State, p: nat, steps: seq<Step>)
    requires ValidCodec(c) && Inv(c, s) && Legal(c, s, steps) && Undisturbed(steps, p)
    requires IsProc(s, p) && EffectPath(s.procs[p].pc)
    ensures AnswersBy(c, s, Run(c, s, steps), p, Moves(steps, p))
    decreases |steps|
  {
    hide Inv, ValidCodec, Work, Do, EffectPath, PathKey, AnsweredSince;
    if steps != [] {
      var rest := steps[1..];
      var s1 := Do(c, s, steps[0]);
      var f, key := s.procs[p].file, PathKey(s.procs[p].pc);
      StepKeeps(c, s, steps[0]);
      StepKeepsOthers(c, s, steps[0], p);
      assert Undisturbed(rest, p);
      RunHistory(c, s1, rest);
      if steps[0].Act? && steps[0].p == p {
        OwnStep(c, s, p, steps[0].action);
        if AnsweredSince(s.history, s1.history, f, key) {
          StillAnswered(s.history, s1.history, Run(c, s1, rest).history, f, key);
        } else {
          EffectAnsweredInTime(c, s1, p, rest);
        }
      } else {
        EffectAnsweredInTime(c, s1, p, rest);
      }
      LaterAnswered(s.history, s1.history, Run(c, s1, rest).history, f, key);
    }
  }

  lemma OwnStep(c: LedgerCodec, s: State, p: nat, action: Action)
    requires ValidCodec(c) && Inv(c, s) && CanAct(c, s, p, action) && !action.Die?
    requires IsProc(s, p) && EffectPath(s.procs[p].pc)
    ensures AnswersBy(c, s, Do(c, s, Act(p, action)), p, 1)
  {
    hide Inv, ValidCodec, Work, DoAct, EffectPath, CanAct;
    EffectIsAnswered(c, s, p, action);
    var s' := DoAct(c, s, p, action);
    var key := PathKey(s.procs[p].pc);
    if ack: Ack :| s'.history == s.history + [Returned(s.procs[p].file, Execute(key), Acknowledged(ack))]
                   && ack.key == key && EffectTerminal(ack.terminal) {
      assert s'.history[|s.history|] == Returned(s.procs[p].file, Execute(key), Acknowledged(ack));
    }
  }

  lemma StillAnswered(h: seq<Event>, h1: seq<Event>, h2: seq<Event>, f: nat, key: OutcomeKey)
    requires AnsweredSince(h, h1, f, key) && h1 <= h2
    ensures AnsweredSince(h, h2, f, key)
  {
    var i, ack: Ack :| |h| <= i < |h1| && h1[i] == Returned(f, Execute(key), Acknowledged(ack))
                       && ack.key == key && EffectTerminal(ack.terminal);
    assert h2[i] == h1[i];
  }

  lemma LaterAnswered(h: seq<Event>, h1: seq<Event>, h2: seq<Event>, f: nat, key: OutcomeKey)
    requires h <= h1
    ensures AnsweredSince(h1, h2, f, key) ==> AnsweredSince(h, h2, f, key)
  {
  }

  // A step adds to the history and moves nobody but its own process.
  lemma StepKeepsOthers(c: LedgerCodec, s: State, step: Step, p: nat)
    requires Enabled(c, s, step) && IsProc(s, p) && !step.PowerLoss?
    ensures var s' := Do(c, s, step);
            s.history <= s'.history && IsProc(s', p) && s'.procs[p].file == s.procs[p].file
            && ((step.Act? && step.p == p) || s'.procs[p] == s.procs[p])
  {
    hide DoAct, CrashImage;
    if step.Act? {
      ActKeepsOthers(c, s, step.p, step.action);
    }
  }

  lemma {:induction false} RunHistory(c: LedgerCodec, s: State, steps: seq<Step>)
    requires Legal(c, s, steps)
    ensures s.history <= Run(c, s, steps).history
    decreases |steps|
  {
    hide Do, Enabled;
    if steps != [] {
      StepHistory(c, s, steps[0]);
      RunHistory(c, Do(c, s, steps[0]), steps[1..]);
    }
  }

  lemma StepHistory(c: LedgerCodec, s: State, step: Step)
    requires Enabled(c, s, step)
    ensures s.history <= Do(c, s, step).history
  {
    hide DoAct, CrashImage;
    if step.Act? {
      ActKeepsOthers(c, s, step.p, step.action);
    }
  }

  // The call scans a log in which its operation is claimed with another hash.
  predicate Conflicts(c: LedgerCodec, s: State, p: nat) {
    && IsProc(s, p) && s.procs[p].pc.Scanning? && s.procs[p].pc.call.Execute?
    && var key := s.procs[p].pc.call.key;
    var claim := ClaimOf(Recs(c, DiskOf(s, p).cache), key.operationId);
    claim.Some? && claim.value.key != key
  }

  ghost predicate SameContents(s: State, s': State) {
    && s'.host == s.host && |s'.disks| == |s.disks|
    && forall f | 0 <= f < |s.disks| ::
         s'.disks[f].cache == s.disks[f].cache && s'.disks[f].durable == s.disks[f].durable
  }

  // A request whose hash differs from the claimed one is answered with a conflict, and changes no
  // file and no entry of the host.
  lemma ConflictKeepsLog(c: LedgerCodec, s: State, p: nat, facts: ClaimFacts)
    requires ValidCodec(c) && Inv(c, s) && Conflicts(c, s, p)
    ensures var s' := DoLook(c, s, p, facts);
            && s'.history == s.history + [Returned(s.procs[p].file, s.procs[p].pc.call, Error(Conflict))]
            && SameContents(s, s')
  {
    hide Inv, HostInv, Recs, ClaimOf, LastTerminal, ReadRecords;
    Here(c, s, p);
    ReadBack(c, DiskOf(s, p).cache);
  }

  // A call that finds a claim without a terminal, or with an interrupted one, of a key that the host
  // has recorded has a run of four steps to the host's terminal, synced and answered.
  lemma CanHeal(c: LedgerCodec, s: State, p: nat, key: OutcomeKey, facts: ClaimFacts, receipt: Receipt)
    requires ValidCodec(c) && Inv(c, s) && IsProc(s, p) && s.procs[p].pc.Scanning?
    requires var call := s.procs[p].pc.call; call == Execute(key) || call == Status(key.operationId)
    requires ClaimedBy(Recs(c, DiskOf(s, p).cache), key)
    requires var t := LastTerminal(Recs(c, DiskOf(s, p).cache), key.operationId);
             t.Some? ==> Interrupted(t.value.terminal)
    requires s.hosted && key in s.host && s.host[key].Some?
    ensures exists n: nat ::
              var steps := [Act(p, Look(facts)), Act(p, Ask(receipt)), Act(p, Write(n)), Act(p, Sync)];
              Legal(c, s, steps) && Healed(c, s, Run(c, s, steps), p, key)
  {
    hide HostInv, FileInv, Recs, ClaimOf, LastTerminal, ReadRecords, PcInv, GoodHistory, Healed, Legal, Run;
    Here(c, s, p);
    LookHeals(c, s, p, key, facts);
    LookStep(c, s, p, facts);
    var s1 := DoAct(c, s, p, Look(facts));
    AskStep(c, s1, p, receipt);
    var s2 := DoAct(c, s1, p, Ask(receipt));
    HealKey(c, s1, p);
    var n := |Frame(c, RecordOf(s2.procs[p].pc))|;
    FrameNonEmpty(c, RecordOf(s2.procs[p].pc));
    WriteStep(c, s2, p, n);
    var s3 := DoAct(c, s2, p, Write(n));
    WriteHeals(c, s2, p);
    FinishHeals(c, s, s3, p, key);
    FourSteps(c, s, Act(p, Look(facts)), Act(p, Ask(receipt)), Act(p, Write(n)), Act(p, Sync));
  }

  lemma FourSteps(c: LedgerCodec, s: State, a1: Step, a2: Step, a3: Step, a4: Step)
    requires Enabled(c, s, a1) && Enabled(c, Do(c, s, a1), a2)
    requires var s2 := Do(c, Do(c, s, a1), a2); Enabled(c, s2, a3) && Enabled(c, Do(c, s2, a3), a4)
    ensures Legal(c, s, [a1, a2, a3, a4])
    ensures Run(c, s, [a1, a2, a3, a4]) == Do(c, Do(c, Do(c, Do(c, s, a1), a2), a3), a4)
  {
    hide Do, Enabled, Run, Legal;
    var s1 := Do(c, s, a1);
    var s2 := Do(c, s1, a2);
    var s3 := Do(c, s2, a3);
    assert [a1, a2, a3, a4] == [a1] + [a2, a3, a4];
    assert [a2, a3, a4] == [a2] + [a3, a4];
    assert [a3, a4] == [a3] + [a4];
    assert [a4] == [a4] + [];
    NoSteps(c, Do(c, s3, a4));
    StepThen(c, s3, a4, []);
    StepThen(c, s2, a3, [a4]);
    StepThen(c, s1, a2, [a3, a4]);
    StepThen(c, s, a1, [a2, a3, a4]);
  }

  lemma NoSteps(c: LedgerCodec, s: State)
    ensures Legal(c, s, []) && Run(c, s, []) == s
  {
  }

  lemma StepThen(c: LedgerCodec, s: State, a: Step, rest: seq<Step>)
    requires Enabled(c, s, a) && Legal(c, Do(c, s, a), rest)
    ensures Legal(c, s, [a] + rest) && Run(c, s, [a] + rest) == Run(c, Do(c, s, a), rest)
  {
    hide Do, Enabled;
    assert ([a] + rest)[1..] == rest;
  }

  // The call has answered with the host's terminal, which is now the file's last synced word on it.
  ghost predicate Healed(c: LedgerCodec, s: State, s': State, p: nat, key: OutcomeKey)
    requires IsProc(s, p) && s.procs[p].pc.Scanning? && key in s.host
  {
    && IsProc(s', p) && s'.procs[p].pc.Idle? && s'.host == s.host && s'.history != []
    && s'.history[|s'.history| - 1].Returned?
    && s'.history[|s'.history| - 1].call == s.procs[p].pc.call
    && s'.history[|s'.history| - 1].answer.Acknowledged?
    && Some(s'.history[|s'.history| - 1].answer.ack.terminal) == s.host[key]
    && (var t := LastTerminal(Recs(c, DiskOf(s', p).durable), key.operationId);
        t.Some? && t.value.key == key && Some(t.value.terminal) == s.host[key] && !Interrupted(t.value.terminal))
    && DiskOf(s', p).durable == DiskOf(s', p).cache
  }

  lemma LookHeals(c: LedgerCodec, s: State, p: nat, key: OutcomeKey, facts: ClaimFacts)
    requires ValidCodec(c) && Inv(c, s) && IsProc(s, p) && s.procs[p].pc.Scanning?
    requires var call := s.procs[p].pc.call; call == Execute(key) || call == Status(key.operationId)
    requires ClaimedBy(Recs(c, DiskOf(s, p).cache), key)
    requires var t := LastTerminal(Recs(c, DiskOf(s, p).cache), key.operationId);
             t.Some? ==> Interrupted(t.value.terminal)
    ensures CanAct(c, s, p, Look(facts))
    ensures var s1 := DoAct(c, s, p, Look(facts));
            exists why: Why :: !why.Fresh? && s1 == Goto(s, p, Asking(s.procs[p].pc.call, key, why))
  {
    Here(c, s, p);
    LookIs(c, s, p, facts);
    hide Inv, HostInv, FileInv, PcInv, LockInv, GoodHistory, Recs, ClaimOf, LastTerminal, DoLook, ReadRecords, DoAct;
    var call, rs := s.procs[p].pc.call, Recs(c, DiskOf(s, p).cache);
    Lookup(c, DiskOf(s, p), s.history, s.procs[p].file, key.operationId);
    var t := LastTerminal(rs, key.operationId);
    var why := if t.Some? then Heal(t.value) else Recover;
    assert DoAct(c, s, p, Look(facts)) == Goto(s, p, Asking(call, key, why));
  }

  lemma WriteHeals(c: LedgerCodec, s: State, p: nat)
    requires IsProc(s, p) && s.procs[p].pc.Finishing? && s.procs[p].pc.done == 0
    requires CanAct(c, s, p, Write(|Frame(c, RecordOf(s.procs[p].pc))|))
    ensures var n := |Frame(c, RecordOf(s.procs[p].pc))|;
            var s' := DoAct(c, s, p, Write(n));
            IsProc(s', p) && s'.procs[p].pc == s.procs[p].pc.(done := n) && s'.host == s.host
  {
  }

  lemma FinishHeals(c: LedgerCodec, s: State, s3: State, p: nat, key: OutcomeKey)
    requires Inv(c, s) && IsProc(s, p) && s.procs[p].pc.Scanning?
    requires key in s.host && s.host[key].Some?
    requires Inv(c, s3) && IsProc(s3, p) && s3.host == s.host
    requires s3.procs[p].pc.Finishing? && s3.procs[p].pc.call == s.procs[p].pc.call
    requires s3.procs[p].pc.done == |Frame(c, RecordOf(s3.procs[p].pc))|
    requires s3.procs[p].pc.ack.key == key && Some(s3.procs[p].pc.ack.terminal) == s.host[key]
    ensures CanAct(c, s3, p, Sync) && Healed(c, s, DoAct(c, s3, p, Sync), p, key)
  {
    hide Inv, HostInv, FileInv, Recs, LastTerminal, GoodHistory, Frame, PcInv;
    NotInterrupted(c, s, key);
    Here(c, s3, p);
    WrittenLast(c, DiskOf(s3, p), s3.history, s3.procs[p].file, s3.procs[p].pc);
  }

  lemma WrittenLast(c: LedgerCodec, d: Disk, h: seq<Event>, f: nat, pc: Pc)
    requires PcInv(c, d, h, f, pc) && pc.Finishing? && pc.done == |Frame(c, RecordOf(pc))|
    ensures LastTerminal(Recs(c, d.cache), pc.ack.key.operationId) == Some(pc.ack)
  {
  }

  lemma NotInterrupted(c: LedgerCodec, s: State, key: OutcomeKey)
    requires Inv(c, s) && key in s.host && s.host[key].Some?
    ensures !Interrupted(s.host[key].value)
  {
    hide FileInv, PcInv, GoodHistory, LockInv;
  }
}
