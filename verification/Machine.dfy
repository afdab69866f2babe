// The execution protocol as a state machine: any number of processes run `execute` and `status`
// on any number of local ledger files that may share one host outcome ledger. Every write,
// sync, host call and dispatch is a step of its own; any input or output can fail, a process can be
// killed and the machine can lose power between any two steps.
module Machine {
  import opened Wrappers
  import opened Jsonl
  import opened Types
  import opened Ledger

  type LedgerCodec = Codec<LedgerRecord>

  // ----- State -----

  datatype Call = Execute(key: OutcomeKey) | Status(operationId: string)

  function OpOf(call: Call): string {
    match call
    case Execute(key) => key.operationId
    case Status(op) => op
  }

  datatype Reason =
    | Io
    | HostLedger
    | Conflict
    | InvalidLedger
    | CorruptLedger
    | LockWait
    | InvalidRequest
    | AuthorityDenied

  datatype Answer = NotFound | Acknowledged(ack: Ack) | Error(reason: Reason)

  // Why the host ledger is asked: a new claim, a claim without a terminal, or an interrupted terminal.
  datatype Why = Fresh | Recover | Heal(ack: Ack)

  datatype FinishMode = Plain | Healed | AfterEffect | Mended

  // Where a process stands. `done` counts the bytes of the record already written.
  datatype Pc =
    | Idle
    | Waiting(call: Call)
    | Repairing(call: Call)
    | Syncing(call: Call)
    | Scanning(call: Call)
    | Claiming(key: OutcomeKey, facts: ClaimFacts, done: nat)
    | Asking(call: Call, key: OutcomeKey, why: Why)
    | Ready(key: OutcomeKey)
    | Dispatching(key: OutcomeKey)
    | Recording(key: OutcomeKey, terminal: Terminal, effect: bool)
    | Finishing(call: Call, ack: Ack, mode: FinishMode, done: nat)
    | Mending(ack: Ack)
    | MendSyncing(ack: Ack)

  datatype Disk = Disk(durable: seq<byte>, cache: seq<byte>, holder: Option<nat>)

  datatype Proc = Proc(file: nat, pc: Pc)

  datatype Event =
    | Dispatched(file: nat, key: OutcomeKey)
    | Disproved(file: nat, key: OutcomeKey)  // the executor certified that its dispatch had no effect
    | Granted(file: nat, key: OutcomeKey, usable: bool)
    | Stored(key: OutcomeKey, terminal: Terminal)
    | Returned(file: nat, call: Call, answer: Answer)

  // With `hosted`, all engines share one host ledger; without it they use the null ledger.
  datatype State = State(
    hosted: bool,
    disks: seq<Disk>,
    procs: seq<Proc>,
    host: map<OutcomeKey, Option<Terminal>>,
    history: seq<Event>)

  predicate Init(s: State) {
    && s.host == map[] && s.history == []
    && (forall f | 0 <= f < |s.disks| :: s.disks[f] == Disk([], [], None))
    && (forall p | 0 <= p < |s.procs| :: s.procs[p].pc == Idle && s.procs[p].file < |s.disks|)
  }

  // ----- Steps -----

  // What one process does next.
  datatype Action =
    | Start(call: Call)
    | Lock
    | GiveUp
    | Inspect
    | Sync
    | Look(facts: ClaimFacts)
    | Write(n: nat)
    | Ask(receipt: Receipt)
    | AskFails(applied: bool)
    | Refuse(terminal: Terminal)
    | Dispatch
    | Settle(terminal: Terminal, effect: bool)
    | Record
    | RecordFails(applied: bool)
    | Fail
    | Die

  datatype Step =
    | Act(p: nat, action: Action)
    | PowerLoss(images: seq<seq<byte>>)
    | WriteBack(f: nat, image: seq<byte>)

  predicate IsProc(s: State, p: nat) {
    p < |s.procs| && s.procs[p].file < |s.disks|
  }

  function DiskOf(s: State, p: nat): Disk
    requires IsProc(s, p)
  {
    s.disks[s.procs[p].file]
  }

  function Goto(s: State, p: nat, pc: Pc): State
    requires IsProc(s, p)
  {
    s.(procs := s.procs[p := s.procs[p].(pc := pc)])
  }

  function SetDisk(s: State, p: nat, d: Disk): State
    requires IsProc(s, p)
  {
    s.(disks := s.disks[s.procs[p].file := d])
  }

  function Note(s: State, e: Event): State {
    s.(history := s.history + [e])
  }

  function Release(d: Disk, p: nat): Disk {
    if d.holder == Some(p) then d.(holder := None) else d
  }

  // The call ends: the lock is dropped and the caller gets its answer.
  function Reply(s: State, p: nat, call: Call, answer: Answer): State
    requires IsProc(s, p)
  {
    var f := s.procs[p].file;
    Note(Goto(SetDisk(s, p, Release(s.disks[f], p)), p, Idle), Returned(f, call, answer))
  }

  // `execute` marks what it replays; `status` returns the stored acknowledgement as it is.
  function ReplayOf(call: Call, ack: Ack): Ack {
    if call.Execute? then ack.(replayed := true) else ack
  }

  function RecordOf(pc: Pc): LedgerRecord
    requires Appending(pc)
  {
    match pc
    case Claiming(key, facts, _) => ClaimRecord(key, facts)
    case Finishing(_, ack, _, _) => TerminalRecord(ack)
  }

  function CallOf(pc: Pc): Call
    requires !pc.Idle?
  {
    match pc
    case Waiting(call) => call
    case Repairing(call) => call
    case Syncing(call) => call
    case Scanning(call) => call
    case Claiming(key, _, _) => Execute(key)
    case Asking(call, _, _) => call
    case Ready(key) => Execute(key)
    case Dispatching(key) => Execute(key)
    case Recording(key, _, _) => Execute(key)
    case Finishing(call, _, _, _) => call
    case Mending(ack) => Execute(ack.key)
    case MendSyncing(ack) => Execute(ack.key)
  }

  // The pcs between taking the lock and dropping it.
  predicate Holds(pc: Pc) {
    !pc.Idle? && !pc.Waiting?
  }

  // The pcs at which a host grant is being used.
  predicate UsesGrant(pc: Pc) {
    pc.Ready? || pc.Dispatching? || pc.Recording?
  }

  predicate Appending(pc: Pc) {
    pc.Claiming? || pc.Finishing?
  }

  // The pcs that read, write, truncate or sync the file next.
  predicate DoesIo(pc: Pc) {
    pc.Repairing? || pc.Syncing? || pc.Scanning? || Appending(pc) || pc.Mending? || pc.MendSyncing?
  }

  predicate CanAct(c: LedgerCodec, s: State, p: nat, action: Action) {
    IsProc(s, p) &&
    var pc := s.procs[p].pc;
    match action
    case Start(_) => pc.Idle?
    case Lock => pc.Waiting? && s.disks[s.procs[p].file].holder.None?
    case GiveUp => pc.Waiting?
    case Inspect => pc.Repairing? || pc.Mending?
    case Sync => pc.Syncing? || pc.MendSyncing? || (Appending(pc) && pc.done == |Frame(c, RecordOf(pc))|)
    case Look(_) => pc.Scanning?
    case Write(n) => Appending(pc) && n > 0 && pc.done + n <= |Frame(c, RecordOf(pc))|
    case Ask(_) => pc.Asking?
    case AskFails(_) => pc.Asking? && s.hosted
    case Refuse(terminal) => pc.Ready? && NoEffectTerminal(terminal)
    case Dispatch => pc.Ready?
    case Settle(terminal, effect) =>
      pc.Dispatching? && if effect then EffectTerminal(terminal) else NoEffectTerminal(terminal)
    case Record => pc.Recording?
    case RecordFails(_) => pc.Recording? && s.hosted
    case Fail => DoesIo(pc)
    case Die => !pc.Idle?
  }

  ghost predicate Enabled(c: LedgerCodec, s: State, step: Step) {
    match step
    case Act(p, action) => CanAct(c, s, p, action)
    case PowerLoss(images) =>
      |images| == |s.disks| &&
      forall f | 0 <= f < |images| :: CrashImage(s.disks[f].durable, s.disks[f].cache, images[f])
    case WriteBack(f, image) =>
      f < |s.disks| && CrashImage(s.disks[f].durable, s.disks[f].cache, image)
  }

  ghost function Do(c: LedgerCodec, s: State, step: Step): State
    requires Enabled(c, s, step)
  {
    match step
    case Act(p, action) => DoAct(c, s, p, action)
    case PowerLoss(images) =>
      s.(disks := seq(|s.disks|, f requires 0 <= f < |images| => Disk(images[f], images[f], None)),
         procs := seq(|s.procs|, p requires 0 <= p < |s.procs| => s.procs[p].(pc := Idle)))
    case WriteBack(f, image) => s.(disks := s.disks[f := s.disks[f].(durable := image)])
  }

  function DoAct(c: LedgerCodec, s: State, p: nat, action: Action): State
    requires CanAct(c, s, p, action)
  {
    var pc := s.procs[p].pc;
    match action
    case Start(call) => Goto(s, p, Waiting(call))
    case Lock => Goto(SetDisk(s, p, DiskOf(s, p).(holder := Some(p))), p, Repairing(pc.call))
    case GiveUp => Reply(s, p, pc.call, Error(LockWait))
    case Inspect => DoInspect(c, s, p)
    case Sync => DoSync(s, p)
    case Look(facts) => DoLook(c, s, p, facts)
    case Write(n) => DoWrite(c, s, p, n)
    case Ask(receipt) => DoAsk(s, p, receipt)
    case AskFails(applied) => DoAskFails(s, p, applied)
    case Refuse(terminal) => Goto(s, p, Recording(pc.key, terminal, false))
    case Dispatch => Note(Goto(s, p, Dispatching(pc.key)), Dispatched(s.procs[p].file, pc.key))
    case Settle(terminal, effect) =>
      var s' := Goto(s, p, Recording(pc.key, terminal, effect));
      if effect then s' else Note(s', Disproved(s.procs[p].file, pc.key))
    case Record => DoRecord(s, p)
    case RecordFails(applied) => DoRecordFails(s, p, applied)
    case Fail => DoFail(s, p)
    case Die => Goto(SetDisk(s, p, Release(DiskOf(s, p), p)), p, Idle)
  }

  // The tail repair, at the start of a call and again after a failed terminal append.
  function DoInspect(c: LedgerCodec, s: State, p: nat): State
    requires IsProc(s, p) && (s.procs[p].pc.Repairing? || s.procs[p].pc.Mending?)
  {
    var d := DiskOf(s, p);
    match Repaired(c, d.cache)
    case Failure(_) =>
      (match s.procs[p].pc
       case Repairing(call) => Reply(s, p, call, Error(InvalidLedger))
       case Mending(ack) => Reply(s, p, Execute(ack.key), Acknowledged(ack)))
    case Success(whole) =>
      var cut := whole != d.cache;
      var s' := SetDisk(s, p, d.(cache := whole));
      match s.procs[p].pc
      case Repairing(call) => Goto(s', p, if cut then Syncing(call) else Scanning(call))
      case Mending(ack) =>
        Goto(s', p, if cut then MendSyncing(ack) else Finishing(Execute(ack.key), ack, Mended, 0))
  }

  function AckOf(call: Call, ack: Ack, mode: FinishMode): Ack {
    if mode.Healed? then ReplayOf(call, ack) else ack
  }

  // A successful sync makes everything written so far durable.
  function DoSync(s: State, p: nat): State
    requires IsProc(s, p)
    requires var pc := s.procs[p].pc; pc.Syncing? || pc.MendSyncing? || pc.Claiming? || pc.Finishing?
  {
    var d := DiskOf(s, p);
    var s' := SetDisk(s, p, d.(durable := d.cache));
    match s.procs[p].pc
    case Syncing(call) => Goto(s', p, Scanning(call))
    case MendSyncing(ack) => Goto(s', p, Finishing(Execute(ack.key), ack, Mended, 0))
    case Claiming(key, _, _) => Goto(s', p, Asking(Execute(key), key, Fresh))
    case Finishing(call, ack, mode, _) => Reply(s', p, call, Acknowledged(AckOf(call, ack, mode)))
  }

  // Where a call goes next, or the answer it ends with.
  datatype Turn = Goes(pc: Pc) | Ends(answer: Answer)

  function Turned(s: State, p: nat, call: Call, turn: Turn): State
    requires IsProc(s, p)
  {
    match turn
    case Goes(pc) => Goto(s, p, pc)
    case Ends(answer) => Reply(s, p, call, answer)
  }

  // The scan of the records.
  function DoLook(c: LedgerCodec, s: State, p: nat, facts: ClaimFacts): State
    requires IsProc(s, p) && s.procs[p].pc.Scanning?
  {
    var call := s.procs[p].pc.call;
    Turned(s, p, call, match ReadRecords(c, DiskOf(s, p).cache)
                       case Failure(_) => Ends(Error(CorruptLedger))
                       case Success(rs) => LookTurn(rs, call, facts))
  }

  // Where each call goes from what the scan finds.
  function LookTurn(rs: seq<LedgerRecord>, call: Call, facts: ClaimFacts): Turn {
    var claim := ClaimOf(rs, OpOf(call));
    var terminal := LastTerminal(rs, OpOf(call));
    match call
    case Execute(key) =>
      if claim.None? then Goes(Claiming(key, facts, 0))
      else if claim.value.key.actionHash != key.actionHash then Ends(Error(Conflict))
      else if terminal.Some? then ReplayTurn(call, terminal.value)
      else Goes(Asking(call, key, Recover))
    case Status(_) =>
      if terminal.Some? then ReplayTurn(call, terminal.value)
      else if claim.None? then Ends(NotFound)
      else Goes(Asking(call, claim.value.key, Recover))
  }

  function ReplayTurn(call: Call, ack: Ack): Turn {
    if Interrupted(ack.terminal) then Goes(Asking(call, ack.key, Heal(ack)))
    else Ends(Acknowledged(ReplayOf(call, ack)))
  }

  // The next bytes of the record being appended reach the file.
  function DoWrite(c: LedgerCodec, s: State, p: nat, n: nat): State
    requires IsProc(s, p) && Appending(s.procs[p].pc)
    requires s.procs[p].pc.done + n <= |Frame(c, RecordOf(s.procs[p].pc))|
  {
    var pc := s.procs[p].pc;
    var d := DiskOf(s, p);
    var s' := SetDisk(s, p, d.(cache := d.cache + Frame(c, RecordOf(pc))[pc.done..pc.done + n]));
    Goto(s', p, pc.(done := pc.done + n))
  }

  datatype HostAnswer = Grant | Recorded(terminal: Terminal) | NeverRecorded

  // `begin` of the host ledger: its answer and its new entries.
  function HostBegin(hosted: bool, host: map<OutcomeKey, Option<Terminal>>, key: OutcomeKey):
    (HostAnswer, map<OutcomeKey, Option<Terminal>>) {
    if !hosted then (Grant, host)
    else if key !in host then (Grant, host[key := None])
    else if host[key].None? then (NeverRecorded, host)
    else (Recorded(host[key].value), host)
  }

  // The event of a grant, if this call of `begin` gives one.
  function GrantEvents(s: State, p: nat, key: OutcomeKey, usable: bool): seq<Event>
    requires IsProc(s, p)
  {
    if s.hosted && key !in s.host then [Granted(s.procs[p].file, key, usable)] else []
  }

  function DoAsk(s: State, p: nat, receipt: Receipt): State
    requires IsProc(s, p) && s.procs[p].pc.Asking?
  {
    var Asking(call, key, why) := s.procs[p].pc;
    var (answer, host) := HostBegin(s.hosted, s.host, key);
    var s' := s.(host := host, history := s.history + GrantEvents(s, p, key, why.Fresh?));
    Turned(s', p, call, AskTurn(answer, call, key, why, receipt))
  }

  // Where each call goes from the host's answer.
  function AskTurn(answer: HostAnswer, call: Call, key: OutcomeKey, why: Why, receipt: Receipt): Turn {
    match answer
    case Recorded(terminal) =>
      if why.Heal? then Goes(Finishing(call, why.ack.(terminal := terminal), Healed, 0))
      else Goes(Finishing(call, Ack(key, terminal, false), Plain, 0))
    case _ =>
      if why.Heal? then Ends(Acknowledged(ReplayOf(call, why.ack)))
      else if why.Fresh? && answer.Grant? then Goes(Ready(key))
      else Goes(Finishing(call, Ack(key, OutcomeUnknown(receipt, InterruptedOutcome), false), Plain, 0))
  }

  // A host call that fails may still have taken effect.
  function DoAskFails(s: State, p: nat, applied: bool): State
    requires IsProc(s, p) && s.procs[p].pc.Asking?
  {
    var Asking(call, key, _) := s.procs[p].pc;
    var s' := if applied
              then s.(host := HostBegin(s.hosted, s.host, key).1, history := s.history + GrantEvents(s, p, key, false))
              else s;
    Reply(s', p, call, Error(HostLedger))
  }

  function Store(s: State, key: OutcomeKey, terminal: Terminal): State {
    if s.hosted then Note(s.(host := s.host[key := Some(terminal)]), Stored(key, terminal)) else s
  }

  function DoRecord(s: State, p: nat): State
    requires IsProc(s, p) && s.procs[p].pc.Recording?
  {
    var Recording(key, terminal, effect) := s.procs[p].pc;
    Goto(Store(s, key, terminal), p,
         Finishing(Execute(key), Ack(key, terminal, false), if effect then AfterEffect else Plain, 0))
  }

  function DoRecordFails(s: State, p: nat, applied: bool): State
    requires IsProc(s, p) && s.procs[p].pc.Recording?
  {
    var Recording(key, terminal, effect) := s.procs[p].pc;
    var s' := if applied then Store(s, key, terminal) else s;
    if effect
    then Goto(s', p, Finishing(Execute(key), PersistenceUnknown(Ack(key, terminal, false)), AfterEffect, 0))
    else Reply(s', p, Execute(key), Error(HostLedger))
  }

  // A failed read, write, truncation or sync.
  function DoFail(s: State, p: nat): State
    requires IsProc(s, p)
    requires DoesIo(s.procs[p].pc)
  {
    var pc := s.procs[p].pc;
    if pc.Finishing? && pc.mode.AfterEffect? then Goto(s, p, Mending(PersistenceUnknown(pc.ack)))
    else if (pc.Finishing? && pc.mode.Mended?) || pc.Mending? || pc.MendSyncing?
    then Reply(s, p, CallOf(pc), Acknowledged(pc.ack))
    else Reply(s, p, CallOf(pc), Error(Io))
  }

  // ----- Runs -----

  ghost predicate Legal(c: LedgerCodec, s: State, steps: seq<Step>)
    decreases |steps|
  {
    steps == [] || (Enabled(c, s, steps[0]) && Legal(c, Do(c, s, steps[0]), steps[1..]))
  }

  ghost function Run(c: LedgerCodec, s: State, steps: seq<Step>): State
    requires Legal(c, s, steps)
    decreases |steps|
  {
    if steps == [] then s else Run(c, Do(c, s, steps[0]), steps[1..])
  }

  // Every state some run reaches.
  ghost predicate Reachable(c: LedgerCodec, s: State) {
    exists s0, steps :: Init(s0) && Legal(c, s0, steps) && Run(c, s0, steps) == s
  }
}
