# Praefectus, modelled and proved in Dafny

Praefectus executes signed desktop and browser actions on behalf of a host. Its promise is durable
at-most-once dispatch: every operation is claimed in an append-only file before anything happens, a
host ledger may grant or refuse it, and whatever crashes or fails afterwards, the operation is never
dispatched again and a possible effect is never denied. This project models that protocol down to the
bytes of the file, together with the tree searches that produce the targets of actions, the browser
and keyboard dispatchers that must classify their effects, and the JSON algorithms behind request
hashes and limits.

## How the model is organised

| modules | content |
|---|---|
| `Jsonl`, `Ledger` | the file as bytes: lines, torn tails, what a power failure can leave; the log as records |
| `Machine`, `MachineInv`, `MachineSteps` | any number of processes, files and crashes as a state machine, its invariant, and every step's proof |
| `MachineMoves` | what one action can do to its file, to the operation a process works on, and to the answers given |
| `Guarantees`, `Denials`, `Healing`, `Limits` | what holds of every run, of all files together, of unhindered calls, and runs that show where a guarantee ends |
| `RecordCodec` | a record encoding that meets what is assumed of encodings |
| `OperationLedgers`, `Engines` | `execute`, `status` and both ledgers as imperative code over files that can fail |
| `Decision` | which actions may be dispatched, and what a dispatch ends with |
| `Levels`, `AtspiSnapshot`, `AtspiFocus` | breadth-first searches of an accessibility graph |
| `Ancestry`, `CdpTree`, `Forest` | parent compression of the browser's tree, and the forest validator |
| `CdpDispatch`, `Typing` | the browser dispatchers, chunked typing and repeated key presses |
| `Json` | canonical JSON and the explicit-stack size limiter |
| `Types`, `Wrappers` | shared value types |

**Storage.** A file has a synced content and a current content. Every chunk of an append is a step of
its own; a power failure leaves any content that keeps what both agree on and is a prefix of one of
them, the system may write back at any time, and any read, write, truncation or sync may fail. The
lock disappears with its process. The host ledger is durable and its calls may fail with or without
having taken effect, which allows more than the in-memory reference ledger does. One flag says
whether all engines share such a ledger or all use the null ledger. Ledger files start empty.

**Records.** The encoding of a record is a parameter. All that is assumed of it is that a record reads
back as itself, that its text is never blank, and that it contains no raw newline, since JSON escapes
control characters (section 7 of RFC 8259). `RecordCodec` shows that such encodings exist.

**Two forms of the protocol.** `Machine` interleaves the steps of all processes. The class
`Engines.Engine` is the straight-line code of one process; a ghost copy of the machine's state
accompanies each call, and each piece of code is shown to be a sequence of the machine's steps. So
every guarantee of whole runs holds for these methods too. Which file operations and host calls fail is
an arbitrary input, `OperationLedgers.Faults`; where none fails, the answer of a call is determined. The answers of the executor and the clock
during one attempt are an arbitrary record, `Decision.Attempt`; the verdict on a request's authority, and
on those of its parts that the model leaves out, is another, `Decision.Screening`.

**Hashes.** SHA-256 is a function argument; where a statement needs it, the absence of a collision
with the value at hand is a stated condition.

**The browser.** Replies, the boundary and the process check are arbitrary functions of the moment at
which they are asked for. `CdpDispatch.HonestPage` is the only assumption about the page, taken from
the functions it is sent: queries do not act, and an effect function that returns normally says
truthfully whether it acted.

**The parent loop of the browser's tree.** Protocol messages choose the parent links, and the loop that
looks for the nearest selected ancestor does not guard against cycles of unselected nodes.
`CdpTree.ParserCanRunForever` gives an input that keeps it running, `CdpTree.LoopEndsExactly` and
`CdpTree.ParserEndsExactly` the exact condition under which it ends, and everything else about
`CdpTree.ParseAxTree` is proved under that condition.

**Where code and documentation differ.** The repository's README calls per-process delivery
background-capable on a shared desktop; `background_capability_is_authorized` admits only
target-addressed actions there (src/lib.rs:4939-4942). The model follows the code.

## Model

| member | source | states |
|---|---|---|
| Guarantees.AtMostOnce | src/lib.rs:4430-4477 | in every reachable state a ledger file has at most one dispatch per operation ID, whatever the hashes and however many crashes |
| Guarantees.AtMostOnceShared | src/lib.rs:4218-4254 | with a shared host ledger, at most one dispatch per operation and hash over all ledger files |
| Guarantees.DispatchedIsClaimed | src/lib.rs:6702-6711 | whatever has been dispatched has its claim among the synced records |
| Guarantees.LogIsReadable | src/lib.rs:6968-7010 | every reachable file is framed records plus at most one unterminated tail; the repair keeps exactly the records and the reader returns exactly them; synced records are a prefix of the current ones |
| Guarantees.AppendsStartClean | src/lib.rs:6857-6877 | every append starts on an empty or newline-terminated file |
| Guarantees.NeverDamaged | src/lib.rs:6637-6644 | no call ever ends with the invalid-record or corrupt-record error |
| Guarantees.NeverDenied | src/lib.rs:4771-4783 | after a dispatch whose effect was not ruled out, every later answer about the operation is succeeded or outcome_unknown, over all later crashes and calls |
| Denials.NeverDeniedAnywhere | src/lib.rs:4218-4254 | with a shared host ledger, after a dispatch whose effect was not ruled out, no acknowledgement of the same key by any ledger file denies the effect |
| Denials.ReachableDenials | src/lib.rs:4805-4814 | in every reachable state with a shared host ledger, a denial that is stored in any file, or carried by any process, is the one that the host has recorded for the key |
| Guarantees.StableAnswer | src/lib.rs:4434-4445 | a fresh answer other than outcome_unknown is the terminal of every later replay and status |
| Guarantees.AnswersMatch | src/lib.rs:6682-6701 | an acknowledgement after a dispatch carries the dispatched operation and hash; execute never acknowledges another hash |
| Guarantees.NoInventedSuccess | src/lib.rs:4434-4498 | every reported success was dispatched before, by this file or under the host's usable grant |
| Guarantees.HostMonotone | src/lib.rs:4230-4254 | over any run host entries only go from absent to granted to recorded, and a recorded terminal never changes |
| Guarantees.RecordedOnce | src/lib.rs:4805-4814 | the engine records at most one terminal per key, never an interrupted one, and the host still holds it |
| Guarantees.RecoveryGrantUnused | src/lib.rs:4446-4475 | a grant obtained while recovering is never accompanied by a dispatch of its key |
| Guarantees.EffectIsAnswered | src/lib.rs:6722-6731 | once an effect is possible, every step of the call, failed or not, leaves less to do or acknowledges succeeded or a plain outcome_unknown |
| Guarantees.EffectAnsweredInTime | src/lib.rs:4771-4783 | over any interleaving without a power failure or a kill, such a call is answered that way within a number of its own steps known beforehand |
| Guarantees.ConflictKeepsLog | src/lib.rs:6690-6692 | a request whose hash differs from the claimed one ends in a conflict and changes no file and no host entry |
| Guarantees.CanHeal | src/lib.rs:6733-6754 | a claim without terminal, or with an interrupted one, whose key the host has recorded: four steps of the next execute or status can append the host's terminal durably and answer with it |
| Healing.HealStep | src/lib.rs:6733-6754 | every step of such a call that meets no failure leaves less to do, or answers with the host's terminal, which is then the last word of the file |
| Healing.HealsToHost | src/lib.rs:6733-6754 | over every run without a power failure, in which the call is neither killed nor meets a failure, whatever all others do: the call answers with the host's terminal within a number of its own steps known beforehand, and every later answer about the operation is this terminal |
| Healing.LastWordStays | src/lib.rs:6756-6830 | once the last synced terminal of an operation is not an interrupted one and the lock is free, every acknowledgement of the operation by this file repeats it, whichever call asks, over all later calls, failures, kills and power failures |
| Limits.TwoFilesDispatchTwice | src/lib.rs:4204-4216 | the shared host ledger is needed: with the null ledger two files both dispatch one operation |
| Limits.UnknownCanChange | src/lib.rs:6722-6731 | the exception in the stability guarantee is needed: a returned outcome_unknown can be followed by a succeeded |
| MachineSteps.StepKeeps | src/lib.rs:4416-4784 | every step of every process, every failure, every write-back and every power failure keeps the invariant |
| MachineSteps.InspectStep | src/lib.rs:6968-7010 | the tail repair keeps the invariant |
| MachineSteps.LookStep | src/lib.rs:6646-6712 | every branch taken from the scan keeps the invariant |
| MachineSteps.WriteStep | src/lib.rs:6870-6871 | any chunk of an append keeps the invariant |
| MachineSteps.AskStep | src/lib.rs:4461-4498 | every use of the host's answer keeps the invariant |
| MachineSteps.DispatchStep | src/lib.rs:4622-4629 | the dispatch keeps the invariant |
| MachineSteps.RecordFailsStep | src/lib.rs:4771-4780 | a host ledger that fails to record keeps the invariant |
| MachineSteps.FailStep | src/lib.rs:6722-6731 | a failed read, write, truncation or sync keeps the invariant |
| MachineSteps.PowerLossStep | src/lib.rs:6857-6877 | losing power between any two steps keeps the invariant |
| MachineSteps.Lookup | src/lib.rs:6652-6701 | what a scan finds agrees with the history: earlier dispatches are claimed and earlier settled answers are the last terminal |
| MachineSteps.ReachableInv | src/lib.rs:4416-4784 | the invariant holds in every reachable state |
| MachineMoves.ActRecords | src/lib.rs:6857-6877 | one action adds at most the record being appended to the file, and its synced part stays or catches up |
| MachineMoves.ActTopic | src/lib.rs:6646-6720 | a process takes up an operation only in a scan that finds no final outcome of it, and then stays with it |
| MachineMoves.ActReplies | src/lib.rs:6682-6720 | every answer repeats the last terminal in the log or the acknowledgement that the process holds |
| Jsonl.ReadImage | src/lib.rs:6832-6855 | reading back framed records returns exactly these records |
| Jsonl.BlanksDiffer | src/lib.rs:6832-6855 | the reader and the repair call the same lines blank, except for those with a vertical tab |
| Jsonl.LogParts | src/lib.rs:6976-6987 | framed records followed by newline-free bytes split into exactly these two parts |
| Jsonl.WholeKeeps | src/lib.rs:6988-7009 | the repair succeeds on a log and keeps every record |
| Jsonl.WriteChunk | src/lib.rs:6857-6877 | writing part of a record changes nothing for readers until its newline, which adds exactly this record |
| Jsonl.PrefixOfImage | src/lib.rs:6968-7010 | a newline-terminated prefix of a log is the log of a prefix of its records |
| Jsonl.CrashKeeps | src/lib.rs:6857-6877 | a power failure keeps every synced record and invents none |
| RecordCodec.CodecExists | src/lib.rs:6585-6599 | the assumptions about the encoding of records can be met: a concrete stand-in for the JSON encoding reads back, is never blank and has no newline |
| Ledger.Scan | src/lib.rs:6652-6681 | the overwriting loop returns the last claim and the last terminal of the operation |
| Ledger.WellFormedMeans | src/lib.rs:6682-6720 | a log of the engine has one claim per operation ID, and every terminal follows a claim of the same operation and hash |
| Ledger.ClaimStays | src/lib.rs:6682-6711 | a longer log keeps the claims of a shorter one |
| OperationLedgers.OperationLedger.TryLock | src/lib.rs:6948-6965 | the lock is taken exactly if it is free |
| OperationLedgers.OperationLedger.CheckLines | src/lib.rs:6988-7004 | the offset loop accepts exactly the files whose lines are all blank or records |
| OperationLedgers.OperationLedger.RepairTail | src/lib.rs:6968-7010 | the new file is the repaired old one, synced if anything was cut; an I/O error exactly if an operation failed, and what each failure leaves behind |
| OperationLedgers.OperationLedger.Records | src/lib.rs:6832-6855 | the line loop returns what the recursive reader returns, or an I/O error exactly if the read failed |
| OperationLedgers.OperationLedger.Append | src/lib.rs:6857-6877 | a success adds the whole record and syncs; it fails exactly if an operation failed, then leaves some prefix of it and syncs nothing |
| OperationLedgers.OutcomeLedger.Begin | src/lib.rs:4230-4244 | the answer and new entries of a grant request; it fails exactly if a call failed, with or without taking effect |
| OperationLedgers.OutcomeLedger.Record | src/lib.rs:4246-4253 | the stored terminal; it fails exactly if a call failed, with or without taking effect |
| Engines.Engine.Acquire | src/lib.rs:6925-6966 | the lock is taken if and only if it is free; then nothing else has changed, and otherwise the call has ended with the lock-wait error |
| Engines.Engine.RepairTail | src/lib.rs:6637-6644 | the call goes on to the scan with the same records if no file operation failed, and otherwise has ended with an I/O error |
| Engines.Engine.Claim | src/lib.rs:6646-6712 | which log contents give new, replay, recovered and conflict, and the state of the machine that each leads to; an I/O error exactly if a file operation failed |
| Engines.Engine.Finish | src/lib.rs:6714-6720 | the acknowledgement is synced and answered exactly if no file operation failed, and otherwise the failure leads where the call's kind says |
| Engines.Engine.FinishAfterEffect | src/lib.rs:6722-6731 | whatever fails, the call is answered with the acknowledgement or its durability-unknown form, and with the acknowledgement if nothing failed |
| Engines.Engine.ReconcileInterrupted | src/lib.rs:6733-6754 | an interrupted outcome is answered with the host's recorded terminal if there is one, and otherwise as it was; an error exactly if the host or the file failed |
| Engines.Engine.RecoverClaim | src/lib.rs:4446-4475 | a claim without terminal is answered with the host's terminal if there is one and with an interrupted outcome otherwise, without any dispatch; an error exactly if the host or the file failed |
| Engines.Engine.FinishEarly | src/lib.rs:4786-4803 | a terminal that denies the effect is returned exactly if host and file accepted it |
| Engines.Engine.FinishEffect | src/lib.rs:4771-4777 | a terminal after a possible effect is always answered, whatever fails, and unchanged if nothing fails |
| Engines.Engine.AttemptDispatch | src/lib.rs:4500-4784 | a dispatch happens if and only if all checks passed; a refusal is answered with the terminal of the check that failed, an attempt with the terminal its outcome leads to |
| Engines.Engine.Execute | src/lib.rs:4416-4784 | a request that is not admitted changes nothing, and an admitted one fails with the lock-wait error exactly if the lock is taken. Otherwise a call is a sequence of machine steps ending in its answer, and dispatches its own operation at most once. If no file operation and no host call fails, it dispatches exactly what is unclaimed, granted and passes every check, and its answer is determined by the log, the host and the checks; every other answer needs a failure of the file or the host |
| Engines.Engine.ExecuteBatch | src/lib.rs:4817-4840 | each result is the answer to its own request, in order, up to and including the first one that is not verified; none waits for a lock that was free |
| Engines.Engine.Status | src/lib.rs:6756-6830 | a malformed operation ID changes nothing, and a taken lock gives the lock-wait error; otherwise a call is a sequence of machine steps ending in its answer, dispatches nothing, and unless the file or the host fails answers with the log's last terminal, the healed one, or the recovered one |
| Engines.FreshSuccess | src/lib.rs:4655-4733 | what a success after an own dispatch proves: the request was admitted, and verification, background guarantee and value readback hold together |
| Engines.ClaimRemembers | src/lib.rs:6702-6711 | the receipt recovered from a claim is the one of its request, except for the route of a scroll |
| Decision.ValidateRequest | src/lib.rs:7086-7169 | a request is valid if and only if its mode is known, its operation ID is well formed, its target and policy fit its action, its expected state is within the limits and a requested value is fenced by its hash |
| Decision.AdmittedExactly | src/lib.rs:7086-7169 | a request is admitted if and only if all of this holds, with the limits in numbers, and its authority is accepted |
| Decision.TargetsOfActions | src/lib.rs:7111-7153 | which kind of target and of verification each action can have |
| Decision.IdentifiersExactly | src/lib.rs:7401-7407 | operation IDs have 1 to 256 letters, digits, hyphens, underscores and colons |
| Decision.CollectNames | src/lib.rs:4887-4894 | names are collected exactly if none repeats |
| Decision.CollectFacts | src/lib.rs:4895-4924 | facts are collected exactly if every route is possible and no action repeats |
| Decision.StrictActionCapability | src/lib.rs:4883-4932 | a capability is found exactly in a consistent report that supports the action; the size test and one inclusion make both name sets equal |
| Decision.ProtocolFailure | src/lib.rs:7500-7531 | every executor error before the dispatch becomes a terminal that denies the effect |
| Decision.Gate | src/lib.rs:4500-4620 | every check before the dispatch that fails gives a terminal that denies the effect |
| Decision.GatePermits | src/lib.rs:4500-4620 | a dispatch is permitted if and only if every single check is passed, whatever their order: the report is consistent and lists the action, in the background on a shared desktop as guarded and target-addressed, on an isolated host as guarded or made for isolated hosts |
| Decision.RoutesOfActions | src/lib.rs:4895-4924 | with which route and support a report may list each action, and that it cannot list screenshots, windows, opening and clipboard writes at all |
| Decision.BackgroundActions | src/lib.rs:4934-4948 | an action permitted in the background has background support; on a shared desktop it is one of invoke, set_value, select_text, perform_secondary_action and scroll |
| Decision.FirstRefusalCounts | src/lib.rs:4500-4620 | a refused call ends with the verdict of the first check that fails, and is permitted if none does |
| Decision.FailureNamesError | src/lib.rs:7500-7531 | each executor error has a terminal of its own |
| Decision.GateRefuses | src/lib.rs:4500-4620 | a refusal is called cancelled or expired only if the flag, the clock or the executor said so |
| Decision.Settle | src/lib.rs:4630-4769 | a terminal that may hide an effect exactly after an Ok or an error of unknown effect |
| Decision.SettlesExactly | src/lib.rs:4630-4769 | which terminal and which message an attempt ends with, for every answer of the executor and the clock |
| Decision.ContextMeans | src/lib.rs:4855-4880 | the foreground context is called unchanged exactly if it was sampled before and after with the same result, and what the other verdicts mean |
| Decision.RecoveredContextFits | src/lib.rs:8134-8145 | a recovered receipt says of the context what a run says that could not sample it |
| Decision.ReceiptIsTrue | src/lib.rs:4630-4769 | every receipt names its request, the observations before and after, and the route of the report or, without a result, of the request |
| Decision.RouteFits | src/lib.rs:491-510 | the route of a request is one that a consistent report may give for its action |
| Decision.VerifiesExactly | src/lib.rs:7435-7498 | an attempt is verified exactly if the requested state, up to key order, or value hash was observed on the requested target with unchanged fingerprint and geometry |
| Decision.SucceedsExactly | src/lib.rs:4655-4733 | an attempt succeeds if and only if it was dispatched, met no boundary, kept its context and was verified as asked |
| Decision.SuccessExactly | src/lib.rs:4655-4733 | the same condition on the answers themselves: dispatched, no boundary, equal context hashes where it matters, and the requested state or value hash on the requested target with unchanged fingerprint and geometry |
| Decision.BackgroundSuccess | src/lib.rs:4531-4620 | a background success on a shared desktop used a target-addressed, guarded fact of a consistent report, and the context hash was equal before and after |
| Decision.SetValueSuccess | src/lib.rs:7435-7476 | a successful set_value read back the hash of the requested value on the fenced target, with unchanged geometry |
| Decision.SetValueHolds | src/lib.rs:7160-7169 | without a hash collision the live value is the requested one |
| Decision.StateSuccess | src/lib.rs:7481-7493 | a success with an expected state observed this state, up to the order of object keys, on the fenced target |
| AtspiSnapshot.Snapshot | src/linux_atspi.rs:880-966 | elements and queue stay within the budget, so the size break is unreachable; elements are owned, distinct and below the earlier element that is their parent; every result, truncated or not, is the breadth-first order of everything down to the depth limit, cut off at 512 elements at most; truncation has a reason; the stale error means that an object is not bound, the ambiguous one that an object is named twice; the search is interrupted exactly if one of its looks at the flag and the deadline shows a stop, and otherwise it succeeds untruncated if and only if everything down to the depth limit is bound, unique and within the element budget, and nothing lies deeper |
| AtspiSnapshot.ReadChildren | src/linux_atspi.rs:945-965 | the children are queued if each is present, owned and linked back and no look shows a stop; a stale error means one is not |
| AtspiSnapshot.SnapshotIsComplete | src/linux_atspi.rs:886-966 | an untruncated snapshot lists every reachable object exactly once |
| AtspiSnapshot.SnapshotIsForest | src/linux_atspi.rs:880-966 | without colliding element ids the forest validator's condition holds of the elements |
| AtspiSnapshot.ElementsHang | src/linux_atspi.rs:905-935 | each element has the id and the fingerprint of its object, and hangs below the element of the object whose child it is |
| AtspiSnapshot.SnapshotIsValid | src/linux_atspi.rs:910-930 | with hashed ids an element is valid exactly if its role, name and bounds and its fingerprint are |
| AtspiFocus.FocusedDescendant | src/linux_atspi.rs:1289-1343 | on a fixed graph the search succeeds if and only if everything down to the depth limit is bound, unique and within budget, nothing lies deeper, and exactly one object has the focus, which it returns |
| AtspiFocus.ReadAll | src/linux_atspi.rs:1327-1340 | the children are queued exactly if all are present, owned, linked back and not their own parent |
| AtspiFocus.ValidateLiveDescendant | src/linux_atspi.rs:1113-1156 | the bounded climb accepts exactly the objects that reach the root within the depth limit through owned objects |
| AtspiFocus.FoundIsLive | src/linux_atspi.rs:1113-1156 | whatever the search can find, the climb accepts |
| Levels.AllReached | src/linux_atspi.rs:886-966 | a graph with an empty level is all above it |
| Levels.SearchPrefix | src/linux_atspi.rs:886-966 | what a queue search has seen and queued is a prefix of the breadth-first order |
| Levels.ConditionMeans | src/linux_atspi.rs:1289-1343 | under the condition for a complete search the objects seen are exactly the reachable ones |
| Levels.NextAllowed | src/linux_atspi.rs:1299-1340 | under this condition the next object of a breadth-first search is new, owned and bound to its children, has none at the depth limit, and fits the budget with all that is waiting |
| CdpTree.ReadNodes | src/cdp.rs:2080-2113 | the first loop succeeds exactly on parseable trees and returns their parent links and selected nodes |
| CdpTree.ParseableExactly | src/cdp.rs:2080-2113 | the parseable trees, node by node |
| CdpTree.SelectedExactly | src/cdp.rs:2093-2111 | the selected nodes are those of the document that are not ignored and have a role other than none, in their order |
| CdpTree.ParentsExactly | src/cdp.rs:2090-2092 | the parent of a node is the last one given for its id |
| CdpTree.LoopEndsExactly | src/cdp.rs:2129-2132 | the parent loop ends from a given node if and only if no number of unselected links leads from it into a cycle of unselected nodes, which the code does not check |
| CdpTree.ParserEndsExactly | src/cdp.rs:2128-2132 | the loops of all selected nodes end if and only if none of them runs into such a cycle |
| CdpTree.ParserCanRunForever | src/cdp.rs:2128-2132 | a parseable tree of three nodes, one of them selected, on which the loop never ends |
| CdpTree.NearestSelected | src/cdp.rs:2129-2132 | where the loop ends, it returns the nearest selected proper ancestor |
| CdpTree.NameNodes | src/cdp.rs:2119-2124 | of selected nodes with equal ids the last one names them all |
| CdpTree.BuildElements | src/cdp.rs:2128-2172 | every selected node becomes one element below its nearest selected ancestor |
| CdpTree.CompressedIsForest | src/cdp.rs:2128-2172 | without colliding element ids the result is a forest if and only if the selected nodes are distinct and none is its own ancestor |
| CdpTree.RepresentedIsValid | src/cdp.rs:2140-2160 | with hashed ids an element is valid exactly if its role and states and its fingerprint are |
| CdpTree.ParseAxTree | src/cdp.rs:2074-2174 | where no selected node runs into a cycle of unselected ones: success exactly on parseable trees, the elements above, and exactly when the validator will accept them |
| Forest.Collect | src/semantic.rs:244-259 | the first pass succeeds exactly if all elements are valid and tags and ids are unique |
| Forest.AncestorsDiffer | src/semantic.rs:268-277 | the walk over an element's ancestors finds a repetition exactly if their chain has no end, which only happens on a cycle |
| Forest.BuildMapping | src/semantic.rs:241-280 | valid elements are accepted if and only if they form a forest: unique tags and ids, existing parents, no cycle |
| Forest.Validate | src/semantic.rs:99-123 | an observation is usable exactly if it is well formed, not too old, not yet expired and a forest of valid elements; an expired one is stale, an implausible one invalid |
| Forest.PlausibleExactly | src/semantic.rs:99-118 | what well formed and not too old mean, in numbers |
| Forest.Resolve | src/semantic.rs:152-178 | a reference resolves to an element if and only if the observation is usable, the reference was made from it, and the element has the id and the fingerprint; which refusal every other case gives |
| Forest.TagsWork | src/semantic.rs:215-220 | within the element limit every index has a valid tag, and no two share one |
| Forest.ValidTagExactly | src/semantic.rs:326-330 | a valid tag is an e and up to four digits |
| Forest.TagSelects | src/semantic.rs:137-150 | a tag selects the one element that has it, is not found if none has it, and ambiguous if two have it |
| Forest.TagRoundTrip | src/semantic.rs:137-179 | the reference made from an element's tag means exactly this element from the observation's time until its expiry, nothing afterwards, and nothing in any other observation |
| Ancestry.RepeatIsCycle | src/semantic.rs:270-277 | a repeated ancestor lies on a cycle, and the chain of ancestors never ends |
| CdpDispatch.OneEffect | src/cdp.rs:844-1168 | each dispatcher sends at most one effect function, at one place in its sequence |
| CdpDispatch.EffectIsPrepared | src/cdp.rs:793-842 | an effect is tried only after the replies, field by field, have shown the stored element connected, visible, enabled and capable under the same geometry, for a scroll also steady and hit by the pointer; it is the effect of the plan on the resolved object |
| CdpDispatch.AimedAtElement | src/cdp.rs:674-842 | every command is about the stored node or the object resolved for it, and the value of a protected element is withheld until the effect |
| CdpDispatch.OutcomeMeans | src/cdp.rs:844-1168 | a success means that the page reported the effect as done, field by field; an error that denies the effect means that nothing was sent or that the page declined; before an effect was tried the process was alive between clear boundaries |
| CdpDispatch.HealthyPageSucceeds | src/cdp.rs:844-1168 | if the page plays along, the boundary stays clear and the process alive, each dispatcher succeeds after exactly its 6, 11 or 7 commands |
| CdpDispatch.HealthyPageExists | src/cdp.rs:844-1168 | there is such a page for every plan |
| CdpDispatch.TruthfulAboutEffect | src/cdp.rs:687-720 | on an honest page nothing acted if the error denies an effect, the effect acted if the result is a success, and nothing else acts |
| CdpDispatch.Browser.Check | src/cdp.rs:2243-2262 | the boundary check passes exactly if clear, and otherwise names what was reached |
| CdpDispatch.Browser.CheckAfter | src/cdp.rs:2285-2296 | success if and only if no boundary is reached; a boundary after the effect gives an unknown effect |
| CdpDispatch.Browser.VerifyProcess | src/cdp.rs:652-661 | success means a live process between two clear boundaries |
| CdpDispatch.Browser.ResolveObject | src/cdp.rs:674-685 | the object of the stored node, or a failure that denies the effect |
| CdpDispatch.Browser.EffectCommand | src/cdp.rs:687-720 | a failure is of unknown effect exactly if the effect had started or the command was sent |
| CdpDispatch.Browser.Query | src/cdp.rs:722-737 | a query before the effect never makes it unknown |
| CdpDispatch.Browser.Ask | src/cdp.rs:663-672 | the same for queries whose lock failure is found after the second check |
| CdpDispatch.Browser.ProbeBefore | src/cdp.rs:739-791 | the object's state before the effect, or a failure that denies it |
| CdpDispatch.Browser.ProbeAfter | src/cdp.rs:739-791 | the object's state after the effect, or an unknown effect |
| CdpDispatch.Browser.VerifyLive | src/cdp.rs:793-842 | the live element is unambiguous and the stored one, shown and capable, under the same geometry |
| CdpDispatch.Browser.DispatchInvoke | src/cdp.rs:844-910 | for every sequence of answers and boundaries: effects only after all looks, success only on confirmation, and an error denies the effect exactly if nothing was sent or the page declined; every failure has a cause: a boundary or a dead process during the call, a command without reply, or replies that refuse |
| CdpDispatch.Browser.DispatchScroll | src/cdp.rs:912-1077 | the same; success means the intended offset was reached in the right direction; every failure has such a cause |
| CdpDispatch.Browser.DispatchSetValue | src/cdp.rs:1079-1168 | the same; success means the readback has the hash and length of the requested value; every failure has such a cause |
| Typing.ChunksConserve | src/lib.rs:5939-5965 | chunks concatenate to the text, are never empty, and only the last is short of 64 characters, or of 1 with a delay |
| Typing.CallsConserve | src/lib.rs:5919-5981 | the calls of a complete dispatch type exactly the text |
| Typing.CallsInOrder | src/lib.rs:5933-5979 | clearing comes first and return last, each only if asked for |
| Typing.PartTypesPrefix | src/lib.rs:5941-5974 | the calls of an interrupted dispatch type a prefix of the text |
| Typing.TypeMovesCall | src/lib.rs:5932-5979 | typing looks once for every character and once at the end, and its calls are those of the text |
| Typing.TypeMovesLookFirst | src/lib.rs:5941-5979 | a look comes right before every chunk and before the return key; only the clearing call has none |
| Typing.PressMovesAre | src/lib.rs:6392-6419 | pressing looks right before every press and once at the end |
| Typing.TriedAfterLook | src/lib.rs:5941-5979 | in any run each such call follows a look that saw no stop, and nothing is tried after a look that saw one or a call that failed |
| Typing.RunTypes | src/lib.rs:5919-5981 | however a run ends, its calls type a prefix of the text, and all of it if it succeeds |
| Typing.RunPresses | src/lib.rs:6392-6419 | however a run ends, only this key was pressed, at most as often as asked, and exactly so if it succeeds |
| Typing.FailureHasCause | src/lib.rs:5941-5979 | a failed run ends with a look that saw the flag or the deadline or with a call that failed, and a successful one made every move well |
| Typing.UnknownIfTried | src/lib.rs:5942-5950 | a failure while typing is of unknown effect exactly if a call was tried |
| Typing.StopIsNamed | src/lib.rs:5881-5917 | a run that tried nothing names the stop rightly: a cancellation if the flag was seen, an expiry only if the clock had run out |
| Typing.Keyboard.CheckPartial | src/lib.rs:5881-5917 | a look at the flag and the deadline; a stop is of unknown effect exactly if something was tried, and otherwise says which of the two it was |
| Typing.Keyboard.CheckTyping | src/lib.rs:5942-5950 | the look made while typing, which asks the flag once more to name a stop |
| Typing.Keyboard.FinishTyping | src/lib.rs:5960-5980 | the last chunk, the last look and the return key |
| Typing.Keyboard.DispatchTypeText | src/lib.rs:5919-5981 | the looks and calls made are the first of those below, in order and up to the first that does not go well; success exactly if all were made; an error is of unknown effect exactly if something was tried, and otherwise names the stop; bad parameters try nothing |
| Typing.Keyboard.DispatchPress | src/lib.rs:6392-6419 | a look before each press and one at the end, in order and up to the first that does not go well; an error is of unknown effect exactly if a press was tried or none was asked for, and otherwise names the stop |
| Json.CanonicalSame | src/lib.rs:8199-8212 | the canonical form keeps every key and value at every depth |
| Json.BeforeIsLess | src/lib.rs:8199-8212 | keys are compared byte by byte, and a proper prefix comes first |
| Json.CanonicalAscends | src/lib.rs:8199-8212 | in every object at every depth of the canonical form the keys ascend in this order |
| Json.CanonicalEqual | src/lib.rs:8193-8212 | two values have the same canonical form if and only if they are equal up to key order |
| Json.CanonicalIdempotent | src/lib.rs:8199-8212 | canonicalising twice changes nothing |
| Json.CanonicalizeJson | src/lib.rs:8199-8212 | sorting first and canonicalising entry by entry gives the canonical form |
| Json.PushChildren | src/lib.rs:7378-7391 | one popped value keeps the node, byte and depth totals of the stack |
| Json.ValidateVerification | src/lib.rs:7364-7399 | the explicit-stack loop ends and accepts exactly the values whose node count, depth and bytes are all within the limits |

## Left out

- Jsonl.ReadRecords: lines are bytes; UTF-8 decoding, a carriage return before the newline and non-ASCII blanks in damaged files are not modelled, since the engine never writes them.
- Machine.State: every engine uses the shared host ledger or none does; the model has no mixture of both.
- Machine.Init: ledger files start empty, so logs written by other programs are not considered.
- Engines.Engine.Execute: other processes do not move between its steps; interleavings are covered by the machine.
- Decision.ValidateRequest: the checks of versions, subject, session, deadline, signature form and the action's own parameters, and the signature check, are verdicts given from outside, because the model leaves these parts of a request out.
- Engines.Engine.Acquire: waiting for the lock is one attempt, and opening the lock file does not fail; the polling and the blocking wait of status are timing.
- Guarantees.NeverDenied: a terminal whose sync failed can be replayed once and lost in a power failure; what is guaranteed is that no answer denies the effect.
- CdpDispatch.Reply: a reply is the parts the dispatchers read; parsing protocol messages and reading roles and states of accessibility nodes is not modelled.
- CdpDispatch.World: the point in the viewport and the fingerprints are functions of their inputs.
- CdpDispatch.Browser.DispatchScroll: offsets are real numbers; rounding and non-finite values do not occur.
- CdpDispatch.Browser.WaitForStability: the pause is any number of boundary checks.
- Typing.Keyboard.DispatchPress: pauses between presses are not modelled; repeated scrolling has the same shape.
- AtspiSnapshot.Snapshot: the graph is fixed during the search, the looks at the boundary inside calls of the provider are not modelled, and neither is the sampling of roles, states and bounds.
- AtspiFocus.FocusedDescendant: the graph is fixed during the search, and interruptions by the boundary are left out so that success has an exact condition.
- Json.CanonicalizeJson: works on values; the original replaces the entries in place.
- Forest.BuildMapping: the checks of role, name and bounds of an element are one flag.
- Forest.Validate: the checks of the version, the provenance and the encoded size of an observation are one flag.
- Acknowledgement sequence numbers, timestamps, backend names, fallback chains, warnings and the accepted and executing acknowledgements.
- The trajectory log: its results are ignored everywhere and it affects no outcome.
- RecordCodec.CodecExists: the encoding shown is not the program's JSON, whose text is not modelled.
- SHA-256, Ed25519 and JSON text itself.
- File permissions, symbolic links and Windows path guards.
- Directory syncing: ledger files exist durably from the start. In the code, when syncing the directory fails or is interrupted after the first append, later appends find the file and never sync the directory again, so a later synced claim can vanish together with its directory entry; none of the guarantees over power failures covers that.
- Platform code for accessibility, input, capture and processes; the normalisation of X11 displays.
