// Typing text in chunks and pressing a key repeatedly: what reaches the keyboard, and what an
// interruption may say about it.
module Typing {
  import opened Wrappers
  import opened Decision

  const MAX_TEXT_BYTES: nat := 16 * 1024
  const MAX_DELAY_MS: nat := 1000

  datatype Call =
    | TypeCall(text: string, clear: bool, pressReturn: bool, delay: Option<nat>)
    | PressCall(key: string)

  // The length of a character in UTF-8, by table 3-6 of the Unicode standard.
  function Width(c: char): nat {
    if c as int < 0x80 then 1 else if c as int < 0x800 then 2 else if c as int < 0x1_0000 then 3 else 4
  }

  function Bytes(text: string): nat {
    if text == [] then 0 else Width(text[0]) + Bytes(text[1..])
  }

  predicate Typable(text: string, delay: Option<nat>) {
    text != [] && Bytes(text) <= MAX_TEXT_BYTES && (delay.Some? ==> delay.value <= MAX_DELAY_MS)
  }

  // In numbers: a text that is not empty, of at most 16384 bytes, typed with a delay of at most a second.
  lemma TypableExactly(text: string, delay: Option<nat>)
    ensures Typable(text, delay) <==> text != "" && Bytes(text) <= 16384 && (delay.None? || delay.value <= 1000)
    ensures forall c: char ::
              && 1 <= Width(c) <= 4 && (Width(c) > 1 <==> c as int > 0x7F) && (Width(c) > 2 <==> c as int > 0x7FF)
              && (Width(c) > 3 <==> c as int > 0xFFFF)
  {
  }

  // A text is as long as its characters together.
  lemma {:induction false} BytesAdd(a: string, b: string)
    ensures Bytes(a + b) == Bytes(a) + Bytes(b)
    ensures forall c: char :: Bytes([c]) == Width(c)
  {
    assert forall c: char :: [c][1..] == [];
    if a == [] {
      assert a + b == b;
    } else {
      BytesAdd(a[1..], b);
      assert (a + b)[0] == a[0] && (a + b)[1..] == a[1..] + b;
    }
  }

  // ----- The calls a text becomes -----

  function ChunkSize(delay: Option<nat>): (n: nat)
    ensures n > 0
  {
    if delay.Some? then 1 else 64
  }

  function ChunkCalls(text: string, delay: Option<nat>): seq<Call>
    decreases |text|
  {
    var n := ChunkSize(delay);
    if text == [] then []
    else if |text| <= n then [TypeCall(text, false, false, delay)]
    else [TypeCall(text[..n], false, false, delay)] + ChunkCalls(text[n..], delay)
  }

  function Clearing(clear: bool): seq<Call> {
    if clear then [TypeCall("", true, false, None)] else []
  }

  function Returning(pressReturn: bool): seq<Call> {
    if pressReturn then [TypeCall("", false, true, None)] else []
  }

  function Calls(text: string, clear: bool, pressReturn: bool, delay: Option<nat>): seq<Call> {
    Clearing(clear) + ChunkCalls(text, delay) + Returning(pressReturn)
  }

  // The text that a list of calls types, in order.
  function Typed(calls: seq<Call>): string {
    if calls == [] then "" else TextOf(calls[0]) + Typed(calls[1..])
  }

  function TextOf(call: Call): string {
    if call.TypeCall? then call.text else ""
  }

  lemma Regroup<T>(x: seq<T>, y: seq<T>, z: seq<T>)
    ensures x + (y + z) == (x + y) + z
  {
  }

  lemma {:induction false} TypedConcat(a: seq<Call>, b: seq<Call>)
    ensures Typed(a + b) == Typed(a) + Typed(b)
  {
    if a == [] {
      assert a + b == b;
    } else {
      TypedConcat(a[1..], b);
      assert (a + b)[0] == a[0] && (a + b)[1..] == a[1..] + b;
      Regroup(TextOf(a[0]), Typed(a[1..]), Typed(b));
    }
  }

  // Chunks lose nothing, are never empty, and only the last may be short.
  lemma {:induction false} ChunksConserve(text: string, delay: Option<nat>)
    ensures Typed(ChunkCalls(text, delay)) == text
    ensures forall i | 0 <= i < |ChunkCalls(text, delay)| ::
              var call := ChunkCalls(text, delay)[i];
              && call.TypeCall? && !call.clear && !call.pressReturn && call.delay == delay
              && 0 < |call.text| <= (if delay.Some? then 1 else 64)
              && (i < |ChunkCalls(text, delay)| - 1 ==> |call.text| == if delay.Some? then 1 else 64)
    decreases |text|
  {
    var n := ChunkSize(delay);
    if |text| > n {
      ChunksConserve(text[n..], delay);
      var first, rest := TypeCall(text[..n], false, false, delay), ChunkCalls(text[n..], delay);
      assert ChunkCalls(text, delay) == [first] + rest;
      assert ([first] + rest)[1..] == rest;
    } else if text != [] {
      assert ChunkCalls(text, delay)[1..] == [];
    }
  }

  // A complete run types exactly the text.
  lemma CallsConserve(text: string, clear: bool, pressReturn: bool, delay: Option<nat>)
    ensures Typed(Calls(text, clear, pressReturn, delay)) == text
  {
    var chunks := ChunkCalls(text, delay);
    ChunksConserve(text, delay);
    TypedConcat(Clearing(clear), chunks);
    TypedConcat(Clearing(clear) + chunks, Returning(pressReturn));
    assert Typed(Clearing(clear)) == "" && Typed(Returning(pressReturn)) == "";
    hide Typed, ChunkCalls, ChunkSize;
  }

  // It clears first and presses return last, each only if asked to.
  lemma CallsInOrder(text: string, clear: bool, pressReturn: bool, delay: Option<nat>, i: int)
    requires 0 <= i < |Calls(text, clear, pressReturn, delay)|
    ensures var calls := Calls(text, clear, pressReturn, delay);
            && calls[i].TypeCall?
            && (calls[i].clear <==> clear && i == 0)
            && (calls[i].pressReturn <==> pressReturn && i == |calls| - 1)
  {
    var chunks := ChunkCalls(text, delay);
    ChunksConserve(text, delay);
    hide ChunkCalls, ChunkSize;
    var k := i - |Clearing(clear)|;
    if 0 <= k < |chunks| {
      assert Calls(text, clear, pressReturn, delay)[i] == chunks[k];
    }
  }

  // Whatever was tried before an interruption types a prefix of the text.
  lemma PartTypesPrefix(text: string, clear: bool, pressReturn: bool, delay: Option<nat>, part: seq<Call>)
    requires part <= Calls(text, clear, pressReturn, delay)
    ensures Typed(part) <= text
  {
    var all := Calls(text, clear, pressReturn, delay);
    CallsConserve(text, clear, pressReturn, delay);
    assert all == part + all[|part|..];
    TypedConcat(part, all[|part|..]);
  }

  // ----- Looks and calls -----

  // What a dispatcher does: it looks at the cancellation flag and the deadline, or tries a call.
  datatype Move = Look | Try(call: Call)

  function Looks(n: nat): (moves: seq<Move>)
    ensures |moves| == n
  {
    seq(n, _ => Look)
  }

  // A look for every character, and a call after every full chunk and after the last one.
  function ChunkMoves(text: string, delay: Option<nat>): seq<Move>
    decreases |text|
  {
    var n := ChunkSize(delay);
    if text == [] then []
    else if |text| <= n then Looks(|text|) + [Try(TypeCall(text, false, false, delay))]
    else Looks(n) + [Try(TypeCall(text[..n], false, false, delay))] + ChunkMoves(text[n..], delay)
  }

  // Only the clearing call is tried without a look.
  function ClearMoves(clear: bool): seq<Move> {
    if clear then [Try(TypeCall("", true, false, None))] else []
  }

  function ReturnMoves(pressReturn: bool): seq<Move> {
    [Look] + if pressReturn then [Try(TypeCall("", false, true, None))] else []
  }

  function TypeMoves(text: string, clear: bool, pressReturn: bool, delay: Option<nat>): seq<Move> {
    ClearMoves(clear) + ChunkMoves(text, delay) + ReturnMoves(pressReturn)
  }

  function PressPairs(key: string, count: nat): seq<Move> {
    if count == 0 then [] else PressPairs(key, count - 1) + [Look, Try(PressCall(key))]
  }

  function PressMoves(key: string, count: nat): seq<Move> {
    PressPairs(key, count) + [Look]
  }

  // The calls among the moves, in order.
  function CallsOf(moves: seq<Move>): seq<Call> {
    if moves == [] then []
    else CallsOf(moves[..|moves| - 1]) + if moves[|moves| - 1].Try? then [moves[|moves| - 1].call] else []
  }

  lemma CallsSnoc(moves: seq<Move>, move: Move)
    ensures CallsOf(moves + [move]) == CallsOf(moves) + if move.Try? then [move.call] else []
  {
    assert (moves + [move])[..|moves + [move]| - 1] == moves;
  }

  lemma {:induction false} CallsConcat(a: seq<Move>, b: seq<Move>)
    ensures CallsOf(a + b) == CallsOf(a) + CallsOf(b)
  {
    if b == [] {
      assert a + b == a;
    } else {
      var init, last := b[..|b| - 1], b[|b| - 1];
      CallsConcat(a, init);
      assert b == init + [last] && a + b == a + init + [last];
      CallsSnoc(init, last);
      CallsSnoc(a + init, last);
      hide CallsOf;
    }
  }

  lemma {:induction false} LooksCallNothing(n: nat)
    ensures CallsOf(Looks(n)) == []
  {
    if n > 0 {
      LooksCallNothing(n - 1);
      assert Looks(n) == Looks(n - 1) + [Look];
      CallsSnoc(Looks(n - 1), Look);
    }
  }

  lemma ChunkCall(n: nat, call: Call)
    ensures CallsOf(Looks(n) + [Try(call)]) == [call]
  {
    LooksCallNothing(n);
    CallsSnoc(Looks(n), Try(call));
  }

  lemma {:induction false} ChunkMovesCall(text: string, delay: Option<nat>)
    ensures CallsOf(ChunkMoves(text, delay)) == ChunkCalls(text, delay)
    ensures |ChunkMoves(text, delay)| == |text| + |ChunkCalls(text, delay)|
    decreases |text|
  {
    var n := ChunkSize(delay);
    if |text| > n {
      var call := TypeCall(text[..n], false, false, delay);
      ChunkMovesCall(text[n..], delay);
      ChunkCall(n, call);
      CallsConcat(Looks(n) + [Try(call)], ChunkMoves(text[n..], delay));
      hide CallsOf;
    } else if text != [] {
      ChunkCall(|text|, TypeCall(text, false, false, delay));
    }
  }

  lemma EndsCall(clear: bool, pressReturn: bool)
    ensures CallsOf(ClearMoves(clear)) == Clearing(clear) && CallsOf(ReturnMoves(pressReturn)) == Returning(pressReturn)
  {
    CallsSnoc([], Look);
    CallsSnoc([], Try(TypeCall("", true, false, None)));
    CallsSnoc([Look], Try(TypeCall("", false, true, None)));
    assert [] + [Look] == [Look];
    assert [] + [Try(TypeCall("", true, false, None))] == [Try(TypeCall("", true, false, None))];
  }

  // The moves make the calls a text becomes, with one look for every character and one at the end.
  lemma TypeMovesCall(text: string, clear: bool, pressReturn: bool, delay: Option<nat>)
    ensures var moves, calls := TypeMoves(text, clear, pressReturn, delay), Calls(text, clear, pressReturn, delay);
            CallsOf(moves) == calls && |moves| == |calls| + |text| + 1
  {
    ChunkMovesCall(text, delay);
    EndsCall(clear, pressReturn);
    CallsConcat(ClearMoves(clear), ChunkMoves(text, delay));
    CallsConcat(ClearMoves(clear) + ChunkMoves(text, delay), ReturnMoves(pressReturn));
    hide ChunkMoves, ChunkCalls, CallsOf;
  }

  // No move is a call without a look right before it, except possibly the first.
  predicate LooksFirst(moves: seq<Move>, free: nat) {
    forall i | free <= i < |moves| && moves[i].Try? :: i > 0 && moves[i - 1].Look?
  }

  lemma {:induction false} ChunksLookFirst(text: string, delay: Option<nat>)
    ensures LooksFirst(ChunkMoves(text, delay), 0)
    decreases |text|
  {
    var n := ChunkSize(delay);
    if |text| > n {
      ChunksLookFirst(text[n..], delay);
      var first := Looks(n) + [Try(TypeCall(text[..n], false, false, delay))];
      hide ChunkSize, Looks;
      assert LooksFirst(first, 0) by { assert first[n - 1] == Looks(n)[n - 1]; }
    }
  }

  lemma TypeMovesLookFirst(text: string, clear: bool, pressReturn: bool, delay: Option<nat>)
    ensures LooksFirst(TypeMoves(text, clear, pressReturn, delay), if clear then 1 else 0)
  {
    ChunksLookFirst(text, delay);
    hide ChunkMoves;
  }

  lemma {:induction false} PressPairsAre(key: string, count: nat)
    ensures |PressPairs(key, count)| == 2 * count && LooksFirst(PressPairs(key, count), 0)
    ensures CallsOf(PressPairs(key, count)) == Repeated(key, count)
  {
    if count > 0 {
      PressPairsAre(key, count - 1);
      var init := PressPairs(key, count - 1);
      CallsSnoc(init, Look);
      CallsSnoc(init + [Look], Try(PressCall(key)));
      assert init + [Look, Try(PressCall(key))] == init + [Look] + [Try(PressCall(key))];
    }
  }

  lemma PressMovesAre(key: string, count: nat)
    ensures LooksFirst(PressMoves(key, count), 0) && CallsOf(PressMoves(key, count)) == Repeated(key, count)
    ensures |PressMoves(key, count)| == 2 * count + 1
  {
    PressPairsAre(key, count);
    CallsSnoc(PressPairs(key, count), Look);
    hide PressPairs;
  }

  function Repeated(key: string, n: nat): (calls: seq<Call>)
    ensures |calls| == n
  {
    if n == 0 then [] else Repeated(key, n - 1) + [PressCall(key)]
  }

  lemma CallsPrefix(part: seq<Move>, moves: seq<Move>)
    requires part <= moves
    ensures CallsOf(part) <= CallsOf(moves)
  {
    assert moves == part + moves[|part|..];
    CallsConcat(part, moves[|part|..]);
  }

  // ----- What a run may report -----

  // The cancellation flag, the deadline and the backend, at every moment they are asked.
  datatype World = World(cancelled: int -> bool, late: int -> bool, works: (int, Call) -> bool)

  predicate Stopped(w: World, t: int) {
    w.cancelled(t) || w.late(t)
  }

  predicate Works(w: World, t: int, call: Call) {
    w.works(t, call)
  }

  // A move, and when it was made.
  datatype Step = Step(move: Move, at: int)

  // A look that saw no stop, or a call that did not fail.
  predicate Fine(w: World, step: Step) {
    if step.move.Look? then !Stopped(w, step.at) else Works(w, step.at, step.move.call)
  }

  function MovesOf(log: seq<Step>): seq<Move> {
    seq(|log|, i requires 0 <= i < |log| => log[i].move)
  }

  function CallsIn(log: seq<Step>): seq<Call> {
    CallsOf(MovesOf(log))
  }

  // The steps happened one after the other between two moments.
  predicate InTime(log: seq<Step>, from: int, to: int) {
    && (forall i | 0 <= i < |log| :: from <= log[i].at < to)
    && forall i, j | 0 <= i < j < |log| :: log[i].at < log[j].at
  }

  // As far as the run has come, everything went well.
  predicate Smooth(w: World, log: seq<Step>, moves: seq<Move>) {
    MovesOf(log) <= moves && forall i | 0 <= i < |log| :: Fine(w, log[i])
  }

  // A run makes its moves in order and ends at the first that does not go well: it succeeds exactly
  // if all were made and went well.
  predicate Reported(w: World, log: seq<Step>, moves: seq<Move>, r: Result<(), EffectKnowledge>) {
    && MovesOf(log) <= moves
    && (forall i | 0 <= i < |log| - 1 :: Fine(w, log[i]))
    && if r.Success? then MovesOf(log) == moves && Smooth(w, log, moves)
       else log != [] && !Fine(w, log[|log| - 1])
  }

  // Whatever is tried follows a clear look of its own, and nothing is tried after a look that saw a
  // stop or a call that failed.
  lemma TriedAfterLook(w: World, log: seq<Step>, moves: seq<Move>, r: Result<(), EffectKnowledge>, free: nat, i: nat)
    requires Reported(w, log, moves, r) && LooksFirst(moves, free)
    requires free <= i < |log| && log[i].move.Try?
    ensures i > 0 && log[i - 1].move.Look? && !Stopped(w, log[i - 1].at)
    ensures forall k | 0 <= k < i :: Fine(w, log[k])
  {
    assert MovesOf(log)[i] == moves[i] && MovesOf(log)[i - 1] == moves[i - 1];
  }

  // A run that fails ends with a look that saw the flag or the deadline, or with a call that failed; one
  // that succeeds has made every move, and all of them went well.
  lemma FailureHasCause(w: World, log: seq<Step>, moves: seq<Move>, r: Result<(), EffectKnowledge>)
    requires Reported(w, log, moves, r)
    ensures r.Failure? ==>
              && log != []
              && var last := log[|log| - 1];
                 if last.move.Look? then w.cancelled(last.at) || w.late(last.at)
                 else !w.works(last.at, last.move.call)
    ensures r.Success? ==>
              && MovesOf(log) == moves
              && forall i | 0 <= i < |log| ::
                   if log[i].move.Look? then !w.cancelled(log[i].at) && !w.late(log[i].at)
                   else w.works(log[i].at, log[i].move.call)
  {
  }

  lemma {:induction false} TriedMeans(moves: seq<Move>)
    ensures CallsOf(moves) != [] <==> exists i :: 0 <= i < |moves| && moves[i].Try?
  {
    if moves != [] {
      var init := moves[..|moves| - 1];
      TriedMeans(init);
      assert forall i | 0 <= i < |init| :: init[i] == moves[i];
      assert moves[|moves| - 1].Try? ==> exists i :: 0 <= i < |moves| && moves[i].Try?;
    }
  }

  // A failure while typing is of unknown effect exactly if a call was tried.
  lemma UnknownIfTried(w: World, log: seq<Step>, moves: seq<Move>, from: int, now: int,
                       r: Result<(), EffectKnowledge>)
    requires TypingEnds(w, log, moves, from, now, r) && r.Failure?
    ensures r.error.Unknown? <==> exists i :: 0 <= i < |log| && log[i].move.Try?
    ensures !r.error.Unknown? ==> r.error == KnownStop(w, log[|log| - 1].at + 1)
  {
    TriedMeans(MovesOf(log));
    assert forall i | 0 <= i < |log| :: MovesOf(log)[i] == log[i].move;
  }

  // However a run ends, it has typed a prefix of the text, and all of it if it succeeds.
  lemma RunTypes(w: World, log: seq<Step>, text: string, clear: bool, pressReturn: bool, delay: Option<nat>,
                 r: Result<(), EffectKnowledge>)
    requires Reported(w, log, TypeMoves(text, clear, pressReturn, delay), r)
    ensures CallsIn(log) <= Calls(text, clear, pressReturn, delay) && Typed(CallsIn(log)) <= text
    ensures r.Success? ==> CallsIn(log) == Calls(text, clear, pressReturn, delay) && Typed(CallsIn(log)) == text
  {
    var moves := TypeMoves(text, clear, pressReturn, delay);
    TypeMovesCall(text, clear, pressReturn, delay);
    CallsPrefix(MovesOf(log), moves);
    PartTypesPrefix(text, clear, pressReturn, delay, CallsIn(log));
    CallsConserve(text, clear, pressReturn, delay);
    hide TypeMoves, Calls, Typed, CallsOf, MovesOf;
  }

  // However a run of presses ends, it has pressed that key alone, and as often as asked if it succeeds.
  lemma RunPresses(w: World, log: seq<Step>, key: string, count: nat, r: Result<(), EffectKnowledge>)
    requires Reported(w, log, PressMoves(key, count), r)
    ensures CallsIn(log) == Repeated(key, |CallsIn(log)|) && |CallsIn(log)| <= count
    ensures r.Success? ==> |CallsIn(log)| == count
  {
    PressMovesAre(key, count);
    CallsPrefix(MovesOf(log), PressMoves(key, count));
    RepeatedPrefix(key, count, CallsIn(log));
    hide PressMoves, CallsOf, MovesOf;
  }

  lemma {:induction false} RepeatedPrefix(key: string, count: nat, calls: seq<Call>)
    requires calls <= Repeated(key, count)
    ensures calls == Repeated(key, |calls|)
  {
    if |calls| < count {
      RepeatedPrefix(key, count - 1, calls);
    }
  }

  // ----- A run under way -----

  lemma OneStep(log: seq<Step>, step: Step)
    ensures MovesOf(log + [step]) == MovesOf(log) + [step.move]
    ensures CallsIn(log + [step]) == CallsIn(log) + if step.move.Try? then [step.move.call] else []
  {
    assert MovesOf(log + [step]) == MovesOf(log) + [step.move];
    CallsSnoc(MovesOf(log), step.move);
  }

  // Something was tried.
  predicate Tried(log: seq<Step>) {
    CallsIn(log) != []
  }

  function Then(done: seq<Move>, move: Move): seq<Move> {
    done + [move]
  }

  predicate Next(done: seq<Move>, move: Move, all: seq<Move>) {
    done + [move] <= all
  }

  // The run has made the moves `done`, all of them well, between two moments.
  predicate Underway(w: World, log: seq<Step>, all: seq<Move>, from: int, now: int, done: seq<Move>) {
    MovesOf(log) == done && Smooth(w, log, all) && InTime(log, from, now) && from <= now
  }

  // The next of the moves is made: if it goes well the run goes on, if not it ends.
  lemma Moved(w: World, log: seq<Step>, step: Step, all: seq<Move>, from: int, done: seq<Move>)
    requires Underway(w, log, all, from, step.at, done) && Next(done, step.move, all)
    ensures var log' := log + [step];
            && log'[|log'| - 1] == step && (Tried(log') <==> step.move.Try? || Tried(log))
            && (Fine(w, step) ==> forall t | t > step.at :: Underway(w, log', all, from, t, Then(done, step.move)))
            && (!Fine(w, step) ==> forall e :: Reported(w, log', all, Failure(e)))
            && forall t | t > step.at :: InTime(log', from, t)
  {
    hide Fine, CallsIn;
    OneStep(log, step);
    assert (log + [step])[|log|] == step;
  }

  lemma NotMoved(w: World, all: seq<Move>, from: int)
    ensures Underway(w, [], all, from, from, []) && !Tried([]) && InTime([], from, from)
  {
  }

  lemma AllMoved(w: World, log: seq<Step>, all: seq<Move>, from: int, now: int)
    requires Underway(w, log, all, from, now, all)
    ensures Reported(w, log, all, Success(())) && InTime(log, from, now)
  {
  }

  // What has been done, what has been read of the next chunk, and what is left are all the moves.
  ghost predicate Left(done: seq<Move>, chunk: nat, rest: string, pressReturn: bool, delay: Option<nat>,
                       all: seq<Move>)
  {
    && chunk <= |rest| && chunk < ChunkSize(delay)
    && exists before: seq<Move> ::
         && done == before + Looks(chunk)
         && before + ChunkMoves(rest, delay) + ReturnMoves(pressReturn) == all
  }

  lemma AllLeft(text: string, clear: bool, pressReturn: bool, delay: Option<nat>)
    ensures var all, first := TypeMoves(text, clear, pressReturn, delay), Try(TypeCall("", true, false, None));
            && (clear ==> Next([], first, all))
            && Left(if clear then Then([], first) else [], 0, Rest("", text, 0), pressReturn, delay, all)
  {
    assert Rest("", text, 0) == text;
    assert ClearMoves(clear) == ClearMoves(clear) + Looks(0);
    assert clear ==> ClearMoves(clear) == Then([], Try(TypeCall("", true, false, None)));
  }

  lemma OneMoreLook(n: nat)
    ensures Looks(n + 1) == Looks(n) + [Look]
  {
  }

  // The moves for a text start with a look for each character of its first chunk.
  lemma StartsLooking(rest: string, delay: Option<nat>, n: nat)
    requires n <= |rest| && n <= ChunkSize(delay)
    ensures Looks(n) <= ChunkMoves(rest, delay)
  {
  }

  // What is left of the text when its first `i` characters have been read and `chunk` is not yet typed.
  function Rest(chunk: string, text: string, i: nat): string
    requires i <= |text|
  {
    chunk + text[i..]
  }

  lemma Reads(chunk: string, text: string, i: nat)
    requires i < |text|
    ensures Rest(chunk, text, i) == Rest(chunk + [text[i]], text, i + 1) && |chunk| < |Rest(chunk, text, i)|
  {
  }

  // There is something more to read, so a look is next.
  lemma LookLeft(done: seq<Move>, chunk: nat, rest: string, pressReturn: bool, delay: Option<nat>, all: seq<Move>)
    requires Left(done, chunk, rest, pressReturn, delay, all) && chunk < |rest|
    ensures Next(done, Look, all)
    ensures chunk + 1 < ChunkSize(delay) ==> Left(Then(done, Look), chunk + 1, rest, pressReturn, delay, all)
  {
    var before :| done == before + Looks(chunk)
                  && before + ChunkMoves(rest, delay) + ReturnMoves(pressReturn) == all;
    StartsLooking(rest, delay, chunk + 1);
    OneMoreLook(chunk);
    hide ChunkMoves, Looks, ReturnMoves, ChunkSize;
    assert done + [Look] == before + Looks(chunk + 1);
  }

  // The look that fills a chunk is followed by the call that types it.
  lemma ChunkLeft(done: seq<Move>, chunk: string, text: string, i: nat, pressReturn: bool, delay: Option<nat>,
                  all: seq<Move>)
    requires chunk != "" && |chunk| == ChunkSize(delay) && i <= |text|
    requires Left(done, |chunk| - 1, Rest(chunk, text, i), pressReturn, delay, all)
    ensures var call := Try(TypeCall(chunk, false, false, delay));
            && Next(Then(done, Look), call, all)
            && Left(Then(Then(done, Look), call), 0, Rest("", text, i), pressReturn, delay, all)
  {
    var n, call := ChunkSize(delay), Try(TypeCall(chunk, false, false, delay));
    var before :| done == before + Looks(n - 1)
                  && before + ChunkMoves(Rest(chunk, text, i), delay) + ReturnMoves(pressReturn) == all;
    FirstChunk(chunk, text[i..], delay);
    assert Rest("", text, i) == text[i..];
    OneMoreLook(n - 1);
    hide ChunkMoves, ReturnMoves, ChunkSize, Looks, Rest;
    AfterChunk(before, Looks(n - 1), call, ChunkMoves(text[i..], delay), ReturnMoves(pressReturn));
    var done' := done + [Look] + [call];
    assert done' == done' + Looks(0);
  }

  lemma AfterChunk(before: seq<Move>, looks: seq<Move>, call: Move, rest: seq<Move>, last: seq<Move>)
    ensures var done := before + looks + [Look] + [call];
            done + rest + last == before + (looks + [Look] + [call] + rest) + last
  {
  }

  lemma FirstChunk(chunk: string, rest: string, delay: Option<nat>)
    requires |chunk| == ChunkSize(delay)
    ensures ChunkMoves(chunk + rest, delay) ==
            Looks(|chunk|) + [Try(TypeCall(chunk, false, false, delay))] + ChunkMoves(rest, delay)
  {
    assert (chunk + rest)[..|chunk|] == chunk && (chunk + rest)[|chunk|..] == rest;
    if rest == [] {
      assert chunk + rest == chunk;
    }
  }

  // After `done`, what completes the moves is a last chunk, if there is one, a look, and the return key, if asked for.
  predicate Finishes(done: seq<Move>, chunk: string, pressReturn: bool, delay: Option<nat>, all: seq<Move>) {
    var call, last := Try(TypeCall(chunk, false, false, delay)), Try(TypeCall("", false, true, None));
    var done' := if chunk == "" then done else Then(done, call);
    && (chunk != "" ==> Next(done, call, all)) && Next(done', Look, all)
    && (pressReturn ==> Next(Then(done', Look), last, all))
    && all == if pressReturn then Then(Then(done', Look), last) else Then(done', Look)
  }

  // When all of the text has been read, what is left of it is one short call, or nothing.
  lemma LastLeft(done: seq<Move>, chunk: string, text: string, pressReturn: bool, delay: Option<nat>, all: seq<Move>)
    requires Left(done, |chunk|, Rest(chunk, text, |text|), pressReturn, delay, all)
    ensures Finishes(done, chunk, pressReturn, delay, all)
  {
    assert Rest(chunk, text, |text|) == chunk;
    var done' := if chunk == "" then done else Then(done, Try(TypeCall(chunk, false, false, delay)));
    assert done' + ReturnMoves(pressReturn) == all;
  }

  lemma {:induction false} PairsNext(key: string, i: nat, count: nat)
    requires i <= count
    ensures var done, all := PressPairs(key, i), PressMoves(key, count);
            && Next(done, Look, all) && (i == 0 ==> done == []) && (i == count ==> Then(done, Look) == all)
            && (i < count ==> Next(Then(done, Look), Try(PressCall(key)), all)
                              && Then(Then(done, Look), Try(PressCall(key))) == PressPairs(key, i + 1))
    decreases count - i
  {
    if i < count {
      PairsNext(key, i + 1, count);
      assert PressPairs(key, i + 1) == PressPairs(key, i) + [Look] + [Try(PressCall(key))];
    }
  }

  // ----- The dispatchers -----

  class Keyboard {
    const world: World
    var now: int
    // Every look and every call of the current dispatch.
    ghost var log: seq<Step>

    constructor (world: World)
      ensures this.world == world && log == []
    {
      this.world := world;
      now := 0;
      log := [];
    }

    method Runtime(call: Call) returns (r: Result<(), EffectKnowledge>)
      modifies this
      ensures log == old(log) + [Step(Try(call), old(now))] && now == old(now) + 1
      ensures r.Success? <==> Fine(world, Step(Try(call), old(now)))
      ensures r.Failure? ==> r.error.Unknown?
    {
      r := if Works(world, now, call) then Success(()) else Failure(Unknown);
      log := log + [Step(Try(call), now)];
      now := now + 1;
    }

    // A look while typing; a stop before anything was tried asks the flag once more.
    method CheckTyping(started: bool) returns (r: Result<(), EffectKnowledge>)
      modifies this
      ensures log == old(log) + [Step(Look, old(now))] && old(now) < now
      ensures r.Success? <==> Fine(world, Step(Look, old(now)))
      ensures r.Failure? ==> r.error == if started then Unknown else KnownStop(world, old(now) + 1)
    {
      var stopped, cancelled := Stopped(world, now), world.cancelled(now + 1);
      log := log + [Step(Look, now)];
      now := now + 2;
      if !stopped {
        return Success(());
      }
      return Failure(if started then Unknown else if cancelled then CancelledKnown else ExpiredKnown);
    }

    // A look before a press; a stop before the first one says which of the two it was.
    method CheckPartial(started: bool) returns (r: Result<(), EffectKnowledge>)
      modifies this
      ensures log == old(log) + [Step(Look, old(now))] && now == old(now) + 1
      ensures r.Success? <==> Fine(world, Step(Look, old(now)))
      ensures r.Failure? ==> r.error == if started then Unknown else KnownStop(world, old(now))
    {
      var cancelled, late := world.cancelled(now), world.late(now);
      log := log + [Step(Look, now)];
      now := now + 1;
      if started {
        return if cancelled || late then Failure(Unknown) else Success(());
      }
      if cancelled {
        return Failure(CancelledKnown);
      }
      return if late then Failure(ExpiredKnown) else Success(());
    }

    // What remains when all of the text has been read: the last chunk, a look, and the return key.
    method FinishTyping(chunk: string, pressReturn: bool, delay: Option<nat>, started: bool,
                        ghost from: int, ghost done: seq<Move>, ghost all: seq<Move>)
      returns (r: Result<(), EffectKnowledge>)
      requires Underway(world, log, all, from, now, done) && (started <==> Tried(log))
      requires Finishes(done, chunk, pressReturn, delay, all)
      modifies this
      ensures TypingEnds(world, log, all, from, now, r)
    {
      hide Fine, Then, Next, Underway, Tried, InTime, Reported;
      ghost var made := done;
      if chunk != "" {
        Moved(world, log, Step(Try(TypeCall(chunk, false, false, delay)), now), all, from, made);
        var _ :- Runtime(TypeCall(chunk, false, false, delay));
        made := Then(made, Try(TypeCall(chunk, false, false, delay)));
      }
      Moved(world, log, Step(Look, now), all, from, made);
      var _ :- CheckTyping(started || chunk != "");
      made := Then(made, Look);
      if pressReturn {
        Moved(world, log, Step(Try(TypeCall("", false, true, None)), now), all, from, made);
        var _ :- Runtime(TypeCall("", false, true, None));
      }
      AllMoved(world, log, all, from, now);
      return Success(());
    }

    method DispatchTypeText(text: string, clear: bool, pressReturn: bool, delay: Option<nat>)
      returns (r: Result<(), EffectKnowledge>)
      modifies this
      ensures !Typable(text, delay) ==> log == [] && r == Failure(NoEffect)
      ensures Typable(text, delay) ==>
                TypingEnds(world, log, TypeMoves(text, clear, pressReturn, delay), old(now), now, r)
    {
      hide ChunkSize, Fine, Typable, TypeMoves, Left, Rest, Then, Next, Underway, Tried, InTime, Reported, Finishes;
      log := [];
      ghost var from, all, done: seq<Move> := now, TypeMoves(text, clear, pressReturn, delay), [];
      NotMoved(world, all, from);
      if !Typable(text, delay) {
        return Failure(NoEffect);
      }
      AllLeft(text, clear, pressReturn, delay);
      if clear {
        Moved(world, log, Step(Try(TypeCall("", true, false, None)), now), all, from, done);
        var _ :- Runtime(TypeCall("", true, false, None));
        done := Then(done, Try(TypeCall("", true, false, None)));
      }
      var started := clear;
      var size := ChunkSize(delay);
      var chunk: string := "";
      for i := 0 to |text|
        invariant Left(done, |chunk|, Rest(chunk, text, i), pressReturn, delay, all)
        invariant Underway(world, log, all, from, now, done)
        invariant |chunk| < size
        invariant started <==> Tried(log)
      {
        Reads(chunk, text, i);
        LookLeft(done, |chunk|, Rest(chunk, text, i), pressReturn, delay, all);
        Moved(world, log, Step(Look, now), all, from, done);
        var _ :- CheckTyping(started);
        chunk := chunk + [text[i]];
        if |chunk| == size {
          ChunkLeft(done, chunk, text, i + 1, pressReturn, delay, all);
          done := Then(done, Look);
          Moved(world, log, Step(Try(TypeCall(chunk, false, false, delay)), now), all, from, done);
          var _ :- Runtime(TypeCall(chunk, false, false, delay));
          done := Then(done, Try(TypeCall(chunk, false, false, delay)));
          started := true;
          chunk := "";
        } else {
          done := Then(done, Look);
        }
      }
      LastLeft(done, chunk, text, pressReturn, delay, all);
      r := FinishTyping(chunk, pressReturn, delay, started, from, done, all);
    }

    // A key pressed `count` times, with a look before each; the look afterwards always doubts.
    method DispatchPress(key: string, count: nat) returns (r: Result<(), EffectKnowledge>)
      modifies this
      ensures InTime(log, old(now), now) && Reported(world, log, PressMoves(key, count), r)
      ensures r.Failure? ==>
                r.error == if Tried(log) || count == 0 then Unknown else KnownStop(world, log[|log| - 1].at)
    {
      hide Fine, PressPairs, PressMoves, Then, Next, Underway, Tried, InTime, Reported;
      log := [];
      ghost var from, all := now, PressMoves(key, count);
      NotMoved(world, all, from);
      PairsNext(key, 0, count);
      for i := 0 to count
        invariant Underway(world, log, all, from, now, PressPairs(key, i)) && (Tried(log) <==> i > 0)
      {
        PairsNext(key, i, count);
        Moved(world, log, Step(Look, now), all, from, PressPairs(key, i));
        var _ :- CheckPartial(i > 0);
        Moved(world, log, Step(Try(PressCall(key)), now), all, from, Then(PressPairs(key, i), Look));
        var _ :- Runtime(PressCall(key));
      }
      PairsNext(key, count, count);
      Moved(world, log, Step(Look, now), all, from, PressPairs(key, count));
      var _ :- CheckPartial(true);
      AllMoved(world, log, all, from, now);
      return Success(());
    }
  }

  // How typing ends: a failure is of unknown effect exactly if something was tried, and otherwise names the stop.
  predicate TypingEnds(w: World, log: seq<Step>, all: seq<Move>, from: int, now: int, r: Result<(), EffectKnowledge>) {
    && InTime(log, from, now) && Reported(w, log, all, r)
    && (r.Failure? ==> r.error == if Tried(log) then Unknown else KnownStop(w, log[|log| - 1].at + 1))
  }

  // The stop is named rightly, if the flag is never taken back: as a cancellation if the flag was seen,
  // as an expiry only if the clock ran out while it was not.
  lemma StopIsNamed(w: World, looked: int, asked: int)
    requires Stopped(w, looked) && (w.cancelled(looked) ==> w.cancelled(asked))
    ensures KnownStop(w, asked) == CancelledKnown <==> w.cancelled(asked)
    ensures KnownStop(w, asked) == ExpiredKnown ==> w.late(looked) && !w.cancelled(looked)
    ensures KnownStop(w, asked) == CancelledKnown || KnownStop(w, asked) == ExpiredKnown
  {
  }

  // Which stop is named when nothing has been tried.
  function KnownStop(w: World, t: int): EffectKnowledge {
    if w.cancelled(t) then CancelledKnown else ExpiredKnown
  }
}
