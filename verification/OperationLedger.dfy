// The two ledgers as the engine sees them: the local file, whose reads, writes, truncations and
// syncs may fail at any point, and the host's outcome ledger, whose calls may fail. Which of them
// fail is an arbitrary input.
module OperationLedgers {
  import opened Wrappers
  import opened Jsonl
  import opened Types
  import opened Ledger
  import opened Machine

  // Which of the successive operations on a ledger fail, and how much a failing write still writes.
  datatype Faults = Faults(fails: nat -> bool, part: nat -> nat)

  predicate FailsAt(f: Faults, t: nat) {
    f.fails(t)
  }

  function PartAt(f: Faults, t: nat): nat {
    f.part(t)
  }

  // Nothing failed between two moments.
  ghost predicate NoFault(f: Faults, from: nat, to: nat) {
    forall t | from <= t < to :: !FailsAt(f, t)
  }

  class OperationLedger {
    const codec: LedgerCodec
    const faults: Faults
    // How many operations there have been.
    var now: nat
    var durable: seq<byte>
    var cache: seq<byte>
    var holder: Option<nat>

    // The lock file: taken if free, otherwise the wait is given up.
    method TryLock(me: nat) returns (ok: bool)
      modifies this`holder
      ensures ok <==> old(holder).None?
      ensures holder == if ok then Some(me) else old(holder)
    {
      ok := holder.None?;
      if ok {
        holder := Some(me);
      }
    }

    // The next operation on the file.
    method Operate() returns (ok: bool)
      modifies this`now
      ensures now == old(now) + 1 && (ok <==> !FailsAt(faults, old(now)))
    {
      ok := !FailsAt(faults, now);
      now := now + 1;
    }

    // How much of the file is terminated lines, searching backwards for the last newline.
    method TerminatedLength(bytes: seq<byte>) returns (durableLen: nat)
      ensures durableLen == DurableLen(bytes)
    {
      durableLen := |bytes|;
      while durableLen > 0 && bytes[durableLen - 1] != NEWLINE
        invariant 0 <= durableLen <= |bytes|
        invariant forall i | durableLen <= i < |bytes| :: bytes[i] != NEWLINE
      {
        durableLen := durableLen - 1;
      }
      DurableLenIs(bytes, durableLen);
    }

    // Every terminated line must be blank or a record.
    method CheckLines(bytes: seq<byte>) returns (ok: bool)
      requires bytes == [] || bytes[|bytes| - 1] == NEWLINE
      ensures ok <==> LinesOk(codec, bytes)
    {
      hide LinesOk, FirstNewline;
      NoLines(codec);
      var offset := 0;
      assert bytes[0..] == bytes;
      while offset < |bytes|
        invariant 0 <= offset <= |bytes|
        invariant LinesOk(codec, bytes[offset..]) == LinesOk(codec, bytes)
      {
        var end := offset + FirstNewline(bytes[offset..]);
        OneLine(codec, bytes, offset, end);
        var line := bytes[offset..end];
        if !AsciiBlank(line) && codec.decode(line).None? {
          return false;
        }
        offset := end + 1;
      }
      return true;
    }

    // Cuts off an unterminated last line, after checking every terminated one. The result tells
    // whether anything had to be cut.
    method RepairTail() returns (r: Result<bool, Reason>)
      modifies this`durable, this`cache, this`now
      ensures old(now) < now && (r == Failure(Io) <==> !NoFault(faults, old(now), now))
      ensures r.Success? ==>
                && Repaired(codec, old(cache)) == Success(cache)
                && r.value == (cache != old(cache))
                && durable == if r.value then cache else old(durable)
      ensures r == Failure(InvalidLedger) ==> Repaired(codec, old(cache)).Failure? && cache == old(cache)
      ensures r.Failure? ==> (r.error.Io? || r.error.InvalidLedger?) && durable == old(durable)
      ensures r.Failure? && cache != old(cache) ==> r.error.Io? && Repaired(codec, old(cache)) == Success(cache)
    {
      var ok := Operate();
      if !ok {
        return Failure(Io);
      }
      var bytes := cache;
      var durableLen := TerminatedLength(bytes);
      assert bytes[..|bytes|] == bytes;
      hide LinesOk, DurableLen;
      ok := CheckLines(bytes[..durableLen]);
      if !ok {
        return Failure(InvalidLedger);
      }
      if durableLen != |bytes| {
        ok := Operate();
        if !ok {
          return Failure(Io);
        }
        cache := bytes[..durableLen];
        ok := Operate();
        if !ok {
          return Failure(Io);
        }
        durable := cache;
      }
      r := Success(durableLen != |bytes|);
    }

    // Reads the records back, line by line.
    method Records() returns (r: Result<seq<LedgerRecord>, Reason>)
      modifies this`now
      ensures old(now) < now && (r == Failure(Io) <==> !NoFault(faults, old(now), now))
      ensures r == Failure(Io) || r == match ReadRecords(codec, cache)
                                       case Success(rs) => Success(rs)
                                       case Failure(_) => Failure(CorruptLedger)
    {
      var ok := Operate();
      if !ok {
        return Failure(Io);
      }
      var rest := cache;
      var records: seq<LedgerRecord> := [];
      PrependNothing(records, ReadRecords(codec, cache));
      while rest != []
        invariant ReadRecords(codec, cache) == Prepend(records, ReadRecords(codec, rest))
        invariant now == old(now) + 1
        decreases |rest|
      {
        var n := FirstNewline(rest);
        var line := rest[..n];
        var next := AfterLine(rest, n);
        if !TrimBlank(line) {
          match codec.decode(line) {
            case Some(record) =>
              PrependOne(records, record, ReadRecords(codec, next));
              records := records + [record];
            case None =>
              if next == [] {
                PrependNothing(records, Success([]));
                return Success(records);
              }
              return Failure(CorruptLedger);
          }
        }
        rest := next;
      }
      PrependNothing(records, Success([]));
      r := Success(records);
    }

    // Appends one record: its text, a newline, then a sync. A failure leaves a prefix behind.
    method Append(record: LedgerRecord) returns (ok: bool, ghost n: nat)
      modifies this`durable, this`cache, this`now
      ensures old(now) < now && (ok <==> NoFault(faults, old(now), now))
      ensures n <= |Frame(codec, record)| && cache == old(cache) + Frame(codec, record)[..n]
      ensures ok ==> n == |Frame(codec, record)| && durable == cache
      ensures !ok ==> durable == old(durable)
    {
      var text := codec.encode(record);
      ghost var frame := Frame(codec, record);
      var part := PartAt(faults, now);
      ok := Operate();
      if !ok {
        var k := if part < |text| then part else |text|;
        cache := cache + text[..k];
        assert frame[..k] == text[..k];
        return false, k;
      }
      cache := cache + text;
      assert frame[..|text|] == text;
      ok := Operate();
      if !ok {
        return false, |text|;
      }
      cache := cache + [NEWLINE];
      assert frame[..|frame|] == text + [NEWLINE];
      ok := Operate();
      if !ok {
        return false, |frame|;
      }
      durable := cache;
      return true, |frame|;
    }
  }

  lemma NoLines<R>(c: Codec<R>)
    ensures LinesOk(c, [])
  {
  }

  lemma OneLine<R>(c: Codec<R>, bytes: seq<byte>, offset: nat, end: nat)
    requires offset < |bytes| && bytes[|bytes| - 1] == NEWLINE
    requires end == offset + FirstNewline(bytes[offset..])
    ensures end < |bytes|
    ensures LinesOk(c, bytes[offset..]) <==>
              (AsciiBlank(bytes[offset..end]) || c.decode(bytes[offset..end]).Some?) && LinesOk(c, bytes[end + 1..])
  {
    hide LinesOk, FirstNewline, AsciiBlank;
    var b := bytes[offset..];
    assert b[|b| - 1] == NEWLINE;
    FirstLine(c, b);
    Slices(bytes, offset, end);
  }

  lemma FirstLine<R>(c: Codec<R>, b: seq<byte>)
    requires b != [] && FirstNewline(b) < |b|
    ensures var n := FirstNewline(b);
            LinesOk(c, b) <==> (AsciiBlank(b[..n]) || c.decode(b[..n]).Some?) && LinesOk(c, b[n + 1..])
  {
    hide AsciiBlank, FirstNewline;
  }

  lemma Slices(bytes: seq<byte>, from: nat, to: nat)
    requires from <= to < |bytes|
    ensures bytes[from..][..to - from] == bytes[from..to] && bytes[from..][to - from + 1..] == bytes[to + 1..]
  {
  }

  function Prepend(records: seq<LedgerRecord>, r: Result<seq<LedgerRecord>, FileError>):
    Result<seq<LedgerRecord>, FileError> {
    match r
    case Success(rs) => Success(records + rs)
    case Failure(e) => Failure(e)
  }

  lemma PrependNothing(records: seq<LedgerRecord>, r: Result<seq<LedgerRecord>, FileError>)
    ensures Prepend([], r) == r && Prepend(records, Success([])) == Success(records)
  {
    assert r.Success? ==> [] + r.value == r.value;
    assert records + [] == records;
  }

  lemma PrependOne(records: seq<LedgerRecord>, record: LedgerRecord, r: Result<seq<LedgerRecord>, FileError>)
    ensures Prepend(records, Prepend([record], r)) == Prepend(records + [record], r)
  {
    if r.Success? {
      assert records + ([record] + r.value) == records + [record] + r.value;
    }
  }

  // The host ledger. With `recording` it is the reference in-memory ledger behind calls that may
  // fail, possibly after taking effect; without it, the null ledger.
  class OutcomeLedger {
    const recording: bool
    const faults: Faults
    // How many times a call could have failed.
    var now: nat
    var entries: map<OutcomeKey, Option<Terminal>>

    // A call can fail before or after it has taken effect.
    method Operate() returns (ok: bool)
      modifies this`now
      ensures now == old(now) + 1 && (ok <==> !FailsAt(faults, old(now)))
    {
      ok := !FailsAt(faults, now);
      now := now + 1;
    }

    method Begin(key: OutcomeKey) returns (r: Result<HostAnswer, ()>, ghost applied: bool)
      modifies this
      ensures old(now) <= now && (r.Failure? <==> !NoFault(faults, old(now), now))
      ensures r.Success? ==> (r.value, entries) == HostBegin(recording, old(entries), key)
      ensures r.Failure? ==> recording && entries == if applied then HostBegin(recording, old(entries), key).1
              else old(entries)
    {
      applied := true;
      if !recording {
        return Success(Grant), true;
      }
      var ok := Operate();
      if !ok {
        return Failure(()), false;
      }
      if key !in entries {
        entries := entries[key := None];
        r := Success(Grant);
      } else if entries[key].None? {
        r := Success(NeverRecorded);
      } else {
        r := Success(Recorded(entries[key].value));
      }
      ok := Operate();
      if !ok {
        r := Failure(());
      }
    }

    method Record(key: OutcomeKey, terminal: Terminal) returns (ok: bool, ghost applied: bool)
      modifies this
      ensures old(now) <= now && (ok <==> NoFault(faults, old(now), now))
      ensures entries == if recording && applied then old(entries)[key := Some(terminal)] else old(entries)
      ensures ok ==> applied
      ensures !ok ==> recording
    {
      if !recording {
        return true, true;
      }
      ok := Operate();
      if !ok {
        return false, false;
      }
      entries := entries[key := Some(terminal)];
      applied := true;
      ok := Operate();
    }
  }
}
