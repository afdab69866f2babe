// The byte level of an append-only JSON-lines file: how it is read back, how a torn last
// line is cut off, and which contents can be found on disk after a power failure.
module Jsonl {
  import opened Wrappers
  import opened Types

  const NEWLINE: byte := 10

  datatype FileError = InvalidRecord | CorruptRecord

  // Serialisation of one record. The source uses serde_json; the model only relies on ValidCodec.
  datatype Codec<!R> = Codec(encode: R -> seq<byte>, decode: seq<byte> -> Option<R>)

  // The test of the tail repair: only ASCII whitespace.
  predicate AsciiBlank(line: seq<byte>) {
    forall i | 0 <= i < |line| :: line[i] == 9 || line[i] == 10 || line[i] == 12 || line[i] == 13 || line[i] == 32
  }

  // The test of the reader, which also trims the vertical tab.
  predicate TrimBlank(line: seq<byte>) {
    forall i | 0 <= i < |line| :: 9 <= line[i] <= 13 || line[i] == 32
  }

  // The two tests differ in the vertical tab alone; blank bytes are tab, line feed, form feed, carriage
  // return and space.
  lemma BlanksDiffer(line: seq<byte>)
    ensures AsciiBlank(line) <==> TrimBlank(line) && 11 !in line
    ensures AsciiBlank(line) <==> forall b | b in line :: b in {9, 10, 12, 13, 32}
    ensures NEWLINE == 10 && AsciiBlank([NEWLINE])
  {
    if forall b | b in line :: b in {9, 10, 12, 13, 32} {
      assert forall i | 0 <= i < |line| :: line[i] in line;
    }
  }

  // JSON text round-trips, is never blank, and escapes control characters (section 7 of RFC 8259).
  ghost predicate ValidCodec<R(!new)>(c: Codec<R>) {
    forall r: R {:trigger c.encode(r)} ::
      && NEWLINE !in c.encode(r)
      && !TrimBlank(c.encode(r))
      && c.decode(c.encode(r)) == Some(r)
  }

  // ----- Lines -----

  // The number of bytes up to and including the last newline.
  function DurableLen(b: seq<byte>): (n: nat)
    ensures n <= |b|
    ensures n == 0 || b[n - 1] == NEWLINE
    ensures forall i | n <= i < |b| :: b[i] != NEWLINE
  {
    if b == [] then 0
    else if b[|b| - 1] == NEWLINE then |b|
    else DurableLen(b[..|b| - 1])
  }

  // The terminated lines of a file, and the unterminated bytes after them.
  function Whole(b: seq<byte>): seq<byte> {
    b[..DurableLen(b)]
  }

  function Torn(b: seq<byte>): seq<byte> {
    b[DurableLen(b)..]
  }

  function FirstNewline(b: seq<byte>): (n: nat)
    ensures n <= |b|
    ensures forall i | 0 <= i < n :: b[i] != NEWLINE
    ensures n < |b| ==> b[n] == NEWLINE
  {
    if b == [] || b[0] == NEWLINE then 0 else 1 + FirstNewline(b[1..])
  }

  function AfterLine(b: seq<byte>, n: nat): seq<byte>
    requires n <= |b|
  {
    if n < |b| then b[n + 1..] else []
  }

  // The lines the tail repair insists on: blank, or a record.
  predicate LinesOk<R>(c: Codec<R>, b: seq<byte>)
    decreases |b|
  {
    b == [] ||
    var n := FirstNewline(b);
    (AsciiBlank(b[..n]) || c.decode(b[..n]).Some?) && LinesOk(c, AfterLine(b, n))
  }

  // What the repair leaves in the file.
  function Repaired<R>(c: Codec<R>, b: seq<byte>): Result<seq<byte>, FileError> {
    if LinesOk(c, Whole(b)) then Success(Whole(b)) else Failure(InvalidRecord)
  }

  // What the reader returns: blank lines are skipped, an unreadable last line is dropped,
  // an unreadable earlier line is an error.
  function ReadRecords<R>(c: Codec<R>, b: seq<byte>): Result<seq<R>, FileError>
    decreases |b|
  {
    if b == [] then Success([])
    else
      var n := FirstNewline(b);
      var rest := AfterLine(b, n);
      if TrimBlank(b[..n]) then ReadRecords(c, rest)
      else
        match c.decode(b[..n])
        case Some(r) =>
          var rs :- ReadRecords(c, rest);
          Success([r] + rs)
        case None => if rest == [] then Success([]) else Failure(CorruptRecord)
  }

  // ----- Files written by the ledger -----

  function Frame<R>(c: Codec<R>, r: R): seq<byte> {
    c.encode(r) + [NEWLINE]
  }

  function Image<R>(c: Codec<R>, rs: seq<R>): seq<byte> {
    if rs == [] then [] else Frame(c, rs[0]) + Image(c, rs[1..])
  }

  // The records whose newline reached the file.
  function Recs<R>(c: Codec<R>, b: seq<byte>): seq<R> {
    match ReadRecords(c, Whole(b))
    case Success(rs) => rs
    case Failure(_) => []
  }

  // The terminated part is exactly a sequence of framed records.
  ghost predicate Clean<R>(c: Codec<R>, b: seq<byte>) {
    Whole(b) == Image(c, Recs(c, b))
  }

  lemma DurableLenIs(b: seq<byte>, n: nat)
    requires n <= |b|
    requires n == 0 || b[n - 1] == NEWLINE
    requires forall i | n <= i < |b| :: b[i] != NEWLINE
    ensures DurableLen(b) == n
  {
    var m := DurableLen(b);
    assert n > 0 ==> b[n - 1] == NEWLINE;
    assert m > 0 ==> b[m - 1] == NEWLINE;
  }

  lemma FirstNewlineIs(b: seq<byte>, n: nat)
    requires n < |b| && b[n] == NEWLINE
    requires forall i | 0 <= i < n :: b[i] != NEWLINE
    ensures FirstNewline(b) == n
  {
    assert b[n] == NEWLINE;
  }

  // A framed record in front of any bytes is read as one line.
  lemma FirstLineOfFrame<R(!new)>(c: Codec<R>, r: R, tail: seq<byte>)
    requires ValidCodec(c)
    ensures var b := Frame(c, r) + tail; var n := FirstNewline(b);
            n == |c.encode(r)| && b[..n] == c.encode(r) && AfterLine(b, n) == tail
  {
    var b := Frame(c, r) + tail;
    var e := c.encode(r);
    assert forall i | 0 <= i < |e| :: b[i] == e[i] && e[i] in e;
    FirstNewlineIs(b, |e|);
  }

  lemma {:induction false} ReadImage<R(!new)>(c: Codec<R>, rs: seq<R>)
    requires ValidCodec(c)
    ensures ReadRecords(c, Image(c, rs)) == Success(rs)
    ensures LinesOk(c, Image(c, rs))
  {
    if rs != [] {
      FirstLineOfFrame(c, rs[0], Image(c, rs[1..]));
      ReadImage(c, rs[1..]);
      assert [rs[0]] + rs[1..] == rs;
    }
  }

  lemma {:induction false} ImageEnds<R(!new)>(c: Codec<R>, rs: seq<R>)
    ensures Image(c, rs) == [] || Image(c, rs)[|Image(c, rs)| - 1] == NEWLINE
  {
    if rs != [] {
      ImageEnds(c, rs[1..]);
    }
  }

  lemma {:induction false} ImageSnoc<R(!new)>(c: Codec<R>, rs: seq<R>, r: R)
    ensures Image(c, rs + [r]) == Image(c, rs) + Frame(c, r)
  {
    if rs == [] {
      assert rs + [r] == [r];
      assert Image(c, [r]) == Frame(c, r) + Image(c, []);
    } else {
      ImageSnoc(c, rs[1..], r);
      assert (rs + [r])[1..] == rs[1..] + [r];
    }
  }

  // Records and torn bytes are read back from what was written.
  lemma LogParts<R(!new)>(c: Codec<R>, rs: seq<R>, t: seq<byte>)
    requires ValidCodec(c) && NEWLINE !in t
    ensures var b := Image(c, rs) + t;
            Whole(b) == Image(c, rs) && Torn(b) == t && Recs(c, b) == rs && Clean(c, b)
  {
    var b := Image(c, rs) + t;
    ImageEnds(c, rs);
    DurableLenIs(b, |Image(c, rs)|);
    ReadImage(c, rs);
  }

  lemma CleanParts<R(!new)>(c: Codec<R>, b: seq<byte>)
    requires Clean(c, b)
    ensures b == Image(c, Recs(c, b)) + Torn(b)
    ensures NEWLINE !in Torn(b)
  {
    hide Image, Recs, ReadRecords, DurableLen;
    assert b == Whole(b) + Torn(b);
  }

  lemma NewlineBeyond(b: seq<byte>, d: seq<byte>, k: int)
    requires d <= b && d != [] && d[|d| - 1] == NEWLINE
    requires 0 <= k <= |b| && forall i | 0 <= i < k :: b[i] != NEWLINE
    ensures |d| > k
  {
    assert b[|d| - 1] == d[|d| - 1];
  }

  // A newline-terminated prefix of a log is a log of a prefix of its records.
  lemma {:induction false} PrefixOfImage<R(!new)>(c: Codec<R>, rs: seq<R>, t: seq<byte>, d: seq<byte>) returns (n: nat)
    requires ValidCodec(c) && NEWLINE !in t
    requires d <= Image(c, rs) + t
    requires d == [] || d[|d| - 1] == NEWLINE
    ensures n <= |rs| && d == Image(c, rs[..n])
  {
    if d == [] {
      n := 0;
    } else if rs == [] {
      NewlineBeyond(t, d, |t|);
      assert false;
    } else {
      var f := Frame(c, rs[0]);
      var rest := Image(c, rs[1..]);
      assert Image(c, rs) + t == f + (rest + t);
      assert forall i | 0 <= i < |f| - 1 :: f[i] in c.encode(rs[0]);
      NewlineBeyond(f + (rest + t), d, |f| - 1);
      var d' := d[|f|..];
      assert d == f + d' by {
        assert d[..|f|] == f;
      }
      assert d' <= rest + t by {
        assert forall i | 0 <= i < |d'| :: d'[i] == d[|f| + i] == (f + (rest + t))[|f| + i] == (rest + t)[i];
      }
      var m := PrefixOfImage(c, rs[1..], t, d');
      n := m + 1;
      assert rs[..n][1..] == rs[1..][..m];
      assert rs[..n][0] == rs[0];
    }
  }

  // ----- Storage -----

  // What a power failure may leave of a file whose synced content is `durable` and whose
  // current content is `cache`: nothing they agree on is lost, and what follows is a prefix of
  // the unsynced writes, or bytes whose truncation had not been synced.
  ghost predicate CrashImage(durable: seq<byte>, cache: seq<byte>, image: seq<byte>) {
    && (image <= durable || image <= cache)
    && forall n | 0 <= n <= |durable| && n <= |cache| && durable[..n] == cache[..n] ::
         n <= |image| && image[..n] == durable[..n]
  }

  lemma DurablePrefix<R(!new)>(c: Codec<R>, durable: seq<byte>, cache: seq<byte>)
    requires ValidCodec(c) && Clean(c, cache) && Whole(durable) <= cache
    ensures Clean(c, durable)
    ensures Recs(c, durable) <= Recs(c, cache)
  {
    CleanParts(c, cache);
    var rs := Recs(c, cache);
    var n := PrefixOfImage(c, rs, Torn(cache), Whole(durable));
    LogParts(c, rs[..n], Torn(durable));
    assert durable == Image(c, rs[..n]) + Torn(durable);
  }

  // Dropping the torn bytes keeps every record.
  lemma WholeKeeps<R(!new)>(c: Codec<R>, b: seq<byte>)
    requires ValidCodec(c) && Clean(c, b)
    ensures Repaired(c, b) == Success(Whole(b))
    ensures Clean(c, Whole(b)) && Recs(c, Whole(b)) == Recs(c, b) && Torn(Whole(b)) == []
    ensures Whole(b) == b <==> Torn(b) == []
  {
    LogParts(c, Recs(c, b), []);
    assert Image(c, Recs(c, b)) + [] == Whole(b);
    ReadImage(c, Recs(c, b));
  }

  lemma CrashedWhole(durable: seq<byte>, cache: seq<byte>, image: seq<byte>)
    requires Whole(durable) <= cache && CrashImage(durable, cache, image)
    ensures Whole(durable) <= image && Whole(image) <= cache
  {
    hide DurableLen;
    var n := DurableLen(durable);
    assert durable[..n] == cache[..n];
    if image <= cache {
      assert Whole(image) <= image;
    } else {
      DurableLenIs(image, n);
      assert Whole(image) == Whole(durable);
    }
  }

  // A power failure keeps every synced record and invents none.
  lemma CrashKeeps<R(!new)>(c: Codec<R>, durable: seq<byte>, cache: seq<byte>, image: seq<byte>)
    requires ValidCodec(c) && Clean(c, cache) && Whole(durable) <= cache
    requires CrashImage(durable, cache, image)
    ensures Clean(c, image) && Whole(image) <= cache
    ensures Recs(c, durable) <= Recs(c, image) <= Recs(c, cache)
  {
    CrashedWhole(durable, cache, image);
    hide Clean, Recs, Whole, CrashImage;
    DurablePrefix(c, image, cache);
    DurablePrefix(c, durable, cache);
    WholeMonotone(durable, image);
    DurablePrefix(c, durable, image);
  }

  lemma WholeMonotone(durable: seq<byte>, image: seq<byte>)
    requires Whole(durable) <= image
    ensures Whole(durable) <= Whole(image)
  {
    var n := DurableLen(durable);
    assert n > 0 ==> image[n - 1] == Whole(durable)[n - 1];
  }

  // Writing the next bytes of a framed record: nothing changes for readers until its newline
  // is written, and then exactly this record is added.
  lemma WriteChunk<R(!new)>(c: Codec<R>, cache: seq<byte>, r: R, done: nat, n: nat)
    requires ValidCodec(c) && Clean(c, cache)
    requires n > 0 && done + n <= |Frame(c, r)| && Torn(cache) == Frame(c, r)[..done]
    ensures var cache' := cache + Frame(c, r)[done..done + n];
            && Clean(c, cache')
            && if done + n < |Frame(c, r)|
               then Recs(c, cache') == Recs(c, cache) && Torn(cache') == Frame(c, r)[..done + n]
               else Recs(c, cache') == Recs(c, cache) + [r] && Torn(cache') == []
  {
    CleanParts(c, cache);
    var f := Frame(c, r);
    var rs := Recs(c, cache);
    var cache' := cache + f[done..done + n];
    assert f[..done] + f[done..done + n] == f[..done + n];
    assert cache' == Image(c, rs) + f[..done + n];
    if done + n < |f| {
      assert f[..done + n] == c.encode(r)[..done + n];
      LogParts(c, rs, f[..done + n]);
    } else {
      ImageSnoc(c, rs, r);
      assert f[..done + n] == f;
      assert cache' == Image(c, rs + [r]) + [];
      LogParts(c, rs + [r], []);
    }
  }
}
