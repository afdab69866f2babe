// A codec for ledger records that meets everything the model asks of one. It stands in for JSON: a
// record is written as a list of fields of numbers, each in unary.
module RecordCodec {
  import opened Wrappers
  import opened Jsonl
  import opened Types
  import opened Ledger

  // ----- Fields of numbers as bytes -----

  const TICK: byte := 97
  const STOP: byte := 98
  const FIELD: byte := 99

  function Unary(n: nat): seq<byte> {
    if n == 0 then [STOP] else [TICK] + Unary(n - 1)
  }

  function FieldBytes(xs: seq<nat>): seq<byte> {
    if xs == [] then [FIELD] else Unary(xs[0]) + FieldBytes(xs[1..])
  }

  function Bytes(fields: seq<seq<nat>>): seq<byte> {
    if fields == [] then [] else FieldBytes(fields[0]) + Bytes(fields[1..])
  }

  lemma {:induction false} UnaryCode(m: nat, n: nat, a: seq<byte>, b: seq<byte>)
    requires Unary(m) + a == Unary(n) + b
    ensures m == n && a == b
    decreases m
  {
    assert (Unary(m) + a)[0] == (Unary(n) + b)[0];
    if m == 0 || n == 0 {
      assert (Unary(m) + a)[1..] == a && (Unary(n) + b)[1..] == b;
    } else {
      assert (Unary(m) + a)[1..] == Unary(m - 1) + a && (Unary(n) + b)[1..] == Unary(n - 1) + b;
      UnaryCode(m - 1, n - 1, a, b);
    }
  }

  lemma UnaryStarts(n: nat)
    ensures |Unary(n)| > 0 && Unary(n)[0] != FIELD
  {
  }

  lemma {:induction false} FieldCode(xs: seq<nat>, ys: seq<nat>, a: seq<byte>, b: seq<byte>)
    requires FieldBytes(xs) + a == FieldBytes(ys) + b
    ensures xs == ys && a == b
    decreases |xs|
  {
    var s, t := FieldBytes(xs) + a, FieldBytes(ys) + b;
    assert s[0] == t[0];
    if xs == [] || ys == [] {
      if xs != [] {
        UnaryStarts(xs[0]);
      }
      if ys != [] {
        UnaryStarts(ys[0]);
      }
      assert s[1..] == a && t[1..] == b;
    } else {
      assert s == Unary(xs[0]) + (FieldBytes(xs[1..]) + a) && t == Unary(ys[0]) + (FieldBytes(ys[1..]) + b);
      UnaryCode(xs[0], ys[0], FieldBytes(xs[1..]) + a, FieldBytes(ys[1..]) + b);
      FieldCode(xs[1..], ys[1..], a, b);
      assert xs == [xs[0]] + xs[1..] && ys == [ys[0]] + ys[1..];
    }
  }

  lemma FieldStarts(xs: seq<nat>)
    ensures |FieldBytes(xs)| > 0
  {
  }

  lemma {:induction false} BytesCode(fs: seq<seq<nat>>, gs: seq<seq<nat>>)
    requires Bytes(fs) == Bytes(gs)
    ensures fs == gs
    decreases |fs|
  {
    if fs != [] {
      FieldStarts(fs[0]);
    }
    if gs != [] {
      FieldStarts(gs[0]);
    }
    if fs != [] && gs != [] {
      FieldCode(fs[0], gs[0], Bytes(fs[1..]), Bytes(gs[1..]));
      BytesCode(fs[1..], gs[1..]);
      assert fs == [fs[0]] + fs[1..] && gs == [gs[0]] + gs[1..];
    }
  }

  lemma {:induction false} UnaryPlain(n: nat)
    ensures forall i | 0 <= i < |Unary(n)| :: 97 <= Unary(n)[i] <= 99
  {
    if n > 0 {
      UnaryPlain(n - 1);
    }
  }

  lemma {:induction false} FieldPlain(xs: seq<nat>)
    ensures forall i | 0 <= i < |FieldBytes(xs)| :: 97 <= FieldBytes(xs)[i] <= 99
  {
    if xs != [] {
      UnaryPlain(xs[0]);
      FieldPlain(xs[1..]);
    }
  }

  lemma {:induction false} BytesPlain(fields: seq<seq<nat>>)
    ensures forall i | 0 <= i < |Bytes(fields)| :: 97 <= Bytes(fields)[i] <= 99
  {
    if fields != [] {
      FieldPlain(fields[0]);
      BytesPlain(fields[1..]);
    }
  }

  // ----- Records as fields -----

  function Chars(s: string): seq<nat> {
    seq(|s|, i requires 0 <= i < |s| => s[i] as nat)
  }

  lemma CharsCode(s: string, t: string)
    ensures Chars(s) == Chars(t) ==> s == t
  {
    if Chars(s) == Chars(t) {
      assert |s| == |Chars(s)| == |t|;
      forall i | 0 <= i < |s| ensures s[i] == t[i] {
        assert Chars(s)[i] == s[i] as nat && Chars(t)[i] == t[i] as nat;
      }
    }
  }

  function Maybe(s: Option<string>): seq<nat> {
    if s.Some? then [1] + Chars(s.value) else [0]
  }

  lemma MaybeCode(s: Option<string>, t: Option<string>)
    ensures Maybe(s) == Maybe(t) ==> s == t
  {
    if Maybe(s) == Maybe(t) {
      assert Maybe(s)[0] == Maybe(t)[0];
      if s.Some? {
        assert Maybe(s)[1..] == Chars(s.value) && Maybe(t)[1..] == Chars(t.value);
        CharsCode(s.value, t.value);
      }
    }
  }

  function RouteNumber(r: DeliveryRoute): nat {
    match r
    case TargetAddressed => 1
    case Pointer => 2
    case PerProcessEvent => 3
    case UnknownRoute => 4
  }

  function IsolationNumber(s: SessionIsolation): nat {
    match s
    case SharedDesktop => 1
    case HostIsolated => 2
    case UnknownIsolation => 3
  }

  function ModeNumber(m: InteractionMode): nat {
    match m
    case Interactive => 1
    case BackgroundOnly => 2
    case UnknownMode => 3
  }

  function ContextNumber(c: ContextPreservation): nat {
    match c
    case NotApplicable => 1
    case UnchangedAtBoundaries => 2
    case Changed => 3
    case Unavailable => 4
    case IsolatedByHost => 5
  }

  function EffectNumber(e: Effect): nat {
    match e
    case Verified => 1
    case ExecutedUnverified => 2
    case UnknownEffect => 3
  }

  function CodeNumber(c: FailureCode): nat {
    match c
    case InvalidRequestCode => 1
    case StaleTargetCode => 2
    case TargetNotFoundCode => 3
    case UnsupportedCode => 4
    case DispatchFailedCode => 5
    case OtherCode => 6
  }

  function MessageNumber(m: Message): nat {
    match m
    case InterruptedOutcome => 1
    case BoundaryReached => 2
    case ContextUnproven => 3
    case VerificationFailed => 4
    case EffectUnknown => 5
    case DurabilityUnknown => 6
    case Refusal => 7
  }

  function EvidenceFields(e: Option<Evidence>): (fields: seq<seq<nat>>)
    ensures |fields| == 4
  {
    match e
    case None => [[0], [], [], []]
    case Some(v) => [[1], Chars(v.observationHash), Maybe(v.targetFingerprintHash), Chars(v.displayGeometryHash)]
  }

  lemma EvidenceCode(e: Option<Evidence>, e': Option<Evidence>)
    ensures EvidenceFields(e) == EvidenceFields(e') ==> e == e'
  {
    var fs, fs' := EvidenceFields(e), EvidenceFields(e');
    if fs == fs' {
      assert fs[0] == fs'[0];
      assert fs[0][0] == fs'[0][0];
      if e.Some? {
        assert fs[1] == fs'[1] && fs[2] == fs'[2] && fs[3] == fs'[3];
        CharsCode(e.value.observationHash, e'.value.observationHash);
        MaybeCode(e.value.targetFingerprintHash, e'.value.targetFingerprintHash);
        CharsCode(e.value.displayGeometryHash, e'.value.displayGeometryHash);
      }
    }
  }

  function ReceiptFields(r: Receipt): (fields: seq<seq<nat>>)
    ensures |fields| == 11
  {
    [Chars(r.actionName), Chars(r.actionHash),
     [RouteNumber(r.route), IsolationNumber(r.isolation), ModeNumber(r.mode), ContextNumber(r.context),
      EffectNumber(r.effect)]]
    + EvidenceFields(r.before) + EvidenceFields(r.after)
  }

  lemma ReceiptCode(r: Receipt, r': Receipt)
    ensures ReceiptFields(r) == ReceiptFields(r') ==> r == r'
  {
    var fs, fs' := ReceiptFields(r), ReceiptFields(r');
    if fs == fs' {
      assert fs[0] == fs'[0] && fs[1] == fs'[1] && fs[2] == fs'[2];
      assert fs[3..7] == EvidenceFields(r.before) && fs'[3..7] == EvidenceFields(r'.before);
      assert fs[7..] == EvidenceFields(r.after) && fs'[7..] == EvidenceFields(r'.after);
      CharsCode(r.actionName, r'.actionName);
      CharsCode(r.actionHash, r'.actionHash);
      EvidenceCode(r.before, r'.before);
      EvidenceCode(r.after, r'.after);
      hide EvidenceFields, Chars;
      NumbersCode(r, r', fs[2], fs'[2]);
    }
  }

  lemma NumbersCode(r: Receipt, r': Receipt, xs: seq<nat>, ys: seq<nat>)
    requires xs == ys
    requires xs == [RouteNumber(r.route), IsolationNumber(r.isolation), ModeNumber(r.mode), ContextNumber(r.context),
                    EffectNumber(r.effect)]
    requires ys == [RouteNumber(r'.route), IsolationNumber(r'.isolation), ModeNumber(r'.mode),
                    ContextNumber(r'.context), EffectNumber(r'.effect)]
    ensures r.route == r'.route && r.isolation == r'.isolation && r.mode == r'.mode && r.context == r'.context
    ensures r.effect == r'.effect
  {
    assert xs[0] == ys[0] && xs[1] == ys[1] && xs[2] == ys[2] && xs[3] == ys[3] && xs[4] == ys[4];
  }

  // The tag comes first and decides what follows.
  function TerminalFields(t: Terminal): (fields: seq<seq<nat>>)
    ensures |fields| > 0 && |fields[0]| == 2
  {
    match t
    case Succeeded(receipt) => [[1, 0]] + ReceiptFields(receipt)
    case Rejected(code) => [[2, CodeNumber(code)]]
    case Failed(code) => [[3, CodeNumber(code)]]
    case CancelledBeforeEffect => [[4, 0]]
    case ExpiredBeforeEffect => [[5, 0]]
    case OutcomeUnknown(receipt, message) => [[6, MessageNumber(message)]] + ReceiptFields(receipt)
  }

  lemma TerminalCode(t: Terminal, t': Terminal)
    ensures TerminalFields(t) == TerminalFields(t') ==> t == t'
  {
    var fs, fs' := TerminalFields(t), TerminalFields(t');
    if fs == fs' {
      assert fs[0] == fs'[0];
      assert fs[0][0] == fs'[0][0] && fs[0][1] == fs'[0][1];
      if t.Succeeded? || t.OutcomeUnknown? {
        assert fs[1..] == ReceiptFields(t.receipt) && fs'[1..] == ReceiptFields(t'.receipt);
        ReceiptCode(t.receipt, t'.receipt);
      }
      hide ReceiptFields;
    }
  }

  function FactFields(f: ClaimFacts): (fields: seq<seq<nat>>)
    ensures |fields| == 2
  {
    [Maybe(f.actionName),
     [if f.route.Some? then RouteNumber(f.route.value) else 0,
      if f.isolation.Some? then IsolationNumber(f.isolation.value) else 0,
      if f.mode.Some? then ModeNumber(f.mode.value) else 0]]
  }

  lemma FactCode(f: ClaimFacts, f': ClaimFacts)
    ensures FactFields(f) == FactFields(f') ==> f == f'
  {
    var fs, fs' := FactFields(f), FactFields(f');
    if fs == fs' {
      assert fs[0] == fs'[0] && fs[1] == fs'[1];
      assert fs[1][0] == fs'[1][0] && fs[1][1] == fs'[1][1] && fs[1][2] == fs'[1][2];
      MaybeCode(f.actionName, f'.actionName);
      hide Maybe;
    }
  }

  function KeyOf(r: LedgerRecord): OutcomeKey {
    match r
    case ClaimRecord(key, _) => key
    case TerminalRecord(ack) => ack.key
  }

  function Fields(r: LedgerRecord): (fields: seq<seq<nat>>)
    ensures |fields| > 3
  {
    [[if r.ClaimRecord? then 0 else if r.ack.replayed then 1 else 2], Chars(KeyOf(r).operationId),
     Chars(KeyOf(r).actionHash)]
    + if r.ClaimRecord? then FactFields(r.facts) else TerminalFields(r.ack.terminal)
  }

  lemma FieldsCode(r: LedgerRecord, r': LedgerRecord)
    requires Fields(r) == Fields(r')
    ensures r == r'
  {
    var fs, fs' := Fields(r), Fields(r');
    assert fs[0] == fs'[0] && fs[1] == fs'[1] && fs[2] == fs'[2] && fs[3..] == fs'[3..];
    assert fs[0][0] == fs'[0][0];
    CharsCode(KeyOf(r).operationId, KeyOf(r').operationId);
    CharsCode(KeyOf(r).actionHash, KeyOf(r').actionHash);
    if r.ClaimRecord? {
      FactCode(r.facts, r'.facts);
      assert fs[3..] == FactFields(r.facts) && fs'[3..] == FactFields(r'.facts);
    } else {
      TerminalCode(r.ack.terminal, r'.ack.terminal);
      assert fs[3..] == TerminalFields(r.ack.terminal) && fs'[3..] == TerminalFields(r'.ack.terminal);
    }
    hide FactFields, TerminalFields, Chars;
  }

  // ----- The codec -----

  function Encode(r: LedgerRecord): seq<byte> {
    Bytes(Fields(r))
  }

  ghost function Decode(b: seq<byte>): (r: Option<LedgerRecord>)
    ensures r.Some? ==> Encode(r.value) == b
    ensures r.None? ==> forall x :: Encode(x) != b
  {
    if x: LedgerRecord :| Encode(x) == b then Some(x) else None
  }

  ghost function RecordsCodec(): Codec<LedgerRecord> {
    Codec(r => Encode(r), b => Decode(b))
  }

  // There is a codec with a round trip, without newlines and without blank lines.
  lemma CodecExists()
    ensures ValidCodec(RecordsCodec())
  {
    var c := RecordsCodec();
    forall r: LedgerRecord
      ensures NEWLINE !in c.encode(r) && !TrimBlank(c.encode(r)) && c.decode(c.encode(r)) == Some(r)
    {
      EncodeIsValid(r);
    }
  }

  lemma EncodeIsValid(r: LedgerRecord)
    ensures NEWLINE !in Encode(r) && !TrimBlank(Encode(r)) && Decode(Encode(r)) == Some(r)
  {
    BytesPlain(Fields(r));
    FieldStarts(Fields(r)[0]);
    assert |Encode(r)| > 0;
    var d := Decode(Encode(r));
    BytesCode(Fields(d.value), Fields(r));
    FieldsCode(d.value, r);
    hide Bytes, Fields;
    assert 97 <= Encode(r)[0] <= 99;
  }
}
