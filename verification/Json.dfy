// JSON values as the protocol uses them: the canonical form that is hashed and signed, and the
// limits on the expected state of a verification request.
module Json {
  import opened Types

  // UTF-8 text; lengths are counted and keys are compared in bytes.
  type Text = seq<byte>

  // The characters of ASCII text.
  function AsChars(t: Text): string {
    seq(|t|, i requires 0 <= i < |t| => t[i] as char)
  }

  // An object keeps its entries in insertion order; its keys are distinct.
  datatype Value =
    | Null
    | Bool(b: bool)
    | Number(text: Text)
    | String(s: Text)
    | Array(items: seq<Value>)
    | Object(entries: seq<Entry>)

  datatype Entry = Entry(key: Text, value: Value)

  predicate DistinctKeys(es: seq<Entry>) {
    forall i, j | 0 <= i < j < |es| :: es[i].key != es[j].key
  }

  function KeysOf(es: seq<Entry>): set<Text> {
    set i | 0 <= i < |es| :: es[i].key
  }

  predicate Valid(v: Value) {
    match v
    case Array(items) => forall i | 0 <= i < |items| :: Valid(items[i])
    case Object(es) => DistinctKeys(es) && forall i | 0 <= i < |es| :: Valid(es[i].value)
    case _ => true
  }

  // ----- Key order -----

  predicate Before(a: Text, b: Text) {
    if b == [] then false
    else if a == [] then true
    else a[0] < b[0] || (a[0] == b[0] && Before(a[1..], b[1..]))
  }

  lemma {:induction false} BeforeTotal(a: Text, b: Text)
    ensures a != b ==> Before(a, b) || Before(b, a)
    ensures !(Before(a, b) && Before(b, a))
    ensures !Before(a, a)
  {
    if a != [] && b != [] {
      BeforeTotal(a[1..], b[1..]);
      assert a[0] == b[0] && a[1..] == b[1..] ==> a == [a[0]] + a[1..] == b;
    }
    if a != [] {
      BeforeTotal(a[1..], a[1..]);
    }
  }

  lemma {:induction false} BeforeTransitive(a: Text, b: Text, c: Text)
    requires Before(a, b) && Before(b, c)
    ensures Before(a, c)
  {
    if a != [] && a[0] == b[0] == c[0] {
      BeforeTransitive(a[1..], b[1..], c[1..]);
    }
  }

  predicate StrictlySorted(es: seq<Entry>) {
    forall i, j | 0 <= i < j < |es| :: Before(es[i].key, es[j].key)
  }

  // ----- Sorting by key -----

  function Insert(e: Entry, es: seq<Entry>): seq<Entry> {
    if es == [] then [e]
    else if Before(es[0].key, e.key) then [es[0]] + Insert(e, es[1..])
    else [e] + es
  }

  function SortByKey(es: seq<Entry>): seq<Entry> {
    if es == [] then [] else Insert(es[0], SortByKey(es[1..]))
  }

  lemma {:induction false} InsertKeeps(e: Entry, es: seq<Entry>)
    requires StrictlySorted(es) && forall i | 0 <= i < |es| :: es[i].key != e.key
    ensures StrictlySorted(Insert(e, es))
    ensures |Insert(e, es)| == |es| + 1
    ensures forall x :: x in Insert(e, es) <==> x == e || x in es
  {
    if es != [] {
      var r := Insert(e, es);
      if Before(es[0].key, e.key) {
        InsertKeeps(e, es[1..]);
        var tail := Insert(e, es[1..]);
        forall i, j | 0 <= i < j < |r| ensures Before(r[i].key, r[j].key) {
          assert j > 0 && r[j] == tail[j - 1] && tail[j - 1] in tail;
        }
      } else {
        BeforeTotal(es[0].key, e.key);
        forall i, j | 0 <= i < j < |r| ensures Before(r[i].key, r[j].key) {
          if i == 0 && j > 1 {
            BeforeTransitive(e.key, es[0].key, es[j - 1].key);
          }
        }
      }
    }
  }

  lemma {:induction false} SortKeeps(es: seq<Entry>)
    requires DistinctKeys(es)
    ensures StrictlySorted(SortByKey(es))
    ensures |SortByKey(es)| == |es|
    ensures forall x :: x in SortByKey(es) <==> x in es
  {
    if es != [] {
      SortKeeps(es[1..]);
      var rest := SortByKey(es[1..]);
      forall i | 0 <= i < |rest| ensures rest[i].key != es[0].key {
        assert rest[i] in es[1..];
      }
      InsertKeeps(es[0], rest);
    }
  }

  lemma HasMember(es: seq<Entry>)
    ensures es != [] ==> exists x :: x in es
  {
    if es != [] {
      assert es[0] in es;
    }
  }

  // A strictly sorted list is determined by what it contains.
  lemma {:induction false} SortedUnique(xs: seq<Entry>, ys: seq<Entry>)
    requires StrictlySorted(xs) && StrictlySorted(ys)
    requires forall x :: x in xs <==> x in ys
    ensures xs == ys
    decreases |xs|
  {
    if xs == [] {
      HasMember(ys);
    } else {
      assert xs[0] in ys;
      assert ys[0] in xs;
      var i :| 0 <= i < |xs| && xs[i] == ys[0];
      var j :| 0 <= j < |ys| && ys[j] == xs[0];
      BeforeTotal(xs[0].key, ys[0].key);
      assert xs[0] == ys[0];
      forall x ensures x in xs[1..] <==> x in ys[1..] {
        BeforeTotal(xs[0].key, xs[0].key);
        assert x in xs <==> x == xs[0] || x in xs[1..];
        assert x in ys <==> x == ys[0] || x in ys[1..];
      }
      SortedUnique(xs[1..], ys[1..]);
    }
  }

  // Entries with equal keys are equal.
  predicate Agree(cs: seq<Entry>, ds: seq<Entry>) {
    forall i, j | 0 <= i < |cs| && 0 <= j < |ds| && cs[i].key == ds[j].key :: cs[i] == ds[j]
  }

  lemma SameMembers(cs: seq<Entry>, ds: seq<Entry>)
    requires KeysOf(cs) == KeysOf(ds) && Agree(cs, ds)
    ensures forall x :: x in cs <==> x in ds
  {
    forall x ensures x in cs <==> x in ds {
      if x in cs {
        assert x.key in KeysOf(ds);
      }
      if x in ds {
        assert x.key in KeysOf(cs);
      }
    }
  }

  // Sorting two lists gives the same list exactly when they bind the same keys to the same values.
  lemma SortExact(cs: seq<Entry>, ds: seq<Entry>)
    requires DistinctKeys(cs) && DistinctKeys(ds)
    ensures SortByKey(cs) == SortByKey(ds) <==> KeysOf(cs) == KeysOf(ds) && Agree(cs, ds)
  {
    SortKeeps(cs);
    SortKeeps(ds);
    if SortByKey(cs) == SortByKey(ds) {
      SameElements(cs, ds);
      SameElements(ds, cs);
    } else if KeysOf(cs) == KeysOf(ds) && Agree(cs, ds) {
      hide SortByKey;
      SameMembers(cs, ds);
      SortedUnique(SortByKey(cs), SortByKey(ds));
    }
  }

  lemma SameElements(cs: seq<Entry>, ds: seq<Entry>)
    requires DistinctKeys(ds) && forall x | x in cs :: x in ds
    ensures KeysOf(cs) <= KeysOf(ds)
    ensures Agree(cs, ds)
  {
    forall i | 0 <= i < |cs| ensures cs[i].key in KeysOf(ds) {
      assert cs[i] in ds;
    }
    forall i, j | 0 <= i < |cs| && 0 <= j < |ds| && cs[i].key == ds[j].key ensures cs[i] == ds[j] {
      assert cs[i] in ds;
      var k :| 0 <= k < |ds| && ds[k] == cs[i];
      assert k == j;
    }
  }

  // ----- The canonical form -----

  function Canonical(v: Value): Value {
    match v
    case Array(items) => Array(seq(|items|, i requires 0 <= i < |items| => Canonical(items[i])))
    case Object(es) => Object(SortByKey(seq(|es|,
                                            i requires 0 <= i < |es| => Entry(es[i].key, Canonical(es[i].value)))))
    case _ => v
  }

  function CanonicalEntries(es: seq<Entry>): (r: seq<Entry>)
    ensures |r| == |es|
    ensures forall i | 0 <= i < |es| :: r[i] == Entry(es[i].key, Canonical(es[i].value))
  {
    seq(|es|, i requires 0 <= i < |es| => Entry(es[i].key, Canonical(es[i].value)))
  }

  // Equal up to the order of object keys, at every depth.
  ghost predicate Same(v: Value, w: Value) {
    match (v, w)
    case (Array(xs), Array(ys)) => |xs| == |ys| && forall i | 0 <= i < |xs| :: Same(xs[i], ys[i])
    case (Object(es), Object(fs)) =>
      && KeysOf(es) == KeysOf(fs)
      && forall i, j | 0 <= i < |es| && 0 <= j < |fs| && es[i].key == fs[j].key :: Same(es[i].value, fs[j].value)
    case _ => v == w
  }

  lemma ObjectCanonical(es: seq<Entry>)
    requires DistinctKeys(es)
    ensures Canonical(Object(es)) == Object(SortByKey(CanonicalEntries(es)))
    ensures DistinctKeys(CanonicalEntries(es)) && KeysOf(CanonicalEntries(es)) == KeysOf(es)
  {
    hide SortByKey;
    var cs := CanonicalEntries(es);
    assert seq(|es|, i requires 0 <= i < |es| => Entry(es[i].key, Canonical(es[i].value))) == cs;
    forall k ensures k in KeysOf(cs) <==> k in KeysOf(es) {
      if k in KeysOf(es) {
        var i :| 0 <= i < |es| && es[i].key == k;
        assert cs[i].key == k;
      }
    }
  }

  // The entries of a canonical object, seen from the entries they come from.
  lemma CanonicalLookup(es: seq<Entry>)
    requires DistinctKeys(es)
    ensures var fs := SortByKey(CanonicalEntries(es));
            && StrictlySorted(fs) && DistinctKeys(fs) && KeysOf(fs) == KeysOf(es)
            && (forall i, j | 0 <= i < |es| && 0 <= j < |fs| && es[i].key == fs[j].key ::
                fs[j].value == Canonical(es[i].value))
            && (forall j | 0 <= j < |fs| :: exists i :: 0 <= i < |es| && fs[j].value == Canonical(es[i].value))
  {
    ObjectCanonical(es);
    var cs := CanonicalEntries(es);
    var fs := SortByKey(cs);
    SortKeeps(cs);
    hide Canonical, SortByKey, CanonicalEntries;
    forall i, j | 0 <= i < j < |fs| ensures fs[i].key != fs[j].key {
      BeforeTotal(fs[i].key, fs[j].key);
    }
    SameElements(fs, cs);
    SameElements(cs, fs);
    forall j | 0 <= j < |fs| ensures exists i :: 0 <= i < |es| && fs[j].value == Canonical(es[i].value) {
      assert fs[j] in cs;
      var i :| 0 <= i < |cs| && cs[i] == fs[j];
    }
  }

  // The order of keys byte by byte: at the first difference the smaller byte comes first, and a
  // proper prefix comes before the longer key.
  ghost predicate Less(a: Text, b: Text) {
    exists n: nat :: n <= |a| && n < |b| && a[..n] == b[..n] && (n == |a| || a[n] < b[n])
  }

  lemma {:induction false} BeforeIsLess(a: Text, b: Text)
    ensures Before(a, b) <==> Less(a, b)
  {
    if Before(a, b) {
      if a == [] {
        assert a[..0] == b[..0];
      } else if a[0] < b[0] {
        assert a[..0] == b[..0];
      } else {
        BeforeIsLess(a[1..], b[1..]);
        var n: nat :| n <= |a[1..]| && n < |b[1..]| && a[1..][..n] == b[1..][..n]
                      && (n == |a[1..]| || a[1..][n] < b[1..][n]);
        assert a[..n + 1] == [a[0]] + a[1..][..n] == b[..n + 1];
      }
    }
    if Less(a, b) {
      var n: nat :| n <= |a| && n < |b| && a[..n] == b[..n] && (n == |a| || a[n] < b[n]);
      if a != [] && n > 0 {
        assert a[0] == a[..n][0] == b[..n][0] == b[0];
        assert a[1..][..n - 1] == a[..n][1..] == b[..n][1..] == b[1..][..n - 1];
        BeforeIsLess(a[1..], b[1..]);
      }
    }
  }

  // In every object at every depth the keys ascend.
  ghost predicate Ascending(v: Value) {
    match v
    case Array(items) => forall i | 0 <= i < |items| :: Ascending(items[i])
    case Object(es) =>
      && (forall i, j | 0 <= i < j < |es| :: Less(es[i].key, es[j].key))
      && forall i | 0 <= i < |es| :: Ascending(es[i].value)
    case _ => true
  }

  lemma {:induction false} CanonicalAscends(v: Value)
    requires Valid(v)
    ensures Ascending(Canonical(v))
  {
    match v {
      case Array(items) =>
        forall i | 0 <= i < |items| ensures Ascending(Canonical(items[i])) {
          CanonicalAscends(items[i]);
        }
      case Object(es) =>
        forall i | 0 <= i < |es| ensures Ascending(Canonical(es[i].value)) {
          CanonicalAscends(es[i].value);
        }
        ObjectCanonical(es);
        CanonicalLookup(es);
        var fs := SortByKey(CanonicalEntries(es));
        forall i, j | 0 <= i < j < |fs| ensures Less(fs[i].key, fs[j].key) {
          BeforeIsLess(fs[i].key, fs[j].key);
        }
        hide SortByKey, CanonicalEntries, Canonical, Less;
      case _ =>
    }
  }

  // The canonical form keeps every key and value, at every depth.
  lemma {:induction false} CanonicalSame(v: Value)
    requires Valid(v)
    ensures Same(v, Canonical(v)) && Valid(Canonical(v))
  {
    match v {
      case Array(items) =>
        forall i | 0 <= i < |items| ensures Same(items[i], Canonical(items[i])) && Valid(Canonical(items[i])) {
          CanonicalSame(items[i]);
        }
      case Object(es) =>
        forall i | 0 <= i < |es| ensures Same(es[i].value, Canonical(es[i].value)) && Valid(Canonical(es[i].value)) {
          CanonicalSame(es[i].value);
        }
        ObjectCanonical(es);
        CanonicalLookup(es);
        hide SortByKey, CanonicalEntries, Canonical;
      case _ =>
    }
  }

  // Two values have the same canonical form exactly when they differ only in key order.
  lemma {:induction false} CanonicalEqual(v: Value, w: Value)
    requires Valid(v) && Valid(w)
    ensures Canonical(v) == Canonical(w) <==> Same(v, w)
    decreases v, 1
  {
    match (v, w) {
      case (Array(xs), Array(ys)) => ItemsEqual(v, w);
      case (Object(es), Object(fs)) =>
        forall i, j | 0 <= i < |es| && 0 <= j < |fs|
          ensures Canonical(es[i].value) == Canonical(fs[j].value) <==> Same(es[i].value, fs[j].value)
        {
          CanonicalEqual(es[i].value, fs[j].value);
        }
        EntriesEqual(es, fs);
      case _ =>
    }
  }

  lemma {:induction false} ItemsEqual(v: Value, w: Value)
    requires v.Array? && w.Array? && Valid(v) && Valid(w)
    ensures Canonical(v) == Canonical(w) <==> Same(v, w)
    decreases v, 0
  {
    var xs, ys := v.items, w.items;
    var cs, ds := Canonical(v).items, Canonical(w).items;
    if |xs| == |ys| {
      forall i | 0 <= i < |xs| ensures cs[i] == ds[i] <==> Same(xs[i], ys[i]) {
        CanonicalEqual(xs[i], ys[i]);
      }
      if Same(v, w) {
        assert cs == ds;
      } else {
        var i :| 0 <= i < |xs| && !Same(xs[i], ys[i]);
        assert cs[i] != ds[i];
      }
    }
  }

  lemma EntriesEqual(es: seq<Entry>, fs: seq<Entry>)
    requires DistinctKeys(es) && DistinctKeys(fs)
    requires forall i, j | 0 <= i < |es| && 0 <= j < |fs| ::
               Canonical(es[i].value) == Canonical(fs[j].value) <==> Same(es[i].value, fs[j].value)
    ensures Canonical(Object(es)) == Canonical(Object(fs)) <==> Same(Object(es), Object(fs))
  {
    ObjectCanonical(es);
    ObjectCanonical(fs);
    var cs, ds := CanonicalEntries(es), CanonicalEntries(fs);
    hide Canonical, SortByKey, CanonicalEntries;
    SortExact(cs, ds);
    assert forall i, j | 0 <= i < |es| && 0 <= j < |fs| && es[i].key == fs[j].key ::
        cs[i] == ds[j] <==> Same(es[i].value, fs[j].value);
    assert forall i | 0 <= i < |es| :: cs[i].key == es[i].key;
    assert forall j | 0 <= j < |fs| :: ds[j].key == fs[j].key;
  }

  lemma CanonicalIdempotent(v: Value)
    requires Valid(v)
    ensures Canonical(Canonical(v)) == Canonical(v)
  {
    CanonicalSame(v);
    CanonicalEqual(v, Canonical(v));
  }

  // The in-place form: sort the entries, then canonicalise each value and insert it again.
  method CanonicalizeJson(v: Value) returns (r: Value)
    requires Valid(v)
    ensures r == Canonical(v)
    decreases v
  {
    match v {
      case Array(items) =>
        var out := [];
        for k := 0 to |items|
          invariant |out| == k && forall i | 0 <= i < k :: out[i] == Canonical(items[i])
        {
          var item := CanonicalizeJson(items[k]);
          out := out + [item];
        }
        r := Array(out);
      case Object(es) =>
        var sorted := SortByKey(es);
        SortKeeps(es);
        var out := [];
        for k := 0 to |sorted|
          invariant |out| == k && forall i | 0 <= i < k :: out[i] == Entry(sorted[i].key, Canonical(sorted[i].value))
        {
          assert sorted[k] in es;
          var Entry(key, value) := sorted[k];
          var canonical := CanonicalizeJson(value);
          out := out + [Entry(key, canonical)];
        }
        SortThenMap(es, out);
        r := Object(out);
      case _ =>
        r := v;
    }
  }

  // Sorting before or after canonicalising the values gives the same entries.
  lemma SortThenMap(es: seq<Entry>, out: seq<Entry>)
    requires DistinctKeys(es) && out == CanonicalEntries(SortByKey(es))
    ensures Object(out) == Canonical(Object(es))
  {
    SortKeeps(es);
    var sorted, cs := SortByKey(es), CanonicalEntries(es);
    ObjectCanonical(es);
    SortKeeps(cs);
    hide Canonical, SortByKey, CanonicalEntries;
    forall x ensures x in out <==> x in cs {
      if x in out {
        var k :| 0 <= k < |out| && out[k] == x;
        assert sorted[k] in es;
        var i :| 0 <= i < |es| && es[i] == sorted[k];
        assert cs[i] == x;
      }
      if x in cs {
        var i :| 0 <= i < |cs| && cs[i] == x;
        assert es[i] in sorted;
        var k :| 0 <= k < |sorted| && sorted[k] == es[i];
        assert out[k] == x;
      }
    }
    SortedUnique(out, SortByKey(cs));
  }

  // ----- The size limits -----

  const MAX_BYTES: nat := 64 * 1024
  const MAX_DEPTH: nat := 32
  const MAX_NODES: nat := 4096

  function Max(a: nat, b: nat): nat {
    if a < b then b else a
  }

  function Nodes(v: Value): nat
    decreases v, 1
  {
    1 + match v
        case Array(items) => ItemNodes(items)
        case Object(es) => EntryNodes(es)
        case _ => 0
  }

  function ItemNodes(vs: seq<Value>): nat
    decreases vs, 0
  {
    if vs == [] then 0 else Nodes(vs[0]) + ItemNodes(vs[1..])
  }

  function EntryNodes(es: seq<Entry>): nat
    decreases es, 0
  {
    if es == [] then 0 else Nodes(es[0].value) + EntryNodes(es[1..])
  }

  function Bytes(v: Value): nat
    decreases v, 1
  {
    match v
    case Number(text) => |text|
    case String(s) => |s|
    case Array(items) => ItemBytes(items)
    case Object(es) => EntryBytes(es)
    case _ => 0
  }

  function ItemBytes(vs: seq<Value>): nat
    decreases vs, 0
  {
    if vs == [] then 0 else Bytes(vs[0]) + ItemBytes(vs[1..])
  }

  function EntryBytes(es: seq<Entry>): nat
    decreases es, 0
  {
    if es == [] then 0 else |es[0].key| + Bytes(es[0].value) + EntryBytes(es[1..])
  }

  // The depth of the deepest value below `v`, which itself is at depth 0.
  function Depth(v: Value): nat
    decreases v, 1
  {
    match v
    case Array(items) => ItemDepth(items)
    case Object(es) => EntryDepth(es)
    case _ => 0
  }

  function ItemDepth(vs: seq<Value>): nat
    decreases vs, 0
  {
    if vs == [] then 0 else Max(1 + Depth(vs[0]), ItemDepth(vs[1..]))
  }

  function EntryDepth(es: seq<Entry>): nat
    decreases es, 0
  {
    if es == [] then 0 else Max(1 + Depth(es[0].value), EntryDepth(es[1..]))
  }

  predicate WithinLimits(v: Value) {
    Nodes(v) <= MAX_NODES && Depth(v) <= MAX_DEPTH && Bytes(v) <= MAX_BYTES
  }

  // The totals over a work stack of values and their depths.
  function StackNodes(stack: seq<(Value, nat)>): nat {
    if stack == [] then 0 else StackNodes(stack[..|stack| - 1]) + Nodes(stack[|stack| - 1].0)
  }

  function StackBytes(stack: seq<(Value, nat)>): nat {
    if stack == [] then 0 else StackBytes(stack[..|stack| - 1]) + Bytes(stack[|stack| - 1].0)
  }

  predicate StackShallow(stack: seq<(Value, nat)>) {
    forall i | 0 <= i < |stack| :: stack[i].1 + Depth(stack[i].0) <= MAX_DEPTH
  }

  function Pushed(stack: seq<(Value, nat)>, vs: seq<Value>, depth: nat): seq<(Value, nat)> {
    stack + seq(|vs|, i requires 0 <= i < |vs| => (vs[i], depth))
  }

  lemma StackPush(stack: seq<(Value, nat)>, v: Value, depth: nat)
    ensures StackNodes(stack + [(v, depth)]) == StackNodes(stack) + Nodes(v)
    ensures StackBytes(stack + [(v, depth)]) == StackBytes(stack) + Bytes(v)
    ensures StackShallow(stack + [(v, depth)]) <==> StackShallow(stack) && depth + Depth(v) <= MAX_DEPTH
  {
    var stack' := stack + [(v, depth)];
    assert stack'[..|stack'| - 1] == stack;
    if StackShallow(stack') {
      assert forall i | 0 <= i < |stack| :: stack[i] == stack'[i];
    }
  }

  lemma {:induction false} StackPushAll(stack: seq<(Value, nat)>, vs: seq<Value>, depth: nat)
    ensures StackNodes(Pushed(stack, vs, depth)) == StackNodes(stack) + ItemNodes(vs)
    ensures StackBytes(Pushed(stack, vs, depth)) == StackBytes(stack) + ItemBytes(vs)
    ensures depth > 0 ==>
              (StackShallow(Pushed(stack, vs, depth)) <==>
               StackShallow(stack) && (vs != [] ==> depth - 1 + ItemDepth(vs) <= MAX_DEPTH))
    decreases |vs|
  {
    if vs == [] {
      assert Pushed(stack, vs, depth) == stack;
    } else {
      StackPush(stack, vs[0], depth);
      StackPushAll(stack + [(vs[0], depth)], vs[1..], depth);
      assert Pushed(stack, vs, depth) == Pushed(stack + [(vs[0], depth)], vs[1..], depth);
    }
  }

  // The loop over an object's entries: keys are counted, values are pushed.
  method PushEntries(stack: seq<(Value, nat)>, es: seq<Entry>, depth: nat)
    returns (out: seq<(Value, nat)>, keyBytes: nat)
    requires depth > 0
    ensures StackNodes(out) == StackNodes(stack) + EntryNodes(es)
    ensures StackBytes(out) + keyBytes == StackBytes(stack) + EntryBytes(es)
    ensures StackShallow(out) <==> StackShallow(stack) && (es != [] ==> depth - 1 + EntryDepth(es) <= MAX_DEPTH)
  {
    out, keyBytes := stack, 0;
    for k := 0 to |es|
      invariant StackNodes(out) + EntryNodes(es[k..]) == StackNodes(stack) + EntryNodes(es)
      invariant keyBytes + StackBytes(out) + EntryBytes(es[k..]) == StackBytes(stack) + EntryBytes(es)
      invariant (StackShallow(out) && (es[k..] != [] ==> depth - 1 + EntryDepth(es[k..]) <= MAX_DEPTH)) <==>
                (StackShallow(stack) && (es != [] ==> depth - 1 + EntryDepth(es) <= MAX_DEPTH))
    {
      assert es[k..][1..] == es[k + 1..] && es[k..][0] == es[k];
      StackPush(out, es[k].value, depth);
      keyBytes := keyBytes + |es[k].key|;
      out := out + [(es[k].value, depth)];
    }
  }

  lemma Unfold(v: Value)
    ensures v.Array? ==>
            Nodes(v) == 1 + ItemNodes(v.items) && Bytes(v) == ItemBytes(v.items)
            && Depth(v) == ItemDepth(v.items)
    ensures v.Object? ==>
            Nodes(v) == 1 + EntryNodes(v.entries) && Bytes(v) == EntryBytes(v.entries)
            && Depth(v) == EntryDepth(v.entries)
    ensures !v.Array? && !v.Object? ==> Nodes(v) == 1 && Depth(v) == 0
    ensures v.Null? || v.Bool? ==> Bytes(v) == 0
    ensures v.Number? ==> Bytes(v) == |v.text|
    ensures v.String? ==> Bytes(v) == |v.s|
    ensures v.Array? && v.items == [] ==> Depth(v) == 0
    ensures v.Object? && v.entries == [] ==> Depth(v) == 0
  {
  }

  lemma EmptyStack()
    ensures StackNodes([]) == 0 && StackBytes([]) == 0 && StackShallow([])
  {
  }

  // One popped value: its own bytes are counted and its children are pushed.
  method PushChildren(rest: seq<(Value, nat)>, value: Value, depth: nat) returns (stack: seq<(Value, nat)>, more: nat)
    ensures StackNodes(stack) + 1 == StackNodes(rest) + Nodes(value)
    ensures StackBytes(stack) + more == StackBytes(rest) + Bytes(value)
    ensures StackShallow(stack) && depth <= MAX_DEPTH <==> StackShallow(rest) && depth + Depth(value) <= MAX_DEPTH
  {
    hide StackNodes, StackBytes, StackShallow, Nodes, Bytes, Depth, ItemNodes, ItemBytes, ItemDepth, EntryNodes,
         EntryBytes, EntryDepth;
    Unfold(value);
    stack, more := rest, 0;
    match value {
      case Null =>
      case Bool(_) =>
      case Number(text) => more := |text|;
      case String(s) => more := |s|;
      case Array(items) =>
        StackPushAll(rest, items, depth + 1);
        stack := Pushed(rest, items, depth + 1);
      case Object(es) =>
        stack, more := PushEntries(rest, es, depth + 1);
    }
  }

  // The explicit-stack walk accepts exactly the values within all three limits.
  method ValidateVerification(expected: Value) returns (ok: bool)
    ensures ok <==> WithinLimits(expected)
  {
    var stack: seq<(Value, nat)> := [(expected, 0)];
    var nodes, bytes := 0, 0;
    hide StackNodes, StackBytes, StackShallow, Nodes, Bytes, Depth, ItemNodes, ItemBytes, ItemDepth, EntryNodes,
         EntryBytes, EntryDepth;
    EmptyStack();
    StackPush([], expected, 0);
    assert [] + [(expected, 0)] == stack;
    while stack != []
      invariant nodes + StackNodes(stack) == Nodes(expected)
      invariant bytes + StackBytes(stack) == Bytes(expected)
      invariant StackShallow(stack) <==> Depth(expected) <= MAX_DEPTH
      invariant nodes <= MAX_NODES && bytes <= MAX_BYTES
      decreases StackNodes(stack)
    {
      var (value, depth) := stack[|stack| - 1];
      var rest := stack[..|stack| - 1];
      assert rest + [(value, depth)] == stack;
      StackPush(rest, value, depth);
      nodes := nodes + 1;
      if nodes > MAX_NODES || depth > MAX_DEPTH {
        return false;
      }
      var more;
      stack, more := PushChildren(rest, value, depth);
      bytes := bytes + more;
      if bytes > MAX_BYTES {
        return false;
      }
    }
    return true;
  }
}
