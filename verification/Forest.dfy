// The validator of semantic observations, and what a tag or a target reference selects in one.
module Forest {
  import opened Wrappers
  import opened Ancestry
  import opened Types

  const MAX_SEMANTIC_ELEMENTS: nat := 4096

  // `payloadOk` stands for the checks of role, name and bounds.
  datatype Element = Element(
    tag: string,
    id: string,
    parent: Option<string>,
    fingerprint: string,
    payloadOk: bool)

  datatype SemanticError = InvalidObservation | AmbiguousTarget | StaleObservation | TargetNotFound | StaleTarget

  predicate IsDigit(c: char) {
    '0' <= c <= '9'
  }

  predicate ValidTag(s: string) {
    2 <= |s| <= 5 && s[0] == 'e' && forall i | 1 <= i < |s| :: IsDigit(s[i])
  }

  predicate ValidElement(e: Element) {
    && ValidTag(e.tag) && IsHash(e.id) && IsHash(e.fingerprint)
    && (e.parent.Some? ==> IsHash(e.parent.value)) && e.payloadOk
  }

  predicate UniqueTags(es: seq<Element>) {
    forall i, j | 0 <= i < j < |es| :: es[i].tag != es[j].tag
  }

  predicate UniqueIds(es: seq<Element>) {
    forall i, j | 0 <= i < j < |es| :: es[i].id != es[j].id
  }

  function Ids(es: seq<Element>): set<string> {
    set i | 0 <= i < |es| :: es[i].id
  }

  predicate ParentsExist(es: seq<Element>) {
    forall i | 0 <= i < |es| && es[i].parent.Some? :: es[i].parent.value in Ids(es)
  }

  // The parent links of elements with unique ids.
  ghost predicate LinksOf(es: seq<Element>, parents: map<string, string>) {
    && (forall i | 0 <= i < |es| ::
          if es[i].parent.Some? then es[i].id in parents && parents[es[i].id] == es[i].parent.value
            else es[i].id !in parents)
    && (forall id | id in parents :: id in Ids(es))
  }

  lemma LinkOf(es: seq<Element>, links: map<string, string>, i: nat)
    requires LinksOf(es, links) && i < |es|
    ensures es[i].id in links <==> es[i].parent.Some?
    ensures es[i].parent.Some? ==> links[es[i].id] == es[i].parent.value
  {
  }

  ghost predicate IsForest(es: seq<Element>) {
    && UniqueTags(es) && UniqueIds(es) && ParentsExist(es)
    && forall parents | LinksOf(es, parents) :: Acyclic(parents)
  }

  // ----- Tags -----

  function Digit(d: nat): char
    requires d < 10
  {
    '0' + d as char
  }

  function Decimal(n: nat): string {
    if n < 10 then [Digit(n)] else Decimal(n / 10) + [Digit(n % 10)]
  }

  function Value(s: string): nat {
    if s == [] then 0
    else 10 * Value(s[..|s| - 1]) + if IsDigit(s[|s| - 1]) then (s[|s| - 1] - '0') as nat else 0
  }

  lemma {:induction false} DecimalValue(n: nat)
    ensures Value(Decimal(n)) == n
    ensures forall i | 0 <= i < |Decimal(n)| :: IsDigit(Decimal(n)[i])
  {
    var s := Decimal(n);
    if n >= 10 {
      DecimalValue(n / 10);
      assert s[..|s| - 1] == Decimal(n / 10);
    } else {
      assert s[..|s| - 1] == [];
    }
  }

  lemma {:induction false} DecimalLength(n: nat, k: nat)
    requires n < Power10(k) && k > 0
    ensures 1 <= |Decimal(n)| <= k
  {
    if n >= 10 {
      DecimalLength(n / 10, k - 1);
    }
  }

  function Power10(k: nat): nat {
    if k == 0 then 1 else 10 * Power10(k - 1)
  }

  function SemanticTag(index: nat): Result<string, SemanticError> {
    if index >= MAX_SEMANTIC_ELEMENTS then Failure(InvalidObservation) else Success(['e'] + Decimal(index))
  }

  // A valid tag is an e and up to four digits.
  lemma ValidTagExactly(s: string)
    ensures ValidTag(s) <==>
            s != [] && s[0] == 'e' && 0 < |s[1..]| <= 4 && forall c | c in s[1..] :: c in "0123456789"
  {
    if ValidTag(s) {
      forall c | c in s[1..] ensures c in "0123456789" {
        var d := "0123456789";
        assert d[c as int - '0' as int] == c;
      }
    }
    if s != [] && s[0] == 'e' && 0 < |s[1..]| <= 4 && forall c | c in s[1..] :: c in "0123456789" {
      assert forall i | 1 <= i < |s| :: s[i] in s[1..];
    }
  }

  // Within the element limit every index has a valid tag, and no two indexes share one.
  lemma TagsWork(i: nat, j: nat)
    requires i < MAX_SEMANTIC_ELEMENTS && j < MAX_SEMANTIC_ELEMENTS
    ensures ValidTag(SemanticTag(i).value)
    ensures SemanticTag(i) == SemanticTag(j) ==> i == j
    ensures forall k: nat :: SemanticTag(k).Success? <==> k < 4096
  {
    DecimalValue(i);
    DecimalValue(j);
    assert Power10(4) == 10000;
    DecimalLength(i, 4);
    assert (['e'] + Decimal(i))[1..] == Decimal(i) && (['e'] + Decimal(j))[1..] == Decimal(j);
  }

  // ----- The validator -----

  function Tags(es: seq<Element>): set<string> {
    set i | 0 <= i < |es| :: es[i].tag
  }

  lemma NoElements()
    ensures Tags([]) == {} && Ids([]) == {} && UniqueTags([]) && UniqueIds([])
  {
  }

  lemma OneMore(es: seq<Element>, k: nat)
    requires k < |es|
    ensures Tags(es[..k + 1]) == Tags(es[..k]) + {es[k].tag} && Ids(es[..k + 1]) == Ids(es[..k]) + {es[k].id}
    ensures UniqueTags(es[..k + 1]) <==> UniqueTags(es[..k]) && es[k].tag !in Tags(es[..k])
    ensures UniqueIds(es[..k + 1]) <==> UniqueIds(es[..k]) && es[k].id !in Ids(es[..k])
    ensures UniqueTags(es) ==> UniqueTags(es[..k + 1])
    ensures UniqueIds(es) ==> UniqueIds(es[..k + 1])
  {
    var a, b := es[..k + 1], es[..k];
    assert a == b + [es[k]];
    SnocTags(b, es[k]);
    SnocIds(b, es[k]);
  }

  lemma SnocTags(b: seq<Element>, e: Element)
    ensures Tags(b + [e]) == Tags(b) + {e.tag}
    ensures UniqueTags(b + [e]) <==> UniqueTags(b) && e.tag !in Tags(b)
  {
    var a := b + [e];
    assert a[|b|] == e && forall i | 0 <= i < |b| :: a[i] == b[i];
    forall t ensures t in Tags(a) <==> t in Tags(b) + {e.tag} {
      if t in Tags(b) {
        var i :| 0 <= i < |b| && b[i].tag == t;
        assert a[i].tag == t;
      }
      assert a[|b|].tag in Tags(a);
    }
  }

  lemma SnocIds(b: seq<Element>, e: Element)
    ensures Ids(b + [e]) == Ids(b) + {e.id}
    ensures UniqueIds(b + [e]) <==> UniqueIds(b) && e.id !in Ids(b)
  {
    var a := b + [e];
    assert a[|b|] == e && forall i | 0 <= i < |b| :: a[i] == b[i];
    forall t ensures t in Ids(a) <==> t in Ids(b) + {e.id} {
      if t in Ids(b) {
        var i :| 0 <= i < |b| && b[i].id == t;
        assert a[i].id == t;
      }
      assert a[|b|].id in Ids(a);
    }
  }

  // First pass: every element is valid, and no tag or id is used twice.
  method Collect(es: seq<Element>) returns (r: Result<map<string, Element>, SemanticError>)
    ensures r.Success? <==> (forall e | e in es :: ValidElement(e)) && UniqueTags(es) && UniqueIds(es)
    ensures r.Success? ==> r.value.Keys == Ids(es) && forall e | e in es :: e.id in r.value && r.value[e.id] == e
    ensures r == Failure(AmbiguousTarget) ==> !UniqueTags(es) || !UniqueIds(es)
    ensures r.Failure? && r.error != AmbiguousTarget ==>
            r.error.InvalidObservation? && exists e | e in es :: !ValidElement(e)
  {
    hide ValidElement, UniqueTags, UniqueIds, Tags, Ids;
    NoElements();
    var elements: map<string, Element> := map[];
    var tags: set<string> := {};
    for k := 0 to |es|
      invariant forall i | 0 <= i < k :: ValidElement(es[i])
      invariant tags == Tags(es[..k]) && UniqueTags(es[..k])
      invariant elements.Keys == Ids(es[..k]) && UniqueIds(es[..k])
      invariant forall i | 0 <= i < k :: es[i].id in elements && elements[es[i].id] == es[i]
    {
      if !ValidElement(es[k]) {
        return Failure(InvalidObservation);
      }
      OneMore(es, k);
      if es[k].tag in tags {
        return Failure(AmbiguousTarget);
      }
      if es[k].id in elements {
        return Failure(AmbiguousTarget);
      }
      tags := tags + {es[k].tag};
      elements := elements[es[k].id := es[k]];
    }
    assert es[..|es|] == es;
    r := Success(elements);
  }

  ghost function Links(elements: map<string, Element>): map<string, string> {
    map id | id in elements && elements[id].parent.Some? :: elements[id].parent.value
  }

  // The chain of ancestors has an end.
  ghost predicate ChainEnds(parents: map<string, string>, id: string) {
    exists n: nat :: Up(parents, id, n) == None
  }

  // The walk over one element's ancestors, which stops at a missing link or a repetition. The set
  // of ancestors grows inside the finite set of parent ids, so it ends.
  method AncestorsDiffer(elements: map<string, Element>, start: Element) returns (ok: bool)
    requires start.id in elements && elements[start.id] == start
    ensures ok <==> ChainEnds(Links(elements), start.id)
    ensures !ok ==> !Acyclic(Links(elements))
  {
    ghost var parents := Links(elements);
    ghost var steps: nat := 1;
    var current := start.parent;
    var ancestors: set<string> := {};
    while current.Some?
      invariant steps > 0 && current == Up(parents, start.id, steps)
      invariant forall x | x in ancestors :: exists i: nat :: 0 < i < steps && Up(parents, start.id, i) == Some(x)
      invariant ancestors <= parents.Values
      invariant current.Some? ==> current.value in parents.Values
      decreases parents.Values - ancestors, current.Some?
    {
      var id := current.value;
      if id in ancestors {
        ghost var i: nat :| 0 < i < steps && Up(parents, start.id, i) == Some(id);
        RepeatIsCycle(parents, start.id, i, steps);
        return false;
      }
      ancestors := ancestors + {id};
      current := if id in elements then elements[id].parent else None;
      steps := steps + 1;
      if current.Some? {
        UpInside(parents, start.id, steps);
      }
    }
    assert ChainEnds(parents, start.id);
    return true;
  }

  // A duplicate-free collection is accepted exactly if it is a forest.
  method BuildMapping(es: seq<Element>) returns (r: Result<map<string, Element>, SemanticError>)
    ensures r.Success? <==> (forall e | e in es :: ValidElement(e)) && IsForest(es)
    ensures r.Success? ==> r.value.Keys == Ids(es) && forall e | e in es :: r.value[e.id] == e
    ensures r.Failure? ==> r.error.InvalidObservation? || r.error.AmbiguousTarget?
    ensures r == Failure(AmbiguousTarget) ==> !UniqueTags(es) || !UniqueIds(es)
  {
    hide ValidElement, Acyclic, UniqueTags, UniqueIds, Ids, LinksOf, Links, ChainEnds;
    r := Collect(es);
    if r.Failure? {
      return;
    }
    var elements := r.value;
    ghost var parents := Links(elements);
    LinksUnique(es, elements);
    for k := 0 to |es|
      invariant forall i | 0 <= i < k && es[i].parent.Some? :: es[i].parent.value in elements
      invariant forall i | 0 <= i < k :: ChainEnds(parents, es[i].id)
    {
      var e := es[k];
      assert e in es;
      if e.parent.Some? && (e.parent.value == e.id || e.parent.value !in elements) {
        SelfParent(elements, e);
        return Failure(InvalidObservation);
      }
      var ok := AncestorsDiffer(elements, e);
      if !ok {
        return Failure(InvalidObservation);
      }
    }
    ChainsEnd(es, parents);
  }

  lemma SelfParent(elements: map<string, Element>, e: Element)
    requires e.id in elements && elements[e.id] == e
    ensures e.parent == Some(e.id) ==> !Acyclic(Links(elements))
  {
    var parents := Links(elements);
    assert Up(parents, e.id, 0) == Some(e.id);
    assert e.parent == Some(e.id) ==> Up(parents, e.id, 1) == Some(e.id);
  }

  lemma LinksUnique(es: seq<Element>, elements: map<string, Element>)
    requires elements.Keys == Ids(es) && forall e | e in es :: e.id in elements && elements[e.id] == e
    ensures LinksOf(es, Links(elements))
    ensures forall parents | LinksOf(es, parents) :: parents == Links(elements)
  {
    var links := Links(elements);
    assert forall i | 0 <= i < |es| :: es[i] in es;
    forall parents | LinksOf(es, parents) ensures parents == links {
      forall id ensures id in parents <==> id in links {
        if id in parents || id in links {
          assert id in Ids(es);
          var i :| 0 <= i < |es| && es[i].id == id;
        }
      }
      forall id | id in parents ensures parents[id] == links[id] {
        var i :| 0 <= i < |es| && es[i].id == id;
      }
    }
  }

  // If every element's chain of ancestors ends, there is no cycle.
  lemma ChainsEnd(es: seq<Element>, parents: map<string, string>)
    requires LinksOf(es, parents)
    requires forall i | 0 <= i < |es| :: ChainEnds(parents, es[i].id)
    ensures Acyclic(parents)
  {
    forall id: string, n: nat | n > 0 ensures Up(parents, id, n) != Some(id) {
      if Up(parents, id, n) == Some(id) {
        UpInside(parents, id, n);
        var i :| 0 <= i < |es| && es[i].id == id;
        var k: nat :| Up(parents, es[i].id, k) == None;
        CycleNeverEnds(parents, id, n, k);
      }
    }
  }

  // ----- Observations -----

  // No observation is used for longer than this.
  const MAX_SEMANTIC_OBSERVATION_AGE_MS: int := 30_000

  // `formOk` stands for the checks of the version, the provenance and the encoded size.
  datatype Observation = Observation(
    formOk: bool,
    id: string,
    generation: nat,
    provenance: string,
    observedAt: int,
    expiresAt: int,
    elements: seq<Element>)

  // The observation is what it claims to be, and was made before it is used.
  ghost predicate Plausible(o: Observation, now: int) {
    && o.formOk && IsHash(o.id) && o.generation > 0 && |o.elements| <= MAX_SEMANTIC_ELEMENTS
    && 0 < o.observedAt < o.expiresAt <= o.observedAt + MAX_SEMANTIC_OBSERVATION_AGE_MS
    && o.observedAt <= now
  }

  // The observation can be used at this moment.
  ghost predicate Usable(o: Observation, now: int) {
    Plausible(o, now) && now < o.expiresAt && (forall e | e in o.elements :: ValidElement(e)) && IsForest(o.elements)
  }

  // In numbers: at most 4096 elements, valid for at most 30 seconds.
  lemma PlausibleExactly(o: Observation, now: int)
    ensures Plausible(o, now) <==>
              && o.formOk && IsHash(o.id) && o.generation != 0 && |o.elements| <= 4096
              && 0 < o.observedAt <= now && 0 < o.expiresAt - o.observedAt <= 30000
  {
  }

  method Validate(o: Observation, now: int) returns (r: Result<(), SemanticError>)
    ensures r.Success? <==> Usable(o, now)
    ensures r == Failure(StaleObservation) <==> Plausible(o, now) && o.expiresAt <= now
    ensures !Plausible(o, now) ==> r == Failure(InvalidObservation)
    ensures r.Failure? ==> r.error.InvalidObservation? || r.error.AmbiguousTarget? || r.error.StaleObservation?
  {
    hide IsForest, ValidElement, UniqueTags, UniqueIds, IsHash;
    if !o.formOk || !IsHash(o.id) || o.generation == 0 || o.observedAt <= 0 || o.expiresAt <= o.observedAt
      || o.expiresAt - o.observedAt > MAX_SEMANTIC_OBSERVATION_AGE_MS || now < o.observedAt
      || |o.elements| > MAX_SEMANTIC_ELEMENTS {
      return Failure(InvalidObservation);
    }
    if now >= o.expiresAt {
      return Failure(StaleObservation);
    }
    var mapping := BuildMapping(o.elements);
    return if mapping.Success? then Success(()) else Failure(mapping.error);
  }

  // ----- Targets -----

  datatype TargetRef = TargetRef(observation: string, generation: nat, provenance: string, element: string,
                                 fingerprint: string)

  // The elements an iterator filter keeps.
  function WithTag(es: seq<Element>, tag: string): seq<Element> {
    if es == [] then [] else (if es[0].tag == tag then [es[0]] else []) + WithTag(es[1..], tag)
  }

  function WithId(es: seq<Element>, id: string): seq<Element> {
    if es == [] then [] else (if es[0].id == id then [es[0]] else []) + WithId(es[1..], id)
  }

  function TargetFor(o: Observation, tag: string): Result<TargetRef, SemanticError> {
    var found := WithTag(o.elements, tag);
    if found == [] then Failure(TargetNotFound)
    else if |found| > 1 then Failure(AmbiguousTarget)
    else Success(TargetRef(o.id, o.generation, o.provenance, found[0].id, found[0].fingerprint))
  }

  // The reference was made from this very observation.
  ghost predicate RefersTo(o: Observation, t: TargetRef) {
    && t.observation == o.id && t.generation == o.generation && t.provenance == o.provenance
    && IsHash(t.element) && IsHash(t.fingerprint)
  }

  // What a reference means: one element of a usable observation, unchanged since.
  ghost predicate ResolvesTo(o: Observation, t: TargetRef, now: int, e: Element) {
    && Usable(o, now) && RefersTo(o, t)
    && e in o.elements && e.id == t.element && e.fingerprint == t.fingerprint
  }

  // A reference resolves exactly to what it means. In a usable observation it is never ambiguous, and
  // the two other refusals tell whether the element is gone or has changed.
  method Resolve(o: Observation, t: TargetRef, now: int) returns (r: Result<Element, SemanticError>)
    ensures forall e :: r == Success(e) <==> ResolvesTo(o, t, now, e)
    ensures Plausible(o, now) && o.expiresAt <= now ==> r == Failure(StaleObservation)
    ensures !Plausible(o, now) ==> r == Failure(InvalidObservation)
    ensures Usable(o, now) && r.Failure? ==>
              r.error == if RefersTo(o, t) && t.element !in Ids(o.elements) then TargetNotFound else StaleTarget
  {
    hide ValidElement, IsHash, Plausible, ParentsExist, LinksOf, Acyclic;
    var valid := Validate(o, now);
    if valid.Failure? {
      return Failure(valid.error);
    }
    if t.observation != o.id || t.generation != o.generation || t.provenance != o.provenance
      || !IsHash(t.element) || !IsHash(t.fingerprint) {
      return Failure(StaleTarget);
    }
    FilterExactly(o.elements, t.element);
    var found := WithId(o.elements, t.element);
    if found == [] {
      return Failure(TargetNotFound);
    }
    if |found| > 1 {
      return Failure(AmbiguousTarget);
    }
    return if found[0].fingerprint != t.fingerprint then Failure(StaleTarget) else Success(found[0]);
  }

  // The filter by id finds the one element that has it, if any.
  lemma FilterExactly(es: seq<Element>, id: string)
    requires UniqueIds(es)
    ensures WithId(es, id) == [] <==> id !in Ids(es)
    ensures id in Ids(es) ==> |WithId(es, id)| == 1 && WithId(es, id)[0] in es && WithId(es, id)[0].id == id
    ensures forall e | e in es && e.id == id :: WithId(es, id) == [e]
  {
    if id in Ids(es) {
      var k :| 0 <= k < |es| && es[k].id == id;
      FilterId(es, k);
      assert forall i | 0 <= i < |es| && es[i].id == id :: i == k;
    } else {
      NoId(es, id);
    }
  }

  lemma {:induction false} FilterTag(es: seq<Element>, k: nat)
    requires k < |es| && UniqueTags(es)
    ensures WithTag(es, es[k].tag) == [es[k]]
  {
    assert UniqueTags(es[1..]);
    if k == 0 {
      NoTag(es[1..], es[0].tag);
    } else {
      FilterTag(es[1..], k - 1);
    }
  }

  lemma {:induction false} NoTag(es: seq<Element>, tag: string)
    requires forall i | 0 <= i < |es| :: es[i].tag != tag
    ensures WithTag(es, tag) == []
  {
    if es != [] {
      NoTag(es[1..], tag);
    }
  }

  lemma {:induction false} FilterId(es: seq<Element>, k: nat)
    requires k < |es| && UniqueIds(es)
    ensures WithId(es, es[k].id) == [es[k]]
  {
    assert UniqueIds(es[1..]);
    if k == 0 {
      NoId(es[1..], es[0].id);
    } else {
      FilterId(es[1..], k - 1);
    }
  }

  lemma {:induction false} NoId(es: seq<Element>, id: string)
    requires forall i | 0 <= i < |es| :: es[i].id != id
    ensures WithId(es, id) == []
  {
    if es != [] {
      NoId(es[1..], id);
    }
  }

  // A tag selects the one element that has it. It is refused if none has it, or more than one.
  lemma TagSelects(o: Observation, tag: string)
    ensures TargetFor(o, tag) == Failure(TargetNotFound) <==> forall e | e in o.elements :: e.tag != tag
    ensures TargetFor(o, tag) == Failure(AmbiguousTarget) <==>
              exists i, j :: 0 <= i < j < |o.elements| && o.elements[i].tag == o.elements[j].tag == tag
    ensures forall e | e in o.elements && e.tag == tag && TargetFor(o, tag).Success? ::
              TargetFor(o, tag).value == TargetRef(o.id, o.generation, o.provenance, e.id, e.fingerprint)
  {
    WithTagMembers(o.elements, tag);
    WithTagMany(o.elements, tag);
    var found := WithTag(o.elements, tag);
    assert found != [] ==> found[0] in found;
    hide WithTag;
  }

  lemma {:induction false} WithTagMembers(es: seq<Element>, tag: string)
    ensures forall e :: e in WithTag(es, tag) <==> e in es && e.tag == tag
  {
    if es != [] {
      WithTagMembers(es[1..], tag);
      assert es == [es[0]] + es[1..];
    }
  }

  lemma {:induction false} WithTagMany(es: seq<Element>, tag: string)
    ensures |WithTag(es, tag)| > 1 <==> exists i, j :: 0 <= i < j < |es| && es[i].tag == es[j].tag == tag
  {
    if es != [] {
      WithTagMany(es[1..], tag);
      WithTagMembers(es[1..], tag);
      var found := WithTag(es[1..], tag);
      assert found != [] ==> found[0] in found;
      TwoTags(es, tag, found != []);
    }
  }

  // Two elements share the tag: two of the rest, or the first and one of the rest.
  lemma TwoTags(es: seq<Element>, tag: string, more: bool)
    requires es != [] && (more <==> exists e :: e in es[1..] && e.tag == tag)
    ensures (exists i, j :: 0 <= i < j < |es| && es[i].tag == es[j].tag == tag) <==>
            (es[0].tag == tag && more)
            || exists i, j :: 0 <= i < j < |es[1..]| && es[1..][i].tag == es[1..][j].tag == tag
  {
    var rest := es[1..];
    if es[0].tag == tag && more {
      var e :| e in rest && e.tag == tag;
      var j :| 0 <= j < |rest| && rest[j] == e;
      assert es[0].tag == es[j + 1].tag == tag;
    }
    if i, j :| 0 <= i < j < |rest| && rest[i].tag == rest[j].tag == tag {
      assert es[i + 1].tag == es[j + 1].tag == tag;
    }
    if i, j :| 0 <= i < j < |es| && es[i].tag == es[j].tag == tag {
      assert rest[j - 1] == es[j] && (i > 0 ==> rest[i - 1] == es[i]);
    }
  }

  // The reference made from an element's tag means this element for as long as the observation can be
  // used, nothing once it has expired, and nothing in any other observation.
  lemma TagRoundTrip(o: Observation, k: nat, seen: int, now: int)
    requires Usable(o, seen) && k < |o.elements|
    ensures TargetFor(o, o.elements[k].tag).Success?
    ensures var t := TargetFor(o, o.elements[k].tag).value;
            && (forall e :: ResolvesTo(o, t, now, e) <==> e == o.elements[k] && o.observedAt <= now < o.expiresAt)
            && forall o': Observation, e, when |
                 (o'.id, o'.generation, o'.provenance) != (o.id, o.generation, o.provenance) ::
                 !ResolvesTo(o', t, when, e)
  {
    var es := o.elements;
    TagSelects(o, es[k].tag);
    FilterTag(es, k);
    assert es[k] in es && ValidElement(es[k]);
    assert forall i | 0 <= i < |es| && es[i].id == es[k].id :: i == k;
    hide IsForest, UniqueTags, UniqueIds, IsHash, ValidTag, TargetFor;
  }
}
