/**
 * What canonicalization of JSON keeps, and that it keeps nothing else (stableNormalize in
 * apps/ui/fingerprint.config.js).
 */
module StableJsonProofs {
  import opened StableJson

  /** What a value says, whatever the order of members in its objects. */
  datatype Content = Atom(value: Json) | List(items: seq<Content>) | Record(fields: map<string, Content>)

  function Meaning(v: Json): Content {
    match v
    case Array(items) => List(MeaningOfItems(items))
    case Object(members) => Record(MeaningOfMembers(members))
    case _ => Atom(v)
  }

  function MeaningOfItems(items: seq<Json>): seq<Content> {
    if items == [] then [] else [Meaning(items[0])] + MeaningOfItems(items[1..])
  }

  function MeaningOfMembers(members: seq<Member>): map<string, Content> {
    if members == [] then map[] else MeaningOfMembers(members[1..])[members[0].key := Meaning(members[0].value)]
  }

  /** The value without the members called `__proto__`, at every depth. */
  function Strip(v: Json): Json {
    match v
    case Array(items) => Array(StripItems(items))
    case Object(members) => Object(StripMembers(members))
    case _ => v
  }

  function StripItems(items: seq<Json>): seq<Json> {
    if items == [] then [] else [Strip(items[0])] + StripItems(items[1..])
  }

  function StripMembers(members: seq<Member>): seq<Member> {
    if members == [] then []
    else
      (if members[0].key == PROTO then [] else [Member(members[0].key, Strip(members[0].value))])
      + StripMembers(members[1..])
  }

  /** No object repeats a key: what JSON.parse returns. */
  ghost predicate Valid(v: Json) {
    match v
    case Array(items) => forall i :: 0 <= i < |items| ==> Valid(items[i])
    case Object(members) => Distinct(members) && forall i :: 0 <= i < |members| ==> Valid(members[i].value)
    case _ => true
  }

  /** No member is called `__proto__`, at any depth. */
  ghost predicate Plain(v: Json) {
    match v
    case Array(items) => forall i :: 0 <= i < |items| ==> Plain(items[i])
    case Object(members) => forall i :: 0 <= i < |members| ==> members[i].key != PROTO && Plain(members[i].value)
    case _ => true
  }

  ghost predicate Canonical(v: Json) {
    match v
    case Array(items) => forall i :: 0 <= i < |items| ==> Canonical(items[i])
    case Object(members) =>
      Enumerated(members) && forall i :: 0 <= i < |members| ==> members[i].key != PROTO && Canonical(members[i].value)
    case _ => true
  }

  // ----- the functions on lists, element by element -----

  lemma {:induction false} ItemsMapped(items: seq<Json>)
    ensures |NormalizeItems(items)| == |StripItems(items)| == |MeaningOfItems(items)| == |items|
    ensures forall i :: 0 <= i < |items| ==>
      && NormalizeItems(items)[i] == Normalize(items[i])
      && StripItems(items)[i] == Strip(items[i])
      && MeaningOfItems(items)[i] == Meaning(items[i])
  {
    if items != [] {
      ItemsMapped(items[1..]);
    }
  }

  lemma {:induction false} MeaningByKey(members: seq<Member>)
    ensures MeaningOfMembers(members).Keys == ToMap(members).Keys
    ensures forall k :: k in ToMap(members) ==> MeaningOfMembers(members)[k] == Meaning(ToMap(members)[k])
  {
    if members != [] {
      MeaningByKey(members[1..]);
    }
  }

  lemma {:induction false} NormalizedByKey(members: seq<Member>)
    ensures |NormalizeValues(members)| == |members|
    ensures ToMap(NormalizeValues(members)).Keys == ToMap(members).Keys
    ensures forall k :: k in ToMap(members) ==> ToMap(NormalizeValues(members))[k] == Normalize(ToMap(members)[k])
    ensures Distinct(members) ==> Distinct(NormalizeValues(members))
  {
    if members != [] {
      NormalizedByKey(members[1..]);
      assert NormalizeValues(members)[1..] == NormalizeValues(members[1..]);
    }
  }

  lemma {:induction false} StrippedByKey(members: seq<Member>)
    ensures ToMap(StripMembers(members)).Keys == ToMap(members).Keys - {PROTO}
    ensures forall k :: k in ToMap(members) && k != PROTO ==>
      ToMap(StripMembers(members))[k] == Strip(ToMap(members)[k])
  {
    if members != [] {
      StrippedByKey(members[1..]);
      if members[0].key != PROTO {
        assert StripMembers(members)[1..] == StripMembers(members[1..]);
      } else {
        assert StripMembers(members) == StripMembers(members[1..]);
      }
    }
  }

  /** An object's normal form, member by member. */
  lemma NormalizedObject(members: seq<Member>)
    requires Distinct(members)
    ensures var result := Rebuild(NormalizeValues(members));
      && Enumerated(result) && ToMap(result).Keys == ToMap(members).Keys - {PROTO}
      && forall k :: k in ToMap(result) ==> ToMap(result)[k] == Normalize(ToMap(members)[k])
  {
    NormalizedByKey(members);
    RebuildOrders(NormalizeValues(members));
  }

  // ----- content is kept -----

  /** Canonicalization keeps the content of the value, `__proto__` members excepted. */
  lemma {:induction false} ContentKept(v: Json)
    requires Valid(v)
    ensures Meaning(Normalize(v)) == Meaning(Strip(v))
  {
    match v
    case Array(items) =>
      forall i | 0 <= i < |items| ensures Meaning(Normalize(items[i])) == Meaning(Strip(items[i])) {
        ContentKept(items[i]);
      }
      ItemsMapped(items);
      ItemsMapped(NormalizeItems(items));
      ItemsMapped(StripItems(items));
      assert MeaningOfItems(NormalizeItems(items)) == MeaningOfItems(StripItems(items));
    case Object(members) =>
      forall i | 0 <= i < |members| ensures Meaning(Normalize(members[i].value)) == Meaning(Strip(members[i].value)) {
        ContentKept(members[i].value);
      }
      MembersKept(members);
    case _ =>
  }

  lemma MembersKept(members: seq<Member>)
    requires Distinct(members)
    requires forall i :: 0 <= i < |members| ==> Meaning(Normalize(members[i].value)) == Meaning(Strip(members[i].value))
    ensures MeaningOfMembers(Rebuild(NormalizeValues(members))) == MeaningOfMembers(StripMembers(members))
  {
    hide *;
    var kept, stripped := Rebuild(NormalizeValues(members)), StripMembers(members);
    NormalizedObject(members);
    StrippedByKey(members);
    MeaningByKey(kept);
    MeaningByKey(stripped);
    forall k | k in ToMap(kept) ensures MeaningOfMembers(kept)[k] == MeaningOfMembers(stripped)[k] {
      var i := MapFinds(members, k);
      assert ToMap(kept)[k] == Normalize(members[i].value);
      assert ToMap(stripped)[k] == Strip(members[i].value);
    }
    assert MeaningOfMembers(kept).Keys == MeaningOfMembers(stripped).Keys;
  }

  /** The result is in canonical form. */
  lemma {:induction false} NormalizeIsCanonical(v: Json)
    requires Valid(v)
    ensures Canonical(Normalize(v))
  {
    match v
    case Array(items) =>
      forall i | 0 <= i < |items| ensures Canonical(Normalize(items[i])) {
        NormalizeIsCanonical(items[i]);
      }
      ItemsMapped(items);
    case Object(members) =>
      forall i | 0 <= i < |members| ensures Canonical(Normalize(members[i].value)) {
        NormalizeIsCanonical(members[i].value);
      }
      NormalizedObject(members);
      var result := Rebuild(NormalizeValues(members));
      forall i | 0 <= i < |result| ensures result[i].key != PROTO && Canonical(result[i].value) {
        CanonicalMember(members, result, i);
      }
    case _ =>
  }

  lemma CanonicalMember(members: seq<Member>, result: seq<Member>, i: nat)
    requires forall j :: 0 <= j < |members| ==> Canonical(Normalize(members[j].value))
    requires Enumerated(result) && ToMap(result).Keys == ToMap(members).Keys - {PROTO}
    requires forall k :: k in ToMap(result) ==> ToMap(result)[k] == Normalize(ToMap(members)[k])
    requires i < |result|
    ensures result[i].key != PROTO && Canonical(result[i].value)
  {
    EnumeratedIsDistinct(result);
    DistinctValue(result, i);
    var j := MapFinds(members, result[i].key);
  }

  lemma {:induction false} DistinctValue(members: seq<Member>, i: nat)
    requires Distinct(members) && i < |members|
    ensures members[i].key in ToMap(members) && ToMap(members)[members[i].key] == members[i].value
  {
    if i > 0 {
      DistinctValue(members[1..], i - 1);
      MapHas(members[1..], i - 1);
    }
  }

  /** There is one canonical form for each content. */
  lemma {:induction false} CanonicalIsUnique(a: Json, b: Json)
    requires Canonical(a) && Canonical(b) && Meaning(a) == Meaning(b)
    ensures a == b
  {
    match a
    case Array(items) =>
      ItemsMapped(items);
      ItemsMapped(b.items);
      forall i | 0 <= i < |items| ensures items[i] == b.items[i] {
        CanonicalIsUnique(items[i], b.items[i]);
      }
    case Object(members) =>
      MeaningByKey(members);
      MeaningByKey(b.members);
      forall k | k in ToMap(members) ensures ToMap(members)[k] == ToMap(b.members)[k] {
        var i := MapFinds(members, k);
        var j := MapFinds(b.members, k);
        CanonicalIsUnique(members[i].value, b.members[j].value);
      }
      EnumerationIsUnique(members, b.members);
    case _ =>
  }

  // ----- the main results -----

  /** Two values get the same ordered tree exactly if they are equal up to key order at every depth. */
  lemma SameTreeIffSameContent(a: Json, b: Json)
    requires Valid(a) && Valid(b)
    ensures Normalize(a) == Normalize(b) <==> Meaning(Strip(a)) == Meaning(Strip(b))
  {
    ContentKept(a);
    ContentKept(b);
    NormalizeIsCanonical(a);
    NormalizeIsCanonical(b);
    if Meaning(Strip(a)) == Meaning(Strip(b)) {
      CanonicalIsUnique(Normalize(a), Normalize(b));
    }
  }

  lemma {:induction false} CanonicalIsValid(v: Json)
    requires Canonical(v)
    ensures Valid(v) && Plain(v)
  {
    match v
    case Array(items) =>
      forall i | 0 <= i < |items| ensures Valid(items[i]) && Plain(items[i]) {
        CanonicalIsValid(items[i]);
      }
    case Object(members) =>
      EnumeratedIsDistinct(members);
      forall i | 0 <= i < |members| ensures Valid(members[i].value) && Plain(members[i].value) {
        CanonicalIsValid(members[i].value);
      }
    case _ =>
  }

  lemma {:induction false} PlainIsItself(v: Json)
    requires Plain(v)
    ensures Strip(v) == v
  {
    match v
    case Array(items) =>
      ItemsMapped(items);
      forall i | 0 <= i < |items| ensures Strip(items[i]) == items[i] {
        PlainIsItself(items[i]);
      }
    case Object(members) =>
      forall i | 0 <= i < |members| ensures members[i].key != PROTO && Strip(members[i].value) == members[i].value {
        PlainIsItself(members[i].value);
      }
      PlainMembers(members);
    case _ =>
  }

  lemma {:induction false} PlainMembers(members: seq<Member>)
    requires forall i :: 0 <= i < |members| ==> members[i].key != PROTO && Strip(members[i].value) == members[i].value
    ensures StripMembers(members) == members
  {
    if members != [] {
      assert members[0].key != PROTO;
      PlainMembers(members[1..]);
    }
  }

  /** Canonicalizing twice changes nothing. */
  lemma NormalizeIsIdempotent(v: Json)
    requires Valid(v)
    ensures Normalize(Normalize(v)) == Normalize(v)
  {
    NormalizeIsCanonical(v);
    CanonicalIsValid(Normalize(v));
    PlainIsItself(Normalize(v));
    ContentKept(Normalize(v));
    NormalizeIsCanonical(Normalize(v));
    CanonicalIsUnique(Normalize(Normalize(v)), Normalize(v));
  }

  /** Exactly the values without `__proto__` members keep their whole content. */
  lemma WholeContentKept(v: Json)
    requires Valid(v)
    ensures Meaning(Normalize(v)) == Meaning(v) <==> Plain(v)
  {
    ContentKept(v);
    if Plain(v) {
      PlainIsItself(v);
    } else if Meaning(Strip(v)) == Meaning(v) {
      StrippingShows(v);
    }
  }

  lemma {:induction false} StrippingShows(v: Json)
    requires Valid(v) && Meaning(Strip(v)) == Meaning(v)
    ensures Plain(v)
  {
    match v
    case Array(items) =>
      ItemsMapped(items);
      ItemsMapped(StripItems(items));
      forall i | 0 <= i < |items| ensures Plain(items[i]) {
        assert MeaningOfItems(items)[i] == MeaningOfItems(StripItems(items))[i];
        StrippingShows(items[i]);
      }
    case Object(members) =>
      StrippedByKey(members);
      MeaningByKey(members);
      MeaningByKey(StripMembers(members));
      forall i | 0 <= i < |members| ensures members[i].key != PROTO && Plain(members[i].value) {
        DistinctValue(members, i);
        assert members[i].key in MeaningOfMembers(StripMembers(members));
        StrippingShows(members[i].value);
      }
    case _ =>
  }

  /** A lost difference: an object with nothing but a `__proto__` member passes for the empty one. */
  lemma ProtoIsLost(v: Json)
    ensures Normalize(Object([Member(PROTO, v)])) == Normalize(Object([]))
    ensures Meaning(Object([Member(PROTO, v)])) != Meaning(Object([]))
  {
    var member := Member(PROTO, v);
    assert NormalizeValues([member]) == [Member(PROTO, Normalize(v))];
    assert SortByKey([Member(PROTO, Normalize(v))]) == [Member(PROTO, Normalize(v))];
    assert PROTO in MeaningOfMembers([member]);
  }
}
