/**
 * Key-order canonicalization of JSON (stableNormalize in apps/ui/fingerprint.config.js).
 *
 * A JSON object is its members in enumeration order. Building an object by assignment puts array indices
 * first, in numeric order, then the other keys in order of assignment ("OrdinaryOwnPropertyKeys", section
 * 10.1.11.1 of ECMA-262), and assigning `__proto__` adds no member at all.
 */
module StableJson {

  datatype Json =
    | Null
    | Bool(flag: bool)
    | Number(value: real)
    | Text(text: string)
    | Array(items: seq<Json>)
    | Object(members: seq<Member>)

  datatype Member = Member(key: string, value: Json)

  const PROTO := "__proto__"

  // ----- the order of keys -----

  /** The first UTF-16 code unit of a character. */
  function Lead(c: char): int {
    var point := c as int;
    if point < 0x10000 then point else 0xD800 + (point - 0x10000) / 0x400
  }

  predicate CharLess(a: char, b: char) {
    Lead(a) < Lead(b) || (Lead(a) == Lead(b) && a < b)
  }

  /** The default order of `sort`: by UTF-16 code units. */
  predicate LexLess(a: string, b: string) {
    if a == [] || b == [] then a == [] && b != []
    else if a[0] == b[0] then LexLess(a[1..], b[1..])
    else CharLess(a[0], b[0])
  }

  predicate Digits(s: string) {
    forall i :: 0 <= i < |s| ==> '0' <= s[i] <= '9'
  }

  function Value(s: string): nat
    requires Digits(s)
  {
    if s == [] then 0
    else 10 * Value(s[..|s| - 1]) + (s[|s| - 1] as int - '0' as int)
  }

  /** Array indices: canonical numerals below 2^32 - 1. */
  predicate IsIndex(key: string) {
    key != [] && Digits(key) && (key[0] != '0' || |key| == 1) && Value(key) < 0xFFFF_FFFF
  }

  /** The enumeration order of an object whose other keys were assigned in `sort` order. */
  predicate Before(a: string, b: string) {
    if IsIndex(a) && IsIndex(b) then Value(a) < Value(b)
    else if IsIndex(a) || IsIndex(b) then IsIndex(a)
    else LexLess(a, b)
  }

  lemma {:induction false} LexOrder(a: string, b: string, c: string)
    ensures !LexLess(a, a)
    ensures a != b ==> LexLess(a, b) || LexLess(b, a)
    ensures LexLess(a, b) && LexLess(b, c) ==> LexLess(a, c)
  {
    if a != [] {
      LexOrder(a[1..], if b == [] then [] else b[1..], if c == [] then [] else c[1..]);
      if b != [] {
        assert a == [a[0]] + a[1..] && b == [b[0]] + b[1..];
      }
    }
  }

  lemma {:induction false} IndicesDiffer(a: string, b: string)
    requires Digits(a) && Digits(b) && a != [] && b != []
    requires (a[0] != '0' || |a| == 1) && (b[0] != '0' || |b| == 1) && Value(a) == Value(b)
    ensures a == b
  {
    var shorter, longer := a[..|a| - 1], b[..|b| - 1];
    assert a == shorter + [a[|a| - 1]] && b == longer + [b[|b| - 1]];
    if shorter != [] {
      Positive(shorter);
    }
    if longer != [] {
      Positive(longer);
    }
    if shorter != [] && longer != [] {
      IndicesDiffer(shorter, longer);
    }
  }

  lemma {:induction false} Positive(s: string)
    requires Digits(s) && s != [] && s[0] != '0'
    ensures Value(s) > 0
  {
    var rest := s[..|s| - 1];
    if rest != [] {
      Positive(rest);
    }
  }

  /** Enumeration order is a strict total order on keys. */
  lemma BeforeOrder(a: string, b: string, c: string)
    ensures !Before(a, a)
    ensures a != b ==> Before(a, b) || Before(b, a)
    ensures Before(a, b) && Before(b, c) ==> Before(a, c)
  {
    LexOrder(a, b, c);
    if a != b && IsIndex(a) && IsIndex(b) && Value(a) == Value(b) {
      IndicesDiffer(a, b);
    }
  }

  // ----- objects -----

  function ToMap(members: seq<Member>): map<string, Json> {
    if members == [] then map[] else ToMap(members[1..])[members[0].key := members[0].value]
  }

  /** No object has two members of one name. */
  predicate Distinct(members: seq<Member>) {
    members == [] || (members[0].key !in ToMap(members[1..]) && Distinct(members[1..]))
  }

  /** Assignment of a key the object does not have yet. */
  function Assign(members: seq<Member>, member: Member): seq<Member> {
    if member.key == PROTO then members
    else if IsIndex(member.key) then AssignIndex(members, member)
    else members + [member]
  }

  function AssignIndex(members: seq<Member>, member: Member): seq<Member>
    requires IsIndex(member.key)
  {
    if members == [] || !IsIndex(members[0].key) || Value(member.key) < Value(members[0].key) then [member] + members
    else [members[0]] + AssignIndex(members[1..], member)
  }

  function AssignAll(members: seq<Member>, more: seq<Member>): seq<Member>
    decreases |more|
  {
    if more == [] then members else AssignAll(Assign(members, more[0]), more[1..])
  }

  function InsertByKey(member: Member, members: seq<Member>): seq<Member> {
    if members == [] || LexLess(member.key, members[0].key) then [member] + members
    else [members[0]] + InsertByKey(member, members[1..])
  }

  function SortByKey(members: seq<Member>): seq<Member> {
    if members == [] then [] else InsertByKey(members[0], SortByKey(members[1..]))
  }

  /** Assigns the members to a new object in `sort` order of their keys. */
  function Rebuild(members: seq<Member>): seq<Member> {
    AssignAll([], SortByKey(members))
  }

  function Normalize(v: Json): Json {
    match v
    case Array(items) => Array(NormalizeItems(items))
    case Object(members) => Object(Rebuild(NormalizeValues(members)))
    case _ => v
  }

  function NormalizeItems(items: seq<Json>): seq<Json> {
    if items == [] then [] else [Normalize(items[0])] + NormalizeItems(items[1..])
  }

  function NormalizeValues(members: seq<Member>): seq<Member> {
    if members == [] then []
    else [Member(members[0].key, Normalize(members[0].value))] + NormalizeValues(members[1..])
  }

  // ----- sorting and rebuilding, seen as maps -----

  predicate LexSorted(members: seq<Member>) {
    forall i, j :: 0 <= i < j < |members| ==> LexLess(members[i].key, members[j].key)
  }

  predicate Enumerated(members: seq<Member>) {
    forall i, j :: 0 <= i < j < |members| ==> Before(members[i].key, members[j].key)
  }

  lemma {:induction false} MapHas(members: seq<Member>, i: nat)
    requires i < |members|
    ensures members[i].key in ToMap(members)
  {
    if i > 0 {
      MapHas(members[1..], i - 1);
    }
  }

  lemma {:induction false} MapFinds(members: seq<Member>, key: string) returns (i: nat)
    requires key in ToMap(members)
    ensures i < |members| && members[i].key == key && members[i].value == ToMap(members)[key]
  {
    if members[0].key == key {
      i := 0;
    } else {
      i := MapFinds(members[1..], key);
      i := i + 1;
    }
  }

  lemma {:induction false} NotThere(members: seq<Member>, key: string)
    requires forall i :: 0 <= i < |members| ==> members[i].key != key
    ensures key !in ToMap(members)
  {
    if members != [] {
      assert members[0].key != key;
      NotThere(members[1..], key);
    }
  }

  lemma {:induction false} Inserted(member: Member, members: seq<Member>)
    requires LexSorted(members) && member.key !in ToMap(members)
    ensures LexSorted(InsertByKey(member, members))
    ensures ToMap(InsertByKey(member, members)) == ToMap(members)[member.key := member.value]
  {
    if members == [] || LexLess(member.key, members[0].key) {
      assert ([member] + members)[1..] == members;
      forall j | 0 <= j < |members| ensures LexLess(member.key, members[j].key) {
        LexOrder(member.key, members[0].key, members[j].key);
      }
    } else {
      LexOrder(member.key, members[0].key, members[0].key);
      var rest := InsertByKey(member, members[1..]);
      Inserted(member, members[1..]);
      assert ([members[0]] + rest)[1..] == rest;
      forall j | 0 <= j < |rest| ensures LexLess(members[0].key, rest[j].key) {
        MapHas(rest, j);
        if rest[j].key != member.key {
          var i := MapFinds(members[1..], rest[j].key);
        }
      }
    }
  }

  lemma {:induction false} Sorted(members: seq<Member>)
    requires Distinct(members)
    ensures LexSorted(SortByKey(members)) && ToMap(SortByKey(members)) == ToMap(members)
  {
    if members != [] {
      Sorted(members[1..]);
      Inserted(members[0], SortByKey(members[1..]));
    }
  }

  lemma {:induction false} MapOfAppend(members: seq<Member>, member: Member)
    requires member.key !in ToMap(members)
    ensures ToMap(members + [member]) == ToMap(members)[member.key := member.value]
  {
    if members == [] {
      assert [member][1..] == [];
    } else {
      assert (members + [member])[1..] == members[1..] + [member];
      MapOfAppend(members[1..], member);
    }
  }

  lemma {:induction false} IndexAssigned(members: seq<Member>, member: Member)
    requires Enumerated(members) && IsIndex(member.key) && member.key !in ToMap(members)
    ensures Enumerated(AssignIndex(members, member))
    ensures ToMap(AssignIndex(members, member)) == ToMap(members)[member.key := member.value]
  {
    if members == [] || !IsIndex(members[0].key) || Value(member.key) < Value(members[0].key) {
      assert ([member] + members)[1..] == members;
      forall j | 0 <= j < |members| ensures Before(member.key, members[j].key) {
        BeforeOrder(member.key, members[0].key, members[j].key);
      }
    } else {
      BeforeOrder(member.key, members[0].key, members[0].key);
      var rest := AssignIndex(members[1..], member);
      IndexAssigned(members[1..], member);
      assert ([members[0]] + rest)[1..] == rest;
      forall j | 0 <= j < |rest| ensures Before(members[0].key, rest[j].key) {
        MapHas(rest, j);
        if rest[j].key != member.key {
          var i := MapFinds(members[1..], rest[j].key);
        }
      }
    }
  }

  /** What has been assigned so far precedes, among the keys that are no indices, what is still to come. */
  predicate Precedes(members: seq<Member>, more: seq<Member>) {
    forall i, j :: 0 <= i < |members| && 0 <= j < |more| ==>
      members[i].key != more[j].key && (!IsIndex(members[i].key) ==> LexLess(members[i].key, more[j].key))
  }

  lemma Assigned(members: seq<Member>, member: Member)
    requires Enumerated(members) && Precedes(members, [member])
    ensures Enumerated(Assign(members, member))
    ensures ToMap(Assign(members, member)) ==
      if member.key == PROTO then ToMap(members) else ToMap(members)[member.key := member.value]
  {
    forall i | 0 <= i < |members|
      ensures members[i].key != member.key && (!IsIndex(members[i].key) ==> LexLess(members[i].key, member.key))
    {
      assert [member][0] == member;
    }
    NotThere(members, member.key);
    if member.key == PROTO {
    } else if IsIndex(member.key) {
      IndexAssigned(members, member);
    } else {
      MapOfAppend(members, member);
    }
  }

  lemma StillPrecedes(members: seq<Member>, more: seq<Member>)
    requires Enumerated(members) && LexSorted(more) && Precedes(members, more) && more != []
    ensures Precedes(Assign(members, more[0]), more[1..])
  {
    var next, rest := Assign(members, more[0]), more[1..];
    Assigned(members, more[0]);
    hide Assign, Enumerated, IsIndex;
    forall i, j | 0 <= i < |next| && 0 <= j < |rest|
      ensures next[i].key != rest[j].key && (!IsIndex(next[i].key) ==> LexLess(next[i].key, rest[j].key))
    {
      assert rest[j] == more[j + 1];
      LexOrder(rest[j].key, rest[j].key, rest[j].key);
      MapHas(next, i);
      if next[i].key != more[0].key {
        var k := MapFinds(members, next[i].key);
      }
    }
  }

  lemma OneMore(before: map<string, Json>, member: Member, rest: map<string, Json>)
    requires member.key !in rest
    ensures var after := if member.key == PROTO then before else before[member.key := member.value];
      after + (rest - {PROTO}) == before + (rest[member.key := member.value] - {PROTO})
  {}

  lemma {:induction false} AllAssigned(members: seq<Member>, more: seq<Member>)
    requires Enumerated(members) && LexSorted(more) && Precedes(members, more)
    ensures Enumerated(AssignAll(members, more))
    ensures ToMap(AssignAll(members, more)) == ToMap(members) + (ToMap(more) - {PROTO})
    decreases |more|
  {
    if more != [] {
      StillPrecedes(members, more);
      Assigned(members, more[0]);
      LaterKeys(more);
      hide Assign, Enumerated, Precedes, LexSorted, IsIndex;
      AllAssigned(Assign(members, more[0]), more[1..]);
      OneMore(ToMap(members), more[0], ToMap(more[1..]));
    }
  }

  lemma LaterKeys(members: seq<Member>)
    requires LexSorted(members) && members != []
    ensures members[0].key !in ToMap(members[1..]) && LexSorted(members[1..])
  {
    forall i | 0 <= i < |members[1..]| ensures members[1..][i].key != members[0].key {
      LexOrder(members[0].key, members[0].key, members[0].key);
      assert LexLess(members[0].key, members[i + 1].key);
    }
    NotThere(members[1..], members[0].key);
  }

  /** Rebuilding puts the members into enumeration order and loses exactly `__proto__`. */
  lemma RebuildOrders(members: seq<Member>)
    requires Distinct(members)
    ensures Enumerated(Rebuild(members)) && ToMap(Rebuild(members)) == ToMap(members) - {PROTO}
  {
    Sorted(members);
    AllAssigned([], SortByKey(members));
  }

  lemma FirstIsLeast(members: seq<Member>, key: string)
    requires Enumerated(members) && key in ToMap(members)
    ensures key == members[0].key || Before(members[0].key, key)
  {
    var i := MapFinds(members, key);
  }

  /** There is one way to enumerate a map. */
  lemma {:induction false} EnumerationIsUnique(a: seq<Member>, b: seq<Member>)
    requires Enumerated(a) && Enumerated(b) && ToMap(a) == ToMap(b)
    ensures a == b
  {
    if a == [] || b == [] {
      if a != [] { MapHas(a, 0); }
      if b != [] { MapHas(b, 0); }
    } else {
      MapHas(a, 0);
      MapHas(b, 0);
      FirstIsLeast(a, b[0].key);
      FirstIsLeast(b, a[0].key);
      BeforeOrder(a[0].key, b[0].key, a[0].key);
      EnumeratedTail(a);
      EnumeratedTail(b);
      EnumerationIsUnique(a[1..], b[1..]);
      assert a == [a[0]] + a[1..] && b == [b[0]] + b[1..];
    }
  }

  lemma EnumeratedTail(members: seq<Member>)
    requires Enumerated(members) && members != []
    ensures Enumerated(members[1..]) && members[0].key !in ToMap(members[1..])
    ensures ToMap(members[1..]) == ToMap(members) - {members[0].key}
  {
    var rest := members[1..];
    forall i | 0 <= i < |rest| ensures rest[i].key != members[0].key {
      BeforeOrder(members[0].key, members[0].key, members[0].key);
      assert Before(members[0].key, members[i + 1].key);
    }
    hide Before;
    NotThere(rest, members[0].key);
    assert ToMap(members) == ToMap(rest)[members[0].key := members[0].value];
    hide ToMap;
  }

  lemma {:induction false} EnumeratedIsDistinct(members: seq<Member>)
    requires Enumerated(members)
    ensures Distinct(members)
  {
    if members != [] {
      EnumeratedTail(members);
      EnumeratedIsDistinct(members[1..]);
    }
  }
}
