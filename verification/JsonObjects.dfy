/** Reading and copying JSON objects the way JavaScript does. */
module JsonObjects {
  import opened Options
  import opened StableJson

  predicate IsObject(v: Json) {
    v.Object? || v.Array?
  }

  /** Reads a property that no array has. */
  function Field(v: Json, key: string): Option<Json> {
    if v.Object? && key in ToMap(v.members) then Some(ToMap(v.members)[key]) else None
  }

  function TextOr(text: Json -> string, v: Option<Json>): string {
    if v == None || v.value.Null? then "" else text(v.value)
  }

  function Decimal(n: nat): string {
    (if n < 10 then [] else Decimal(n / 10)) + [(n % 10 + '0' as int) as char]
  }

  function Indexed(items: seq<Json>, first: nat): seq<Member>
    decreases |items|
  {
    if items == [] then [] else [Member(Decimal(first), items[0])] + Indexed(items[1..], first + 1)
  }

  /** The entries of an object; an array has its positions for keys. */
  function Entries(v: Json): seq<Member>
    requires IsObject(v)
  {
    if v.Object? then v.members else Indexed(v.items, 0)
  }

  /** `{ ...object, key: value }` */
  function Put(members: seq<Member>, key: string, value: Json): seq<Member> {
    if members == [] then [Member(key, value)]
    else if members[0].key == key then [Member(key, value)] + members[1..]
    else [members[0]] + Put(members[1..], key, value)
  }

  function Without(members: seq<Member>, names: set<string>): seq<Member> {
    if members == [] then []
    else (if members[0].key in names then [] else [members[0]]) + Without(members[1..], names)
  }

  // ----- as maps -----

  lemma {:induction false} PutOnMap(members: seq<Member>, key: string, value: Json)
    ensures ToMap(Put(members, key, value)) == ToMap(members)[key := value]
  {
    if members == [] {
      assert Put(members, key, value)[1..] == [];
    } else if members[0].key == key {
      assert Put(members, key, value)[1..] == members[1..];
    } else {
      PutOnMap(members[1..], key, value);
      assert Put(members, key, value)[1..] == Put(members[1..], key, value);
    }
  }

  lemma {:induction false} PutTwice(members: seq<Member>, key: string, first: Json, second: Json)
    ensures Put(Put(members, key, first), key, second) == Put(members, key, second)
  {
    if members != [] && members[0].key != key {
      PutTwice(members[1..], key, first, second);
      assert Put(members, key, first)[1..] == Put(members[1..], key, first);
    }
  }

  lemma {:induction false} PutSame(members: seq<Member>, key: string)
    requires key in ToMap(members)
    ensures Put(members, key, ToMap(members)[key]) == members
  {
    if members[0].key != key {
      PutSame(members[1..], key);
    } else {
      assert members == [members[0]] + members[1..];
    }
  }

  lemma PutIsInjective(members: seq<Member>, key: string, a: Json, b: Json)
    ensures Put(members, key, a) == Put(members, key, b) ==> a == b
  {
    PutOnMap(members, key, a);
    PutOnMap(members, key, b);
    if Put(members, key, a) == Put(members, key, b) {
      assert ToMap(members)[key := a][key] == ToMap(members)[key := b][key];
    }
  }

  lemma {:induction false} PutKeepsDistinct(members: seq<Member>, key: string, value: Json)
    requires Distinct(members)
    ensures Distinct(Put(members, key, value))
  {
    if members == [] {
      assert Put(members, key, value)[1..] == [];
    } else if members[0].key == key {
      assert Put(members, key, value)[1..] == members[1..];
    } else {
      PutKeepsDistinct(members[1..], key, value);
      PutOnMap(members[1..], key, value);
      assert Put(members, key, value)[1..] == Put(members[1..], key, value);
    }
  }

  lemma {:induction false} WithoutByKey(members: seq<Member>, names: set<string>)
    ensures ToMap(Without(members, names)) == ToMap(members) - names
  {
    if members != [] {
      WithoutByKey(members[1..], names);
      if members[0].key in names {
        assert Without(members, names) == Without(members[1..], names);
      } else {
        assert Without(members, names)[1..] == Without(members[1..], names);
      }
    }
  }

  lemma {:induction false} WithoutIsDistinct(members: seq<Member>, names: set<string>)
    requires Distinct(members)
    ensures Distinct(Without(members, names))
  {
    if members != [] {
      WithoutIsDistinct(members[1..], names);
      WithoutByKey(members[1..], names);
      if members[0].key in names {
        assert Without(members, names) == Without(members[1..], names);
      } else {
        assert Without(members, names)[1..] == Without(members[1..], names);
      }
    }
  }

  // ----- positions as keys -----

  lemma {:induction false} DecimalValue(n: nat)
    ensures Decimal(n) != [] && Digits(Decimal(n)) && Value(Decimal(n)) == n
  {
    var last := (n % 10 + '0' as int) as char;
    if n < 10 {
      assert Decimal(n) == [last] && [last][..0] == [];
    } else {
      DecimalValue(n / 10);
      assert Decimal(n)[..|Decimal(n)| - 1] == Decimal(n / 10);
    }
  }

  lemma {:induction false} PositionsAreLater(items: seq<Json>, first: nat, key: string)
    requires key in ToMap(Indexed(items, first))
    ensures Digits(key) && Value(key) >= first
    decreases |items|
  {
    DecimalValue(first);
    if key != Decimal(first) {
      PositionsAreLater(items[1..], first + 1, key);
    }
  }

  lemma {:induction false} PositionsAreDistinct(items: seq<Json>, first: nat)
    ensures Distinct(Indexed(items, first))
    decreases |items|
  {
    if items != [] {
      PositionsAreDistinct(items[1..], first + 1);
      DecimalValue(first);
      if Decimal(first) in ToMap(Indexed(items[1..], first + 1)) {
        PositionsAreLater(items[1..], first + 1, Decimal(first));
      }
    }
  }

  lemma {:induction false} PositionsHold(items: seq<Json>, first: nat)
    ensures |Indexed(items, first)| == |items|
    ensures forall i :: 0 <= i < |items| ==> Indexed(items, first)[i].value == items[i]
    decreases |items|
  {
    if items != [] {
      PositionsHold(items[1..], first + 1);
    }
  }
}
