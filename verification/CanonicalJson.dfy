/**
 Canonical JSON text of a request and the fingerprint preimage built from it.
 Objects are maps, as the parser produces them; the printer meets their keys in an
 unspecified order and sorts them.
 */
module CanonicalJson {
  import opened Base
  import opened Decimal

  /** Characters a JSON number is written with. */
  predicate NumberChar(b: Byte) {
    Digit(b) || b == 45 || b == 43 || b == 46 || b == 101 || b == 69
  }

  predicate AllNumberChars(s: Bytes) {
    forall i | 0 <= i < |s| :: NumberChar(s[i])
  }

  /** The shortest round-trip text of a finite float: it starts like a number and has a point or an exponent. */
  predicate IsFloatText(s: Bytes) {
    && AllNumberChars(s)
    && s != [] && (Digit(s[0]) || s[0] == 45)
    && (46 in s || 101 in s || 69 in s)
  }

  type FloatText = s: Bytes | IsFloatText(s) witness [48, 46, 48]

  datatype Number = Integer(n: int) | Float(text: FloatText)

  datatype Json =
    | Null
    | Bool(b: bool)
    | Num(n: Number)
    | Str(s: Bytes)
    | Array(items: seq<Json>)
    | Object(fields: map<Bytes, Json>)

  function Hex(d: int): (b: Byte)
    requires 0 <= d < 16
  {
    if d < 10 then 48 + d else 87 + d
  }

  /** String escaping, section 7 of RFC 8259: the short forms where they exist, `\u00XX` for other controls. */
  function Escape(b: Byte): (r: Bytes) {
    if b == 34 then [92, 34]
    else if b == 92 then [92, 92]
    else if b == 8 then [92, 98]
    else if b == 9 then [92, 116]
    else if b == 10 then [92, 110]
    else if b == 12 then [92, 102]
    else if b == 13 then [92, 114]
    else if b < 32 then [92, 117, 48, 48, Hex(b / 16), Hex(b % 16)]
    else [b]
  }

  function EscapeAll(s: Bytes): (r: Bytes) {
    if s == [] then [] else Escape(s[0]) + EscapeAll(s[1..])
  }

  function Quote(s: Bytes): (r: Bytes) {
    [34] + EscapeAll(s) + [34]
  }

  function NumberText(n: Number): (r: Bytes) {
    match n
    case Integer(i) => if i < 0 then [45] + Print(-i) else Print(i)
    case Float(text) => text
  }

  /** Strictly increasing in byte order. */
  predicate Increasing(keys: seq<Bytes>) {
    forall i, j | 0 <= i < j < |keys| :: Before(keys[i], keys[j])
  }

  ghost predicate Lists(keys: seq<Bytes>, s: set<Bytes>) {
    forall k :: k in keys <==> k in s
  }

  function Insert(k: Bytes, keys: seq<Bytes>): (r: seq<Bytes>) {
    if keys == [] || Before(k, keys[0]) then [k] + keys else [keys[0]] + Insert(k, keys[1..])
  }

  lemma {:induction false} InsertKeepsOrder(k: Bytes, keys: seq<Bytes>)
    requires Increasing(keys) && k !in keys
    ensures Increasing(Insert(k, keys)) && forall x :: x in Insert(k, keys) <==> x == k || x in keys
  {
    if keys != [] {
      BeforeIsTotal(k, keys[0]);
      assert keys[0] in keys;
      if Before(k, keys[0]) {
        forall i | 0 < i < |keys| ensures Before(k, keys[i]) {
          BeforeIsTransitive(k, keys[0], keys[i]);
        }
      } else {
        InsertKeepsOrder(k, keys[1..]);
        var rest := Insert(k, keys[1..]);
        forall i | 0 <= i < |rest| ensures Before(keys[0], rest[i]) {
          assert rest[i] in rest;
        }
        assert keys == [keys[0]] + keys[1..];
      }
    }
  }

  lemma {:induction false} OneSortedListing(a: seq<Bytes>, b: seq<Bytes>, s: set<Bytes>)
    requires Increasing(a) && Increasing(b) && Lists(a, s) && Lists(b, s)
    ensures a == b
  {
    assert a == [] || a[0] in a;
    assert b == [] || b[0] in b;
    if a != [] {
      assert a[0] in a;
      assert a[0] in b && b[0] in b && b[0] in a;
      BeforeIsTotal(a[0], b[0]);
      var i :| 0 <= i < |b| && b[i] == a[0];
      var j :| 0 <= j < |a| && a[j] == b[0];
      assert a[0] == b[0];
      forall k ensures k in a[1..] <==> k in s - {a[0]} { BeforeIsTotal(a[0], a[0]); }
      forall k ensures k in b[1..] <==> k in s - {a[0]} { BeforeIsTotal(b[0], b[0]); }
      OneSortedListing(a[1..], b[1..], s - {a[0]});
    }
  }

  ghost function SortedKeys(s: set<Bytes>): (keys: seq<Bytes>)
    ensures Increasing(keys) && Lists(keys, s)
  {
    if s == {} then []
    else
      var k :| k in s;
      InsertKeepsOrder(k, SortedKeys(s - {k}));
      Insert(k, SortedKeys(s - {k}))
  }

  /** Collect the keys in whatever order the map yields them, and sort. */
  method KeysInOrder(m: map<Bytes, Json>) returns (keys: seq<Bytes>)
    ensures keys == SortedKeys(m.Keys)
  {
    keys := [];
    var rest := m.Keys;
    while rest != {}
      invariant rest <= m.Keys
      invariant Increasing(keys) && Lists(keys, m.Keys - rest)
      decreases rest
    {
      var k :| k in rest;
      InsertKeepsOrder(k, keys);
      keys := Insert(k, keys);
      rest := rest - {k};
    }
    OneSortedListing(keys, SortedKeys(m.Keys), m.Keys);
  }

  ghost function Text(v: Json): (r: Bytes)
    decreases v, 1, 0
  {
    match v
    case Null => [110, 117, 108, 108]
    case Bool(b) => if b then [116, 114, 117, 101] else [102, 97, 108, 115, 101]
    case Num(n) => NumberText(n)
    case Str(s) => Quote(s)
    case Array(items) => [91] + Items(items) + [93]
    case Object(_) => [123] + Fields(v, SortedKeys(v.fields.Keys)) + [125]
  }

  ghost function Items(vs: seq<Json>): (r: Bytes)
    decreases vs, 0, 0
  {
    if vs == [] then []
    else if |vs| == 1 then Text(vs[0])
    else Text(vs[0]) + [44] + Items(vs[1..])
  }

  ghost function Fields(v: Json, keys: seq<Bytes>): (r: Bytes)
    requires v.Object? && forall k | k in keys :: k in v.fields
    decreases v, 0, |keys|
  {
    if keys == [] then []
    else
      var head := Quote(keys[0]) + [58] + Text(v.fields[keys[0]]);
      if |keys| == 1 then head else head + [44] + Fields(v, keys[1..])
  }

  lemma {:induction false} ItemsSnoc(vs: seq<Json>, v: Json)
    ensures Items(vs + [v]) == Items(vs) + (if vs == [] then [] else [44]) + Text(v)
  {
    if vs != [] {
      assert (vs + [v])[1..] == vs[1..] + [v];
      ItemsSnoc(vs[1..], v);
    }
  }

  lemma {:induction false} FieldsSnoc(v: Json, keys: seq<Bytes>, k: Bytes)
    requires v.Object? && k in v.fields && forall x | x in keys :: x in v.fields
    ensures Fields(v, keys + [k]) ==
            Fields(v, keys) + (if keys == [] then [] else [44]) + (Quote(k) + [58] + Text(v.fields[k]))
  {
    if keys != [] {
      assert (keys + [k])[1..] == keys[1..] + [k];
      FieldsSnoc(v, keys[1..], k);
    }
  }

  lemma Wrap(before: Bytes, open: Bytes, body: Bytes, close: Bytes)
    ensures before + open + body + close == before + (open + body + close)
  {
  }

  /** Append the canonical text of `v` to a buffer. */
  method WriteCanonical(v: Json, before: Bytes) returns (output: Bytes)
    ensures output == before + Text(v)
    decreases v, 1
  {
    match v {
      case Null => output := before + [110, 117, 108, 108];
      case Bool(b) => output := before + if b then [116, 114, 117, 101] else [102, 97, 108, 115, 101];
      case Num(n) => output := before + NumberText(n);
      case Str(s) => output := before + Quote(s);
      case Array(items) =>
        output := WriteItems(items, before + [91]);
        output := output + [93];
        Wrap(before, [91], Items(items), [93]);
      case Object(_) =>
        output := WriteFields(v, before + [123]);
        output := output + [125];
        Wrap(before, [123], Fields(v, SortedKeys(v.fields.Keys)), [125]);
    }
  }

  method WriteItems(items: seq<Json>, before: Bytes) returns (output: Bytes)
    ensures output == before + Items(items)
    decreases items, 0
  {
    output := before;
    for i := 0 to |items|
      invariant output == before + Items(items[..i])
    {
      assert items[..i + 1] == items[..i] + [items[i]];
      ItemsSnoc(items[..i], items[i]);
      if i != 0 {
        output := output + [44];
      }
      output := WriteCanonical(items[i], output);
    }
    assert items[..|items|] == items;
  }

  method WriteFields(v: Json, before: Bytes) returns (output: Bytes)
    requires v.Object?
    ensures output == before + Fields(v, SortedKeys(v.fields.Keys))
    decreases v, 0
  {
    var keys := KeysInOrder(v.fields);
    output := before;
    for i := 0 to |keys|
      invariant output == before + Fields(v, keys[..i])
    {
      assert keys[i] in keys;
      ghost var start, k := output, keys[i];
      ghost var comma: Bytes := if i == 0 then [] else [44];
      if i != 0 {
        output := output + [44];
      }
      assert output == start + comma;
      output := output + Quote(keys[i]);
      output := output + [58];
      output := WriteCanonical(v.fields[keys[i]], output);
      Wrap(start + comma, Quote(k), [58], Text(v.fields[k]));
      NextField(v, keys, i, before, output);
    }
    assert keys[..|keys|] == keys;
  }

  lemma NextField(v: Json, keys: seq<Bytes>, i: nat, before: Bytes, output: Bytes)
    requires v.Object? && i < |keys| && forall k | k in keys :: k in v.fields
    requires var comma := if i == 0 then [] else [44];
             output == before + Fields(v, keys[..i]) + comma + (Quote(keys[i]) + [58] + Text(v.fields[keys[i]]))
    ensures output == before + Fields(v, keys[..i + 1])
  {
    assert keys[..i + 1] == keys[..i] + [keys[i]];
    FieldsSnoc(v, keys[..i], keys[i]);
    Wrap(before, Fields(v, keys[..i]), if i == 0 then [] else [44], Quote(keys[i]) + [58] + Text(v.fields[keys[i]]));
  }
}
