/** Canonical text identifies a JSON value, and the fingerprint preimage identifies a request. */
module JsonIdentity {
  import opened Base
  import opened Decimal
  import opened CanonicalJson

  /** What may follow a value inside a larger text: nothing, or a comma or closing bracket. */
  predicate Stops(x: Bytes) {
    x == [] || x[0] == 44 || x[0] == 93 || x[0] == 125
  }

  /** Texts with a common head can be compared after it. */
  lemma DropHead(a: Bytes, x: Bytes, y: Bytes)
    requires a + x == a + y
    ensures x == y
  {
    assert x == (a + x)[|a|..];
    assert y == (a + y)[|a|..];
  }

  lemma Reassociate(a: Bytes, b: Bytes, c: Bytes)
    ensures a + b + c == a + (b + c)
  {
  }

  lemma EscapeIsPrefixFree(b: Byte, c: Byte, x: Bytes, y: Bytes)
    requires Escape(b) + x == Escape(c) + y
    ensures b == c && x == y
  {
    var s, t := Escape(b) + x, Escape(c) + y;
    assert s[0] == Escape(b)[0] && t[0] == Escape(c)[0];
    if |Escape(b)| > 1 {
      assert s[1] == Escape(b)[1];
      assert |Escape(c)| > 1 && t[1] == Escape(c)[1];
      if |Escape(b)| == 6 {
        assert s[4] == Escape(b)[4] && s[5] == Escape(b)[5] && |Escape(c)| == 6;
        assert t[4] == Escape(c)[4] && t[5] == Escape(c)[5];
        HexInjective(b / 16, c / 16);
        HexInjective(b % 16, c % 16);
      }
    }
    DropHead(Escape(b), x, y);
  }

  lemma HexInjective(d: int, e: int)
    requires 0 <= d < 16 && 0 <= e < 16 && Hex(d) == Hex(e)
    ensures d == e
  {
  }

  /** An escaped string ends at its first bare quote. */
  lemma {:induction false} EscapeAllDelimited(s: Bytes, t: Bytes, x: Bytes, y: Bytes)
    requires EscapeAll(s) + ([34] + x) == EscapeAll(t) + ([34] + y)
    ensures s == t && x == y
  {
    var p, q := EscapeAll(s) + ([34] + x), EscapeAll(t) + ([34] + y);
    assert if s == [] then p == [34] + x else p[0] == Escape(s[0])[0] != 34;
    assert if t == [] then q == [34] + y else q[0] == Escape(t[0])[0] != 34;
    if s == [] || t == [] {
      DropHead([34], x, y);
    } else {
      var u, v := EscapeAll(s[1..]) + ([34] + x), EscapeAll(t[1..]) + ([34] + y);
      Reassociate(Escape(s[0]), EscapeAll(s[1..]), [34] + x);
      Reassociate(Escape(t[0]), EscapeAll(t[1..]), [34] + y);
      EscapeIsPrefixFree(s[0], t[0], u, v);
      EscapeAllDelimited(s[1..], t[1..], x, y);
      assert s == [s[0]] + s[1..] && t == [t[0]] + t[1..];
    }
  }

  lemma QuoteDelimited(s: Bytes, t: Bytes, x: Bytes, y: Bytes)
    requires Quote(s) + x == Quote(t) + y
    ensures s == t && x == y
  {
    Unwrap(34, EscapeAll(s), EscapeAll(t), 34, x, y);
    EscapeAllDelimited(s, t, x, y);
  }

  lemma NumberRun(p: Bytes, x: Bytes, all: Bytes)
    requires AllNumberChars(p) && Stops(x) && all == p + x
    ensures forall i | 0 <= i < |p| :: NumberChar(all[i])
    ensures |p| < |all| ==> !NumberChar(all[|p|])
  {
  }

  /** A run of number characters ends where they stop. */
  lemma NumbersDelimited(p: Bytes, q: Bytes, x: Bytes, y: Bytes)
    requires AllNumberChars(p) && AllNumberChars(q) && Stops(x) && Stops(y) && p + x == q + y
    ensures p == q && x == y
  {
    NumberRun(p, x, p + x);
    NumberRun(q, y, p + x);
    assert |p| == |q|;
    assert p == (p + x)[..|p|] && q == (q + y)[..|q|];
    DropHead(p, x, y);
  }

  lemma NumberTextShape(n: Number)
    ensures var t := NumberText(n); AllNumberChars(t) && t != [] && (Digit(t[0]) || t[0] == 45)
    ensures n.Integer? ==> 46 !in NumberText(n) && 101 !in NumberText(n) && 69 !in NumberText(n)
  {
    if n.Integer? {
      PrintRoundTrip(if n.n < 0 then -n.n else n.n);
    }
  }

  lemma NumberTextInjective(m: Number, n: Number)
    requires NumberText(m) == NumberText(n)
    ensures m == n
  {
    NumberTextShape(m);
    NumberTextShape(n);
    if m.Integer? && n.Integer? {
      var a, b := if m.n < 0 then -m.n else m.n, if n.n < 0 then -n.n else n.n;
      PrintRoundTrip(a);
      PrintRoundTrip(b);
      assert if m.n < 0 then NumberText(m)[0] == 45 else Digit(NumberText(m)[0]);
      assert if n.n < 0 then NumberText(n)[0] == 45 else Digit(NumberText(n)[0]);
      if m.n < 0 {
        DropHead([45], Print(a), Print(b));
      }
    }
  }

  /** The first byte of a text tells what kind of value it is. */
  predicate Opens(v: Json, b: Byte) {
    match v
    case Null => b == 110
    case Bool(x) => b == if x then 116 else 102
    case Num(_) => Digit(b) || b == 45
    case Str(_) => b == 34
    case Array(_) => b == 91
    case Object(_) => b == 123
  }

  lemma TextOpens(v: Json)
    ensures Text(v) != [] && Opens(v, Text(v)[0])
  {
    if v.Num? {
      NumberTextShape(v.n);
    }
  }

  lemma SameKind(a: Json, b: Json, x: Bytes, y: Bytes)
    requires Text(a) + x == Text(b) + y
    ensures match a
            case Null => b.Null?
            case Bool(_) => a == b
            case Num(_) => b.Num?
            case Str(_) => b.Str?
            case Array(_) => b.Array?
            case Object(_) => b.Object?
  {
    TextOpens(a);
    TextOpens(b);
    assert (Text(a) + x)[0] == Text(a)[0] && (Text(b) + y)[0] == Text(b)[0];
  }

  /** A value's text can be read off the front of any text in which something that stops it follows. */
  lemma {:induction false} TextDelimited(a: Json, b: Json, x: Bytes, y: Bytes)
    requires Text(a) + x == Text(b) + y && Stops(x) && Stops(y)
    ensures a == b && x == y
    decreases a, 1, 0
  {
    SameKind(a, b, x, y);
    match a
    case Null => DropHead(Text(a), x, y);
    case Bool(_) => DropHead(Text(a), x, y);
    case Num(_) =>
      NumberTextShape(a.n);
      NumberTextShape(b.n);
      NumbersDelimited(Text(a), Text(b), x, y);
      NumberTextInjective(a.n, b.n);
    case Str(_) => QuoteDelimited(a.s, b.s, x, y);
    case Array(_) =>
      Unwrap(91, Items(a.items), Items(b.items), 93, x, y);
      ItemsDelimited(a.items, b.items, x, y);
    case Object(_) =>
      var ka, kb := SortedKeys(a.fields.Keys), SortedKeys(b.fields.Keys);
      Unwrap(123, Fields(a, ka), Fields(b, kb), 125, x, y);
      FieldsDelimited(a, ka, b, kb, x, y);
      SameFields(a, b);
  }

  lemma Unwrap(open: Byte, p: Bytes, q: Bytes, close: Byte, x: Bytes, y: Bytes)
    requires [open] + p + [close] + x == [open] + q + [close] + y
    ensures p + ([close] + x) == q + ([close] + y)
  {
    assert [open] + p + [close] + x == [open] + (p + ([close] + x));
    assert [open] + q + [close] + y == [open] + (q + ([close] + y));
    DropHead([open], p + ([close] + x), q + ([close] + y));
  }

  lemma SameFields(a: Json, b: Json)
    requires a.Object? && b.Object?
    requires SortedKeys(a.fields.Keys) == SortedKeys(b.fields.Keys)
    requires forall k | k in SortedKeys(a.fields.Keys) :: k in a.fields && k in b.fields && a.fields[k] == b.fields[k]
    ensures a == b
  {
    forall k ensures k in a.fields <==> k in b.fields {
      assert k in a.fields.Keys <==> k in SortedKeys(a.fields.Keys);
      assert k in b.fields.Keys <==> k in SortedKeys(b.fields.Keys);
    }
    assert a.fields == b.fields;
  }

  /** What follows the first element of a list: a comma and the rest, or the closing bracket. */
  function Rest(more: bool, rest: Bytes, close: Byte, x: Bytes): (r: Bytes) {
    if more then [44] + (rest + ([close] + x)) else [close] + x
  }

  lemma {:induction false} ItemsDelimited(vs: seq<Json>, ws: seq<Json>, x: Bytes, y: Bytes)
    requires Items(vs) + ([93] + x) == Items(ws) + ([93] + y)
    ensures vs == ws && x == y
    decreases vs, 0, 0
  {
    ItemsOpen(vs, x);
    ItemsOpen(ws, y);
    if vs == [] || ws == [] {
      assert vs == [] && ws == [];
      DropHead([93], x, y);
    } else {
      var u := Rest(|vs| > 1, Items(vs[1..]), 93, x);
      var v := Rest(|ws| > 1, Items(ws[1..]), 93, y);
      TextDelimited(vs[0], ws[0], u, v);
      assert (|vs| > 1) == (u[0] == 44) && (|ws| > 1) == (v[0] == 44);
      if |vs| > 1 {
        DropHead([44], Items(vs[1..]) + ([93] + x), Items(ws[1..]) + ([93] + y));
        ItemsDelimited(vs[1..], ws[1..], x, y);
        assert vs == [vs[0]] + vs[1..] && ws == [ws[0]] + ws[1..];
      } else {
        DropHead([93], x, y);
        assert vs == [vs[0]] && ws == [ws[0]];
      }
    }
  }

  /** A list of items opens with its first item, or at once with its closing bracket. */
  lemma ItemsOpen(vs: seq<Json>, x: Bytes)
    ensures vs == [] ==> Items(vs) + ([93] + x) == [93] + x && (Items(vs) + ([93] + x))[0] == 93
    ensures vs != [] ==>
              && Items(vs) + ([93] + x) == Text(vs[0]) + Rest(|vs| > 1, Items(vs[1..]), 93, x)
              && (Items(vs) + ([93] + x))[0] != 93
  {
    if vs != [] {
      TextOpens(vs[0]);
      assert (Items(vs) + ([93] + x))[0] == Text(vs[0])[0];
      if |vs| > 1 {
        ListTail(Text(vs[0]), Items(vs[1..]), 93, x);
      }
    }
  }

  lemma ListTail(head: Bytes, rest: Bytes, close: Byte, x: Bytes)
    ensures head + [44] + rest + ([close] + x) == head + Rest(true, rest, close, x)
  {
  }

  lemma FieldHead(q: Bytes, t: Bytes, rest: Bytes)
    ensures q + [58] + t + rest == q + ([58] + (t + rest))
  {
  }

  lemma FieldsOpen(v: Json, keys: seq<Bytes>, x: Bytes)
    requires v.Object? && forall k | k in keys :: k in v.fields
    ensures keys == [] ==> Fields(v, keys) + ([125] + x) == [125] + x && (Fields(v, keys) + ([125] + x))[0] == 125
    ensures keys != [] ==>
              && Fields(v, keys) + ([125] + x) ==
                   Quote(keys[0]) + ([58] + (Text(v.fields[keys[0]]) + Rest(|keys| > 1, Fields(v, keys[1..]), 125, x)))
              && (Fields(v, keys) + ([125] + x))[0] != 125
  {
    if keys != [] {
      var q, t := Quote(keys[0]), Text(v.fields[keys[0]]);
      var rest := Rest(|keys| > 1, Fields(v, keys[1..]), 125, x);
      var head := q + [58] + t;
      if |keys| > 1 {
        ListTail(head, Fields(v, keys[1..]), 125, x);
      }
      assert Fields(v, keys) + ([125] + x) == head + rest;
      FieldHead(q, t, rest);
      assert (q + ([58] + (t + rest)))[0] == q[0] == 34;
    }
  }

  lemma {:induction false} FieldsDelimited(a: Json, ka: seq<Bytes>, b: Json, kb: seq<Bytes>, x: Bytes, y: Bytes)
    requires a.Object? && b.Object? && (forall k | k in ka :: k in a.fields) && (forall k | k in kb :: k in b.fields)
    requires Fields(a, ka) + ([125] + x) == Fields(b, kb) + ([125] + y)
    ensures ka == kb && x == y && forall k | k in ka :: a.fields[k] == b.fields[k]
    decreases a, 0, |ka|
  {
    FieldsOpen(a, ka, x);
    FieldsOpen(b, kb, y);
    if ka == [] || kb == [] {
      assert ka == [] && kb == [];
      DropHead([125], x, y);
    } else {
      var u := Rest(|ka| > 1, Fields(a, ka[1..]), 125, x);
      var v := Rest(|kb| > 1, Fields(b, kb[1..]), 125, y);
      var p, q := Text(a.fields[ka[0]]) + u, Text(b.fields[kb[0]]) + v;
      QuoteDelimited(ka[0], kb[0], [58] + p, [58] + q);
      DropHead([58], p, q);
      TextDelimited(a.fields[ka[0]], b.fields[kb[0]], u, v);
      assert (|ka| > 1) == (u[0] == 44) && (|kb| > 1) == (v[0] == 44);
      if |ka| > 1 {
        DropHead([44], Fields(a, ka[1..]) + ([125] + x), Fields(b, kb[1..]) + ([125] + y));
        FieldsDelimited(a, ka[1..], b, kb[1..], x, y);
      } else {
        DropHead([125], x, y);
      }
      assert ka == [ka[0]] + ka[1..] && kb == [kb[0]] + kb[1..];
    }
  }

  /** Two values have the same canonical text exactly when they are the same value, objects read as maps. */
  lemma CanonicalTextIdentifies(a: Json, b: Json)
    ensures Text(a) == Text(b) <==> a == b
  {
    if Text(a) == Text(b) {
      assert Text(a) + [] == Text(b) + [];
      TextDelimited(a, b, [], []);
    }
  }

  /** `x402-near/request/v1` and a zero byte. */
  const DOMAIN: Bytes :=
    [120, 52, 48, 50, 45, 110, 101, 97, 114, 47, 114, 101, 113, 117, 101, 115, 116, 47, 118, 49, 0]

  /** What the fingerprint hashes, built up by three updates of the hasher. */
  ghost function Preimage(request: Json, paymentHash: Bytes): (r: Bytes) {
    DOMAIN + Text(request) + paymentHash
  }

  method HasherInput(request: Json, paymentHash: Bytes) returns (input: Bytes)
    ensures input == Preimage(request, paymentHash)
  {
    var canonical := WriteCanonical(request, []);
    input := DOMAIN;
    input := input + canonical;
    input := input + paymentHash;
  }

  /** Equal fingerprint preimages mean the same request and the same 32-byte payment hash. */
  lemma PreimageIdentifies(a: Json, h: Bytes, b: Json, k: Bytes)
    requires |h| == 32 && |k| == 32
    ensures Preimage(a, h) == Preimage(b, k) <==> a == b && h == k
  {
    if Preimage(a, h) == Preimage(b, k) {
      var p, q := Preimage(a, h), Preimage(b, k);
      assert h == p[|p| - 32..] && k == q[|q| - 32..];
      assert Text(a) == p[|DOMAIN|..|p| - 32] && Text(b) == q[|DOMAIN|..|q| - 32];
      CanonicalTextIdentifies(a, b);
    }
  }
}
