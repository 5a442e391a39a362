/** The laws asked of the EVM libraries can all be met at once: a concrete, if wasteful, library that meets them. */
module EvmLibrary {
  import opened Base
  import opened EvmBinding

  /** The encoding of a value tells where it ends. */
  ghost predicate Delimits<T(!new)>(e: T -> Bytes) {
    forall a, b, x, y {:trigger e(a) + x, e(b) + y} :: e(a) + x == e(b) + y ==> a == b && x == y
  }

  function Unary(n: nat): (r: Bytes) {
    if n == 0 then [0] else [1] + Unary(n - 1)
  }

  function Listing<T>(e: T -> Bytes, s: seq<T>): (r: Bytes) {
    if s == [] then [0] else [1] + (e(s[0]) + Listing(e, s[1..]))
  }

  lemma {:induction false} UnaryDelimited(a: nat, b: nat, x: Bytes, y: Bytes)
    ensures Unary(a) + x == Unary(b) + y ==> a == b && x == y
  {
    if Unary(a) + x == Unary(b) + y {
      assert (Unary(a) + x)[0] == Unary(a)[0] && (Unary(b) + y)[0] == Unary(b)[0];
      assert (Unary(a) + x)[1..] == Unary(a)[1..] + x && (Unary(b) + y)[1..] == Unary(b)[1..] + y;
      if a == 0 {
        assert x == (Unary(a) + x)[1..] && y == (Unary(b) + y)[1..];
      } else {
        UnaryDelimited(a - 1, b - 1, x, y);
      }
    }
  }

  lemma {:induction false} ListingDelimited<T(!new)>(e: T -> Bytes, a: seq<T>, b: seq<T>, x: Bytes, y: Bytes)
    requires Delimits(e) && Listing(e, a) + x == Listing(e, b) + y
    ensures a == b && x == y
    decreases |a|
  {
    var l, r := Listing(e, a), Listing(e, b);
    assert (l + x)[0] == l[0] && (r + y)[0] == r[0];
    assert (l + x)[1..] == l[1..] + x && (r + y)[1..] == r[1..] + y;
    if a != [] {
      var p, q := Listing(e, a[1..]) + x, Listing(e, b[1..]) + y;
      assert l[1..] + x == e(a[0]) + p && r[1..] + y == e(b[0]) + q;
      ListingDelimited(e, a[1..], b[1..], x, y);
      assert a == [a[0]] + a[1..] && b == [b[0]] + b[1..];
    }
  }

  function Numbers(s: seq<nat>): (r: Bytes) {
    Listing(Unary, s)
  }

  function Pack(s: seq<seq<nat>>): (r: Bytes) {
    Listing(Numbers, s)
  }

  lemma PackInjective(a: seq<seq<nat>>, b: seq<seq<nat>>)
    requires Pack(a) == Pack(b)
    ensures a == b
  {
    assert Delimits(Unary) by {
      forall m, n, x, y | Unary(m) + x == Unary(n) + y ensures m == n && x == y {
        UnaryDelimited(m, n, x, y);
      }
    }
    assert Delimits(Numbers) by {
      forall m, n, x, y | Numbers(m) + x == Numbers(n) + y ensures m == n && x == y {
        ListingDelimited(Unary, m, n, x, y);
      }
    }
    assert Pack(a) + [] == Pack(b) + [];
    ListingDelimited(Numbers, a, b, [], []);
  }

  function OfText(s: string): (r: seq<nat>) {
    seq(|s|, i requires 0 <= i < |s| => s[i] as int)
  }

  function OfBytes(s: Bytes): (r: seq<nat>) {
    seq(|s|, i requires 0 <= i < |s| => s[i])
  }

  lemma TextInjective(a: string, b: string)
    requires OfText(a) == OfText(b)
    ensures a == b
  {
    forall i | 0 <= i < |a| && i < |b| ensures a[i] == b[i] {
      assert OfText(a)[i] == OfText(b)[i];
    }
    assert |OfText(a)| == |OfText(b)|;
  }

  lemma BytesInjective(a: Bytes, b: Bytes)
    requires OfBytes(a) == OfBytes(b)
    ensures a == b
  {
    forall i | 0 <= i < |a| && i < |b| ensures a[i] == b[i] {
      assert OfBytes(a)[i] == OfBytes(b)[i];
    }
    assert |OfBytes(a)| == |OfBytes(b)|;
  }

  function OfAuth(a: Authorization): (r: seq<seq<nat>>) {
    [OfText(a.from), OfText(a.to), [a.value], [a.validAfter], [a.validBefore], OfText(a.nonce)]
  }

  lemma AuthInjective(a: Authorization, b: Authorization)
    requires OfAuth(a) == OfAuth(b)
    ensures a == b
  {
    var l, r := OfAuth(a), OfAuth(b);
    assert forall i | 0 <= i < 6 :: l[i] == r[i];
    TextInjective(a.from, b.from);
    TextInjective(a.to, b.to);
    TextInjective(a.nonce, b.nonce);
    assert l[2][0] == r[2][0] && l[3][0] == r[3][0] && l[4][0] == r[4][0];
  }

  function OfCall(c: TokenCall): (r: seq<seq<nat>>) {
    match c
    case WithBytes(auth, signature) => OfAuth(auth) + [OfBytes(signature)]
    case WithParts(auth, v, r, s) => OfAuth(auth) + [[v], OfBytes(r), OfBytes(s)]
  }

  lemma CallInjective(a: TokenCall, b: TokenCall)
    requires OfCall(a) == OfCall(b)
    ensures a == b
  {
    var l, r := OfCall(a), OfCall(b);
    assert |l| == |r| && l[..6] == OfAuth(a.auth) && r[..6] == OfAuth(b.auth);
    AuthInjective(a.auth, b.auth);
    if a.WithBytes? {
      assert l[6] == OfBytes(a.signature) && r[6] == OfBytes(b.signature);
      BytesInjective(a.signature, b.signature);
    } else {
      assert l[6] == [a.v] && r[6] == [b.v] && l[6][0] == r[6][0];
      assert l[7] == OfBytes(a.r) && r[7] == OfBytes(b.r) && l[8] == OfBytes(a.s) && r[8] == OfBytes(b.s);
      BytesInjective(a.r, b.r);
      BytesInjective(a.s, b.s);
    }
  }

  function OfTarget(to: Option<Address>): (r: seq<nat>) {
    if to.None? then [] else [1] + OfText(to.value)
  }

  lemma TargetInjective(a: Option<Address>, b: Option<Address>)
    requires OfTarget(a) == OfTarget(b)
    ensures a == b
  {
    if a.Some? {
      assert OfTarget(a)[1..] == OfText(a.value) && OfTarget(b)[1..] == OfText(b.value);
      TextInjective(a.value, b.value);
    }
  }

  function OfTransaction(t: Transaction): (r: seq<seq<nat>>) {
    [[t.chainId, t.nonce, t.gasLimit, t.maxFee, t.priorityFee, t.value, if t.accessListEmpty then 1 else 0],
     OfTarget(t.to), OfBytes(t.input)]
  }

  lemma TransactionInjective(a: Transaction, b: Transaction)
    requires OfTransaction(a) == OfTransaction(b)
    ensures a == b
  {
    var l, r := OfTransaction(a), OfTransaction(b);
    assert l[0] == r[0] && l[1] == r[1] && l[2] == r[2];
    assert forall i | 0 <= i < 7 :: l[0][i] == r[0][i];
    assert l[0][0] == r[0][0] && l[0][1] == r[0][1] && l[0][2] == r[0][2] && l[0][3] == r[0][3];
    assert l[0][4] == r[0][4] && l[0][5] == r[0][5] && l[0][6] == r[0][6];
    TargetInjective(a.to, b.to);
    BytesInjective(a.input, b.input);
  }

  function OfEnvelope(e: AnyEnvelope): (r: seq<seq<nat>>) {
    match e
    case Eip1559(signed) => OfTransaction(signed.tx) + [OfBytes(signed.signature)]
    case OtherType(payload) => [OfBytes(payload)]
  }

  lemma EnvelopeInjective(a: AnyEnvelope, b: AnyEnvelope)
    requires OfEnvelope(a) == OfEnvelope(b)
    ensures a == b
  {
    var l, r := OfEnvelope(a), OfEnvelope(b);
    assert |l| == |r| && l[|l| - 1] == r[|r| - 1];
    if a.Eip1559? {
      assert l[..3] == OfTransaction(a.signed.tx) && r[..3] == OfTransaction(b.signed.tx);
      TransactionInjective(a.signed.tx, b.signed.tx);
      BytesInjective(a.signed.signature, b.signed.signature);
    } else {
      BytesInjective(a.payload, b.payload);
    }
  }

  function Encode(e: AnyEnvelope): (r: Bytes) {
    Pack(OfEnvelope(e))
  }

  function AbiEncode(c: TokenCall): (r: Bytes) {
    Pack(OfCall(c))
  }

  function Letters(b: Bytes): (s: string) {
    seq(|b|, i requires 0 <= i < |b| => b[i] as char)
  }

  lemma LettersInjective(a: Bytes, b: Bytes)
    requires Letters(a) == Letters(b)
    ensures a == b
  {
    assert |Letters(a)| == |Letters(b)|;
    forall i | 0 <= i < |a| ensures a[i] == b[i] {
      assert Letters(a)[i] == Letters(b)[i];
    }
  }

  function HashOf(e: AnyEnvelope): (h: Hash) {
    Letters(Encode(e))
  }

  /** The signature is the key itself, so it recovers to the key's own address. */
  function Recover(e: AnyEnvelope): (r: Option<Address>) {
    if e.Eip1559? then Some(Letters(e.signed.signature)) else None
  }

  function OfDomain(d: Domain): (r: seq<seq<nat>>) {
    [OfText(d.name), OfText(d.version), if d.chainId.None? then [] else [d.chainId.value], OfTarget(d.contract),
     [if d.salted then 1 else 0]]
  }

  lemma DomainInjective(a: Domain, b: Domain)
    requires OfDomain(a) == OfDomain(b)
    ensures a == b
  {
    var l, r := OfDomain(a), OfDomain(b);
    assert l[0] == r[0] && l[1] == r[1] && l[2] == r[2] && l[3] == r[3] && l[4][0] == r[4][0];
    TextInjective(a.name, b.name);
    TextInjective(a.version, b.version);
    if a.chainId.Some? {
      assert |r[2]| == 1 && l[2][0] == r[2][0];
    }
    TargetInjective(a.contract, b.contract);
  }

  function TransferHash(a: Authorization, d: Domain): (h: Hash) {
    Letters(Pack(OfAuth(a) + OfDomain(d)))
  }

  lemma TransferHashInjective(a: Authorization, d: Domain, b: Authorization, e: Domain)
    requires TransferHash(a, d) == TransferHash(b, e)
    ensures a == b && d == e
  {
    var l, r := OfAuth(a) + OfDomain(d), OfAuth(b) + OfDomain(e);
    LettersInjective(Pack(l), Pack(r));
    PackInjective(l, r);
    assert l[..6] == OfAuth(a) && r[..6] == OfAuth(b) && l[6..] == OfDomain(d) && r[6..] == OfDomain(e);
    AuthInjective(a, b);
    DomainInjective(d, e);
  }

  lemma EncodeInjective(a: AnyEnvelope, b: AnyEnvelope)
    requires Encode(a) == Encode(b) || HashOf(a) == HashOf(b)
    ensures a == b
  {
    if HashOf(a) == HashOf(b) {
      LettersInjective(Encode(a), Encode(b));
    }
    PackInjective(OfEnvelope(a), OfEnvelope(b));
    EnvelopeInjective(a, b);
  }

  ghost function Decode(b: Bytes): (r: Option<(AnyEnvelope, Bytes)>) {
    if e :| Encode(e) == b then Some((e, [])) else None
  }

  ghost function AbiDecode(b: Bytes): (r: Option<TokenCall>) {
    if c :| AbiEncode(c) == b then Some(c) else None
  }

  /** Sixty-five bytes are a split signature, anything else an opaque one. */
  function Classify(signature: Bytes): (c: SignatureClass) {
    if |signature| == 65 then Eoa(signature[64], signature[..32], signature[32..64]) else Eip1271(signature)
  }

  /** The laws are consistent, in a library that tells signers and payments apart and uses both signature classes. */
  lemma LawfulLibrary() returns (lib: Library)
    ensures CodecsLawful(lib) && ClassifierStable(lib) && HashesDistinct(lib)
    ensures forall k, l :: lib.addressOf(k) == lib.addressOf(l) ==> k == l
    ensures forall a, d, b, e :: lib.transferHash(a, d) == lib.transferHash(b, e) ==> a == b && d == e
    ensures forall from, sig, h :: lib.classify(from, sig, h).Eoa? <==> |sig| == 65
    ensures forall from, sig, h :: lib.classify(from, sig, h).Eip1271? <==> |sig| != 65
  {
    lib := Library(e => Encode(e), b => Decode(b), e => HashOf(e), (key, tx) => key, key => Letters(key),
                   e => Recover(e), c => AbiEncode(c), b => AbiDecode(b), (a, d) => TransferHash(a, d),
                   (from, sig, h) => Classify(sig));
    forall e ensures Decode(Encode(e)) == Some((e, [])) {
      EncodeInjective(Decode(Encode(e)).value.0, e);
    }
    forall c ensures AbiDecode(AbiEncode(c)) == Some(c) {
      var d := AbiDecode(AbiEncode(c)).value;
      PackInjective(OfCall(d), OfCall(c));
      CallInjective(d, c);
    }
    forall a, b | HashOf(a) == HashOf(b) ensures a == b {
      EncodeInjective(a, b);
    }
    forall k, l | Letters(k) == Letters(l) ensures k == l {
      LettersInjective(k, l);
    }
    forall a, d, b, e | TransferHash(a, d) == TransferHash(b, e) ensures a == b && d == e {
      TransferHashInjective(a, d, b, e);
    }
    forall sig: Bytes | |sig| == 65 ensures var c := Classify(sig); c.r + c.s + [c.v] == sig {
      assert sig == sig[..32] + sig[32..64] + [sig[64]];
    }
  }
}
