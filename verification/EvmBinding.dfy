/**
 Signing an ERC-3009 settlement and, during recovery, binding stored bytes back to the
 row they were journaled for. Encoders, hashes and signatures are parameters; what is
 assumed of them is stated where it is used.
 */
module EvmBinding {
  import opened Base
  import opened EvmFees

  type Address = string
  type Hash = string

  datatype Authorization = Authorization(
    from: Address, to: Address, value: nat, validAfter: nat, validBefore: nat, nonce: Hash)

  datatype Domain = Domain(name: string, version: string, chainId: Option<nat>, contract: Option<Address>, salted: bool)

  /** The two overloads of the token call: an opaque signature, or a split one. */
  datatype TokenCall =
    | WithBytes(auth: Authorization, signature: Bytes)
    | WithParts(auth: Authorization, v: Byte, r: Bytes, s: Bytes)

  /** The fields of an EIP-1559 transaction that settlement sets or checks. */
  datatype Transaction = Transaction(
    chainId: nat, nonce: nat, gasLimit: nat, maxFee: nat, priorityFee: nat, to: Option<Address>, value: nat,
    accessListEmpty: bool, input: Bytes)

  datatype Envelope1559 = Envelope1559(tx: Transaction, signature: Bytes)

  datatype AnyEnvelope = Eip1559(signed: Envelope1559) | OtherType(payload: Bytes)

  datatype SignatureClass = Eoa(v: Byte, r: Bytes, s: Bytes) | Eip1271(bytes: Bytes) | Counterfactual | Unparsable

  datatype SignatureKind = EoaKind | Eip1271Kind

  /** Everything taken from libraries. */
  datatype Library = Library(
    encode: AnyEnvelope -> Bytes,
    decode: Bytes -> Option<(AnyEnvelope, Bytes)>,
    txHash: AnyEnvelope -> Hash,
    sign: (Bytes, Transaction) -> Bytes,
    addressOf: Bytes -> Address,
    recover: AnyEnvelope -> Option<Address>,
    abiEncode: TokenCall -> Bytes,
    abiDecode: Bytes -> Option<TokenCall>,
    transferHash: (Authorization, Domain) -> Hash,
    classify: (Address, Bytes, Hash) -> SignatureClass)

  /** Codecs are inverse on what they produce, and a signature recovers to its signer. */
  ghost predicate CodecsLawful(lib: Library) {
    && (forall e :: lib.decode(lib.encode(e)) == Some((e, [])))
    && (forall c :: lib.abiDecode(lib.abiEncode(c)) == Some(c))
    && (forall key, tx :: lib.recover(Eip1559(Envelope1559(tx, lib.sign(key, tx)))) == Some(lib.addressOf(key)))
  }

  /** Rejoining the parts of a split signature, or keeping an opaque one, classifies as before. */
  ghost predicate ClassifierStable(lib: Library) {
    forall from, sig, h ::
      var shape := lib.classify(from, sig, h);
      && (shape.Eoa? ==> lib.classify(from, shape.r + shape.s + [shape.v], h) == shape)
      && (shape.Eip1271? ==> lib.classify(from, shape.bytes, h) == shape)
  }

  datatype Prepared = Prepared(hash: Hash, signer: Address, nonce: nat, bytes: Bytes)

  function SettlementCall(lib: Library, auth: Authorization, signature: Bytes, h: Hash): (c: Option<TokenCall>) {
    match lib.classify(auth.from, signature, h)
    case Eoa(v, r, s) => Some(WithParts(auth, v, r, s))
    case Eip1271(bytes) => Some(WithBytes(auth, bytes))
    case _ => None
  }

  function SignSettlement(lib: Library, key: Bytes, chainId: nat, nonce: nat, fees: Envelope, asset: Address,
                          calldata: Bytes)
    : (p: Prepared)
  {
    var tx := Transaction(chainId, nonce, fees.gasLimit, fees.maxFee, fees.priorityFee, Some(asset), 0, true, calldata);
    var envelope := Eip1559(Envelope1559(tx, lib.sign(key, tx)));
    Prepared(lib.txHash(envelope), lib.addressOf(key), nonce, lib.encode(envelope))
  }

  /** What the journal row says the bytes must be. */
  datatype Expected = Expected(
    hash: Hash, signer: Address, chainId: nat, nonce: nat, token: Address, gasLimit: nat, maxFee: nat,
    auth: Authorization, paymentHash: Hash, domain: Domain)

  datatype Error =
    | InvalidEnvelope | TrailingBytes | UnsupportedEnvelope | TransactionHashMismatch | SignerRecovery | SignerMismatch
    | ChainIdMismatch | AccountNonceMismatch | TokenMismatch | NativeValue | GasLimitMismatch | FeeCapExceeded
    | InvalidFeeEnvelope | UnexpectedAccessList | DomainMismatch | InvalidCalldata | AuthorizationMismatch
    | PaymentHashMismatch

  datatype Decoded = Decoded(
    hash: Hash, signer: Address, chainId: nat, nonce: nat, token: Address, gasLimit: nat, maxFee: nat, priorityFee: nat,
    auth: Authorization, paymentHash: Hash, kind: SignatureKind)

  datatype Result<+T> = Ok(value: T) | Err(error: Error)

  /** The authorization, overload and payer signature in a token call that re-encodes to itself. */
  function DecodeCall(lib: Library, input: Bytes): (r: Result<(Authorization, SignatureKind, Bytes)>) {
    match lib.abiDecode(input)
    case None => Err(InvalidCalldata)
    case Some(call) =>
      if lib.abiEncode(call) != input then Err(InvalidCalldata)
      else
        match call
        case WithBytes(auth, signature) => Ok((auth, Eip1271Kind, signature))
        case WithParts(auth, v, r, s) => Ok((auth, EoaKind, r + s + [v]))
  }

  function CheckCall(lib: Library, tx: Transaction, e: Expected, signer: Address): (r: Result<Decoded>) {
    match DecodeCall(lib, tx.input)
    case Err(error) => Err(error)
    case Ok((auth, kind, signature)) =>
      if auth != e.auth then Err(AuthorizationMismatch)
      else
        var h := lib.transferHash(auth, e.domain);
        if h != e.paymentHash then Err(PaymentHashMismatch)
        else
          var shape := lib.classify(auth.from, signature, h);
          if (shape.Eoa? && kind == EoaKind) || (shape.Eip1271? && kind == Eip1271Kind) then
            Ok(Decoded(e.hash, signer, tx.chainId, tx.nonce, e.token, tx.gasLimit, tx.maxFee, tx.priorityFee, auth, h,
                       kind))
          else Err(InvalidCalldata)
  }

  function CheckTransaction(lib: Library, tx: Transaction, e: Expected, signer: Address): (r: Result<Decoded>) {
    if tx.chainId != e.chainId then Err(ChainIdMismatch)
    else if tx.nonce != e.nonce then Err(AccountNonceMismatch)
    else if tx.to != Some(e.token) then Err(TokenMismatch)
    else if tx.value != 0 then Err(NativeValue)
    else if tx.gasLimit != e.gasLimit then Err(GasLimitMismatch)
    else if tx.maxFee > e.maxFee then Err(Error.FeeCapExceeded)
    else if tx.maxFee == 0 || tx.priorityFee > tx.maxFee then Err(InvalidFeeEnvelope)
    else if !tx.accessListEmpty then Err(UnexpectedAccessList)
    else if e.domain.chainId != Some(e.chainId) || e.domain.contract != Some(e.token) || e.domain.salted then
      Err(DomainMismatch)
    else CheckCall(lib, tx, e, signer)
  }

  function ValidateStored(lib: Library, bytes: Bytes, e: Expected): (r: Result<Decoded>) {
    match lib.decode(bytes)
    case None => Err(InvalidEnvelope)
    case Some((envelope, remaining)) =>
      if remaining != [] then Err(TrailingBytes)
      else if lib.encode(envelope) != bytes then Err(InvalidEnvelope)
      else if !envelope.Eip1559? then Err(UnsupportedEnvelope)
      else if lib.txHash(envelope) != e.hash then Err(TransactionHashMismatch)
      else
        match lib.recover(envelope)
        case None => Err(SignerRecovery)
        case Some(signer) =>
          if signer != e.signer then Err(SignerMismatch)
          else CheckTransaction(lib, envelope.signed.tx, e, signer)
  }

  /** The row journaled for a verified payment whose prepared transaction is `p`. */
  function RowFor(p: Prepared, chainId: nat, policy: Policy, asset: Address, auth: Authorization, h: Hash, name: string,
                  version: string)
    : (e: Expected)
  {
    Expected(p.hash, p.signer, chainId, p.nonce, asset, policy.gasLimit, policy.cap, auth, h,
             Domain(name, version, Some(chainId), Some(asset), false))
  }

  lemma CallRoundTrip(lib: Library, auth: Authorization, signature: Bytes, h: Hash, c: TokenCall)
    requires CodecsLawful(lib) && ClassifierStable(lib) && SettlementCall(lib, auth, signature, h) == Some(c)
    ensures var r := DecodeCall(lib, lib.abiEncode(c));
            && r.Ok? && r.value.0 == auth
            && r.value.1 == (if lib.classify(auth.from, signature, h).Eoa? then EoaKind else Eip1271Kind)
            && lib.classify(auth.from, r.value.2, h) == lib.classify(auth.from, signature, h)
  {
    assert lib.abiDecode(lib.abiEncode(c)) == Some(c);
  }

  /** A transaction signed for a payment under the fee policy validates against its row and decodes to its facts. */
  lemma SignThenValidate(lib: Library, key: Bytes, chainId: nat, nonce: nat, policy: Policy, primary: Estimate,
                         backup: Estimate, asset: Address, auth: Authorization, signature: Bytes, name: string,
                         version: string)
    returns (p: Prepared, d: Decoded)
    requires CodecsLawful(lib) && ClassifierStable(lib) && BoundedEnvelope(policy, primary, backup).Priced?
    requires var h := lib.transferHash(auth, Domain(name, version, Some(chainId), Some(asset), false));
             SettlementCall(lib, auth, signature, h).Some?
    ensures var h := lib.transferHash(auth, Domain(name, version, Some(chainId), Some(asset), false));
            var fees := BoundedEnvelope(policy, primary, backup).envelope;
            var call := SettlementCall(lib, auth, signature, h).value;
            && p == SignSettlement(lib, key, chainId, nonce, fees, asset, lib.abiEncode(call))
            && ValidateStored(lib, p.bytes, RowFor(p, chainId, policy, asset, auth, h, name, version)) == Ok(d)
            && d.hash == p.hash && d.signer == lib.addressOf(key) && d.auth == auth && d.paymentHash == h
            && d.maxFee == fees.maxFee && d.priorityFee == fees.priorityFee && d.nonce == nonce
            && d.kind == (if lib.classify(auth.from, signature, h).Eoa? then EoaKind else Eip1271Kind)
  {
    var h := lib.transferHash(auth, Domain(name, version, Some(chainId), Some(asset), false));
    var fees := BoundedEnvelope(policy, primary, backup).envelope;
    var call := SettlementCall(lib, auth, signature, h).value;
    EnvelopeIsUsable(policy, primary, backup);
    CallRoundTrip(lib, auth, signature, h, call);
    p := SignSettlement(lib, key, chainId, nonce, fees, asset, lib.abiEncode(call));
    var tx := Transaction(chainId, nonce, fees.gasLimit, fees.maxFee, fees.priorityFee, Some(asset), 0, true,
                          lib.abiEncode(call));
    var envelope := Eip1559(Envelope1559(tx, lib.sign(key, tx)));
    assert lib.decode(lib.encode(envelope)) == Some((envelope, []));
    var e := RowFor(p, chainId, policy, asset, auth, h, name, version);
    assert ValidateStored(lib, p.bytes, e) == CheckTransaction(lib, tx, e, lib.addressOf(key));
    d := CheckCall(lib, tx, e, lib.addressOf(key)).value;
  }

  /** The chain-enforced single-use identity of a row. */
  function AnchorOf(e: Expected): (a: (nat, Address, Address, Hash)) {
    (e.chainId, e.token, e.auth.from, e.auth.nonce)
  }

  /** One byte string is accepted for two rows only if they describe one transaction and one authorization. */
  lemma BytesBindOneRow(lib: Library, bytes: Bytes, e: Expected, f: Expected)
    requires ValidateStored(lib, bytes, e).Ok? && ValidateStored(lib, bytes, f).Ok?
    ensures e.hash == f.hash && e.signer == f.signer && e.chainId == f.chainId && e.nonce == f.nonce
    ensures e.token == f.token && e.gasLimit == f.gasLimit && e.auth == f.auth && AnchorOf(e) == AnchorOf(f)
    ensures e.domain == f.domain ==> e.paymentHash == f.paymentHash
  {
    var tx := lib.decode(bytes).value.0.signed.tx;
    assert CheckTransaction(lib, tx, e, e.signer).Ok? && CheckTransaction(lib, tx, f, f.signer).Ok?;
    assert CheckCall(lib, tx, e, e.signer).Ok? && CheckCall(lib, tx, f, f.signer).Ok?;
  }

  /** Accepted bytes carry the payer's authorization for exactly the row's payment, and pay no more than its cap. */
  lemma AcceptedBytesPayTheRow(lib: Library, bytes: Bytes, e: Expected)
    requires ValidateStored(lib, bytes, e).Ok?
    ensures var d := ValidateStored(lib, bytes, e).value;
            && d.auth == e.auth && d.paymentHash == lib.transferHash(e.auth, e.domain) == e.paymentHash
            && 0 < d.maxFee <= e.maxFee && d.priorityFee <= d.maxFee
            && d.hash == e.hash && d.signer == e.signer && d.nonce == e.nonce
    ensures exists envelope, call ::
              && lib.encode(envelope) == bytes && envelope.Eip1559?
              && lib.abiEncode(call) == envelope.signed.tx.input && call.auth == e.auth
              && envelope.signed.tx.to == Some(e.token) && envelope.signed.tx.value == 0
  {
    var envelope := lib.decode(bytes).value.0;
    var tx := envelope.signed.tx;
    assert CheckTransaction(lib, tx, e, e.signer).Ok?;
    assert CheckCall(lib, tx, e, e.signer).Ok?;
    var call := lib.abiDecode(tx.input).value;
    assert lib.encode(envelope) == bytes && lib.abiEncode(call) == envelope.signed.tx.input;
  }

  /** Distinct signed envelopes have distinct transaction hashes. */
  ghost predicate HashesDistinct(lib: Library) {
    forall a, b :: lib.txHash(a) == lib.txHash(b) ==> a == b
  }

  /** Whatever else is stored in its place: the only bytes a row's check accepts are the ones signed for it. */
  lemma OnlySignedBytesAccepted(lib: Library, key: Bytes, chainId: nat, nonce: nat, fees: Envelope, asset: Address,
                                calldata: Bytes, bytes: Bytes, e: Expected)
    requires HashesDistinct(lib)
    requires e.hash == SignSettlement(lib, key, chainId, nonce, fees, asset, calldata).hash
    requires ValidateStored(lib, bytes, e).Ok?
    ensures bytes == SignSettlement(lib, key, chainId, nonce, fees, asset, calldata).bytes
    ensures e.chainId == chainId && e.nonce == nonce && e.token == asset && e.gasLimit == fees.gasLimit
  {
    var tx := Transaction(chainId, nonce, fees.gasLimit, fees.maxFee, fees.priorityFee, Some(asset), 0, true, calldata);
    var signed := Eip1559(Envelope1559(tx, lib.sign(key, tx)));
    var envelope := lib.decode(bytes).value.0;
    assert lib.txHash(envelope) == lib.txHash(signed);
    assert CheckTransaction(lib, envelope.signed.tx, e, e.signer).Ok?;
  }
}
