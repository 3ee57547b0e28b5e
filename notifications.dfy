/**
 * What the market projectors share: the notification record as they read it, the decoding
 * of its positional arguments (with the running success flag of the source), the settings
 * that say which contracts are markets, and the history log they append to.
 */
module Notifications {
  import opened Wrappers
  import opened Primitives
  import Base64
  import opened BigIntegers
  import opened Cache

  /** One argument of a notification: the stack item's type name and its JSON value text (null when absent). */
  datatype StateValue = StateValue(typeName: string, value: Option<string>)

  datatype NotificationModel = NotificationModel(
    txid: UInt256,
    index: int,
    blockHash: UInt256,
    contractHash: UInt160,
    eventName: string,
    values: seq<StateValue>,
    timestamp: u64)

  /** The exceptions a projector can raise; when one is raised nothing is enqueued or logged. */
  datatype Exception =
    | IndexOutOfRange   // an argument position beyond the argument list
    | FormatError       // text that is not Base64, or not an integer where BigInteger.Parse is used
    | ArgumentNull      // BigInteger.Parse of a null value
    | NullReference     // an unknown contract, or no current model to carry fields from

  /** The contract id of each known contract hash, and the ids configured as market contracts. */
  datatype Settings = Settings(contractIds: map<UInt160, int>, marketContractIds: seq<int>)

  /** Whether the emitting contract is a configured market; an unknown contract has no model to read. */
  function IsMarketContract(settings: Settings, hash: UInt160): (r: Result<bool, Exception>)
    ensures r.Failure? <==> hash !in settings.contractIds
    ensures r.Success? ==> (r.value <==> settings.contractIds[hash] in settings.marketContractIds)
  {
    if hash !in settings.contractIds then Failure(NullReference)
    else Success(settings.contractIds[hash] in settings.marketContractIds)
  }

  /** A decoded field together with the success flag after decoding it. */
  datatype Step<T> = Step(succ: bool, value: T)

  function At(vs: seq<StateValue>, i: nat): (r: Result<StateValue, Exception>)
    ensures r.Success? <==> i < |vs|
    ensures r.Success? ==> r.value == vs[i]
  {
    if i < |vs| then Success(vs[i]) else Failure(IndexOutOfRange)
  }

  /**
   * `succ = succ && BigInteger.TryParse(Values[i].Value, out x)`: once the flag is false the
   * argument is not even read, and x keeps its default 0.
   */
  function GuardedInteger(succ: bool, vs: seq<StateValue>, i: nat): (r: Result<Step<int>, Exception>)
    ensures !succ ==> r == Success(Step(false, 0))
    ensures succ && i >= |vs| ==> r == Failure(IndexOutOfRange)
    ensures succ && i < |vs| ==> r.Success? && (r.value.succ <==> TryParseInteger(vs[i].value).Some?)
    ensures r.Success? && r.value.succ ==> succ && TryParseInteger(vs[i].value) == Some(r.value.value)
    ensures r.Success? && !r.value.succ ==> r.value.value == 0
  {
    if !succ then Success(Step(false, 0))
    else
      var v :- At(vs, i);
      match TryParseInteger(v.value)
      case Some(n) => Success(Step(true, n))
      case None => Success(Step(false, 0))
  }

  /**
   * An address argument: a null value is skipped without touching the flag; otherwise, while
   * the flag holds, the Base64 text is decoded (malformed text throws) and the bytes parsed
   * as a UInt160, which fails unless there are 20 of them.
   */
  function GuardedAddress(succ: bool, vs: seq<StateValue>, i: nat): (r: Result<Step<Address>, Exception>)
    ensures i >= |vs| ==> r == Failure(IndexOutOfRange)
    ensures i < |vs| && vs[i].value.None? ==> r == Success(Step(succ, None))
    ensures i < |vs| && !succ ==> r == Success(Step(false, None))
    ensures succ && i < |vs| && vs[i].value.Some? ==>
      (r.Failure? <==> Base64.Decode(vs[i].value.value).None?) && (r.Failure? ==> r.error == FormatError)
    ensures succ && i < |vs| && vs[i].value.Some? && Base64.Decode(vs[i].value.value).Some? ==>
      var raw := Base64.Decode(vs[i].value.value).value;
      r == Success(Step(|raw| == 20, if |raw| == 20 then Some(raw) else None))
    ensures r.Failure? ==> i >= |vs| || (succ && vs[i].value.Some? && Base64.Decode(vs[i].value.value).None?)
    ensures r.Success? && r.value.succ ==> succ
    ensures r.Success? && r.value.value.Some? ==>
      succ && r.value.succ && i < |vs| && vs[i].value.Some? && Base64.Decode(vs[i].value.value) == Some(r.value.value.value)
  {
    var v :- At(vs, i);
    if v.value.None? then Success(Step(succ, None))
    else if !succ then Success(Step(false, None))
    else
      match Base64.Decode(v.value.value)
      case None => Failure(FormatError)
      case Some(raw) =>
        match TryParseAddress(raw)
        case Some(a) => Success(Step(true, Some(a)))
        case None => Success(Step(false, None))
  }

  /** An integer argument that BigInteger.TryParse accepts. */
  predicate Parses(v: StateValue)
  {
    TryParseInteger(v.value).Some?
  }

  /** An address argument that leaves the flag as it was: null, or the Base64 text of 20 bytes. */
  predicate KeepsFlag(v: StateValue)
  {
    v.value.None? || (Base64.Decode(v.value.value).Some? && |Base64.Decode(v.value.value).value| == 20)
  }

  /** An address argument whose text is present but not Base64, so that decoding it throws. */
  predicate Malformed(v: StateValue)
  {
    v.value.Some? && Base64.Decode(v.value.value).None?
  }

  /**
   * The token id argument: an "Integer" item becomes the Base64 text of its two's-complement
   * bytes (BigInteger.Parse throws on null or non-numeric text); any other item is kept as is.
   */
  function DecodeTokenId(vs: seq<StateValue>, i: nat): (r: Result<TokenId, Exception>)
    ensures i >= |vs| ==> r == Failure(IndexOutOfRange)
    ensures r.Failure? ==> i >= |vs| || vs[i].typeName == "Integer"
    ensures i < |vs| && vs[i].typeName != "Integer" ==> r == Success(vs[i].value)
    ensures i < |vs| && vs[i].typeName == "Integer" && TryParseInteger(vs[i].value).Some? ==>
      r == Success(Some(Base64.Encode(ToByteArray(TryParseInteger(vs[i].value).value))))
    ensures i < |vs| && vs[i].typeName == "Integer" && vs[i].value.None? ==> r == Failure(ArgumentNull)
    ensures i < |vs| && vs[i].typeName == "Integer" && vs[i].value.Some? && TryParseInteger(vs[i].value).None? ==>
      r == Failure(FormatError)
  {
    var v :- At(vs, i);
    if v.typeName == "Integer" then
      match v.value
      case None => Failure(ArgumentNull)
      case Some(text) =>
        match TryParseInteger(Some(text))
        case None => Failure(FormatError)
        case Some(n) => Success(Some(Base64.Encode(ToByteArray(n))))
    else Success(v.value)
  }

  // ---------------------------------------------------------------------------------------
  // Well-formed arguments, as a market contract emits them and the node renders them as JSON

  function IntegerArg(n: int): (v: StateValue)
  {
    StateValue("Integer", Some(IntToString(n)))
  }

  function AddressArg(a: Address): (v: StateValue)
  {
    match a
    case None => StateValue("Any", None)
    case Some(h) => StateValue("ByteString", Some(Base64.Encode(h)))
  }

  /** A token id emitted either as an integer or as raw bytes. */
  datatype TokenArg = IntegerToken(n: int) | BytesToken(bytes: seq<byte>)

  function TokenArgValue(t: TokenArg): (v: StateValue)
  {
    match t
    case IntegerToken(n) => IntegerArg(n)
    case BytesToken(b) => StateValue("ByteString", Some(Base64.Encode(b)))
  }

  /** The byte string a token id stands for. */
  function TokenBytes(t: TokenArg): (bs: seq<byte>)
  {
    match t
    case IntegerToken(n) => ToByteArray(n)
    case BytesToken(b) => b
  }

  lemma GuardedIntegerArg(vs: seq<StateValue>, i: nat, n: int)
    requires i < |vs| && vs[i] == IntegerArg(n)
    ensures GuardedInteger(true, vs, i) == Success(Step(true, n))
  {
    TryParseIntToString(n);
  }

  lemma GuardedAddressArg(succ: bool, vs: seq<StateValue>, i: nat, a: Address)
    requires i < |vs| && vs[i] == AddressArg(a)
    ensures GuardedAddress(succ, vs, i) == Success(Step(succ, if succ then a else None))
  {
    if a.Some? {
      Base64.DecodeEncode(a.value);
    }
  }

  /** A token id decodes to the Base64 text of its bytes, whichever way it was emitted. */
  lemma DecodeTokenArg(vs: seq<StateValue>, i: nat, t: TokenArg)
    requires i < |vs| && vs[i] == TokenArgValue(t)
    ensures DecodeTokenId(vs, i) == Success(Some(Base64.Encode(TokenBytes(t))))
  {
    if t.IntegerToken? {
      TryParseIntToString(t.n);
    }
  }

  /**
   * The same numeric token id reaches the same cache key whether it is emitted as an integer
   * or as the bytes ToByteArray gives for it.
   */
  lemma TokenIdAgrees(n: int)
    ensures DecodeTokenId([TokenArgValue(IntegerToken(n))], 0) == DecodeTokenId([TokenArgValue(BytesToken(ToByteArray(n)))], 0)
  {
    DecodeTokenArg([TokenArgValue(IntegerToken(n))], 0, IntegerToken(n));
  }

  /** Different integer token ids never collide. */
  lemma TokenIdInjective(n: int, m: int)
    requires n != m
    ensures DecodeTokenId([IntegerArg(n)], 0) != DecodeTokenId([IntegerArg(m)], 0)
  {
    DecodeTokenArg([IntegerArg(n)], 0, IntegerToken(n));
    DecodeTokenArg([IntegerArg(m)], 0, IntegerToken(m));
    Base64.DecodeEncode(ToByteArray(n));
    Base64.DecodeEncode(ToByteArray(m));
    FromToByteArray(n);
    FromToByteArray(m);
  }

  // ---------------------------------------------------------------------------------------
  // The history sink

  /** The event-specific summary a history record carries (rendered as JSON by the source). */
  datatype Detail =
    | BidDetail(auctionAsset: Address, bidAmount: int)
    | ClaimDetail(auctionType: int, auctionAsset: Address, bidAmount: int)

  /** One market history record, as handed to the notification history cache. */
  datatype MarketNotification = MarketNotification(
    txid: UInt256,
    blockHash: UInt256,
    market: UInt160,
    nonce: int,
    user: Address,
    asset: Address,
    tokenId: TokenId,
    eventName: string,
    detail: Detail,
    timestamp: u64)

  /** The history sink: an append-only list of records. */
  class MarketNotificationLog {
    var records: seq<MarketNotification>

    constructor ()
      ensures records == []
    {
      records := [];
    }

    method Add(record: MarketNotification)
      modifies this
      ensures records == old(records) + [record]
    {
      records := records + [record];
    }
  }

  /** What one notification does to the caches: nothing, or one enqueue and one history record. */
  datatype Projection = Ignored | Projected(update: CacheMarketParams, record: MarketNotification)
}
