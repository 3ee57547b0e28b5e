/** The Bid projector: a bid on an auction updates the bidder and bid amount of a holding. */
module MarketBid {
  import opened Wrappers
  import opened Primitives
  import opened Cache
  import opened Notifications

  /** The arguments of a Bid notification: nonce, user, asset, token id, auction asset, bid amount. */
  datatype BidArgs = BidArgs(
    succ: bool,
    nonce: int,
    user: Address,
    asset: Address,
    tokenId: TokenId,
    auctionAsset: Address,
    bidAmount: int)

  /** Decoding in the source's order, threading the success flag; a decode failure never stops it. */
  function DecodeBid(vs: seq<StateValue>): (r: Result<BidArgs, Exception>)
  {
    var nonce :- GuardedInteger(true, vs, 0);
    var user :- GuardedAddress(nonce.succ, vs, 1);
    var asset :- GuardedAddress(user.succ, vs, 2);
    var tokenId :- DecodeTokenId(vs, 3);
    var auctionAsset :- GuardedAddress(asset.succ, vs, 4);
    var bidAmount :- GuardedInteger(auctionAsset.succ, vs, 5);
    Success(BidArgs(bidAmount.succ, nonce.value, user.value, asset.value, tokenId, auctionAsset.value, bidAmount.value))
  }

  /** The queued update: bidder and bid amount from the event, the auction carried over from current. */
  function BidUpdate(n: NotificationModel, args: BidArgs, current: MarketModel, blockTimestamp: u64): (u: CacheMarketParams)
  {
    CacheMarketParams(
      notificationIndex := n.index,
      simpleUpdate := false,
      owner := Some(n.contractHash),
      asset := args.asset,
      tokenId := args.tokenId,
      amount := 0,
      market := Some(n.contractHash),
      auctionType := current.auctionType,
      auctor := current.auctor,
      auctionAsset := current.auctionAsset,
      auctionAmount := current.auctionAmount,
      deadline := current.deadline,
      bidder := args.user,
      bidAmount := args.bidAmount,
      timestamp := blockTimestamp as int)
  }

  function BidRecord(n: NotificationModel, args: BidArgs): (record: MarketNotification)
  {
    MarketNotification(n.txid, n.blockHash, n.contractHash, args.nonce, args.user, args.asset, args.tokenId,
                       "Bid", BidDetail(args.auctionAsset, args.bidAmount), n.timestamp)
  }

  /** What ExecuteBidNotification does, given the current-state map and the durable store. */
  function ProjectBid(n: NotificationModel, blockTimestamp: u64, settings: Settings,
                      models: map<ModelKey, MarketModel>, store: map<ModelKey, MarketModel>): (r: Result<Projection, Exception>)
  {
    var isMarket :- IsMarketContract(settings, n.contractHash);
    if !isMarket then Success(Ignored)
    else
      var args :- DecodeBid(n.values);
      match Lookup(models, store, ModelKey(Some(n.contractHash), args.asset, args.tokenId))
      case None => Failure(NullReference)
      case Some(current) => Success(Projected(BidUpdate(n, args, current, blockTimestamp), BidRecord(n, args)))
  }

  method ExecuteBidNotification(n: NotificationModel, blockTimestamp: u64, settings: Settings,
                                store: map<ModelKey, MarketModel>, cache: CacheMarket, log: MarketNotificationLog)
    returns (r: Result<bool, Exception>)
    requires cache.Valid()
    modifies cache, log
    ensures cache.Valid() && cache.models == old(cache.models)
    ensures r == match ProjectBid(n, blockTimestamp, settings, old(cache.models), store)
                 case Failure(e) => Failure(e)
                 case Success(_) => Success(true)
    ensures match ProjectBid(n, blockTimestamp, settings, old(cache.models), store)
            case Success(Projected(u, record)) =>
              cache.pending == Enqueue(old(cache.pending), u) && log.records == old(log.records) + [record]
            case _ =>
              cache.pending == old(cache.pending) && log.records == old(log.records)
  {
    if n.contractHash !in settings.contractIds {
      return Failure(NullReference);
    }
    if settings.contractIds[n.contractHash] in settings.marketContractIds {
      var decoded := DecodeBid(n.values);
      if decoded.Failure? {
        return Failure(decoded.error);
      }
      var args := decoded.value;
      var marketModel := cache.Get(Some(n.contractHash), args.asset, args.tokenId, store);
      if marketModel.None? {
        return Failure(NullReference);
      }
      var current := marketModel.value;
      cache.AddNeedUpdateMarket(n.index, false, args.asset, Some(n.contractHash), args.tokenId, Some(n.contractHash),
                                current.auctionType as int, current.auctor, current.auctionAsset, current.auctionAmount,
                                current.deadline as int, args.user, args.bidAmount, blockTimestamp as int);
      log.Add(BidRecord(n, args));
    }
    return Success(true);
  }

  // ---------------------------------------------------------------------------------------
  // Properties

  /** A notification from a contract that is known but not a configured market changes nothing. */
  lemma BidIgnoresOtherContracts(n: NotificationModel, blockTimestamp: u64, settings: Settings,
                                 models: map<ModelKey, MarketModel>, store: map<ModelKey, MarketModel>)
    requires n.contractHash in settings.contractIds
    requires settings.contractIds[n.contractHash] !in settings.marketContractIds
    ensures ProjectBid(n, blockTimestamp, settings, models, store) == Success(Ignored)
  {
  }

  /**
   * The queued update of a Bid: a full update keyed by (asset, market, token id), with the
   * market set to the emitting contract, the block's timestamp, the bidder and amount the
   * history record shows, and every auction field, the auction asset included, copied from
   * the current model of that holding.
   */
  lemma BidUpdateShape(n: NotificationModel, blockTimestamp: u64, settings: Settings,
                       models: map<ModelKey, MarketModel>, store: map<ModelKey, MarketModel>)
    requires ProjectBid(n, blockTimestamp, settings, models, store).Success?
    requires ProjectBid(n, blockTimestamp, settings, models, store).value.Projected?
    ensures var Projected(u, record) := ProjectBid(n, blockTimestamp, settings, models, store).value;
      var current := Lookup(models, store, TargetOf(QueueKeyOf(u)));
      && !u.simpleUpdate && u.notificationIndex == n.index
      && u.owner == Some(n.contractHash) && u.market == Some(n.contractHash)
      && u.asset == record.asset && u.tokenId == record.tokenId
      && u.timestamp == blockTimestamp as int && u.amount == 0
      && u.bidder == record.user && record.detail.BidDetail? && u.bidAmount == record.detail.bidAmount
      && current.Some?
      && u.auctionType == current.value.auctionType && u.auctor == current.value.auctor
      && u.auctionAsset == current.value.auctionAsset && u.auctionAmount == current.value.auctionAmount
      && u.deadline == current.value.deadline
      && record.eventName == "Bid" && record.market == n.contractHash && record.timestamp == n.timestamp
  {
  }

  /**
   * Once the nonce fails to parse, no later guarded argument is read: the addresses stay null
   * and the bid amount 0 even if their text is malformed, the sixth argument may be missing,
   * and the arguments still decode.
   */
  lemma BidFailedNonceSkipsGuards(vs: seq<StateValue>)
    requires |vs| >= 5
    requires BigIntegers.TryParseInteger(vs[0].value).None?
    requires DecodeTokenId(vs, 3).Success?
    ensures DecodeBid(vs) == Success(BidArgs(false, 0, None, None, DecodeTokenId(vs, 3).value, None, 0))
  {
  }

  /** Positions 1, 2, 3 and 4 are read whatever the flag, so fewer than five arguments throw. */
  lemma BidShortFails(vs: seq<StateValue>)
    requires |vs| < 5
    ensures DecodeBid(vs).Failure?
  {
    if |vs| > 0 {
      var nonce := GuardedInteger(true, vs, 0).value;
      var user := GuardedAddress(nonce.succ, vs, 1);
      if user.Success? {
        var asset := GuardedAddress(user.value.succ, vs, 2);
        if asset.Success? {
          assert DecodeTokenId(vs, 3).Failure? || GuardedAddress(asset.value.succ, vs, 4).Failure?;
        }
      }
    }
  }

  /** Decoding fails exactly when a step that is still read throws. */
  lemma BidFailsExactly(vs: seq<StateValue>)
    requires |vs| >= 5
    ensures var f0 := Parses(vs[0]);
      var f1 := f0 && KeepsFlag(vs[1]);
      var f2 := f1 && KeepsFlag(vs[2]);
      var f4 := f2 && KeepsFlag(vs[4]);
      DecodeBid(vs).Failure? <==>
        DecodeTokenId(vs, 3).Failure? || (f0 && Malformed(vs[1])) || (f1 && Malformed(vs[2])) ||
        (f2 && Malformed(vs[4])) || (f4 && |vs| == 5)
  {
    var nonce := GuardedInteger(true, vs, 0).value;
    assert nonce.succ == Parses(vs[0]);
    var user := GuardedAddress(nonce.succ, vs, 1);
    if user.Success? {
      assert user.value.succ == (nonce.succ && KeepsFlag(vs[1]));
      var asset := GuardedAddress(user.value.succ, vs, 2);
      var tokenId := DecodeTokenId(vs, 3);
      if asset.Success? && tokenId.Success? {
        assert asset.value.succ == (user.value.succ && KeepsFlag(vs[2]));
        var auctionAsset := GuardedAddress(asset.value.succ, vs, 4);
        if auctionAsset.Success? {
          assert auctionAsset.value.succ == (asset.value.succ && KeepsFlag(vs[4]));
          var bidAmount := GuardedInteger(auctionAsset.value.succ, vs, 5);
          if bidAmount.Success? {
            DecodeBidSteps(vs, nonce, user.value, asset.value, tokenId.value, auctionAsset.value, bidAmount.value);
          }
        }
      }
    }
  }

  /** Once the flag is false, every later guarded field keeps its default. */
  lemma BidFlagDefaults(vs: seq<StateValue>)
    requires |vs| >= 5
    ensures var f0 := Parses(vs[0]);
      var f1 := f0 && KeepsFlag(vs[1]);
      var f2 := f1 && KeepsFlag(vs[2]);
      var f4 := f2 && KeepsFlag(vs[4]);
      DecodeBid(vs).Success? ==>
      var a := DecodeBid(vs).value;
      (!f0 ==> a.nonce == 0 && a.user.None?) && (!f1 ==> a.asset.None?) && (!f2 ==> a.auctionAsset.None?) &&
      (!f4 ==> a.bidAmount == 0) && (a.succ <==> f4 && |vs| > 5 && Parses(vs[5]))
  {
    if DecodeBid(vs).Success? {
      var nonce := GuardedInteger(true, vs, 0).value;
      var user := GuardedAddress(nonce.succ, vs, 1).value;
      var asset := GuardedAddress(user.succ, vs, 2).value;
      var tokenId := DecodeTokenId(vs, 3).value;
      var auctionAsset := GuardedAddress(asset.succ, vs, 4).value;
      var bidAmount := GuardedInteger(auctionAsset.succ, vs, 5).value;
      DecodeBidSteps(vs, nonce, user, asset, tokenId, auctionAsset, bidAmount);
      assert nonce.succ == Parses(vs[0]);
      assert user.succ == (nonce.succ && KeepsFlag(vs[1]));
      assert asset.succ == (user.succ && KeepsFlag(vs[2]));
      assert auctionAsset.succ == (asset.succ && KeepsFlag(vs[4]));
    }
  }


  /**
   * The flag at every guarded position. Once one guarded argument leaves the flag false, no later
   * guarded argument is decoded: its field keeps its default (null or 0) and its text, however
   * malformed, cannot throw. Only a missing position among the first five, the token id, or
   * malformed text read while the flag holds makes decoding fail.
   */
  lemma BidFlagChain(vs: seq<StateValue>)
    ensures |vs| < 5 ==> DecodeBid(vs).Failure?
    ensures |vs| >= 5 ==>
      var f0 := Parses(vs[0]);
      var f1 := f0 && KeepsFlag(vs[1]);
      var f2 := f1 && KeepsFlag(vs[2]);
      var f4 := f2 && KeepsFlag(vs[4]);
      (DecodeBid(vs).Failure? <==>
         DecodeTokenId(vs, 3).Failure? || (f0 && Malformed(vs[1])) || (f1 && Malformed(vs[2])) ||
         (f2 && Malformed(vs[4])) || (f4 && |vs| == 5))
      && (DecodeBid(vs).Success? ==>
         var a := DecodeBid(vs).value;
         (!f0 ==> a.nonce == 0 && a.user.None?) && (!f1 ==> a.asset.None?) && (!f2 ==> a.auctionAsset.None?) &&
         (!f4 ==> a.bidAmount == 0) && (a.succ <==> f4 && |vs| > 5 && Parses(vs[5])))
  {
    if |vs| < 5 {
      BidShortFails(vs);
    } else {
      BidFailsExactly(vs);
      BidFlagDefaults(vs);
    }
  }

  /** A bid as a market contract emits it. */
  datatype BidEvent = BidEvent(nonce: int, user: Address, asset: Address, token: TokenArg,
                               auctionAsset: Address, bidAmount: int)

  function EncodeBid(e: BidEvent): (vs: seq<StateValue>)
  {
    [IntegerArg(e.nonce), AddressArg(e.user), AddressArg(e.asset), TokenArgValue(e.token),
     AddressArg(e.auctionAsset), IntegerArg(e.bidAmount)]
  }

  /** Every well-formed bid decodes completely and exactly. */
  lemma DecodeEncodeBid(e: BidEvent)
    ensures DecodeBid(EncodeBid(e)) ==
      Success(BidArgs(true, e.nonce, e.user, e.asset, Some(Base64.Encode(TokenBytes(e.token))), e.auctionAsset, e.bidAmount))
  {
    var vs := EncodeBid(e);
    DecodeWellFormedBid(vs, e);
  }

  lemma DecodeWellFormedBid(vs: seq<StateValue>, e: BidEvent)
    requires |vs| == 6
    requires vs[0] == IntegerArg(e.nonce) && vs[1] == AddressArg(e.user) && vs[2] == AddressArg(e.asset)
    requires vs[3] == TokenArgValue(e.token) && vs[4] == AddressArg(e.auctionAsset) && vs[5] == IntegerArg(e.bidAmount)
    ensures DecodeBid(vs) ==
      Success(BidArgs(true, e.nonce, e.user, e.asset, Some(Base64.Encode(TokenBytes(e.token))), e.auctionAsset, e.bidAmount))
  {
    GuardedIntegerArg(vs, 0, e.nonce);
    GuardedAddressArg(true, vs, 1, e.user);
    GuardedAddressArg(true, vs, 2, e.asset);
    DecodeTokenArg(vs, 3, e.token);
    GuardedAddressArg(true, vs, 4, e.auctionAsset);
    GuardedIntegerArg(vs, 5, e.bidAmount);
    DecodeBidSteps(vs, Step(true, e.nonce), Step(true, e.user), Step(true, e.asset), Some(Base64.Encode(TokenBytes(e.token))),
                   Step(true, e.auctionAsset), Step(true, e.bidAmount));
  }

  /** DecodeBid, read off the outcome of each of its steps. */
  lemma DecodeBidSteps(vs: seq<StateValue>, nonce: Step<int>, user: Step<Address>, asset: Step<Address>,
                       tokenId: TokenId, auctionAsset: Step<Address>, bidAmount: Step<int>)
    requires GuardedInteger(true, vs, 0) == Success(nonce)
    requires GuardedAddress(nonce.succ, vs, 1) == Success(user)
    requires GuardedAddress(user.succ, vs, 2) == Success(asset)
    requires DecodeTokenId(vs, 3) == Success(tokenId)
    requires GuardedAddress(asset.succ, vs, 4) == Success(auctionAsset)
    requires GuardedInteger(auctionAsset.succ, vs, 5) == Success(bidAmount)
    ensures DecodeBid(vs) == Success(BidArgs(bidAmount.succ, nonce.value, user.value, asset.value, tokenId,
                                             auctionAsset.value, bidAmount.value))
  {
  }

  /**
   * A well-formed bid on a holding with a current model queues that model's auction with the
   * new bidder and bid amount.
   */
  lemma BidProjectsEvent(n: NotificationModel, e: BidEvent, blockTimestamp: u64, settings: Settings,
                         models: map<ModelKey, MarketModel>, store: map<ModelKey, MarketModel>, current: MarketModel)
    requires n.values == EncodeBid(e)
    requires n.contractHash in settings.contractIds
    requires settings.contractIds[n.contractHash] in settings.marketContractIds
    requires Lookup(models, store, ModelKey(Some(n.contractHash), e.asset, Some(Base64.Encode(TokenBytes(e.token))))) == Some(current)
    ensures ProjectBid(n, blockTimestamp, settings, models, store).Success?
    ensures var p := ProjectBid(n, blockTimestamp, settings, models, store).value;
      && p.Projected?
      && p.update.bidder == e.user && p.update.bidAmount == e.bidAmount
      && p.update.asset == e.asset && p.update.tokenId == Some(Base64.Encode(TokenBytes(e.token)))
      && p.update.auctionType == current.auctionType && p.update.auctor == current.auctor
      && p.update.auctionAsset == current.auctionAsset && p.update.auctionAmount == current.auctionAmount
      && p.update.deadline == current.deadline
      && p.record.nonce == e.nonce && p.record.detail == BidDetail(e.auctionAsset, e.bidAmount)
  {
    DecodeEncodeBid(e);
  }
}
