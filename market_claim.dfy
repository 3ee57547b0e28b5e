/** The Claim projector: a claim settles an auction and resets the holding's market state. */
module MarketClaim {
  import opened Wrappers
  import opened Primitives
  import opened Cache
  import opened Notifications

  /** The arguments of a Claim notification: nonce, user, asset, token id, auction type, auction asset, bid amount. */
  datatype ClaimArgs = ClaimArgs(
    succ: bool,
    nonce: int,
    user: Address,
    asset: Address,
    tokenId: TokenId,
    auctionType: int,
    auctionAsset: Address,
    bidAmount: int)

  /** Decoding in the source's order, threading the success flag; a decode failure never stops it. */
  function DecodeClaim(vs: seq<StateValue>): (r: Result<ClaimArgs, Exception>)
  {
    var nonce :- GuardedInteger(true, vs, 0);
    var user :- GuardedAddress(nonce.succ, vs, 1);
    var asset :- GuardedAddress(user.succ, vs, 2);
    var tokenId :- DecodeTokenId(vs, 3);
    var auctionType :- GuardedInteger(asset.succ, vs, 4);
    var auctionAsset :- GuardedAddress(auctionType.succ, vs, 5);
    var bidAmount :- GuardedInteger(auctionAsset.succ, vs, 6);
    Success(ClaimArgs(bidAmount.succ, nonce.value, user.value, asset.value, tokenId,
                      auctionType.value, auctionAsset.value, bidAmount.value))
  }

  /** The queued update: identity and timestamp only; every market, auction and bid field reset. */
  function ClaimUpdate(n: NotificationModel, args: ClaimArgs, blockTimestamp: u64): (u: CacheMarketParams)
  {
    CacheMarketParams(
      notificationIndex := n.index,
      simpleUpdate := false,
      owner := Some(n.contractHash),
      asset := args.asset,
      tokenId := args.tokenId,
      amount := 0,
      market := None,
      auctionType := 0,
      auctor := None,
      auctionAsset := None,
      auctionAmount := 0,
      deadline := 0,
      bidder := None,
      bidAmount := 0,
      timestamp := blockTimestamp as int)
  }

  function ClaimRecord(n: NotificationModel, args: ClaimArgs): (record: MarketNotification)
  {
    MarketNotification(n.txid, n.blockHash, n.contractHash, args.nonce, args.user, args.asset, args.tokenId,
                       "Claim", ClaimDetail(args.auctionType, args.auctionAsset, args.bidAmount), n.timestamp)
  }

  /** What ExecuteClaimNotification does; the current state is not needed. */
  function ProjectClaim(n: NotificationModel, blockTimestamp: u64, settings: Settings): (r: Result<Projection, Exception>)
  {
    var isMarket :- IsMarketContract(settings, n.contractHash);
    if !isMarket then Success(Ignored)
    else
      var args :- DecodeClaim(n.values);
      Success(Projected(ClaimUpdate(n, args, blockTimestamp), ClaimRecord(n, args)))
  }

  method ExecuteClaimNotification(n: NotificationModel, blockTimestamp: u64, settings: Settings,
                                  store: map<ModelKey, MarketModel>, cache: CacheMarket, log: MarketNotificationLog)
    returns (r: Result<bool, Exception>)
    requires cache.Valid()
    modifies cache, log
    ensures cache.Valid() && cache.models == old(cache.models)
    ensures r == match ProjectClaim(n, blockTimestamp, settings)
                 case Failure(e) => Failure(e)
                 case Success(_) => Success(true)
    ensures match ProjectClaim(n, blockTimestamp, settings)
            case Success(Projected(u, record)) =>
              cache.pending == Enqueue(old(cache.pending), u) && log.records == old(log.records) + [record]
            case _ =>
              cache.pending == old(cache.pending) && log.records == old(log.records)
  {
    if n.contractHash !in settings.contractIds {
      return Failure(NullReference);
    }
    if settings.contractIds[n.contractHash] in settings.marketContractIds {
      var decoded := DecodeClaim(n.values);
      if decoded.Failure? {
        return Failure(decoded.error);
      }
      var args := decoded.value;
      // The current model is read and never used.
      var marketModel := cache.Get(Some(n.contractHash), args.asset, args.tokenId, store);
      cache.AddNeedUpdateMarket(n.index, false, args.asset, Some(n.contractHash), args.tokenId, None,
                                0, None, None, 0, 0, None, 0, blockTimestamp as int);
      log.Add(ClaimRecord(n, args));
    }
    return Success(true);
  }

  // ---------------------------------------------------------------------------------------
  // Properties

  /** A notification from a contract that is known but not a configured market changes nothing. */
  lemma ClaimIgnoresOtherContracts(n: NotificationModel, blockTimestamp: u64, settings: Settings)
    requires n.contractHash in settings.contractIds
    requires settings.contractIds[n.contractHash] !in settings.marketContractIds
    ensures ProjectClaim(n, blockTimestamp, settings) == Success(Ignored)
  {
  }

  /**
   * The queued update of a Claim: a full update keyed by (asset, market, token id) with the
   * block's timestamp, in which the market, auction and bid fields are all reset, whatever
   * auction type, auction asset and bid amount the event carried (those reach only the record).
   */
  lemma ClaimUpdateResets(n: NotificationModel, blockTimestamp: u64, settings: Settings)
    requires ProjectClaim(n, blockTimestamp, settings).Success?
    requires ProjectClaim(n, blockTimestamp, settings).value.Projected?
    ensures var Projected(u, record) := ProjectClaim(n, blockTimestamp, settings).value;
      && !u.simpleUpdate && u.notificationIndex == n.index
      && u.owner == Some(n.contractHash) && u.asset == record.asset && u.tokenId == record.tokenId
      && u.timestamp == blockTimestamp as int
      && u.market.None? && u.auctionType == 0 && u.auctor.None? && u.auctionAsset.None?
      && u.auctionAmount == 0 && u.deadline == 0 && u.bidder.None? && u.bidAmount == 0
      && record.eventName == "Claim" && record.detail.ClaimDetail?
  {
  }

  /**
   * Once the claim is merged, the holding has no market, auction or bid left, whatever state it
   * had before; it keeps only its identity, the refreshed balance and the block's timestamp.
   */
  lemma ClaimClearsMarketState(n: NotificationModel, blockTimestamp: u64, settings: Settings,
                               found: Option<MarketModel>, balanceOf: (Address, TokenId, Address) -> int)
    requires ProjectClaim(n, blockTimestamp, settings).Success?
    requires ProjectClaim(n, blockTimestamp, settings).value.Projected?
    ensures var u := ProjectClaim(n, blockTimestamp, settings).value.update;
      var m := Merge(found, Refresh(u, balanceOf));
      && m.owner == Some(n.contractHash) && m.asset == u.asset && m.tokenId == u.tokenId
      && m.amount == balanceOf(u.asset, u.tokenId, u.owner) && m.timestamp == blockTimestamp
      && m.market.None? && m.auctionType == 0 && m.auctor.None? && m.auctionAsset.None?
      && m.auctionAmount == 0 && m.deadline == 0 && m.bidder.None? && m.bidAmount == 0
  {
  }

  /**
   * Once the nonce fails to parse, no later guarded argument is read: user, asset and auction
   * asset stay null, auction type and bid amount 0, even if their text is malformed, the
   * seventh argument may be missing, and the arguments still decode.
   */
  lemma ClaimFailedNonceSkipsGuards(vs: seq<StateValue>)
    requires |vs| >= 6
    requires BigIntegers.TryParseInteger(vs[0].value).None?
    requires DecodeTokenId(vs, 3).Success?
    ensures DecodeClaim(vs) == Success(ClaimArgs(false, 0, None, None, DecodeTokenId(vs, 3).value, 0, None, 0))
  {
  }

  /** Positions 1, 2, 3 and 5 are read whatever the flag, so fewer than six arguments throw. */
  lemma ClaimShortFails(vs: seq<StateValue>)
    requires |vs| < 6
    ensures DecodeClaim(vs).Failure?
  {
    if |vs| > 0 {
      var nonce := GuardedInteger(true, vs, 0).value;
      var user := GuardedAddress(nonce.succ, vs, 1);
      if user.Success? {
        var asset := GuardedAddress(user.value.succ, vs, 2);
        if asset.Success? && DecodeTokenId(vs, 3).Success? {
          var auctionType := GuardedInteger(asset.value.succ, vs, 4);
          assert auctionType.Failure? || GuardedAddress(auctionType.value.succ, vs, 5).Failure?;
        }
      }
    }
  }

  /** Decoding fails exactly when a step that is still read throws. */
  lemma ClaimFailsExactly(vs: seq<StateValue>)
    requires |vs| >= 6
    ensures var f0 := Parses(vs[0]);
      var f1 := f0 && KeepsFlag(vs[1]);
      var f2 := f1 && KeepsFlag(vs[2]);
      var f4 := f2 && Parses(vs[4]);
      var f5 := f4 && KeepsFlag(vs[5]);
      DecodeClaim(vs).Failure? <==>
        DecodeTokenId(vs, 3).Failure? || (f0 && Malformed(vs[1])) || (f1 && Malformed(vs[2])) ||
        (f4 && Malformed(vs[5])) || (f5 && |vs| == 6)
  {
    var nonce := GuardedInteger(true, vs, 0).value;
    assert nonce.succ == Parses(vs[0]);
    var user := GuardedAddress(nonce.succ, vs, 1);
    if user.Success? {
      assert user.value.succ == (nonce.succ && KeepsFlag(vs[1]));
      var asset := GuardedAddress(user.value.succ, vs, 2);
      var tokenId := DecodeTokenId(vs, 3);
      if asset.Success? && tokenId.Success? {
        assert asset.value.succ == (user.value.succ && KeepsFlag(vs[2]));
        var auctionType := GuardedInteger(asset.value.succ, vs, 4).value;
        assert auctionType.succ == (asset.value.succ && Parses(vs[4]));
        var auctionAsset := GuardedAddress(auctionType.succ, vs, 5);
        if auctionAsset.Success? {
          assert auctionAsset.value.succ == (auctionType.succ && KeepsFlag(vs[5]));
          var bidAmount := GuardedInteger(auctionAsset.value.succ, vs, 6);
          if bidAmount.Success? {
            DecodeClaimSteps(vs, nonce, user.value, asset.value, tokenId.value, auctionType,
                             auctionAsset.value, bidAmount.value);
          }
        }
      }
    }
  }

  /** Once the flag is false, every later guarded field keeps its default. */
  lemma ClaimFlagDefaults(vs: seq<StateValue>)
    requires |vs| >= 6
    ensures var f0 := Parses(vs[0]);
      var f1 := f0 && KeepsFlag(vs[1]);
      var f2 := f1 && KeepsFlag(vs[2]);
      var f4 := f2 && Parses(vs[4]);
      var f5 := f4 && KeepsFlag(vs[5]);
      DecodeClaim(vs).Success? ==>
      var a := DecodeClaim(vs).value;
      (!f0 ==> a.nonce == 0 && a.user.None?) && (!f1 ==> a.asset.None?) && (!f2 ==> a.auctionType == 0) &&
      (!f4 ==> a.auctionAsset.None?) && (!f5 ==> a.bidAmount == 0) && (a.succ <==> f5 && |vs| > 6 && Parses(vs[6]))
  {
    if DecodeClaim(vs).Success? {
      var nonce := GuardedInteger(true, vs, 0).value;
      var user := GuardedAddress(nonce.succ, vs, 1).value;
      var asset := GuardedAddress(user.succ, vs, 2).value;
      var tokenId := DecodeTokenId(vs, 3).value;
      var auctionType := GuardedInteger(asset.succ, vs, 4).value;
      var auctionAsset := GuardedAddress(auctionType.succ, vs, 5).value;
      var bidAmount := GuardedInteger(auctionAsset.succ, vs, 6).value;
      DecodeClaimSteps(vs, nonce, user, asset, tokenId, auctionType, auctionAsset, bidAmount);
      assert nonce.succ == Parses(vs[0]);
      assert user.succ == (nonce.succ && KeepsFlag(vs[1]));
      assert asset.succ == (user.succ && KeepsFlag(vs[2]));
      assert auctionType.succ == (asset.succ && Parses(vs[4]));
      assert auctionAsset.succ == (auctionType.succ && KeepsFlag(vs[5]));
    }
  }


  /**
   * The flag at every guarded position. Once one guarded argument leaves the flag false, no later
   * guarded argument is decoded: its field keeps its default (null or 0) and its text, however
   * malformed, cannot throw. Only a missing position among the first six, the token id, or
   * malformed text read while the flag holds makes decoding fail.
   */
  lemma ClaimFlagChain(vs: seq<StateValue>)
    ensures |vs| < 6 ==> DecodeClaim(vs).Failure?
    ensures |vs| >= 6 ==>
      var f0 := Parses(vs[0]);
      var f1 := f0 && KeepsFlag(vs[1]);
      var f2 := f1 && KeepsFlag(vs[2]);
      var f4 := f2 && Parses(vs[4]);
      var f5 := f4 && KeepsFlag(vs[5]);
      (DecodeClaim(vs).Failure? <==>
         DecodeTokenId(vs, 3).Failure? || (f0 && Malformed(vs[1])) || (f1 && Malformed(vs[2])) ||
         (f4 && Malformed(vs[5])) || (f5 && |vs| == 6))
      && (DecodeClaim(vs).Success? ==>
         var a := DecodeClaim(vs).value;
         (!f0 ==> a.nonce == 0 && a.user.None?) && (!f1 ==> a.asset.None?) && (!f2 ==> a.auctionType == 0) &&
         (!f4 ==> a.auctionAsset.None?) && (!f5 ==> a.bidAmount == 0) && (a.succ <==> f5 && |vs| > 6 && Parses(vs[6])))
  {
    if |vs| < 6 {
      ClaimShortFails(vs);
    } else {
      ClaimFailsExactly(vs);
      ClaimFlagDefaults(vs);
    }
  }

  /** A claim as a market contract emits it. */
  datatype ClaimEvent = ClaimEvent(nonce: int, user: Address, asset: Address, token: TokenArg,
                                   auctionType: int, auctionAsset: Address, bidAmount: int)

  function EncodeClaim(e: ClaimEvent): (vs: seq<StateValue>)
  {
    [IntegerArg(e.nonce), AddressArg(e.user), AddressArg(e.asset), TokenArgValue(e.token),
     IntegerArg(e.auctionType), AddressArg(e.auctionAsset), IntegerArg(e.bidAmount)]
  }

  /** DecodeClaim, read off the outcome of each of its steps. */
  lemma DecodeClaimSteps(vs: seq<StateValue>, nonce: Step<int>, user: Step<Address>, asset: Step<Address>,
                         tokenId: TokenId, auctionType: Step<int>, auctionAsset: Step<Address>, bidAmount: Step<int>)
    requires GuardedInteger(true, vs, 0) == Success(nonce)
    requires GuardedAddress(nonce.succ, vs, 1) == Success(user)
    requires GuardedAddress(user.succ, vs, 2) == Success(asset)
    requires DecodeTokenId(vs, 3) == Success(tokenId)
    requires GuardedInteger(asset.succ, vs, 4) == Success(auctionType)
    requires GuardedAddress(auctionType.succ, vs, 5) == Success(auctionAsset)
    requires GuardedInteger(auctionAsset.succ, vs, 6) == Success(bidAmount)
    ensures DecodeClaim(vs) == Success(ClaimArgs(bidAmount.succ, nonce.value, user.value, asset.value, tokenId,
                                                 auctionType.value, auctionAsset.value, bidAmount.value))
  {
  }

  lemma DecodeWellFormedClaim(vs: seq<StateValue>, e: ClaimEvent)
    requires |vs| == 7
    requires vs[0] == IntegerArg(e.nonce) && vs[1] == AddressArg(e.user) && vs[2] == AddressArg(e.asset)
    requires vs[3] == TokenArgValue(e.token) && vs[4] == IntegerArg(e.auctionType)
    requires vs[5] == AddressArg(e.auctionAsset) && vs[6] == IntegerArg(e.bidAmount)
    ensures DecodeClaim(vs) ==
      Success(ClaimArgs(true, e.nonce, e.user, e.asset, Some(Base64.Encode(TokenBytes(e.token))),
                        e.auctionType, e.auctionAsset, e.bidAmount))
  {
    GuardedIntegerArg(vs, 0, e.nonce);
    GuardedAddressArg(true, vs, 1, e.user);
    GuardedAddressArg(true, vs, 2, e.asset);
    DecodeTokenArg(vs, 3, e.token);
    GuardedIntegerArg(vs, 4, e.auctionType);
    GuardedAddressArg(true, vs, 5, e.auctionAsset);
    GuardedIntegerArg(vs, 6, e.bidAmount);
    DecodeClaimSteps(vs, Step(true, e.nonce), Step(true, e.user), Step(true, e.asset),
                     Some(Base64.Encode(TokenBytes(e.token))), Step(true, e.auctionType),
                     Step(true, e.auctionAsset), Step(true, e.bidAmount));
  }

  /** Every well-formed claim decodes completely and exactly. */
  lemma DecodeEncodeClaim(e: ClaimEvent)
    ensures DecodeClaim(EncodeClaim(e)) ==
      Success(ClaimArgs(true, e.nonce, e.user, e.asset, Some(Base64.Encode(TokenBytes(e.token))),
                        e.auctionType, e.auctionAsset, e.bidAmount))
  {
    DecodeWellFormedClaim(EncodeClaim(e), e);
  }

  /**
   * A well-formed Claim from a market contract queues a reset keyed by its own asset and token id,
   * and records its nonce, user, asset and token id with the auction type, auction asset and bid
   * amount as the detail: those three fields reach only the history.
   */
  lemma ClaimProjectsEvent(n: NotificationModel, e: ClaimEvent, blockTimestamp: u64, settings: Settings)
    requires n.values == EncodeClaim(e)
    requires n.contractHash in settings.contractIds
    requires settings.contractIds[n.contractHash] in settings.marketContractIds
    ensures ProjectClaim(n, blockTimestamp, settings).Success?
    ensures var p := ProjectClaim(n, blockTimestamp, settings).value;
      && p.Projected?
      && p.update.owner == Some(n.contractHash) && p.update.asset == e.asset
      && p.update.tokenId == Some(Base64.Encode(TokenBytes(e.token)))
      && p.record.market == n.contractHash && p.record.nonce == e.nonce && p.record.user == e.user
      && p.record.asset == e.asset && p.record.tokenId == Some(Base64.Encode(TokenBytes(e.token)))
      && p.record.eventName == "Claim"
      && p.record.detail == ClaimDetail(e.auctionType, e.auctionAsset, e.bidAmount)
  {
    DecodeEncodeClaim(e);
  }
}
