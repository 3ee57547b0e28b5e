/**
 * The market cache: a queue of pending updates that keeps, per (asset, owner, token id), only
 * the update with the highest notification index, and the map of current market models that a
 * refresh pass merges those updates into before they are written to the durable store.
 */
module Cache {
  import opened Wrappers
  import opened Primitives

  /** A nullable script hash. */
  type Address = Option<UInt160>
  /** A nullable token id string. */
  type TokenId = Option<string>

  /** Key of the pending queue: (asset, owner, token id). */
  datatype QueueKey = QueueKey(asset: Address, owner: Address, tokenId: TokenId)

  /** Key of the current-state map: (owner, asset, token id). */
  datatype ModelKey = ModelKey(owner: Address, asset: Address, tokenId: TokenId)

  /** A pending update (CacheMarketParams). amount is filled in by the refresh pass. */
  datatype CacheMarketParams = CacheMarketParams(
    notificationIndex: int,
    simpleUpdate: bool,
    owner: Address,
    asset: Address,
    tokenId: TokenId,
    amount: int,
    market: Address,
    auctionType: u32,
    auctor: Address,
    auctionAsset: Address,
    auctionAmount: int,
    deadline: u64,
    bidder: Address,
    bidAmount: int,
    timestamp: int)

  /** The current state of one holding (MarketModel); decimal amounts are held as integers. */
  datatype MarketModel = MarketModel(
    asset: Address,
    tokenId: TokenId,
    owner: Address,
    amount: int,
    market: Address,
    auctionType: u32,
    auctionAmount: int,
    auctionAsset: Address,
    auctor: Address,
    bidAmount: int,
    bidder: Address,
    deadline: u64,
    timestamp: u64)

  function QueueKeyOf(p: CacheMarketParams): (r: QueueKey)
  {
    QueueKey(p.asset, p.owner, p.tokenId)
  }

  function ModelKeyOf(m: MarketModel): (r: ModelKey)
  {
    ModelKey(m.owner, m.asset, m.tokenId)
  }

  /** The current-state slot a queued key is merged into. */
  function TargetOf(q: QueueKey): (r: ModelKey)
  {
    ModelKey(q.owner, q.asset, q.tokenId)
  }

  /** The queued key that feeds a current-state slot. */
  function SourceOf(k: ModelKey): (q: QueueKey)
    ensures TargetOf(q) == k
  {
    QueueKey(k.asset, k.owner, k.tokenId)
  }

  ghost predicate QueueWellKeyed(q: map<QueueKey, CacheMarketParams>)
  {
    forall k | k in q :: QueueKeyOf(q[k]) == k
  }

  ghost predicate ModelsWellKeyed(m: map<ModelKey, MarketModel>)
  {
    forall k | k in m :: ModelKeyOf(m[k]) == k
  }

  // ---------------------------------------------------------------------------------------
  // The pending queue: highest notification index wins

  /** One AddNeedUpdate step: store p unless the key already holds an index at least as high. */
  function Enqueue(q: map<QueueKey, CacheMarketParams>, p: CacheMarketParams): (r: map<QueueKey, CacheMarketParams>)
    ensures r.Keys == q.Keys + {QueueKeyOf(p)}
    ensures forall k | k in q && k != QueueKeyOf(p) :: r[k] == q[k]
    ensures r[QueueKeyOf(p)] == p || (QueueKeyOf(p) in q && r[QueueKeyOf(p)] == q[QueueKeyOf(p)])
    ensures QueueKeyOf(p) in q ==>
      r[QueueKeyOf(p)].notificationIndex >= q[QueueKeyOf(p)].notificationIndex &&
      r[QueueKeyOf(p)].notificationIndex >= p.notificationIndex
    ensures QueueKeyOf(p) in q && p.notificationIndex <= q[QueueKeyOf(p)].notificationIndex ==> r == q
    ensures QueueKeyOf(p) !in q || p.notificationIndex > q[QueueKeyOf(p)].notificationIndex ==> r[QueueKeyOf(p)] == p
    ensures QueueWellKeyed(q) ==> QueueWellKeyed(r)
  {
    var key := QueueKeyOf(p);
    if key !in q || p.notificationIndex > q[key].notificationIndex then q[key := p] else q
  }

  /** A sequence of AddNeedUpdate steps, in the order the lock admitted them. */
  function EnqueueAll(q: map<QueueKey, CacheMarketParams>, ps: seq<CacheMarketParams>): (r: map<QueueKey, CacheMarketParams>)
  {
    if ps == [] then q else Enqueue(EnqueueAll(q, ps[..|ps| - 1]), ps[|ps| - 1])
  }

  /** ps[i] is the first of the updates for its key that carries the highest index. */
  ghost predicate Wins(ps: seq<CacheMarketParams>, i: int)
  {
    0 <= i < |ps| &&
    forall j | 0 <= j < |ps| && QueueKeyOf(ps[j]) == QueueKeyOf(ps[i]) ::
      ps[j].notificationIndex < ps[i].notificationIndex ||
      (ps[j].notificationIndex == ps[i].notificationIndex && i <= j)
  }

  /** An earlier winner still wins when the appended update loses to it or is for another key. */
  lemma WinsExtend(ps: seq<CacheMarketParams>, i: int)
    requires |ps| > 0 && Wins(ps[..|ps| - 1], i)
    requires var last := ps[|ps| - 1];
      QueueKeyOf(last) != QueueKeyOf(ps[i]) || last.notificationIndex <= ps[i].notificationIndex
    ensures Wins(ps, i)
  {
    var init := ps[..|ps| - 1];
    assert forall j | 0 <= j < |init| :: init[j] == ps[j];
  }

  /** The appended update wins when it beats every earlier update for its key. */
  lemma WinsLast(ps: seq<CacheMarketParams>)
    requires |ps| > 0
    requires var n := |ps| - 1;
      forall j | 0 <= j < n && QueueKeyOf(ps[j]) == QueueKeyOf(ps[n]) :: ps[j].notificationIndex < ps[n].notificationIndex
    ensures Wins(ps, |ps| - 1)
  {
  }

  /** Enqueueing a sequence into an empty queue queues exactly the keys it names. */
  lemma {:induction false} EnqueueAllKeys(ps: seq<CacheMarketParams>)
    ensures EnqueueAll(map[], ps).Keys == KeysOf(ps)
  {
    if ps != [] {
      var n := |ps| - 1;
      EnqueueAllKeys(ps[..n]);
      KeysOfStep(ps, n);
      assert ps[..n + 1] == ps;
    }
  }

  /** The winner for k stays queued when the appended update is for another key. */
  lemma HighestOther(ps: seq<CacheMarketParams>, k: QueueKey, i: int)
    requires |ps| > 0 && QueueKeyOf(ps[|ps| - 1]) != k
    requires Wins(ps[..|ps| - 1], i) && QueueKeyOf(ps[i]) == k
    requires var r0 := EnqueueAll(map[], ps[..|ps| - 1]); k in r0 && r0[k] == ps[i]
    ensures var r := EnqueueAll(map[], ps); k in r && Wins(ps, i) && r[k] == ps[i]
  {
    WinsExtend(ps, i);
  }

  /** The first update for k is queued and wins. */
  lemma HighestFirst(ps: seq<CacheMarketParams>, k: QueueKey)
    requires |ps| > 0 && QueueKeyOf(ps[|ps| - 1]) == k
    requires k !in EnqueueAll(map[], ps[..|ps| - 1])
    requires forall j | 0 <= j < |ps| - 1 :: QueueKeyOf(ps[j]) != k
    ensures var r := EnqueueAll(map[], ps); k in r && Wins(ps, |ps| - 1) && r[k] == ps[|ps| - 1]
  {
    WinsLast(ps);
  }

  /** A later update for k replaces the queued winner exactly when its index is higher. */
  lemma HighestReplace(ps: seq<CacheMarketParams>, k: QueueKey, i: int)
    requires |ps| > 0 && QueueKeyOf(ps[|ps| - 1]) == k
    requires Wins(ps[..|ps| - 1], i) && QueueKeyOf(ps[i]) == k
    requires var r0 := EnqueueAll(map[], ps[..|ps| - 1]); k in r0 && r0[k] == ps[i]
    ensures var n := |ps| - 1;
      var w := if ps[n].notificationIndex > ps[i].notificationIndex then n else i;
      var r := EnqueueAll(map[], ps); k in r && Wins(ps, w) && r[k] == ps[w]
  {
    var n := |ps| - 1;
    var init := ps[..n];
    if ps[n].notificationIndex > ps[i].notificationIndex {
      assert forall j | 0 <= j < n :: init[j] == ps[j];
      WinsLast(ps);
    } else {
      WinsExtend(ps, i);
    }
  }

  /**
   * After any sequence of enqueues into an empty queue, a key is present exactly when some
   * update named it, and it holds the update with the greatest index (the first such, on a tie).
   */
  lemma {:induction false} EnqueueAllKeepsHighest(ps: seq<CacheMarketParams>, k: QueueKey)
    ensures k in EnqueueAll(map[], ps) <==> exists i | 0 <= i < |ps| :: QueueKeyOf(ps[i]) == k
    ensures k in EnqueueAll(map[], ps) ==>
      exists i | Wins(ps, i) :: QueueKeyOf(ps[i]) == k && EnqueueAll(map[], ps)[k] == ps[i]
  {
    EnqueueAllKeys(ps);
    if ps != [] {
      var n := |ps| - 1;
      var init := ps[..n];
      var r0 := EnqueueAll(map[], init);
      EnqueueAllKeepsHighest(init, k);
      if k in r0 {
        var i :| Wins(init, i) && QueueKeyOf(init[i]) == k && r0[k] == init[i];
        assert init[i] == ps[i];
        if QueueKeyOf(ps[n]) != k {
          HighestOther(ps, k, i);
        } else {
          HighestReplace(ps, k, i);
        }
      } else if QueueKeyOf(ps[n]) == k {
        assert forall j | 0 <= j < n :: init[j] == ps[j];
        HighestFirst(ps, k);
      }
    }
  }

  /** No two different updates for the same key share a notification index. */
  ghost predicate DistinctIndices(ps: seq<CacheMarketParams>)
  {
    forall i, j | 0 <= i < |ps| && 0 <= j < |ps| ::
      QueueKeyOf(ps[i]) == QueueKeyOf(ps[j]) && ps[i].notificationIndex == ps[j].notificationIndex ==> ps[i] == ps[j]
  }

  /** Sequences holding the same updates name the same keys. */
  lemma KeysOfPermutation(ps: seq<CacheMarketParams>, qs: seq<CacheMarketParams>)
    requires multiset(ps) == multiset(qs)
    ensures KeysOf(ps) == KeysOf(qs)
  {
    forall k | k in KeysOf(ps) ensures k in KeysOf(qs) {
      var i :| 0 <= i < |ps| && QueueKeyOf(ps[i]) == k;
      assert ps[i] in multiset(qs);
      var j :| 0 <= j < |qs| && qs[j] == ps[i];
    }
    forall k | k in KeysOf(qs) ensures k in KeysOf(ps) {
      var j :| 0 <= j < |qs| && QueueKeyOf(qs[j]) == k;
      assert qs[j] in multiset(ps);
      var i :| 0 <= i < |ps| && ps[i] == qs[j];
    }
  }

  /** Two winners for the same key among the same updates are the same update. */
  lemma WinnerUnique(ps: seq<CacheMarketParams>, qs: seq<CacheMarketParams>, i: int, i': int)
    requires multiset(ps) == multiset(qs) && DistinctIndices(ps)
    requires Wins(ps, i) && Wins(qs, i') && QueueKeyOf(ps[i]) == QueueKeyOf(qs[i'])
    ensures ps[i] == qs[i']
  {
    assert ps[i] in multiset(qs);
    var j' :| 0 <= j' < |qs| && qs[j'] == ps[i];
    assert qs[i'] in multiset(ps);
    var j :| 0 <= j < |ps| && ps[j] == qs[i'];
    assert ps[j].notificationIndex == ps[i].notificationIndex;
  }

  /**
   * The order in which concurrent callers get the lock does not matter: any reordering of the
   * same updates leaves the same queue, as long as indices do not tie within a key.
   */
  lemma EnqueueOrderIrrelevant(ps: seq<CacheMarketParams>, qs: seq<CacheMarketParams>)
    requires multiset(ps) == multiset(qs)
    requires DistinctIndices(ps)
    ensures EnqueueAll(map[], ps) == EnqueueAll(map[], qs)
  {
    var r, s := EnqueueAll(map[], ps), EnqueueAll(map[], qs);
    EnqueueAllKeys(ps);
    EnqueueAllKeys(qs);
    KeysOfPermutation(ps, qs);
    forall k | k in r ensures r[k] == s[k] {
      EnqueueAllKeepsHighest(ps, k);
      EnqueueAllKeepsHighest(qs, k);
      var i :| Wins(ps, i) && QueueKeyOf(ps[i]) == k && r[k] == ps[i];
      var i' :| Wins(qs, i') && QueueKeyOf(qs[i']) == k && s[k] == qs[i'];
      WinnerUnique(ps, qs, i, i');
    }
  }

  // ---------------------------------------------------------------------------------------
  // Merging into the current state

  /** The model AddOrUpdate creates when none exists: every field taken from the update. */
  function Create(p: CacheMarketParams): (m: MarketModel)
    requires FitsU64(p.timestamp)
  {
    MarketModel(p.asset, p.tokenId, p.owner, p.amount, p.market, p.auctionType, p.auctionAmount,
                p.auctionAsset, p.auctor, p.bidAmount, p.bidder, p.deadline, p.timestamp as u64)
  }

  /** AddOrUpdate's three cases: create, simple merge (amount and timestamp), full overwrite. */
  function Merge(found: Option<MarketModel>, p: CacheMarketParams): (m: MarketModel)
    requires FitsU64(p.timestamp)
  {
    match found
    case None => Create(p)
    case Some(m) =>
      if p.simpleUpdate then m.(timestamp := p.timestamp as u64, amount := p.amount)
      else m.(asset := p.asset, tokenId := p.tokenId, owner := p.owner, amount := p.amount,
              market := p.market, auctionType := p.auctionType, auctionAmount := p.auctionAmount,
              auctionAsset := p.auctionAsset, auctor := p.auctor, bidAmount := p.bidAmount,
              bidder := p.bidder, deadline := p.deadline, timestamp := p.timestamp as u64)
  }

  /** A simple merge changes the amount and the timestamp and keeps every other field. */
  lemma SimpleMergeKeepsMarket(m: MarketModel, p: CacheMarketParams)
    requires FitsU64(p.timestamp) && p.simpleUpdate
    ensures var r := Merge(Some(m), p);
      r.amount == p.amount && r.timestamp as int == p.timestamp &&
      r.asset == m.asset && r.tokenId == m.tokenId && r.owner == m.owner &&
      r.market == m.market && r.auctionType == m.auctionType && r.auctor == m.auctor &&
      r.auctionAsset == m.auctionAsset && r.auctionAmount == m.auctionAmount &&
      r.deadline == m.deadline && r.bidder == m.bidder && r.bidAmount == m.bidAmount
  {
  }

  /** A full merge leaves nothing of the old model: the result is what creation would give. */
  lemma FullMergeOverwrites(m: MarketModel, p: CacheMarketParams)
    requires FitsU64(p.timestamp) && !p.simpleUpdate
    ensures Merge(Some(m), p) == Merge(None, p)
  {
  }

  /** Creation copies every field of the update. */
  lemma CreateCopiesParams(p: CacheMarketParams)
    requires FitsU64(p.timestamp)
    ensures var r := Merge(None, p);
      r.asset == p.asset && r.tokenId == p.tokenId && r.owner == p.owner && r.amount == p.amount &&
      r.market == p.market && r.auctionType == p.auctionType && r.auctor == p.auctor &&
      r.auctionAsset == p.auctionAsset && r.auctionAmount == p.auctionAmount &&
      r.deadline == p.deadline && r.bidder == p.bidder && r.bidAmount == p.bidAmount &&
      r.timestamp as int == p.timestamp
  {
  }

  /** A merge of an update keeps the model at the update's own slot. */
  lemma MergeKeepsKey(found: Option<MarketModel>, p: CacheMarketParams)
    requires FitsU64(p.timestamp)
    requires found.Some? ==> ModelKeyOf(found.value) == TargetOf(QueueKeyOf(p))
    ensures ModelKeyOf(Merge(found, p)) == TargetOf(QueueKeyOf(p))
  {
  }

  /** Read-through lookup: the in-memory map first, then the durable store. */
  function Lookup(models: map<ModelKey, MarketModel>, store: map<ModelKey, MarketModel>, k: ModelKey): (r: Option<MarketModel>)
  {
    if k in models then Some(models[k]) else if k in store then Some(store[k]) else None
  }

  /** The current-state map after AddOrUpdate(p). */
  function Merged(models: map<ModelKey, MarketModel>, store: map<ModelKey, MarketModel>, p: CacheMarketParams): (r: map<ModelKey, MarketModel>)
    requires FitsU64(p.timestamp)
  {
    if p.owner.None? || p.asset.None? then models
    else
      var k := TargetOf(QueueKeyOf(p));
      models[k := Merge(Lookup(models, store, k), p)]
  }

  /** An update whose amount is the ledger balance of its holding. */
  function Refresh(p: CacheMarketParams, balanceOf: (Address, TokenId, Address) -> int): (r: CacheMarketParams)
    ensures r == p.(amount := r.amount)
  {
    p.(amount := balanceOf(p.asset, p.tokenId, p.owner))
  }

  /** A current-state slot that a refresh over the queued keys done rewrites. */
  predicate Updated(k: ModelKey, done: set<QueueKey>)
  {
    k.owner.Some? && k.asset.Some? && SourceOf(k) in done
  }

  ghost predicate TimestampsFit(pending: map<QueueKey, CacheMarketParams>)
  {
    forall q | q in pending :: FitsU64(pending[q].timestamp)
  }

  /**
   * The current-state map after refreshing and merging the queued entries whose keys are in
   * done. The entries have distinct keys, so the result does not depend on their order.
   */
  function ApplyUpdates(models: map<ModelKey, MarketModel>, store: map<ModelKey, MarketModel>,
                        pending: map<QueueKey, CacheMarketParams>, balanceOf: (Address, TokenId, Address) -> int,
                        done: set<QueueKey>): (r: map<ModelKey, MarketModel>)
    requires done <= pending.Keys && TimestampsFit(pending)
  {
    var targets := set q | q in done && q.owner.Some? && q.asset.Some? :: TargetOf(q);
    map k | k in models.Keys + targets ::
      if Updated(k, done) then Merge(Lookup(models, store, k), Refresh(pending[SourceOf(k)], balanceOf))
      else models[k]
  }

  /** A queued entry with a null owner or asset leaves the refresh unchanged. */
  lemma ApplyUpdatesSkip(models: map<ModelKey, MarketModel>, store: map<ModelKey, MarketModel>,
                         pending: map<QueueKey, CacheMarketParams>, balanceOf: (Address, TokenId, Address) -> int,
                         done: set<QueueKey>, q: QueueKey)
    requires done <= pending.Keys && TimestampsFit(pending)
    requires q in pending && q !in done && (q.owner.None? || q.asset.None?)
    ensures ApplyUpdates(models, store, pending, balanceOf, done + {q}) == ApplyUpdates(models, store, pending, balanceOf, done)
  {
    var before := ApplyUpdates(models, store, pending, balanceOf, done);
    var after := ApplyUpdates(models, store, pending, balanceOf, done + {q});
    forall k | k in after ensures k in before && after[k] == before[k] {
      if Updated(k, done + {q}) {
        assert SourceOf(k) in done;
      }
    }
  }

  /** A queued entry with an owner and an asset rewrites its own slot and nothing else. */
  lemma ApplyUpdatesMerge(models: map<ModelKey, MarketModel>, store: map<ModelKey, MarketModel>,
                          pending: map<QueueKey, CacheMarketParams>, balanceOf: (Address, TokenId, Address) -> int,
                          done: set<QueueKey>, q: QueueKey)
    requires done <= pending.Keys && TimestampsFit(pending)
    requires q in pending && q !in done && q.owner.Some? && q.asset.Some?
    ensures var before := ApplyUpdates(models, store, pending, balanceOf, done);
      var t := TargetOf(q);
      ApplyUpdates(models, store, pending, balanceOf, done + {q}) ==
      before[t := Merge(Lookup(before, store, t), Refresh(pending[q], balanceOf))]
  {
    var before := ApplyUpdates(models, store, pending, balanceOf, done);
    var after := ApplyUpdates(models, store, pending, balanceOf, done + {q});
    var t := TargetOf(q);
    assert SourceOf(t) == q;
    var expected := before[t := Merge(Lookup(before, store, t), Refresh(pending[q], balanceOf))];
    assert Lookup(before, store, t) == Lookup(models, store, t);
    assert t in after;
    forall k | k in after ensures k in expected && after[k] == expected[k] {
      if k != t && Updated(k, done + {q}) {
        assert SourceOf(k) in done;
      }
    }
    forall k | k in expected ensures k in after {
      if k != t && Updated(k, done) {
        assert SourceOf(k) in done + {q};
      }
    }
  }

  /** Merging one more queued entry extends the refresh by that entry's key. */
  lemma ApplyUpdatesStep(models: map<ModelKey, MarketModel>, store: map<ModelKey, MarketModel>,
                         pending: map<QueueKey, CacheMarketParams>, balanceOf: (Address, TokenId, Address) -> int,
                         done: set<QueueKey>, q: QueueKey)
    requires done <= pending.Keys && TimestampsFit(pending) && QueueWellKeyed(pending)
    requires q in pending && q !in done
    ensures ApplyUpdates(models, store, pending, balanceOf, done + {q}) ==
            Merged(ApplyUpdates(models, store, pending, balanceOf, done), store, Refresh(pending[q], balanceOf))
  {
    assert QueueKeyOf(Refresh(pending[q], balanceOf)) == q;
    if q.owner.Some? && q.asset.Some? {
      ApplyUpdatesMerge(models, store, pending, balanceOf, done, q);
    } else {
      ApplyUpdatesSkip(models, store, pending, balanceOf, done, q);
    }
  }

  lemma MergeRefreshTwice(found: Option<MarketModel>, p: CacheMarketParams,
                          b1: (Address, TokenId, Address) -> int, b2: (Address, TokenId, Address) -> int)
    requires FitsU64(p.timestamp)
    ensures Merge(Some(Merge(found, Refresh(p, b1))), Refresh(Refresh(p, b1), b2)) == Merge(found, Refresh(p, b2))
  {
  }

  /**
   * Refreshing twice with nothing enqueued in between gives the state one refresh against the
   * later ledger gives: only the amounts move.
   */
  lemma {:induction false} ApplyUpdatesTwice(models: map<ModelKey, MarketModel>, store: map<ModelKey, MarketModel>,
                                             pending: map<QueueKey, CacheMarketParams>,
                                             b1: (Address, TokenId, Address) -> int, b2: (Address, TokenId, Address) -> int)
    requires TimestampsFit(pending)
    ensures TimestampsFit(RefreshSome(pending, b1, pending.Keys))
    ensures ApplyUpdates(ApplyUpdates(models, store, pending, b1, pending.Keys), store, RefreshSome(pending, b1, pending.Keys), b2, pending.Keys)
         == ApplyUpdates(models, store, pending, b2, pending.Keys)
  {
    var refreshed := RefreshSome(pending, b1, pending.Keys);
    assert TimestampsFit(refreshed) by {
      forall q | q in refreshed ensures FitsU64(refreshed[q].timestamp) {
        assert refreshed[q].timestamp == pending[q].timestamp;
      }
    }
    var once := ApplyUpdates(models, store, pending, b1, pending.Keys);
    var twice := ApplyUpdates(once, store, refreshed, b2, pending.Keys);
    var direct := ApplyUpdates(models, store, pending, b2, pending.Keys);
    assert twice.Keys == direct.Keys by {
      assert once.Keys == direct.Keys;
      forall k | k in twice ensures k in once {
        if Updated(k, pending.Keys) { assert k in once; }
      }
    }
    forall k | k in twice ensures twice[k] == direct[k] {
      ApplyUpdatesTwiceAt(models, store, pending, b1, b2, k);
    }
  }

  lemma ApplyUpdatesTwiceAt(models: map<ModelKey, MarketModel>, store: map<ModelKey, MarketModel>,
                            pending: map<QueueKey, CacheMarketParams>,
                            b1: (Address, TokenId, Address) -> int, b2: (Address, TokenId, Address) -> int, k: ModelKey)
    requires TimestampsFit(pending) && TimestampsFit(RefreshSome(pending, b1, pending.Keys))
    requires k in ApplyUpdates(ApplyUpdates(models, store, pending, b1, pending.Keys), store, RefreshSome(pending, b1, pending.Keys), b2, pending.Keys)
    ensures k in ApplyUpdates(models, store, pending, b2, pending.Keys)
    ensures ApplyUpdates(ApplyUpdates(models, store, pending, b1, pending.Keys), store, RefreshSome(pending, b1, pending.Keys), b2, pending.Keys)[k]
         == ApplyUpdates(models, store, pending, b2, pending.Keys)[k]
  {
    var once := ApplyUpdates(models, store, pending, b1, pending.Keys);
    var refreshed := RefreshSome(pending, b1, pending.Keys);
    if Updated(k, pending.Keys) {
      var q := SourceOf(k);
      assert k in once;
      assert refreshed[q] == Refresh(pending[q], b1);
      MergeRefreshTwice(Lookup(models, store, k), pending[q], b1, b2);
    }
  }

  /** The queued keys a list of updates names. */
  ghost function KeysOf(list: seq<CacheMarketParams>): (ks: set<QueueKey>)
  {
    set i | 0 <= i < |list| :: QueueKeyOf(list[i])
  }

  lemma KeysOfStep(list: seq<CacheMarketParams>, i: nat)
    requires i < |list|
    ensures KeysOf(list[..i + 1]) == KeysOf(list[..i]) + {QueueKeyOf(list[i])}
  {
    var a, b := list[..i], list[..i + 1];
    assert b == a + [list[i]];
    assert QueueKeyOf(b[i]) == QueueKeyOf(list[i]);
  }

  /** The queue midway through a refresh pass: the entries of done carry their ledger balance. */
  function RefreshSome(pending: map<QueueKey, CacheMarketParams>, balanceOf: (Address, TokenId, Address) -> int,
                       done: set<QueueKey>): (r: map<QueueKey, CacheMarketParams>)
    ensures r.Keys == pending.Keys
  {
    map q | q in pending :: if q in done then Refresh(pending[q], balanceOf) else pending[q]
  }
  /** Refreshing one more queued key rewrites that entry and no other. */
  lemma RefreshSomeStep(pending: map<QueueKey, CacheMarketParams>, balanceOf: (Address, TokenId, Address) -> int,
                        done: set<QueueKey>, q: QueueKey)
    requires q in pending
    ensures RefreshSome(pending, balanceOf, done)[q := Refresh(pending[q], balanceOf)] == RefreshSome(pending, balanceOf, done + {q})
  {
  }

  /** In a list with distinct keys, an element's key is not among the keys before it. */
  lemma KeysOfFresh(list: seq<CacheMarketParams>, i: nat)
    requires i < |list|
    requires forall a, b | 0 <= a < b < |list| :: QueueKeyOf(list[a]) != QueueKeyOf(list[b])
    ensures QueueKeyOf(list[i]) !in KeysOf(list[..i])
  {
    var prefix := list[..i];
    forall a | 0 <= a < |prefix| ensures QueueKeyOf(prefix[a]) != QueueKeyOf(list[i]) {
      assert prefix[a] == list[a];
    }
  }


  /** The batch of a transaction: the documents a Save call hands to it. */
  class Transaction {
    var batches: seq<set<MarketModel>>

    constructor ()
      ensures batches == []
    {
      batches := [];
    }
  }

  /** CacheMarket: the pending queue (D_Market) and the current-state map (D_MarketModel). */
  class CacheMarket {
    /** D_Market, keyed (asset, owner, token id). */
    var pending: map<QueueKey, CacheMarketParams>
    /** D_MarketModel, keyed (owner, asset, token id). */
    var models: map<ModelKey, MarketModel>

    ghost predicate Valid()
      reads this
    {
      QueueWellKeyed(pending) && ModelsWellKeyed(models)
    }

    constructor ()
      ensures Valid() && pending == map[] && models == map[]
    {
      pending := map[];
      models := map[];
    }

    /** The short overload: an update with only identity, mode and timestamp; market fields default. */
    method AddNeedUpdate(notificationIndex: int, simpleUpdate: bool, asset: Address, owner: Address,
                         tokenId: TokenId, timestamp: int)
      requires Valid()
      modifies this
      ensures Valid() && models == old(models)
      ensures pending == Enqueue(old(pending),
        CacheMarketParams(notificationIndex, simpleUpdate, owner, asset, tokenId, 0,
                          None, 0, None, None, 0, 0, None, 0, timestamp))
    {
      var key := QueueKey(asset, owner, tokenId);
      if key !in pending || notificationIndex > pending[key].notificationIndex {
        pending := pending[key := CacheMarketParams(
          notificationIndex := notificationIndex,
          simpleUpdate := simpleUpdate,
          asset := asset,
          tokenId := tokenId,
          owner := owner,
          timestamp := timestamp,
          amount := 0, market := None, auctionType := 0, auctor := None, auctionAsset := None,
          auctionAmount := 0, deadline := 0, bidder := None, bidAmount := 0)];
      }
    }

    /** The full overload: every market, auction and bid field supplied by the caller. */
    method AddNeedUpdateMarket(notificationIndex: int, simpleUpdate: bool, asset: Address, owner: Address,
                               tokenId: TokenId, market: Address, auctionType: int, auctor: Address,
                               auctionAsset: Address, auctionAmount: int, deadline: int, bidder: Address,
                               bidAmount: int, timestamp: int)
      requires Valid()
      requires FitsU32(auctionType) && FitsU64(deadline)
      modifies this
      ensures Valid() && models == old(models)
      ensures pending == Enqueue(old(pending),
        CacheMarketParams(notificationIndex, simpleUpdate, owner, asset, tokenId, 0,
                          market, auctionType as u32, auctor, auctionAsset, auctionAmount,
                          deadline as u64, bidder, bidAmount, timestamp))
    {
      var key := QueueKey(asset, owner, tokenId);
      if key !in pending || notificationIndex > pending[key].notificationIndex {
        pending := pending[key := CacheMarketParams(
          simpleUpdate := simpleUpdate,
          asset := asset,
          tokenId := tokenId,
          owner := owner,
          market := market,
          auctionType := auctionType as u32,
          auctor := auctor,
          auctionAsset := auctionAsset,
          auctionAmount := auctionAmount,
          deadline := deadline as u64,
          bidder := bidder,
          bidAmount := bidAmount,
          timestamp := timestamp,
          notificationIndex := notificationIndex,
          amount := 0)];
      }
    }

    /** A copy of the queued updates, one per key; nothing is removed from the queue. */
    method GetNeedUpdate() returns (list: seq<CacheMarketParams>)
      requires Valid()
      ensures KeysOf(list) == pending.Keys
      ensures forall i | 0 <= i < |list| :: QueueKeyOf(list[i]) in pending && pending[QueueKeyOf(list[i])] == list[i]
      ensures forall i, j | 0 <= i < j < |list| :: QueueKeyOf(list[i]) != QueueKeyOf(list[j])
    {
      list := [];
      var rest := pending.Keys;
      while rest != {}
        invariant rest <= pending.Keys
        invariant (set i | 0 <= i < |list| :: QueueKeyOf(list[i])) == pending.Keys - rest
        invariant forall i | 0 <= i < |list| :: QueueKeyOf(list[i]) in pending && pending[QueueKeyOf(list[i])] == list[i]
        invariant forall i, j | 0 <= i < j < |list| :: QueueKeyOf(list[i]) != QueueKeyOf(list[j])
        decreases rest
      {
        var q :| q in rest;
        var list' := list + [pending[q]];
        assert (set i | 0 <= i < |list'| :: QueueKeyOf(list'[i])) == (set i | 0 <= i < |list| :: QueueKeyOf(list[i])) + {q} by {
          assert QueueKeyOf(list'[|list|]) == q;
          assert forall i | 0 <= i < |list| :: list'[i] == list[i];
        }
        list := list';
        rest := rest - {q};
      }
    }

    /** Read-through lookup: the in-memory model when present, otherwise the durable store's. */
    method Get(owner: Address, asset: Address, tokenId: TokenId, store: map<ModelKey, MarketModel>)
      returns (m: Option<MarketModel>)
      ensures ModelKey(owner, asset, tokenId) in models ==> m == Some(models[ModelKey(owner, asset, tokenId)])
      ensures ModelKey(owner, asset, tokenId) !in models && ModelKey(owner, asset, tokenId) in store ==>
        m == Some(store[ModelKey(owner, asset, tokenId)])
      ensures ModelKey(owner, asset, tokenId) !in models && ModelKey(owner, asset, tokenId) !in store ==> m == None
    {
      var key := ModelKey(owner, asset, tokenId);
      if key in models {
        m := Some(models[key]);
      } else {
        m := if key in store then Some(store[key]) else None;
      }
    }

    /** Merge one update into the current state (create, simple merge or full overwrite). */
    method AddOrUpdate(p: CacheMarketParams, store: map<ModelKey, MarketModel>)
      requires Valid() && ModelsWellKeyed(store) && FitsU64(p.timestamp)
      modifies this
      ensures Valid() && pending == old(pending)
      ensures models == Merged(old(models), store, p)
    {
      if p.owner.None? || p.asset.None? {
        return;
      }
      var found := Get(p.owner, p.asset, p.tokenId, store);
      var model: MarketModel;
      if found.None? {
        model := MarketModel(
          asset := p.asset,
          tokenId := p.tokenId,
          owner := p.owner,
          amount := p.amount,
          market := p.market,
          auctionType := p.auctionType,
          auctionAmount := p.auctionAmount,
          auctionAsset := p.auctionAsset,
          auctor := p.auctor,
          bidAmount := p.bidAmount,
          bidder := p.bidder,
          deadline := p.deadline,
          timestamp := p.timestamp as u64);
      } else if p.simpleUpdate {
        model := found.value;
        model := model.(timestamp := p.timestamp as u64);
        model := model.(amount := p.amount);
      } else {
        model := found.value;
        model := model.(asset := p.asset);
        model := model.(tokenId := p.tokenId);
        model := model.(owner := p.owner);
        model := model.(amount := p.amount);
        model := model.(market := p.market);
        model := model.(auctionType := p.auctionType);
        model := model.(auctionAmount := p.auctionAmount);
        model := model.(auctionAsset := p.auctionAsset);
        model := model.(auctor := p.auctor);
        model := model.(bidAmount := p.bidAmount);
        model := model.(bidder := p.bidder);
        model := model.(deadline := p.deadline);
        model := model.(timestamp := p.timestamp as u64);
      }
      assert model == Merge(found, p);
      MergeKeepsKey(found, p);
      models := models[ModelKeyOf(model) := model];
    }

    /**
     * The refresh pass: for each queued update, set its amount to the ledger balance (the
     * queued object itself is updated) and merge it into the current state.
     */
    method Update(balanceOf: (Address, TokenId, Address) -> int, store: map<ModelKey, MarketModel>)
      requires Valid() && ModelsWellKeyed(store) && TimestampsFit(pending)
      modifies this
      ensures Valid()
      ensures pending == RefreshSome(old(pending), balanceOf, old(pending).Keys)
      ensures models == ApplyUpdates(old(models), store, old(pending), balanceOf, old(pending).Keys)
    {
      var list := GetNeedUpdate();
      ghost var pending0, models0 := pending, models;
      ghost var done: set<QueueKey> := {};
      var i := 0;
      while i < |list|
        invariant 0 <= i <= |list|
        invariant done == KeysOf(list[..i]) && done <= pending0.Keys
        invariant Valid()
        invariant pending == RefreshSome(pending0, balanceOf, done)
        invariant models == ApplyUpdates(models0, store, pending0, balanceOf, done)
      {
        var q := QueueKeyOf(list[i]);
        KeysOfFresh(list, i);
        var p := Refresh(list[i], balanceOf);
        assert list[i] == pending0[q];
        ApplyUpdatesStep(models0, store, pending0, balanceOf, done, q);
        RefreshSomeStep(pending0, balanceOf, done, q);
        pending := pending[q := p];
        KeysOfStep(list, i);
        done := done + {q};
        AddOrUpdate(p, store);
        i := i + 1;
      }
      assert list[..i] == list;
    }

    /** Drop everything held in memory. */
    method Clear()
      modifies this
      ensures Valid() && pending == map[] && models == map[]
    {
      pending := map[];
      models := map[];
    }

    /** Hand every current model to the transaction as one batch, unless there are none. */
    method Save(tran: Transaction)
      requires Valid()
      modifies tran
      ensures tran.batches == if |models| > 0 then old(tran.batches) + [models.Values] else old(tran.batches)
    {
      if |models| > 0 {
        tran.batches := tran.batches + [models.Values];
      }
    }
  }
}
