# Fura market projection, modelled in Dafny

This project models the marketplace projection engine of the Fura indexer plugin for the Neo
ledger. The engine has two parts.

- **The market cache (`CacheMarket`).** It holds a queue of pending updates (`D_Market`), with at
  most one `CacheMarketParams` per (asset, owner, token id). A new update replaces the stored one
  only when its notification index is strictly greater. It also holds the current-state map
  (`D_MarketModel`) of `MarketModel`s, keyed by (owner, asset, token id). Once per block, `Update`
  sets each queued entry's amount to the ledger balance and merges it into the current state.
  The merge either creates a model, changes only amount and timestamp (a "simple" update), or
  overwrites every field. `Get` reads the in-memory map first, then the durable store. `Save`
  hands the models to a transaction.
- **The Bid and Claim projectors (`ExecuteBidNotification`, `ExecuteClaimNotification`).** Each
  one accepts a notification only from a configured market contract. It decodes the positional
  arguments with a running success flag, enqueues one full update and appends one history record.
  A Bid carries the auction fields forward from the current model. A Claim resets every market,
  auction and bid field.

Layout (one module per file):

| file | module | models |
|---|---|---|
| wrappers.dfy | Wrappers | `Option` (a nullable reference) and `Result` (a value or the exception thrown) |
| primitives.dfy | Primitives | `byte`, `u32` (uint), `u64` (ulong), `UInt160`, and address parsing from raw bytes |
| base64.dfy | Base64 | `Convert.ToBase64String` / `Convert.FromBase64String` (section 4 of RFC 4648, canonical text) |
| big_integers.dfy | BigIntegers | `BigInteger.ToByteArray`, the `BigInteger(byte[])` reading, `TryParse`/`Parse` and `ToString` |
| cache_market.dfy | Cache | `CacheMarketParams`, `MarketModel`, the `CacheMarket` class and the queue, merge and refresh specification |
| notifications.dfy | Notifications | notification arguments, the guarded decoders, the market-contract check, the history log |
| market_bid.dfy | MarketBid | `ExecuteBidNotification` |
| market_claim.dfy | MarketClaim | `ExecuteClaimNotification` |

Each imperative operation of the cache is a method of the `CacheMarket` class. The class has two
map fields, `pending` (`D_Market`) and `models` (`D_MarketModel`). Each method's postcondition ties
the new maps to a specification function of the old ones:

- `Enqueue` is one guarded store;
- `Merged` is one `AddOrUpdate`;
- `ApplyUpdates` is a whole refresh pass.

Lemmas about these functions carry the properties. Argument decoding is straight-line code with
a threaded `succ` flag, so it is a pure function (`DecodeBid`, `DecodeClaim`). The two projector
methods apply the resulting `Projection` to the cache and to the history log.

Exceptions the source can throw are modelled as `Failure` results, and when one is thrown nothing
is enqueued or logged. They are:

- an argument index past the end of the list;
- malformed Base64 text;
- `BigInteger.Parse` of null or non-numeric text;
- an unknown contract;
- a Bid with no current model.

External collaborators are parameters:

- the durable `MarketModel` store is a map, `store`;
- the ledger's NEP-11 balance query is a function, `balanceOf(asset, tokenId, owner)`;
- the contract-id lookup and the configured market contract ids are a `Settings` value;
- the block timestamp is a `u64`.

Two behaviours of the code are worth stating:

- The normalised token id is the Base64 text of `BigInteger.ToByteArray()`. That is little-endian
  two's complement in its shortest form, not a minimal big-endian encoding.
- A Bid on a holding with no current model (neither in memory nor in the store) throws a null
  reference exception, so nothing is enqueued. Its fields do not default to empty or zero.

## Model

| member | source | states |
|---|---|---|
| `Cache.Enqueue` | Fura/Cache/Cache_Market.cs:42-53 | The queue gains the update's key. Every other key keeps its entry. The update replaces the key's entry when the key is new or its index is strictly greater. On an equal or lower index the queue is unchanged, so on a tie the earlier entry stays. The key ends with an index at least as high as both. |
| `Cache.EnqueueAllKeepsHighest` | Fura/Cache/Cache_Market.cs:34-83 | After any sequence of enqueues, a key is queued exactly when some update named it. It holds the update with the greatest index and the fields supplied with it; on a tie, the first to arrive. |
| `Cache.EnqueueOrderIrrelevant` | Fura/Cache/Cache_Market.cs:40-54 | If no two different updates for one key share an index, any order of the same enqueues (any order in which callers take the lock) leaves the same queue. |
| `Cache.CacheMarket.AddNeedUpdate` | Fura/Cache/Cache_Market.cs:38-56 | The short overload enqueues an update that carries only index, mode, asset, owner, token id and timestamp. Amount and every market, auction and bid field are null or 0. The current-state map is untouched. |
| `Cache.CacheMarket.AddNeedUpdateMarket` | Fura/Cache/Cache_Market.cs:58-83 | The full overload enqueues an update with every supplied field. Auction type and deadline are narrowed to uint and ulong, and the amount is 0. The current-state map is untouched. |
| `Cache.CacheMarket.GetNeedUpdate` | Fura/Cache/Cache_Market.cs:85-88 | Returns exactly one element per queued key, each equal to the queued entry, with no key twice. The queue is not changed. |
| `Cache.CacheMarket.Get` | Fura/Cache/Cache_Market.cs:100-110 | Returns the in-memory model when one is present. Otherwise it returns the durable store's model, or none. Nothing is inserted. |
| `Cache.CacheMarket.AddOrUpdate` | Fura/Cache/Cache_Market.cs:112-158 | With a null owner or asset, nothing changes. Otherwise the slot (owner, asset, token id) gets the merge of the looked-up model with the update. No other slot and no queue entry changes. |
| `Cache.CreateCopiesParams` | Fura/Cache/Cache_Market.cs:117-134 | A model created from an update has every field equal to the update's field. |
| `Cache.SimpleMergeKeepsMarket` | Fura/Cache/Cache_Market.cs:136-140 | A simple merge sets amount and timestamp from the update. It keeps identity and every market, auction and bid field of the prior model. |
| `Cache.FullMergeOverwrites` | Fura/Cache/Cache_Market.cs:141-156 | A full merge leaves nothing of the prior model, null and 0 resets included. The result equals the model created from the update. |
| `Cache.MergeKeepsKey` | Fura/Cache/Cache_Market.cs:157 | When the looked-up model sits at the update's slot, the merged model is keyed by that same slot. |
| `Cache.Refresh` | Fura/Cache/Cache_Market.cs:95 | A refreshed update differs from the queued one in its amount only. |
| `Cache.CacheMarket.Update` | Fura/Cache/Cache_Market.cs:90-98 | After a refresh pass, the queue has the same keys, each entry's amount set to the ledger balance. The current state equals the order-independent merge of all refreshed entries. |
| `Cache.ApplyUpdatesStep` | Fura/Cache/Cache_Market.cs:93-97 | Merging one more queued entry into a partial pass gives the pass over one more key. So the loop order does not matter for entries with distinct keys. |
| `Cache.ApplyUpdatesSkip` | Fura/Cache/Cache_Market.cs:114-115 | A queued entry with a null owner or asset leaves the current state as it was. |
| `Cache.ApplyUpdatesMerge` | Fura/Cache/Cache_Market.cs:112-158 | A queued entry with an owner and an asset rewrites only its own slot, with the merge of the slot's looked-up model and the refreshed entry. |
| `Cache.MergeRefreshTwice` | Fura/Cache/Cache_Market.cs:136-156 | Merging an update a second time, with only its amount changed, gives what merging it once with the later amount gives. |
| `Cache.ApplyUpdatesTwice` | Fura/Cache/Cache_Market.cs:90-98 | Two refresh passes with nothing enqueued in between give the current state one pass against the later ledger gives. Only the amounts follow the ledger. |
| `Cache.CacheMarket.Clear` | Fura/Cache/Cache_Market.cs:160-164 | Both maps become empty. |
| `Cache.CacheMarket.Save` | Fura/Cache/Cache_Market.cs:166-170 | The transaction receives the current models as one batch. Since each model sits at its own slot, distinct slots give distinct documents. With no models, nothing is handed over. |
| `Primitives.TryParseAddress` | Fura/Notification/NotificationMgr.Market.Bid.cs:32 | Reversed bytes parse as a UInt160 exactly when there are 20 of them. The hash is then the raw little-endian byte string. |
| `Base64.Encode` | Fura/Notification/NotificationMgr.Market.Bid.cs:42 | Four characters per started group of three bytes. |
| `Base64.Decode` | Fura/Notification/NotificationMgr.Market.Bid.cs:32 | Text whose length is not a multiple of four never decodes. Decoded text yields three bytes per group of four characters, less at most two for padding. With `DecodeEncode` and `EncodeDecode`, it decodes exactly the texts `Encode` writes, and each to the bytes encoded. |
| `Base64.DecodeEncode` | Fura/Notification/NotificationMgr.Market.Bid.cs:32 | Decoding the Base64 text of any byte string gives it back. |
| `Base64.EncodeDecode` | Fura/Notification/NotificationMgr.Market.Bid.cs:32 | Any text that decodes is the encoding of what it decodes to, so encoding is a bijection onto the decodable text. |
| `BigIntegers.ToByteArray` | Fura/Notification/NotificationMgr.Market.Bid.cs:42 | The byte form of an integer is never empty. |
| `BigIntegers.FromToByteArray` | Fura/Notification/NotificationMgr.Market.Bid.cs:42 | Reading back the two's-complement bytes of any integer gives that integer. |
| `BigIntegers.ToByteArrayMinimal` | Fura/Notification/NotificationMgr.Market.Bid.cs:42 | The byte form has no redundant sign byte. |
| `BigIntegers.MinimalMagnitude` | Fura/Notification/NotificationMgr.Market.Bid.cs:42 | A minimal byte form longer than one byte stands for a value outside -128..127. |
| `BigIntegers.ToFromByteArray` | Fura/Notification/NotificationMgr.Market.Bid.cs:42 | Every minimal byte string is the byte form of the integer it denotes, so the byte form of an integer is unique. |
| `BigIntegers.TryParseInteger` | Fura/Notification/NotificationMgr.Market.Bid.cs:28 | A null string never parses. Otherwise the text parses exactly when, once white space is trimmed from both ends, it is an optional '-' or '+' followed by one or more decimal digits. A negative result comes only from a leading '-'. Unsigned digits parse to their decimal value. |
| `BigIntegers.TryParseSignedValue` | Fura/Notification/NotificationMgr.Market.Bid.cs:28 | Text that parses has the signed decimal value of its digits: negated after a '-', unchanged after a '+' or with no sign. |
| `BigIntegers.IntToString` | Fura/Notification/NotificationMgr.Market.Bid.cs:28 | The decimal text of an Integer argument, as the node renders it before line 28 and line 54 parse it. The text is never empty. It starts with '-' exactly when the value is negative, and every other character is a decimal digit. |
| `BigIntegers.TryParseIntToString` | Fura/Notification/NotificationMgr.Market.Bid.cs:28 | `TryParse` reads back the decimal text `ToString` writes, for every integer. |
| `Notifications.IsMarketContract` | Fura/Notification/NotificationMgr.Market.Bid.cs:18-19 | An unknown contract throws a null reference exception. A known one is a market exactly when its id is among the configured market ids. |
| `Notifications.GuardedInteger` | Fura/Notification/NotificationMgr.Market.Bid.cs:54 | With the flag false, the argument is not read: no exception and the field stays 0. With the flag true, a missing index throws `IndexOutOfRange`. Otherwise the flag stays true exactly when `TryParse` accepts the text, the field is then the parsed value, and a failed parse leaves 0. |
| `Notifications.GuardedAddress` | Fura/Notification/NotificationMgr.Market.Bid.cs:30-33 | The argument is always indexed, so a missing index throws `IndexOutOfRange`. A null value leaves the field null and the flag as it was. With the flag false, the field stays null and nothing throws. With the flag true: malformed Base64 throws `FormatException` (and nothing else does); Base64 of exactly 20 bytes yields those bytes as the address and keeps the flag; any other length leaves null and clears the flag. |
| `Notifications.DecodeTokenId` | Fura/Notification/NotificationMgr.Market.Bid.cs:40-47 | A missing index throws `IndexOutOfRange`. A non-"Integer" item's value is kept verbatim, null included. An "Integer" item whose text parses becomes the Base64 of `ToByteArray` of its value; a null one throws `ArgumentNullException` and a non-numeric one `FormatException`. Nothing else throws. |
| `Notifications.GuardedIntegerArg` | Fura/Notification/NotificationMgr.Market.Bid.cs:28 | An integer argument rendered as decimal text decodes to its value with the flag kept true. |
| `Notifications.GuardedAddressArg` | Fura/Notification/NotificationMgr.Market.Bid.cs:30-33 | An address rendered as Base64 (or null) decodes to itself while the flag holds, and to null after it has failed. |
| `Notifications.DecodeTokenArg` | Fura/Notification/NotificationMgr.Market.Bid.cs:40-47 | A token id emitted as an integer or as bytes decodes to the Base64 text of its bytes. |
| `Notifications.TokenIdAgrees` | Fura/Notification/NotificationMgr.Market.Bid.cs:40-47 | An integer token id and the ByteString of its `ToByteArray` bytes decode to the same token id, hence the same cache key. |
| `Notifications.TokenIdInjective` | Fura/Notification/NotificationMgr.Market.Claim.cs:40-47 | Distinct integer token ids decode to distinct token ids. |
| `Notifications.MarketNotificationLog.Add` | Fura/Notification/NotificationMgr.Market.Bid.cs:62 | The history sink appends exactly the given record. |
| `MarketBid.ExecuteBidNotification` | Fura/Notification/NotificationMgr.Market.Bid.cs:16-65 | Returns true unless an exception is thrown. On a projection it enqueues the update and appends the record. On anything else neither the queue nor the log changes. The current-state map never changes. |
| `MarketBid.BidIgnoresOtherContracts` | Fura/Notification/NotificationMgr.Market.Bid.cs:18-19 | A known contract whose id is not a market id is ignored. |
| `MarketBid.BidUpdateShape` | Fura/Notification/NotificationMgr.Market.Bid.cs:56-62 | The Bid update is full, keyed (asset, emitting contract, token id), with market = emitting contract and the block's timestamp. Bidder and bid amount are those in the history record. Auction type, auctioneer, auction asset, auction amount and deadline are copied from the current model. |
| `MarketBid.BidFailedNonceSkipsGuards` | Fura/Notification/NotificationMgr.Market.Bid.cs:27-54 | After the nonce fails to parse, user, asset and auction asset stay null and the bid amount 0, even over malformed text. The sixth argument need not exist, and decoding still succeeds. |
| `MarketBid.BidFlagChain` | Fura/Notification/NotificationMgr.Market.Bid.cs:27-54 | Fewer than five arguments always throw. Otherwise, decoding fails exactly when the token id throws, when malformed Base64 is read at positions 1, 2 or 4 while the flag still holds, or when the sixth argument is missing while it holds. Once a guarded step clears the flag, every later guarded field keeps its default (null or 0), whatever its text. The result's flag is true exactly when all six guarded arguments decode. |
| `MarketBid.DecodeWellFormedBid` | Fura/Notification/NotificationMgr.Market.Bid.cs:27-54 | Well-formed Bid arguments decode completely, with the flag true. |
| `MarketBid.DecodeEncodeBid` | Fura/Notification/NotificationMgr.Market.Bid.cs:27-54 | Every Bid event, rendered as a market contract emits it, decodes to its own fields with the normalised token id. |
| `MarketBid.BidProjectsEvent` | Fura/Notification/NotificationMgr.Market.Bid.cs:56-62 | A well-formed Bid on a holding with a current model queues the new bidder and bid amount with that model's auction fields. The decoded auction asset reaches only the history record. |
| `MarketClaim.ExecuteClaimNotification` | Fura/Notification/NotificationMgr.Market.Claim.cs:16-68 | Returns true unless an exception is thrown. On a projection it enqueues the reset and appends the record. On anything else neither the queue nor the log changes. The current model it reads changes neither map. |
| `MarketClaim.ClaimIgnoresOtherContracts` | Fura/Notification/NotificationMgr.Market.Claim.cs:18-19 | A known contract whose id is not a market id is ignored. |
| `MarketClaim.ClaimProjectsEvent` | Fura/Notification/NotificationMgr.Market.Claim.cs:58-65 | A well-formed Claim from a market contract queues an update keyed by the emitting contract, its own asset and its normalised token id. The history record carries its nonce, user, asset, token id and "Claim". The detail is built from its auction type, auction asset and bid amount, which reach only the history. |
| `MarketClaim.ClaimUpdateResets` | Fura/Notification/NotificationMgr.Market.Claim.cs:59 | The Claim update is full, keyed (asset, emitting contract, token id), with the block's timestamp. Market, auctioneer, auction asset and bidder are null; auction type, auction amount, deadline and bid amount are 0. |
| `MarketClaim.ClaimClearsMarketState` | Fura/Notification/NotificationMgr.Market.Claim.cs:58-59 | Whatever the prior state, once a Claim is merged the holding has no market, auction or bid left. Only its identity, the ledger balance and the block's timestamp remain. |
| `MarketClaim.ClaimFailedNonceSkipsGuards` | Fura/Notification/NotificationMgr.Market.Claim.cs:28-56 | After the nonce fails to parse, every later guarded field keeps its default, even over malformed text. The seventh argument need not exist, and decoding still succeeds. |
| `MarketClaim.ClaimFlagChain` | Fura/Notification/NotificationMgr.Market.Claim.cs:28-56 | Fewer than six arguments always throw. Otherwise, decoding fails exactly when the token id throws, when malformed Base64 is read at positions 1, 2 or 5 while the flag still holds, or when the seventh argument is missing while it holds. Once a guarded step clears the flag, every later guarded field keeps its default (null or 0), whatever its text. The result's flag is true exactly when all guarded arguments decode. |
| `MarketClaim.DecodeWellFormedClaim` | Fura/Notification/NotificationMgr.Market.Claim.cs:28-56 | Well-formed Claim arguments decode completely, with the flag true. |
| `MarketClaim.DecodeEncodeClaim` | Fura/Notification/NotificationMgr.Market.Claim.cs:28-56 | Every Claim event, rendered as a market contract emits it, decodes to its own fields with the normalised token id. |

## Left out

- Concurrency: `lock (D_Market)` is modelled by making each enqueue one atomic step. `Parallel.For` in `Update` is modelled by a sequential loop, which is exact because the queued entries have distinct keys (`ApplyUpdatesStep`). Concurrent dictionary semantics are not modelled further.
- `MarketModel` is a value (`Cache.MarketModel`), not an object updated in place. `AddOrUpdate` re-inserts the object at its own slot, so every state the maps can reach is the same. The document id of the stored entity is not modelled.
- `CacheMarketParams` is a value. `Update` writes the balance into the very objects `D_Market` holds, and the model reproduces that by rewriting each queued entry with its new amount.
- Decimal128 conversion (`BsonDecimal128.Create(...WipeNumStrToFitDecimal128())`) and the `BigInteger.Parse(AuctionAmount.ToString())` round trip are taken as the identity on integers. Rounding of amounts beyond 34 significant digits is not modelled.
- Cache.CacheMarket.AddNeedUpdateMarket: requires the auction type and deadline to fit uint and ulong even when the index guard would discard the update. The source narrows them only when it stores.
- Cache.CacheMarket.AddOrUpdate: requires the timestamp to fit ulong, where the source's `(ulong)` cast would throw. Every caller passes a block timestamp. `Update` requires it of every queued entry.
- Cache.CacheMarket.AddOrUpdate: requires the durable store to hold each model under its own (owner, asset, token id), as a lookup by those three fields does.
- `Convert.FromBase64String` accepts only canonical text here. The .NET routine also skips white space inside the text and ignores non-zero padding bits (it reads "QR==" as [0x41]), while `Base64.Decode` rejects both. Neither occurs in the node's JSON rendering of a ByteString, which is always canonical.
- `BigIntegers.TryParseInteger` accepts only '-' and '+' as signs, which are the invariant culture's. The source parses with the process's current culture, whose sign symbols may differ. Trailing NUL characters, which .NET tolerates, are not modelled.
- The history record's JSON text is modelled as the typed `Detail` it is built from. The record store behind `cacheMatketNotification` is not part of this model, beyond appending.
- `UInt160.TryParse` of the hexadecimal text is modelled by its outcome: a 20-byte hash equal to the raw little-endian bytes, or failure.
- What `GetNep11BalanceOf` does with a null asset or owner is not visible. The balance query is an arbitrary total function of (asset, token id, owner).
- `NeoSystem`, `DataCache`, the `Block` (apart from its timestamp) and the `Transaction`'s commit are not part of this model. `Save` only records the batch handed to the transaction.
