# emojicoin event normalisation, in Dafny

This project models the event-normalisation layer of the emojicoin.fun
TypeScript SDK (`src/typescript/sdk/src/types/types.ts`). The indexer and the
chain hand the SDK loosely typed wire records:
- snake_case keys;
- integers as decimal strings;
- emoji bytes as `0x` hex strings;
- aggregator snapshots and state triggers in wire form.

The layer turns those records into typed domain entities and into one union of seven chain
events: Swap, Chat, MarketRegistration, PeriodicState, State, GlobalState and
Liquidity. It then tells events apart by the tag at the start of their `guid`.

The model is pure, like the source:
- **wrappers.dfy**: `Option`, `Result` and the three errors the model can
  raise. A `BigInt` that rejects its input gives `MalformedNumber`; `hexToBytes`
  rejecting its input gives `MalformedHex`; a dispatcher's `Unknown event type`
  throw gives `UnknownEventType`.
- **numeric.dfy**:
  - `BigInt` on decimal literals (`ParseBigInt`) and its inverse `toString` (`Render`), with both round-trip laws;
  - hex-pair decoding (`HexToBytes`) and its inverse;
  - the one-`0x` strip the market metadata decoder performs.
- **externals.dfy**: the collaborators whose bodies are not part of this
  model. These are `normalizeAddress`, `fromAggregatorSnapshot`, the template-string
  rendering of a snapshot and `toStateTrigger`. They are passed to the decoders as
  function values over abstract types.
- **json_types.dfy**: the wire records, holding exactly the keys the decoders
  read, except the two Swap fields listed under "Left out". `AnyPayload` is a wire event tagged with the shape the `isJSON*Event`
  guards would recognise.
- **entities.dfy**: the entity decoders (`toSequenceInfo` … `toStateMetadata`,
  `toRegistrantGracePeriodFlag`). Each has:
  - a validity predicate saying exactly when it succeeds;
  - a wire writer (`Encode…`);
  - a round-trip lemma: decoding a written entity gives it back, with addresses
    normalised.

  There are three exceptions:
  - `toExtendRef` and `toRegistryAddress` cannot fail. They copy one address, the second through `normalizeAddress`, and have no predicate, writer or round trip.
  - `toRegistrantGracePeriodFlag` has a writer and a round trip. Its success condition is stated directly in its contract (the time is a decimal literal) rather than through a predicate of its own.
- **events.dfy**: the seven event decoders, the `inbox_latest_state` row and
  the view bridging (`toPeriodicStateView`, `periodicViewToStateEvent`), with
  guid, version and market-id contracts and round trips.
- **dispatch.dfy**:
  - the guid-prefix predicates and the `AnyEmojicoinEvent` union;
  - `getEventTypeName`, `getEmojicoinEventTime`, `toEventWithTime` and `toAnyEmojicoinEvent`;
  - the classification laws: no tag is a prefix of another, so the order of the if-chains
    cannot misclassify, and classifying a decoded event gives back its decoder's kind.

## Model

| member | source | states |
|---|---|---|
| Numeric.ParseBigInt | src/typescript/sdk/src/types/types.ts:330-331 | `BigInt` of a field succeeds exactly on a non-empty digit string and otherwise fails naming that string |
| Numeric.Render | src/typescript/sdk/src/types/types.ts:330-331 | `toString` of a non-negative integer is a decimal literal |
| Numeric.ParseRender | src/typescript/sdk/src/types/types.ts:330-331 | parsing the rendering of any integer gives that integer back |
| Numeric.RenderIsCanonical | src/typescript/sdk/src/types/types.ts:330-331 | rendering never writes a redundant leading zero |
| Numeric.CanonicalRoundTrip | src/typescript/sdk/src/types/types.ts:330-331 | a literal without redundant leading zeros is the rendering of the number it denotes |
| Numeric.RenderParse | src/typescript/sdk/src/types/types.ts:330-331 | rendering a parsed literal gives the literal back without its redundant leading zeros |
| Numeric.CanonicalIsInjective | src/typescript/sdk/src/types/types.ts:330-331 | two canonical literals with the same value are the same string, so the string key in a guid is faithful to the number |
| Numeric.HexToBytes | src/typescript/sdk/src/types/types.ts:390-392 | hex decoding succeeds exactly on an even number of hex digits, fails naming its input otherwise, and the byte count is half the digit count |
| Numeric.BytesToHex | src/typescript/sdk/src/types/types.ts:390-392 | the writer produces an even-length hex string twice as long as the bytes |
| Numeric.HexRoundTrip | src/typescript/sdk/src/types/types.ts:390-392 | decoding the hex rendering of any byte sequence gives it back |
| Numeric.StripHexPrefix | src/typescript/sdk/src/types/types.ts:391 | a string starting with `0x` loses exactly those two characters; any other string is unchanged |
| Numeric.StripHexPrefixOnce | src/typescript/sdk/src/types/types.ts:391 | exactly one leading `0x` is stripped, even when the rest begins with `0x` again |
| Numeric.EmojiBytesExample | src/typescript/sdk/src/types/types.ts:387-393 | `0xF09F9880` decodes to the bytes F0 9F 98 80 |
| Entities.ToExtendRef | src/typescript/sdk/src/types/types.ts:325-327 | definition only: the `self` address is copied |
| Entities.ToSequenceInfo | src/typescript/sdk/src/types/types.ts:329-332 | succeeds exactly when both fields are decimal literals |
| Entities.SequenceInfoRoundTrip | src/typescript/sdk/src/types/types.ts:329-332 | decoding a written sequence info gives it back |
| Entities.ToTVLtoLPCoinRatio | src/typescript/sdk/src/types/types.ts:334-337 | succeeds exactly when `tvl` and `lp_coins` are decimal literals |
| Entities.TVLtoLPCoinRatioRoundTrip | src/typescript/sdk/src/types/types.ts:334-337 | decoding a written ratio gives it back |
| Entities.ToReserves | src/typescript/sdk/src/types/types.ts:339-342 | succeeds exactly when `base` and `quote` are decimal literals |
| Entities.ReservesRoundTrip | src/typescript/sdk/src/types/types.ts:339-342 | decoding written reserves gives them back |
| Entities.ToPeriodicStateTracker | src/typescript/sdk/src/types/types.ts:344-364 | succeeds exactly when all thirteen integer fields and both nested ratios decode |
| Entities.PeriodicStateTrackerRoundTrip | src/typescript/sdk/src/types/types.ts:344-364 | decoding a written tracker gives it back, booleans and both ratios included |
| Entities.ToPeriodicStateTrackers | src/typescript/sdk/src/types/types.ts:436 | the `.map` succeeds exactly when every tracker decodes, keeps the length, and its i-th result is the i-th tracker decoded |
| Entities.PeriodicStateTrackersRoundTrip | src/typescript/sdk/src/types/types.ts:436 | decoding a written tracker list gives it back in order |
| Entities.ToRegistryAddress | src/typescript/sdk/src/types/types.ts:366-368 | definition only: the registry address passed through `normalizeAddress` |
| Entities.FromAggregatorSnapshot | src/typescript/sdk/src/types/types.ts:374 | a snapshot decodes exactly when its literal is decimal |
| Entities.ToRegistryView | src/typescript/sdk/src/types/types.ts:372-385 | succeeds exactly when the two plain integers and all nine snapshots decode |
| Entities.RegistryViewRoundTrip | src/typescript/sdk/src/types/types.ts:372-385 | with snapshot writers the collaborators read back, decoding a written registry view gives it back with its address normalised |
| Entities.ToMarketMetadata | src/typescript/sdk/src/types/types.ts:387-393 | succeeds exactly when the id is decimal and the emoji bytes, one `0x` stripped, are hex; the id is `BigInt(market_id)` and the bytes are the hex decoding |
| Entities.MarketMetadataRoundTrip | src/typescript/sdk/src/types/types.ts:387-393 | decoding written metadata (`0x` plus lower-case hex) gives it back with its address normalised |
| Entities.ToCumulativeStats | src/typescript/sdk/src/types/types.ts:395-403 | succeeds exactly when all seven counters are decimal literals |
| Entities.CumulativeStatsRoundTrip | src/typescript/sdk/src/types/types.ts:395-403 | decoding written cumulative stats gives them back |
| Entities.ToInstantaneousStats | src/typescript/sdk/src/types/types.ts:405-412 | succeeds exactly when all four values are decimal literals |
| Entities.InstantaneousStatsRoundTrip | src/typescript/sdk/src/types/types.ts:405-412 | decoding written instantaneous stats gives them back |
| Entities.ToLastSwap | src/typescript/sdk/src/types/types.ts:414-421 | succeeds exactly when its five integers are decimal literals |
| Entities.LastSwapRoundTrip | src/typescript/sdk/src/types/types.ts:414-421 | decoding a written last swap gives it back |
| Entities.ToMarketView | src/typescript/sdk/src/types/types.ts:423-440 | succeeds exactly when the metadata, sequence info, the four flattened reserves, the nested stats, every tracker and the balances decode |
| Entities.MarketViewRoundTrip | src/typescript/sdk/src/types/types.ts:423-440 | decoding a written market view gives it back, with the flattened reserves in their own slots and the metadata address normalised |
| Entities.ToMarketResource | src/typescript/sdk/src/types/types.ts:442-452 | succeeds exactly when every nested record and integer decodes |
| Entities.MarketResourceRoundTrip | src/typescript/sdk/src/types/types.ts:442-452 | decoding a written market resource gives it back with the metadata address normalised |
| Entities.ToPeriodicStateMetadata | src/typescript/sdk/src/types/types.ts:454-462 | succeeds exactly when its four integers are decimal literals |
| Entities.PeriodicStateMetadataRoundTrip | src/typescript/sdk/src/types/types.ts:454-462 | with a trigger writer `toStateTrigger` reads back, decoding written metadata gives it back |
| Entities.ToStateMetadata | src/typescript/sdk/src/types/types.ts:464-468 | succeeds exactly when the nonce and bump time are decimal literals |
| Entities.StateMetadataRoundTrip | src/typescript/sdk/src/types/types.ts:464-468 | with a trigger writer `toStateTrigger` reads back, decoding written metadata gives it back |
| Entities.ToRegistrantGracePeriodFlag | src/typescript/sdk/src/types/types.ts:641-644 | succeeds exactly when the registration time is a decimal literal |
| Entities.RegistrantGracePeriodFlagRoundTrip | src/typescript/sdk/src/types/types.ts:641-644 | decoding a written flag gives it back with the registrant normalised |
| Events.ToSwapEvent | src/typescript/sdk/src/types/types.ts:470-490 | succeeds exactly when the ten integers decode; `version` is the argument and `guid` is `Swap::<market_id>::<market_nonce>` from the raw strings |
| Events.SwapEventRoundTrip | src/typescript/sdk/src/types/types.ts:470-490 | decoding a written swap at its version gives it back with the guid rebuilt from its market id and nonce; swapper and integrator are not normalised |
| Events.SwapExample | src/typescript/sdk/src/types/types.ts:470-490 | market `42`, nonce `7`, version 123 decode to market id 42, version 123 and guid `Swap::42::7` |
| Events.ToChatEvent | src/typescript/sdk/src/types/types.ts:492-504 | succeeds exactly when the metadata and five integers decode; version copied; guid `Chat::<market_id>::<emit_market_nonce>`; `marketID` is `BigInt(market_metadata.market_id)` and equals the metadata's id |
| Events.ChatEventRoundTrip | src/typescript/sdk/src/types/types.ts:492-504 | decoding a written chat gives it back with the guid rebuilt, `marketID` lifted from the metadata and the user normalised |
| Events.ToMarketRegistrationEvent | src/typescript/sdk/src/types/types.ts:506-518 | succeeds exactly when the metadata, time and fee decode; guid `MarketRegistration::<market_id>` with no nonce; `marketID` equals the metadata's id |
| Events.MarketRegistrationEventRoundTrip | src/typescript/sdk/src/types/types.ts:506-518 | decoding a written registration gives it back with registrant and integrator normalised |
| Events.ToPeriodicStateEvent | src/typescript/sdk/src/types/types.ts:528-553 | succeeds exactly when the metadata, the periodic metadata and twelve integers decode; guid `PeriodicState::<market_id>::<period>::<emit_market_nonce>`; `marketID` equals the metadata's id |
| Events.PeriodicStateEventRoundTrip | src/typescript/sdk/src/types/types.ts:528-553 | with a trigger writer `toStateTrigger` reads back, decoding a written periodic state event gives it back with the guid rebuilt and the metadata normalised |
| Events.ToStateEvent | src/typescript/sdk/src/types/types.ts:555-567 | succeeds exactly when every nested record decodes; guid `State::<market_id>::<market_nonce>`; `marketID` equals the metadata's id |
| Events.StateEventRoundTrip | src/typescript/sdk/src/types/types.ts:555-567 | with a trigger writer `toStateTrigger` reads back, decoding a written state event gives it back with the guid rebuilt and the metadata normalised |
| Events.ToGlobalStateEvent | src/typescript/sdk/src/types/types.ts:569-586 | succeeds exactly when the emit time and the nine snapshots decode; guid `GlobalState::` followed by the snapshot's string rendering |
| Events.GlobalStateEventRoundTrip | src/typescript/sdk/src/types/types.ts:569-586 | with snapshot and trigger writers the collaborators read back, decoding a written global state event gives it back with the guid rebuilt from the written registry nonce |
| Events.ToLiquidityEvent | src/typescript/sdk/src/types/types.ts:588-604 | succeeds exactly when the eight integers decode; guid `Liquidity::<market_id>::<market_nonce>` |
| Events.LiquidityEventRoundTrip | src/typescript/sdk/src/types/types.ts:588-604 | decoding a written liquidity event gives it back; the provider is not normalised |
| Events.ToInboxLatestState | src/typescript/sdk/src/types/types.ts:606-609 | the row is the state event decoded at the row's transaction version: it succeeds exactly when that event decodes, its version is `transaction_version`, its guid is `State::<market_id>::<market_nonce>` and `marketID` is the metadata's id |
| Events.ToPeriodicStateView | src/typescript/sdk/src/types/types.ts:611-619 | succeeds exactly when the row's event decodes; version is -1 and `marketID`, `period` and `startTime` are the row's own columns |
| Events.PeriodicViewToStateEvent | src/typescript/sdk/src/types/types.ts:520-526 | version is -1 and `marketID` is the view's `marketID`; the guid, both metadata records and the fourteen other event fields are the view's own, and the spread keeps the view's `period` and `startTime` on the result |
| Events.BridgedViewIsDecodedEvent | src/typescript/sdk/src/types/types.ts:520-526 | bridging a decoded row gives the event the event decoder builds at version -1, except that `marketID` is the row's column, and carries the row's `period` and `startTime` |
| Events.BridgedMarketIDAgreement | src/typescript/sdk/src/types/types.ts:611-619 | a bridged event's `marketID` equals its metadata's id exactly when the row's `market_id` column equals the id inside its data |
| Dispatch.GetEventTypeName | src/typescript/sdk/src/types/types.ts:751-760 | a returned name is a tag the guid starts with; when none matches it fails with `Unknown event type` |
| Dispatch.NoTagIsPrefixOfAnother | src/typescript/sdk/src/types/types.ts:703-725 | no tag among the seven is a prefix of another |
| Dispatch.TagIsUnique | src/typescript/sdk/src/types/types.ts:703-725 | a guid starts with at most one tag, so at most one `is*Event` holds |
| Dispatch.ClassifyExact | src/typescript/sdk/src/types/types.ts:751-758 | the name is `k` if and only if the guid starts with `k`'s tag, so the if-chain order cannot misclassify |
| Dispatch.ClassifyFailsIffNoTag | src/typescript/sdk/src/types/types.ts:759 | naming fails if and only if the guid starts with none of the seven tags |
| Dispatch.GetEmojicoinEventTime | src/typescript/sdk/src/types/types.ts:733-742 | succeeds exactly when naming does, fails with the same error, and returns the kind's own time field |
| Dispatch.ConsistentEventIsNamedByKind | src/typescript/sdk/src/types/types.ts:733-760 | for an event whose guid does not name another kind, a successful name is its own kind and its time is that kind's time field |
| Dispatch.UnknownGuidIsRejected | src/typescript/sdk/src/types/types.ts:733-760 | `Unknown::1::2` passes `isAnyEmojiCoinEvent`, yet both dispatchers throw on it |
| Dispatch.ToEventWithTime | src/typescript/sdk/src/types/types.ts:744-749 | fails exactly when naming fails; otherwise the event is unchanged and `time` is its kind's time field |
| Dispatch.TaggedGuid | src/typescript/sdk/src/types/types.ts:700-725 | a `<tag>::` guid starts with that tag and no other, and contains `::` |
| Dispatch.SwapGuidIsTagged | src/typescript/sdk/src/types/types.ts:488 | a decoded swap's guid starts with `Swap::` |
| Dispatch.ChatGuidIsTagged | src/typescript/sdk/src/types/types.ts:502 | a decoded chat's guid starts with `Chat::` |
| Dispatch.MarketRegistrationGuidIsTagged | src/typescript/sdk/src/types/types.ts:516 | a decoded registration's guid starts with `MarketRegistration::` |
| Dispatch.PeriodicStateGuidIsTagged | src/typescript/sdk/src/types/types.ts:549-551 | a decoded periodic state event's guid starts with `PeriodicState::` |
| Dispatch.StateGuidIsTagged | src/typescript/sdk/src/types/types.ts:565 | a decoded state event's guid starts with `State::` |
| Dispatch.GlobalStateGuidIsTagged | src/typescript/sdk/src/types/types.ts:585 | a decoded global state event's guid starts with `GlobalState::` |
| Dispatch.LiquidityGuidIsTagged | src/typescript/sdk/src/types/types.ts:603 | a decoded liquidity event's guid starts with `Liquidity::` |
| Dispatch.AsSwap | src/typescript/sdk/src/types/types.ts:772 | the Swap branch returns exactly `toSwapEvent`'s result at that version, wrapped into the union, or its error; it succeeds exactly when that event decodes, and then has kind Swap, that version and a `Swap::` guid |
| Dispatch.AsChat | src/typescript/sdk/src/types/types.ts:773 | the Chat branch returns exactly `toChatEvent`'s result at that version, wrapped into the union, or its error; it succeeds exactly when that event decodes, and then has kind Chat, that version and a `Chat::` guid |
| Dispatch.AsMarketRegistration | src/typescript/sdk/src/types/types.ts:774-775 | the MarketRegistration branch returns exactly `toMarketRegistrationEvent`'s result at that version, wrapped into the union, or its error; it succeeds exactly when that event decodes, and then has kind MarketRegistration, that version and a `MarketRegistration::` guid |
| Dispatch.AsPeriodicState | src/typescript/sdk/src/types/types.ts:776-777 | the PeriodicState branch returns exactly `toPeriodicStateEvent`'s result at that version, wrapped into the union, or its error; it succeeds exactly when that event decodes, and then has kind PeriodicState, that version and a `PeriodicState::` guid |
| Dispatch.AsState | src/typescript/sdk/src/types/types.ts:778 | the State branch returns exactly `toStateEvent`'s result at that version, wrapped into the union, or its error; it succeeds exactly when that event decodes, and then has kind State, that version and a `State::` guid |
| Dispatch.AsGlobalState | src/typescript/sdk/src/types/types.ts:779-780 | the GlobalState branch returns exactly `toGlobalStateEvent`'s result at that version, wrapped into the union, or its error; it succeeds exactly when that event decodes, and then has kind GlobalState, that version and a `GlobalState::` guid |
| Dispatch.AsLiquidity | src/typescript/sdk/src/types/types.ts:781-782 | the Liquidity branch returns exactly `toLiquidityEvent`'s result at that version, wrapped into the union, or its error; it succeeds exactly when that event decodes, and then has kind Liquidity, that version and a `Liquidity::` guid |
| Dispatch.ToAnyEmojicoinEvent | src/typescript/sdk/src/types/types.ts:766-784 | succeeds exactly on a recognised payload whose fields decode; an unrecognised shape throws `Unknown event type: <type>`; the event's kind is the payload's; the version is the supplied one or -1; the guid starts with the kind's tag; for each recognised shape the result is exactly the output (or the error) of that shape's decoder at that version |
| Dispatch.DecodeThenClassify | src/typescript/sdk/src/types/types.ts:700-784 | a decoded event passes `isAnyEmojiCoinEvent`, its guid names no other kind, `getEventTypeName` gives back the payload's kind and `getEmojicoinEventTime` its kind's time field |
| Dispatch.DecodedViewIsRecognised | src/typescript/sdk/src/types/types.ts:727-729 | a decoded view row passes `isPeriodicStateView`, so does the object bridged from it, and that event is named `PeriodicState` |
| Dispatch.BridgingKeepsViewAnswer | src/typescript/sdk/src/types/types.ts:520-526 | a view row and the object `periodicViewToStateEvent` makes of it get the same answer from `isPeriodicStateView`, because the spread keeps `startTime` and the guid |
| Dispatch.DecodedEventIsNotView | src/typescript/sdk/src/types/types.ts:727-729 | an event straight from `toAnyEmojicoinEvent` carries no `startTime`, so `isPeriodicStateView` rejects it |
| Dispatch.IsAnyEmojicoinEvent | src/typescript/sdk/src/types/types.ts:700-702 | definition only: the guid contains `::` |
| Dispatch.IsSwapEvent | src/typescript/sdk/src/types/types.ts:703-705 | definition only: the guid starts with `Swap` |
| Dispatch.IsChatEvent | src/typescript/sdk/src/types/types.ts:706-708 | definition only: the guid starts with `Chat` |
| Dispatch.IsMarketRegistrationEvent | src/typescript/sdk/src/types/types.ts:709-713 | definition only: the guid starts with `MarketRegistration` |
| Dispatch.IsPeriodicStateEvent | src/typescript/sdk/src/types/types.ts:714-716 | definition only: the guid starts with `PeriodicState` |
| Dispatch.IsStateEvent | src/typescript/sdk/src/types/types.ts:717-719 | definition only: the guid starts with `State` |
| Dispatch.IsGlobalStateEvent | src/typescript/sdk/src/types/types.ts:720-722 | definition only: the guid starts with `GlobalState` |
| Dispatch.IsLiquidityEvent | src/typescript/sdk/src/types/types.ts:723-725 | definition only: the guid starts with `Liquidity` |
| Dispatch.IsPeriodicStateView | src/typescript/sdk/src/types/types.ts:727-729 | definition only: the object has a numeric top-level `startTime` and a `PeriodicState` guid |

## Left out

- `toMarketDataView` (types.ts:621-639) is left out. It narrows fifteen of its seventeen fields to a floating-point `Number`, and it divides one Q64 field, `tvlPerLpCoinGrowth`, by `2 ** 64`. The other two fields are the market address, which goes through `normalizeAddress`, and the emoji bytes, which are copied as they are.
- Swap's `integratorFeeRateBPs` (`Number(...)`, types.ts:479) is left out as floating point.
- Swap's optional `balanceAsFractionOfCirculatingSupply` (types.ts:489) is left out too: it is copied as a JS `number`, which is floating point.
- JavaScript `BigInt` accepts more than the model does: an empty string, whitespace, a sign, and `0x`, `0o` and `0b` literals. The model accepts only non-empty ASCII digit strings and reports anything else as `MalformedNumber`. Decoded integers are therefore non-negative.
- `normalizeAddress`, `fromAggregatorSnapshot`, `toStateTrigger` and the template-string rendering of a snapshot are function parameters of the model. Their bodies are not part of this model. The decoders and their contracts assume nothing about them: no idempotence, no validation. Any exception they might throw is not modelled. Six round-trip lemmas do take a hypothesis about them:
  - `RegistryViewRoundTrip` assumes a snapshot writer that `fromAggregatorSnapshot` reads back (`SnapshotsReadBack`): the snapshot written for `n` resolves to the decimal literal of `n`. The real resolver accepts a snapshot that holds its literal directly, so writing that shape meets the hypothesis.
  - `PeriodicStateMetadataRoundTrip`, `StateMetadataRoundTrip`, `PeriodicStateEventRoundTrip` and `StateEventRoundTrip` assume a trigger writer that `toStateTrigger` reads back (`TriggersReadBack`). `toStateTrigger` turns the wire form of the on-chain trigger enumeration into one trigger per enumeration member. Its body is not part of this model; if the mapping is one-to-one, writing each trigger's wire form meets the hypothesis.
  - `GlobalStateEventRoundTrip` assumes both.
  - The triggers and snapshots are abstract types here, so the model cannot exhibit such writers itself; that these writers exist is a fact about the real collaborators.
- The `isJSON*Event` wire-shape guards (types.ts:8-17) are not modelled as code. Instead, a wire event arrives tagged with the shape they would recognise (`Json.AnyPayload`).
- `hexToBytes` comes from an external library. It is replaced by a hex-pair decoder that accepts upper- and lower-case digits and rejects odd lengths and other characters. The library's own error messages are not modelled.
- Dispatch.GetEmojicoinEventTime requires `TagConsistent`: whatever tag the guid starts with is the event's own kind. The TypeScript code reads the branch's field from whatever object it is given. On an event whose guid names another kind, the result can be `undefined`, a `TypeError`, or another kind's field that has the same name. For example, a Swap event with guid `State::1::2` throws at `e.stateMetadata.bumpTime`, and a Liquidity event with guid `Swap::1::2` returns its own `time`. The model does not represent these cases. Every decoded event meets the requirement (`DecodeThenClassify`).
- Dispatch.ToEventWithTime requires `TagConsistent` for the same reason, since it calls `getEmojicoinEventTime`. On an event whose guid names another kind, the source attaches whatever that call yields, or throws; the model does not represent this.
- `isPeriodicStateView` tests `typeof e.startTime === "number"` at run time. The model has no dynamic typing. Instead, a `Candidate` is one of three things: a decoded event, which has no `startTime`; a view row; or a bridged view row. The last two carry a numeric `startTime`. Other JavaScript objects carrying a `startTime` are not modelled.
- The `marketID`, `period` and `startTime` columns of a view row are modelled as non-negative integers. The model does not follow JavaScript number precision for them.
- No event-to-view conversion exists in the source, so none is modelled.
- The TypeScript-only type declarations (`AnyContractType`, `AnyHomogenousEvent`, the `Types` namespace) are not modelled beyond the datatypes the decoders need.
- The frontend files are not part of this model:
  - the home page does data fetching and rendering;
  - the emojicoin page types are UI property interfaces;
  - the route table is constants.
