/** The domain entities of `types.ts` and their decoders. A decoder converts
    one wire record field by field (`BigInt` for integers, `normalizeAddress`
    for the addresses it normalises, nested decoders for nested records) and
    fails with the first field `BigInt` or `hexToBytes` rejects.

    Each decoder is paired with a wire writer (`Encode...`) that renders an
    entity back into wire form; the round-trip lemmas say that decoding a
    rendered entity gives that entity back, so no field is lost, swapped or
    read from the wrong key. */
module Entities {
  import opened Wrappers
  import opened Numeric
  import opened Externals
  import Json

  datatype ExtendRef = ExtendRef(self: string)

  datatype SequenceInfo = SequenceInfo(nonce: nat, lastBumpTime: nat)

  datatype TVLtoLPCoinRatio = TVLtoLPCoinRatio(tvl: nat, lpCoins: nat)

  datatype Reserves = Reserves(base: nat, quote: nat)

  datatype PeriodicStateTracker = PeriodicStateTracker(
    startTime: nat,
    period: nat,
    openPriceQ64: nat,
    highPriceQ64: nat,
    lowPriceQ64: nat,
    closePriceQ64: nat,
    volumeBase: nat,
    volumeQuote: nat,
    integratorFees: nat,
    poolFeesBase: nat,
    poolFeesQuote: nat,
    numSwaps: nat,
    numChatMessages: nat,
    startsInBondingCurve: bool,
    endsInBondingCurve: bool,
    coinRatioStart: TVLtoLPCoinRatio,
    coinRatioEnd: TVLtoLPCoinRatio)

  datatype RegistryAddress = RegistryAddress(registryAddress: string)

  datatype RegistryView = RegistryView(
    registryAddress: string,
    nonce: nat,
    lastBumpTime: nat,
    numMarkets: nat,
    cumulativeQuoteVolume: nat,
    totalQuoteLocked: nat,
    totalValueLocked: nat,
    marketCap: nat,
    fullyDilutedValue: nat,
    cumulativeIntegratorFees: nat,
    cumulativeSwaps: nat,
    cumulativeChatMessages: nat)

  datatype MarketMetadata = MarketMetadata(marketID: nat, marketAddress: string, emojiBytes: seq<byte>)

  datatype CumulativeStats = CumulativeStats(
    baseVolume: nat,
    quoteVolume: nat,
    integratorFees: nat,
    poolFeesBase: nat,
    poolFeesQuote: nat,
    numSwaps: nat,
    numChatMessages: nat)

  datatype InstantaneousStats = InstantaneousStats(
    totalQuoteLocked: nat,
    totalValueLocked: nat,
    marketCap: nat,
    fullyDilutedValue: nat)

  datatype LastSwap = LastSwap(
    isSell: bool,
    avgExecutionPrice: nat,
    baseVolume: nat,
    quoteVolume: nat,
    nonce: nat,
    time: nat)

  /** The result of the contract's `market_view` view function. */
  datatype MarketView = MarketView(
    metadata: MarketMetadata,
    sequenceInfo: SequenceInfo,
    clammVirtualReservesBase: nat,
    clammVirtualReservesQuote: nat,
    cpammRealReservesBase: nat,
    cpammRealReservesQuote: nat,
    lpCoinSupply: nat,
    inBondingCurve: bool,
    cumulativeStats: CumulativeStats,
    instantaneousStats: InstantaneousStats,
    lastSwap: LastSwap,
    periodicStateTrackers: seq<PeriodicStateTracker>,
    aptosCoinBalance: nat,
    emojicoinBalance: nat,
    emojicoinLPBalance: nat)

  datatype MarketResource = MarketResource(
    metadata: MarketMetadata,
    sequenceInfo: SequenceInfo,
    extendRef: ExtendRef,
    clammVirtualReserves: Reserves,
    cpammRealReserves: Reserves,
    lpCoinSupply: nat,
    cumulativeStats: CumulativeStats,
    lastSwap: LastSwap,
    periodicStateTrackers: seq<PeriodicStateTracker>)

  datatype PeriodicStateMetadata = PeriodicStateMetadata(
    startTime: nat,
    period: nat,
    emitTime: nat,
    emitMarketNonce: nat,
    trigger: StateTrigger)

  datatype StateMetadata = StateMetadata(marketNonce: nat, bumpTime: nat, trigger: StateTrigger)

  datatype RegistrantGracePeriodFlag = RegistrantGracePeriodFlag(
    marketRegistrant: string,
    marketRegistrationTime: nat)

  // ---------------------------------------------------------------------------
  // When a wire record decodes: every integer field is a decimal literal and
  // every hex field, once stripped of `0x`, is whole bytes of hex.
  // ---------------------------------------------------------------------------

  predicate ValidSequenceInfo(w: Json.SequenceInfo) {
    IsDecimal(w.nonce) && IsDecimal(w.last_bump_time)
  }

  predicate ValidTVLtoLPCoinRatio(w: Json.TVLtoLPCoinRatio) {
    IsDecimal(w.tvl) && IsDecimal(w.lp_coins)
  }

  predicate ValidReserves(w: Json.Reserves) {
    IsDecimal(w.base) && IsDecimal(w.quote)
  }

  predicate ValidPeriodicStateTracker(w: Json.PeriodicStateTracker) {
    && IsDecimal(w.start_time) && IsDecimal(w.period)
    && IsDecimal(w.open_price_q64) && IsDecimal(w.high_price_q64)
    && IsDecimal(w.low_price_q64) && IsDecimal(w.close_price_q64)
    && IsDecimal(w.volume_base) && IsDecimal(w.volume_quote)
    && IsDecimal(w.integrator_fees) && IsDecimal(w.pool_fees_base) && IsDecimal(w.pool_fees_quote)
    && IsDecimal(w.n_swaps) && IsDecimal(w.n_chat_messages)
    && ValidTVLtoLPCoinRatio(w.tvl_to_lp_coin_ratio_start)
    && ValidTVLtoLPCoinRatio(w.tvl_to_lp_coin_ratio_end)
  }

  predicate ValidPeriodicStateTrackers(ws: seq<Json.PeriodicStateTracker>) {
    forall i | 0 <= i < |ws| :: ValidPeriodicStateTracker(ws[i])
  }

  /** The snapshot fields are valid when the literal each resolves to is. */
  predicate ValidRegistryView(x: Collaborators, w: Json.RegistryView) {
    && IsDecimal(x.snapshotLiteral(w.nonce))
    && IsDecimal(w.last_bump_time) && IsDecimal(w.n_markets)
    && IsDecimal(x.snapshotLiteral(w.cumulative_quote_volume))
    && IsDecimal(x.snapshotLiteral(w.total_quote_locked))
    && IsDecimal(x.snapshotLiteral(w.total_value_locked))
    && IsDecimal(x.snapshotLiteral(w.market_cap))
    && IsDecimal(x.snapshotLiteral(w.fully_diluted_value))
    && IsDecimal(x.snapshotLiteral(w.cumulative_integrator_fees))
    && IsDecimal(x.snapshotLiteral(w.cumulative_swaps))
    && IsDecimal(x.snapshotLiteral(w.cumulative_chat_messages))
  }

  predicate ValidMarketMetadata(w: Json.MarketMetadata) {
    IsDecimal(w.market_id) && IsHexBytes(StripHexPrefix(w.emoji_bytes))
  }

  predicate ValidCumulativeStats(w: Json.CumulativeStats) {
    && IsDecimal(w.base_volume) && IsDecimal(w.quote_volume) && IsDecimal(w.integrator_fees)
    && IsDecimal(w.pool_fees_base) && IsDecimal(w.pool_fees_quote)
    && IsDecimal(w.n_swaps) && IsDecimal(w.n_chat_messages)
  }

  predicate ValidInstantaneousStats(w: Json.InstantaneousStats) {
    && IsDecimal(w.total_quote_locked) && IsDecimal(w.total_value_locked)
    && IsDecimal(w.market_cap) && IsDecimal(w.fully_diluted_value)
  }

  predicate ValidLastSwap(w: Json.LastSwap) {
    && IsDecimal(w.avg_execution_price_q64) && IsDecimal(w.base_volume) && IsDecimal(w.quote_volume)
    && IsDecimal(w.nonce) && IsDecimal(w.time)
  }

  predicate ValidMarketView(w: Json.MarketView) {
    && ValidMarketMetadata(w.metadata) && ValidSequenceInfo(w.sequence_info)
    && ValidReserves(w.clamm_virtual_reserves) && ValidReserves(w.cpamm_real_reserves)
    && IsDecimal(w.lp_coin_supply)
    && ValidCumulativeStats(w.cumulative_stats) && ValidInstantaneousStats(w.instantaneous_stats)
    && ValidLastSwap(w.last_swap) && ValidPeriodicStateTrackers(w.periodic_state_trackers)
    && IsDecimal(w.aptos_coin_balance) && IsDecimal(w.emojicoin_balance) && IsDecimal(w.emojicoin_lp_balance)
  }

  predicate ValidMarketResource(w: Json.MarketResource) {
    && ValidMarketMetadata(w.metadata) && ValidSequenceInfo(w.sequence_info)
    && ValidReserves(w.clamm_virtual_reserves) && ValidReserves(w.cpamm_real_reserves)
    && IsDecimal(w.lp_coin_supply)
    && ValidCumulativeStats(w.cumulative_stats) && ValidLastSwap(w.last_swap)
    && ValidPeriodicStateTrackers(w.periodic_state_trackers)
  }

  predicate ValidPeriodicStateMetadata(w: Json.PeriodicStateMetadata) {
    IsDecimal(w.start_time) && IsDecimal(w.period) && IsDecimal(w.emit_time) && IsDecimal(w.emit_market_nonce)
  }

  predicate ValidStateMetadata(w: Json.StateMetadata) {
    IsDecimal(w.market_nonce) && IsDecimal(w.bump_time)
  }

  // ---------------------------------------------------------------------------
  // Decoders
  // ---------------------------------------------------------------------------

  function ToExtendRef(w: Json.ExtendRef): ExtendRef {
    ExtendRef(w.self)
  }

  function ToSequenceInfo(w: Json.SequenceInfo): (r: Result<SequenceInfo>)
    ensures r.Ok? <==> ValidSequenceInfo(w)
  {
    var nonce :- ParseBigInt(w.nonce);
    var lastBumpTime :- ParseBigInt(w.last_bump_time);
    Ok(SequenceInfo(nonce, lastBumpTime))
  }

  function ToTVLtoLPCoinRatio(w: Json.TVLtoLPCoinRatio): (r: Result<TVLtoLPCoinRatio>)
    ensures r.Ok? <==> ValidTVLtoLPCoinRatio(w)
  {
    var tvl :- ParseBigInt(w.tvl);
    var lpCoins :- ParseBigInt(w.lp_coins);
    Ok(TVLtoLPCoinRatio(tvl, lpCoins))
  }

  function ToReserves(w: Json.Reserves): (r: Result<Reserves>)
    ensures r.Ok? <==> ValidReserves(w)
  {
    var base :- ParseBigInt(w.base);
    var quote :- ParseBigInt(w.quote);
    Ok(Reserves(base, quote))
  }

  function ToPeriodicStateTracker(w: Json.PeriodicStateTracker): (r: Result<PeriodicStateTracker>)
    ensures r.Ok? <==> ValidPeriodicStateTracker(w)
  {
    var startTime :- ParseBigInt(w.start_time);
    var period :- ParseBigInt(w.period);
    var openPriceQ64 :- ParseBigInt(w.open_price_q64);
    var highPriceQ64 :- ParseBigInt(w.high_price_q64);
    var lowPriceQ64 :- ParseBigInt(w.low_price_q64);
    var closePriceQ64 :- ParseBigInt(w.close_price_q64);
    var volumeBase :- ParseBigInt(w.volume_base);
    var volumeQuote :- ParseBigInt(w.volume_quote);
    var integratorFees :- ParseBigInt(w.integrator_fees);
    var poolFeesBase :- ParseBigInt(w.pool_fees_base);
    var poolFeesQuote :- ParseBigInt(w.pool_fees_quote);
    var numSwaps :- ParseBigInt(w.n_swaps);
    var numChatMessages :- ParseBigInt(w.n_chat_messages);
    var coinRatioStart :- ToTVLtoLPCoinRatio(w.tvl_to_lp_coin_ratio_start);
    var coinRatioEnd :- ToTVLtoLPCoinRatio(w.tvl_to_lp_coin_ratio_end);
    Ok(PeriodicStateTracker(
         startTime, period, openPriceQ64, highPriceQ64, lowPriceQ64, closePriceQ64,
         volumeBase, volumeQuote, integratorFees, poolFeesBase, poolFeesQuote,
         numSwaps, numChatMessages, w.starts_in_bonding_curve, w.ends_in_bonding_curve,
         coinRatioStart, coinRatioEnd))
  }

  /** `periodic_state_trackers.map(toPeriodicStateTracker)`: every tracker
      decoded in order, or the first failure. */
  function ToPeriodicStateTrackers(ws: seq<Json.PeriodicStateTracker>): (r: Result<seq<PeriodicStateTracker>>)
    ensures r.Ok? <==> ValidPeriodicStateTrackers(ws)
    ensures r.Ok? ==> |r.value| == |ws| &&
                      forall i | 0 <= i < |ws| :: ToPeriodicStateTracker(ws[i]) == Ok(r.value[i])
  {
    if ws == [] then Ok([])
    else
      var head :- ToPeriodicStateTracker(ws[0]);
      var tail :- ToPeriodicStateTrackers(ws[1..]);
      Ok([head] + tail)
  }

  function ToRegistryAddress(x: Collaborators, w: Json.RegistryAddress): RegistryAddress {
    RegistryAddress(x.normalizeAddress(w.registry_address))
  }

  /** `fromAggregatorSnapshot(s, strToBigInt)`. */
  function FromAggregatorSnapshot(x: Collaborators, s: AggregatorSnapshot): (r: Result<nat>)
    ensures r.Ok? <==> IsDecimal(x.snapshotLiteral(s))
  {
    ParseBigInt(x.snapshotLiteral(s))
  }

  function ToRegistryView(x: Collaborators, w: Json.RegistryView): (r: Result<RegistryView>)
    ensures r.Ok? <==> ValidRegistryView(x, w)
  {
    var nonce :- FromAggregatorSnapshot(x, w.nonce);
    var lastBumpTime :- ParseBigInt(w.last_bump_time);
    var numMarkets :- ParseBigInt(w.n_markets);
    var cumulativeQuoteVolume :- FromAggregatorSnapshot(x, w.cumulative_quote_volume);
    var totalQuoteLocked :- FromAggregatorSnapshot(x, w.total_quote_locked);
    var totalValueLocked :- FromAggregatorSnapshot(x, w.total_value_locked);
    var marketCap :- FromAggregatorSnapshot(x, w.market_cap);
    var fullyDilutedValue :- FromAggregatorSnapshot(x, w.fully_diluted_value);
    var cumulativeIntegratorFees :- FromAggregatorSnapshot(x, w.cumulative_integrator_fees);
    var cumulativeSwaps :- FromAggregatorSnapshot(x, w.cumulative_swaps);
    var cumulativeChatMessages :- FromAggregatorSnapshot(x, w.cumulative_chat_messages);
    Ok(RegistryView(
         x.normalizeAddress(w.registry_address), nonce, lastBumpTime, numMarkets,
         cumulativeQuoteVolume, totalQuoteLocked, totalValueLocked, marketCap,
         fullyDilutedValue, cumulativeIntegratorFees, cumulativeSwaps, cumulativeChatMessages))
  }

  /** The market id is `BigInt(market_id)`; the emoji bytes are the hex of
      `emoji_bytes` after exactly one leading `0x` is removed. */
  function ToMarketMetadata(x: Collaborators, w: Json.MarketMetadata): (r: Result<MarketMetadata>)
    ensures r.Ok? <==> ValidMarketMetadata(w)
    ensures r.Ok? ==> ParseBigInt(w.market_id) == Ok(r.value.marketID)
    ensures r.Ok? ==> HexToBytes(StripHexPrefix(w.emoji_bytes)) == Ok(r.value.emojiBytes)
  {
    var marketID :- ParseBigInt(w.market_id);
    var emojiBytes :- HexToBytes(StripHexPrefix(w.emoji_bytes));
    Ok(MarketMetadata(marketID, x.normalizeAddress(w.market_address), emojiBytes))
  }

  function ToCumulativeStats(w: Json.CumulativeStats): (r: Result<CumulativeStats>)
    ensures r.Ok? <==> ValidCumulativeStats(w)
  {
    var baseVolume :- ParseBigInt(w.base_volume);
    var quoteVolume :- ParseBigInt(w.quote_volume);
    var integratorFees :- ParseBigInt(w.integrator_fees);
    var poolFeesBase :- ParseBigInt(w.pool_fees_base);
    var poolFeesQuote :- ParseBigInt(w.pool_fees_quote);
    var numSwaps :- ParseBigInt(w.n_swaps);
    var numChatMessages :- ParseBigInt(w.n_chat_messages);
    Ok(CumulativeStats(baseVolume, quoteVolume, integratorFees, poolFeesBase, poolFeesQuote,
                       numSwaps, numChatMessages))
  }

  function ToInstantaneousStats(w: Json.InstantaneousStats): (r: Result<InstantaneousStats>)
    ensures r.Ok? <==> ValidInstantaneousStats(w)
  {
    var totalQuoteLocked :- ParseBigInt(w.total_quote_locked);
    var totalValueLocked :- ParseBigInt(w.total_value_locked);
    var marketCap :- ParseBigInt(w.market_cap);
    var fullyDilutedValue :- ParseBigInt(w.fully_diluted_value);
    Ok(InstantaneousStats(totalQuoteLocked, totalValueLocked, marketCap, fullyDilutedValue))
  }

  function ToLastSwap(w: Json.LastSwap): (r: Result<LastSwap>)
    ensures r.Ok? <==> ValidLastSwap(w)
  {
    var avgExecutionPrice :- ParseBigInt(w.avg_execution_price_q64);
    var baseVolume :- ParseBigInt(w.base_volume);
    var quoteVolume :- ParseBigInt(w.quote_volume);
    var nonce :- ParseBigInt(w.nonce);
    var time :- ParseBigInt(w.time);
    Ok(LastSwap(w.is_sell, avgExecutionPrice, baseVolume, quoteVolume, nonce, time))
  }

  /** The reserves are read straight from the nested wire records and kept flat. */
  function ToMarketView(x: Collaborators, w: Json.MarketView): (r: Result<MarketView>)
    ensures r.Ok? <==> ValidMarketView(w)
  {
    var metadata :- ToMarketMetadata(x, w.metadata);
    var sequenceInfo :- ToSequenceInfo(w.sequence_info);
    var clammVirtualReservesBase :- ParseBigInt(w.clamm_virtual_reserves.base);
    var clammVirtualReservesQuote :- ParseBigInt(w.clamm_virtual_reserves.quote);
    var cpammRealReservesBase :- ParseBigInt(w.cpamm_real_reserves.base);
    var cpammRealReservesQuote :- ParseBigInt(w.cpamm_real_reserves.quote);
    var lpCoinSupply :- ParseBigInt(w.lp_coin_supply);
    var cumulativeStats :- ToCumulativeStats(w.cumulative_stats);
    var instantaneousStats :- ToInstantaneousStats(w.instantaneous_stats);
    var lastSwap :- ToLastSwap(w.last_swap);
    var periodicStateTrackers :- ToPeriodicStateTrackers(w.periodic_state_trackers);
    var aptosCoinBalance :- ParseBigInt(w.aptos_coin_balance);
    var emojicoinBalance :- ParseBigInt(w.emojicoin_balance);
    var emojicoinLPBalance :- ParseBigInt(w.emojicoin_lp_balance);
    Ok(MarketView(
         metadata, sequenceInfo, clammVirtualReservesBase, clammVirtualReservesQuote,
         cpammRealReservesBase, cpammRealReservesQuote, lpCoinSupply, w.in_bonding_curve,
         cumulativeStats, instantaneousStats, lastSwap, periodicStateTrackers,
         aptosCoinBalance, emojicoinBalance, emojicoinLPBalance))
  }

  function ToMarketResource(x: Collaborators, w: Json.MarketResource): (r: Result<MarketResource>)
    ensures r.Ok? <==> ValidMarketResource(w)
  {
    var metadata :- ToMarketMetadata(x, w.metadata);
    var sequenceInfo :- ToSequenceInfo(w.sequence_info);
    var clammVirtualReserves :- ToReserves(w.clamm_virtual_reserves);
    var cpammRealReserves :- ToReserves(w.cpamm_real_reserves);
    var lpCoinSupply :- ParseBigInt(w.lp_coin_supply);
    var cumulativeStats :- ToCumulativeStats(w.cumulative_stats);
    var lastSwap :- ToLastSwap(w.last_swap);
    var periodicStateTrackers :- ToPeriodicStateTrackers(w.periodic_state_trackers);
    Ok(MarketResource(
         metadata, sequenceInfo, ToExtendRef(w.extend_ref), clammVirtualReserves,
         cpammRealReserves, lpCoinSupply, cumulativeStats, lastSwap, periodicStateTrackers))
  }

  function ToPeriodicStateMetadata(x: Collaborators, w: Json.PeriodicStateMetadata): (r: Result<PeriodicStateMetadata>)
    ensures r.Ok? <==> ValidPeriodicStateMetadata(w)
  {
    var startTime :- ParseBigInt(w.start_time);
    var period :- ParseBigInt(w.period);
    var emitTime :- ParseBigInt(w.emit_time);
    var emitMarketNonce :- ParseBigInt(w.emit_market_nonce);
    Ok(PeriodicStateMetadata(startTime, period, emitTime, emitMarketNonce, x.toStateTrigger(w.trigger)))
  }

  function ToStateMetadata(x: Collaborators, w: Json.StateMetadata): (r: Result<StateMetadata>)
    ensures r.Ok? <==> ValidStateMetadata(w)
  {
    var marketNonce :- ParseBigInt(w.market_nonce);
    var bumpTime :- ParseBigInt(w.bump_time);
    Ok(StateMetadata(marketNonce, bumpTime, x.toStateTrigger(w.trigger)))
  }

  function ToRegistrantGracePeriodFlag(x: Collaborators, w: Json.RegistrantGracePeriodFlag)
    : (r: Result<RegistrantGracePeriodFlag>)
    ensures r.Ok? <==> IsDecimal(w.market_registration_time)
  {
    var marketRegistrationTime :- ParseBigInt(w.market_registration_time);
    Ok(RegistrantGracePeriodFlag(x.normalizeAddress(w.market_registrant), marketRegistrationTime))
  }

  // ---------------------------------------------------------------------------
  // Wire writers: an entity rendered back into wire form, integers by
  // `toString`, bytes as `0x` and lower-case hex.
  // ---------------------------------------------------------------------------

  /** A snapshot writer the resolver reads back: the snapshot written for `n`
      resolves to the decimal literal of `n`. A snapshot holding that literal
      directly is such a writer. */
  ghost predicate SnapshotsReadBack(x: Collaborators, enc: Writers) {
    forall n: nat :: x.snapshotLiteral(enc.snapshot(n)) == Render(n)
  }

  /** A trigger writer `toStateTrigger` reads back: the wire form written for a
      trigger maps back to that trigger. */
  ghost predicate TriggersReadBack(x: Collaborators, enc: Writers) {
    forall t: StateTrigger :: x.toStateTrigger(enc.trigger(t)) == t
  }

  /** Both writers read back. */
  ghost predicate ReadsBack(x: Collaborators, enc: Writers) {
    SnapshotsReadBack(x, enc) && TriggersReadBack(x, enc)
  }

  /** An entity's metadata as it comes back through `normalizeAddress`. */
  function Renormalized(x: Collaborators, m: MarketMetadata): MarketMetadata {
    m.(marketAddress := x.normalizeAddress(m.marketAddress))
  }

  function EncodeSequenceInfo(s: SequenceInfo): Json.SequenceInfo {
    Json.SequenceInfo(Render(s.nonce), Render(s.lastBumpTime))
  }

  function EncodeTVLtoLPCoinRatio(c: TVLtoLPCoinRatio): Json.TVLtoLPCoinRatio {
    Json.TVLtoLPCoinRatio(Render(c.tvl), Render(c.lpCoins))
  }

  function EncodeReserves(r: Reserves): Json.Reserves {
    Json.Reserves(Render(r.base), Render(r.quote))
  }

  function EncodePeriodicStateTracker(t: PeriodicStateTracker): Json.PeriodicStateTracker {
    Json.PeriodicStateTracker(
      Render(t.startTime), Render(t.period), Render(t.openPriceQ64), Render(t.highPriceQ64),
      Render(t.lowPriceQ64), Render(t.closePriceQ64), Render(t.volumeBase), Render(t.volumeQuote),
      Render(t.integratorFees), Render(t.poolFeesBase), Render(t.poolFeesQuote),
      Render(t.numSwaps), Render(t.numChatMessages), t.startsInBondingCurve, t.endsInBondingCurve,
      EncodeTVLtoLPCoinRatio(t.coinRatioStart), EncodeTVLtoLPCoinRatio(t.coinRatioEnd))
  }

  function EncodePeriodicStateTrackers(ts: seq<PeriodicStateTracker>): seq<Json.PeriodicStateTracker> {
    if ts == [] then [] else [EncodePeriodicStateTracker(ts[0])] + EncodePeriodicStateTrackers(ts[1..])
  }

  function EncodeRegistryView(v: RegistryView, enc: Writers): Json.RegistryView {
    Json.RegistryView(
      v.registryAddress, enc.snapshot(v.nonce), Render(v.lastBumpTime), Render(v.numMarkets),
      enc.snapshot(v.cumulativeQuoteVolume), enc.snapshot(v.totalQuoteLocked),
      enc.snapshot(v.totalValueLocked), enc.snapshot(v.marketCap),
      enc.snapshot(v.fullyDilutedValue), enc.snapshot(v.cumulativeIntegratorFees),
      enc.snapshot(v.cumulativeSwaps), enc.snapshot(v.cumulativeChatMessages))
  }

  function EncodeMarketMetadata(m: MarketMetadata): Json.MarketMetadata {
    Json.MarketMetadata(Render(m.marketID), m.marketAddress, "0x" + BytesToHex(m.emojiBytes))
  }

  function EncodeCumulativeStats(c: CumulativeStats): Json.CumulativeStats {
    Json.CumulativeStats(
      Render(c.baseVolume), Render(c.quoteVolume), Render(c.integratorFees),
      Render(c.poolFeesBase), Render(c.poolFeesQuote), Render(c.numSwaps), Render(c.numChatMessages))
  }

  function EncodeInstantaneousStats(s: InstantaneousStats): Json.InstantaneousStats {
    Json.InstantaneousStats(
      Render(s.totalQuoteLocked), Render(s.totalValueLocked), Render(s.marketCap), Render(s.fullyDilutedValue))
  }

  function EncodeLastSwap(l: LastSwap): Json.LastSwap {
    Json.LastSwap(
      l.isSell, Render(l.avgExecutionPrice), Render(l.baseVolume), Render(l.quoteVolume),
      Render(l.nonce), Render(l.time))
  }

  function EncodeMarketView(v: MarketView): Json.MarketView {
    Json.MarketView(
      EncodeMarketMetadata(v.metadata), EncodeSequenceInfo(v.sequenceInfo),
      Json.Reserves(Render(v.clammVirtualReservesBase), Render(v.clammVirtualReservesQuote)),
      Json.Reserves(Render(v.cpammRealReservesBase), Render(v.cpammRealReservesQuote)),
      Render(v.lpCoinSupply), v.inBondingCurve,
      EncodeCumulativeStats(v.cumulativeStats), EncodeInstantaneousStats(v.instantaneousStats),
      EncodeLastSwap(v.lastSwap), EncodePeriodicStateTrackers(v.periodicStateTrackers),
      Render(v.aptosCoinBalance), Render(v.emojicoinBalance), Render(v.emojicoinLPBalance))
  }

  function EncodeMarketResource(m: MarketResource): Json.MarketResource {
    Json.MarketResource(
      EncodeMarketMetadata(m.metadata), EncodeSequenceInfo(m.sequenceInfo),
      Json.ExtendRef(m.extendRef.self),
      EncodeReserves(m.clammVirtualReserves), EncodeReserves(m.cpammRealReserves),
      Render(m.lpCoinSupply), EncodeCumulativeStats(m.cumulativeStats),
      EncodeLastSwap(m.lastSwap), EncodePeriodicStateTrackers(m.periodicStateTrackers))
  }

  function EncodePeriodicStateMetadata(m: PeriodicStateMetadata, enc: Writers): Json.PeriodicStateMetadata {
    Json.PeriodicStateMetadata(
      Render(m.startTime), Render(m.period), Render(m.emitTime), Render(m.emitMarketNonce),
      enc.trigger(m.trigger))
  }

  function EncodeStateMetadata(m: StateMetadata, enc: Writers): Json.StateMetadata {
    Json.StateMetadata(Render(m.marketNonce), Render(m.bumpTime), enc.trigger(m.trigger))
  }

  function EncodeRegistrantGracePeriodFlag(f: RegistrantGracePeriodFlag): Json.RegistrantGracePeriodFlag {
    Json.RegistrantGracePeriodFlag(f.marketRegistrant, Render(f.marketRegistrationTime))
  }

  // ---------------------------------------------------------------------------
  // Round trips: decoding a rendered entity gives the entity back, up to
  // `normalizeAddress` on the addresses the decoder normalises.
  // ---------------------------------------------------------------------------

  lemma {:induction false} SequenceInfoRoundTrip(s: SequenceInfo)
    ensures ToSequenceInfo(EncodeSequenceInfo(s)) == Ok(s)
  {
    ParseRender(s.nonce);
    ParseRender(s.lastBumpTime);
  }

  lemma {:induction false} TVLtoLPCoinRatioRoundTrip(c: TVLtoLPCoinRatio)
    ensures ToTVLtoLPCoinRatio(EncodeTVLtoLPCoinRatio(c)) == Ok(c)
  {
    ParseRender(c.tvl);
    ParseRender(c.lpCoins);
  }

  lemma {:induction false} ReservesRoundTrip(r: Reserves)
    ensures ToReserves(EncodeReserves(r)) == Ok(r)
  {
    ParseRender(r.base);
    ParseRender(r.quote);
  }

  lemma {:induction false} PeriodicStateTrackerRoundTrip(t: PeriodicStateTracker)
    ensures ToPeriodicStateTracker(EncodePeriodicStateTracker(t)) == Ok(t)
  {
    ParseRender(t.startTime);
    ParseRender(t.period);
    ParseRender(t.openPriceQ64);
    ParseRender(t.highPriceQ64);
    ParseRender(t.lowPriceQ64);
    ParseRender(t.closePriceQ64);
    ParseRender(t.volumeBase);
    ParseRender(t.volumeQuote);
    ParseRender(t.integratorFees);
    ParseRender(t.poolFeesBase);
    ParseRender(t.poolFeesQuote);
    ParseRender(t.numSwaps);
    ParseRender(t.numChatMessages);
    TVLtoLPCoinRatioRoundTrip(t.coinRatioStart);
    TVLtoLPCoinRatioRoundTrip(t.coinRatioEnd);
  }

  lemma {:induction false} PeriodicStateTrackersRoundTrip(ts: seq<PeriodicStateTracker>)
    ensures ToPeriodicStateTrackers(EncodePeriodicStateTrackers(ts)) == Ok(ts)
  {
    if ts != [] {
      var ws := EncodePeriodicStateTrackers(ts);
      PeriodicStateTrackerRoundTrip(ts[0]);
      PeriodicStateTrackersRoundTrip(ts[1..]);
      assert ws[0] == EncodePeriodicStateTracker(ts[0]);
      assert ws[1..] == EncodePeriodicStateTrackers(ts[1..]);
      assert ts == [ts[0]] + ts[1..];
    }
  }

  /** Every snapshot field resolves through the same leaf parser, so a view
      written with snapshots that resolve to their numbers decodes to itself. */
  lemma RegistryViewRoundTrip(x: Collaborators, enc: Writers, v: RegistryView)
    requires SnapshotsReadBack(x, enc)
    ensures ToRegistryView(x, EncodeRegistryView(v, enc))
         == Ok(v.(registryAddress := x.normalizeAddress(v.registryAddress)))
  {
    ParseRender(v.nonce);
    ParseRender(v.lastBumpTime);
    ParseRender(v.numMarkets);
    ParseRender(v.cumulativeQuoteVolume);
    ParseRender(v.totalQuoteLocked);
    ParseRender(v.totalValueLocked);
    ParseRender(v.marketCap);
    ParseRender(v.fullyDilutedValue);
    ParseRender(v.cumulativeIntegratorFees);
    ParseRender(v.cumulativeSwaps);
    ParseRender(v.cumulativeChatMessages);
  }

  lemma MarketMetadataRoundTrip(x: Collaborators, m: MarketMetadata)
    ensures ToMarketMetadata(x, EncodeMarketMetadata(m)) == Ok(Renormalized(x, m))
  {
    ParseRender(m.marketID);
    HexRoundTrip(m.emojiBytes);
    StripHexPrefixOnce(BytesToHex(m.emojiBytes));
  }

  lemma {:induction false} CumulativeStatsRoundTrip(c: CumulativeStats)
    ensures ToCumulativeStats(EncodeCumulativeStats(c)) == Ok(c)
  {
    ParseRender(c.baseVolume);
    ParseRender(c.quoteVolume);
    ParseRender(c.integratorFees);
    ParseRender(c.poolFeesBase);
    ParseRender(c.poolFeesQuote);
    ParseRender(c.numSwaps);
    ParseRender(c.numChatMessages);
  }

  lemma {:induction false} InstantaneousStatsRoundTrip(s: InstantaneousStats)
    ensures ToInstantaneousStats(EncodeInstantaneousStats(s)) == Ok(s)
  {
    ParseRender(s.totalQuoteLocked);
    ParseRender(s.totalValueLocked);
    ParseRender(s.marketCap);
    ParseRender(s.fullyDilutedValue);
  }

  lemma {:induction false} LastSwapRoundTrip(l: LastSwap)
    ensures ToLastSwap(EncodeLastSwap(l)) == Ok(l)
  {
    ParseRender(l.avgExecutionPrice);
    ParseRender(l.baseVolume);
    ParseRender(l.quoteVolume);
    ParseRender(l.nonce);
    ParseRender(l.time);
  }

  lemma MarketViewRoundTrip(x: Collaborators, v: MarketView)
    ensures ToMarketView(x, EncodeMarketView(v)) == Ok(v.(metadata := Renormalized(x, v.metadata)))
  {
    MarketMetadataRoundTrip(x, v.metadata);
    SequenceInfoRoundTrip(v.sequenceInfo);
    ParseRender(v.clammVirtualReservesBase);
    ParseRender(v.clammVirtualReservesQuote);
    ParseRender(v.cpammRealReservesBase);
    ParseRender(v.cpammRealReservesQuote);
    ParseRender(v.lpCoinSupply);
    CumulativeStatsRoundTrip(v.cumulativeStats);
    InstantaneousStatsRoundTrip(v.instantaneousStats);
    LastSwapRoundTrip(v.lastSwap);
    PeriodicStateTrackersRoundTrip(v.periodicStateTrackers);
    ParseRender(v.aptosCoinBalance);
    ParseRender(v.emojicoinBalance);
    ParseRender(v.emojicoinLPBalance);
  }

  lemma MarketResourceRoundTrip(x: Collaborators, m: MarketResource)
    ensures ToMarketResource(x, EncodeMarketResource(m)) == Ok(m.(metadata := Renormalized(x, m.metadata)))
  {
    MarketMetadataRoundTrip(x, m.metadata);
    SequenceInfoRoundTrip(m.sequenceInfo);
    ReservesRoundTrip(m.clammVirtualReserves);
    ReservesRoundTrip(m.cpammRealReserves);
    ParseRender(m.lpCoinSupply);
    CumulativeStatsRoundTrip(m.cumulativeStats);
    LastSwapRoundTrip(m.lastSwap);
    PeriodicStateTrackersRoundTrip(m.periodicStateTrackers);
  }

  lemma PeriodicStateMetadataRoundTrip(x: Collaborators, enc: Writers, m: PeriodicStateMetadata)
    requires TriggersReadBack(x, enc)
    ensures ToPeriodicStateMetadata(x, EncodePeriodicStateMetadata(m, enc)) == Ok(m)
  {
    ParseRender(m.startTime);
    ParseRender(m.period);
    ParseRender(m.emitTime);
    ParseRender(m.emitMarketNonce);
  }

  lemma StateMetadataRoundTrip(x: Collaborators, enc: Writers, m: StateMetadata)
    requires TriggersReadBack(x, enc)
    ensures ToStateMetadata(x, EncodeStateMetadata(m, enc)) == Ok(m)
  {
    ParseRender(m.marketNonce);
    ParseRender(m.bumpTime);
  }

  lemma RegistrantGracePeriodFlagRoundTrip(x: Collaborators, f: RegistrantGracePeriodFlag)
    ensures ToRegistrantGracePeriodFlag(x, EncodeRegistrantGracePeriodFlag(f))
         == Ok(f.(marketRegistrant := x.normalizeAddress(f.marketRegistrant)))
  {
    ParseRender(f.marketRegistrationTime);
  }
}
