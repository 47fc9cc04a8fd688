/** The seven chain events and their decoders. Every decoder copies the
    supplied transaction `version` and synthesises a `guid` of the form
    `<Kind>::...` from the raw wire strings; the market events also lift
    `market_metadata.market_id` to a top-level `marketID`. Also here: the
    `inbox_latest_state` row and the bridging between the
    `inbox_periodic_state` view and periodic state events. */
module Events {
  import opened Wrappers
  import opened Numeric
  import opened Externals
  import opened Entities
  import Json

  /** The `version` of a record that comes from a view, not a transaction. */
  const ViewVersion: int := -1

  datatype SwapEvent = SwapEvent(
    version: int,
    guid: string,
    marketID: nat,
    time: nat,
    marketNonce: nat,
    swapper: string,
    inputAmount: nat,
    isSell: bool,
    integrator: string,
    netProceeds: nat,
    baseVolume: nat,
    quoteVolume: nat,
    avgExecutionPrice: nat,
    integratorFee: nat,
    poolFee: nat,
    startsInBondingCurve: bool,
    resultsInStateTransition: bool)

  datatype ChatEvent = ChatEvent(
    version: int,
    guid: string,
    marketID: nat,
    marketMetadata: MarketMetadata,
    emitTime: nat,
    emitMarketNonce: nat,
    user: string,
    message: string,
    userEmojicoinBalance: nat,
    circulatingSupply: nat,
    balanceAsFractionOfCirculatingSupply: nat)

  datatype MarketRegistrationEvent = MarketRegistrationEvent(
    version: int,
    guid: string,
    marketID: nat,
    marketMetadata: MarketMetadata,
    time: nat,
    registrant: string,
    integrator: string,
    integratorFee: nat)

  datatype PeriodicStateEvent = PeriodicStateEvent(
    version: int,
    guid: string,
    marketID: nat,
    marketMetadata: MarketMetadata,
    periodicStateMetadata: PeriodicStateMetadata,
    openPriceQ64: nat,
    highPriceQ64: nat,
    lowPriceQ64: nat,
    closePriceQ64: nat,
    volumeBase: nat,
    volumeQuote: nat,
    integratorFees: nat,
    poolFeesBase: nat,
    poolFeesQuote: nat,
    numSwaps: nat,
    numChatMessages: nat,
    startsInBondingCurve: bool,
    endsInBondingCurve: bool,
    tvlPerLPCoinGrowth: nat)

  datatype StateEvent = StateEvent(
    version: int,
    guid: string,
    marketID: nat,
    marketMetadata: MarketMetadata,
    stateMetadata: StateMetadata,
    clammVirtualReserves: Reserves,
    cpammRealReserves: Reserves,
    lpCoinSupply: nat,
    cumulativeStats: CumulativeStats,
    instantaneousStats: InstantaneousStats,
    lastSwap: LastSwap)

  datatype GlobalStateEvent = GlobalStateEvent(
    version: int,
    guid: string,
    emitTime: nat,
    registryNonce: nat,
    trigger: StateTrigger,
    cumulativeQuoteVolume: nat,
    totalQuoteLocked: nat,
    totalValueLocked: nat,
    marketCap: nat,
    fullyDilutedValue: nat,
    cumulativeIntegratorFees: nat,
    cumulativeSwaps: nat,
    cumulativeChatMessages: nat)

  datatype LiquidityEvent = LiquidityEvent(
    version: int,
    guid: string,
    marketID: nat,
    time: nat,
    marketNonce: nat,
    provider: string,
    baseAmount: nat,
    quoteAmount: nat,
    lpCoinAmount: nat,
    liquidityProvided: bool,
    proRataBaseDonationClaimAmount: nat,
    proRataQuoteDonationClaimAmount: nat)

  /** A row of the `inbox_periodic_state` view: a periodic state event without
      its `marketID` and `version`, with the row's numeric `marketID`,
      `period` and `startTime` in their place and `version` -1. */
  datatype PeriodicStateView = PeriodicStateView(
    version: int,
    guid: string,
    marketID: nat,
    period: nat,
    startTime: nat,
    marketMetadata: MarketMetadata,
    periodicStateMetadata: PeriodicStateMetadata,
    openPriceQ64: nat,
    highPriceQ64: nat,
    lowPriceQ64: nat,
    closePriceQ64: nat,
    volumeBase: nat,
    volumeQuote: nat,
    integratorFees: nat,
    poolFeesBase: nat,
    poolFeesQuote: nat,
    numSwaps: nat,
    numChatMessages: nat,
    startsInBondingCurve: bool,
    endsInBondingCurve: bool,
    tvlPerLPCoinGrowth: nat)

  // ---------------------------------------------------------------------------
  // When a wire event decodes
  // ---------------------------------------------------------------------------

  predicate ValidSwapEvent(w: Json.SwapEvent) {
    && IsDecimal(w.market_id) && IsDecimal(w.time) && IsDecimal(w.market_nonce)
    && IsDecimal(w.input_amount) && IsDecimal(w.net_proceeds)
    && IsDecimal(w.base_volume) && IsDecimal(w.quote_volume) && IsDecimal(w.avg_execution_price_q64)
    && IsDecimal(w.integrator_fee) && IsDecimal(w.pool_fee)
  }

  predicate ValidChatEvent(w: Json.ChatEvent) {
    && ValidMarketMetadata(w.market_metadata)
    && IsDecimal(w.emit_time) && IsDecimal(w.emit_market_nonce)
    && IsDecimal(w.user_emojicoin_balance) && IsDecimal(w.circulating_supply)
    && IsDecimal(w.balance_as_fraction_of_circulating_supply_q64)
  }

  predicate ValidMarketRegistrationEvent(w: Json.MarketRegistrationEvent) {
    ValidMarketMetadata(w.market_metadata) && IsDecimal(w.time) && IsDecimal(w.integrator_fee)
  }

  predicate ValidPeriodicStateEvent(w: Json.PeriodicStateEvent) {
    && ValidMarketMetadata(w.market_metadata) && ValidPeriodicStateMetadata(w.periodic_state_metadata)
    && IsDecimal(w.open_price_q64) && IsDecimal(w.high_price_q64)
    && IsDecimal(w.low_price_q64) && IsDecimal(w.close_price_q64)
    && IsDecimal(w.volume_base) && IsDecimal(w.volume_quote)
    && IsDecimal(w.integrator_fees) && IsDecimal(w.pool_fees_base) && IsDecimal(w.pool_fees_quote)
    && IsDecimal(w.n_swaps) && IsDecimal(w.n_chat_messages)
    && IsDecimal(w.tvl_per_lp_coin_growth_q64)
  }

  predicate ValidStateEvent(w: Json.StateEvent) {
    && ValidMarketMetadata(w.market_metadata) && ValidStateMetadata(w.state_metadata)
    && ValidReserves(w.clamm_virtual_reserves) && ValidReserves(w.cpamm_real_reserves)
    && IsDecimal(w.lp_coin_supply)
    && ValidCumulativeStats(w.cumulative_stats) && ValidInstantaneousStats(w.instantaneous_stats)
    && ValidLastSwap(w.last_swap)
  }

  predicate ValidGlobalStateEvent(x: Collaborators, w: Json.GlobalStateEvent) {
    && IsDecimal(w.emit_time)
    && IsDecimal(x.snapshotLiteral(w.registry_nonce))
    && IsDecimal(x.snapshotLiteral(w.cumulative_quote_volume))
    && IsDecimal(x.snapshotLiteral(w.total_quote_locked))
    && IsDecimal(x.snapshotLiteral(w.total_value_locked))
    && IsDecimal(x.snapshotLiteral(w.market_cap))
    && IsDecimal(x.snapshotLiteral(w.fully_diluted_value))
    && IsDecimal(x.snapshotLiteral(w.cumulative_integrator_fees))
    && IsDecimal(x.snapshotLiteral(w.cumulative_swaps))
    && IsDecimal(x.snapshotLiteral(w.cumulative_chat_messages))
  }

  predicate ValidLiquidityEvent(w: Json.LiquidityEvent) {
    && IsDecimal(w.market_id) && IsDecimal(w.time) && IsDecimal(w.market_nonce)
    && IsDecimal(w.base_amount) && IsDecimal(w.quote_amount) && IsDecimal(w.lp_coin_amount)
    && IsDecimal(w.pro_rata_base_donation_claim_amount) && IsDecimal(w.pro_rata_quote_donation_claim_amount)
  }

  // ---------------------------------------------------------------------------
  // Decoders
  // ---------------------------------------------------------------------------

  /** The swapper and integrator addresses are copied, not normalised. */
  function ToSwapEvent(w: Json.SwapEvent, version: int): (r: Result<SwapEvent>)
    ensures r.Ok? <==> ValidSwapEvent(w)
    ensures r.Ok? ==> r.value.version == version
    ensures r.Ok? ==> r.value.guid == "Swap::" + w.market_id + "::" + w.market_nonce
  {
    var marketID :- ParseBigInt(w.market_id);
    var time :- ParseBigInt(w.time);
    var marketNonce :- ParseBigInt(w.market_nonce);
    var inputAmount :- ParseBigInt(w.input_amount);
    var netProceeds :- ParseBigInt(w.net_proceeds);
    var baseVolume :- ParseBigInt(w.base_volume);
    var quoteVolume :- ParseBigInt(w.quote_volume);
    var avgExecutionPrice :- ParseBigInt(w.avg_execution_price_q64);
    var integratorFee :- ParseBigInt(w.integrator_fee);
    var poolFee :- ParseBigInt(w.pool_fee);
    Ok(SwapEvent(
         version, "Swap::" + w.market_id + "::" + w.market_nonce, marketID, time, marketNonce,
         w.swapper, inputAmount, w.is_sell, w.integrator, netProceeds, baseVolume, quoteVolume,
         avgExecutionPrice, integratorFee, poolFee, w.starts_in_bonding_curve,
         w.results_in_state_transition))
  }

  function ToChatEvent(x: Collaborators, w: Json.ChatEvent, version: int): (r: Result<ChatEvent>)
    ensures r.Ok? <==> ValidChatEvent(w)
    ensures r.Ok? ==> r.value.version == version
    ensures r.Ok? ==> r.value.guid == "Chat::" + w.market_metadata.market_id + "::" + w.emit_market_nonce
    ensures r.Ok? ==> r.value.marketID == r.value.marketMetadata.marketID
    ensures r.Ok? ==> ParseBigInt(w.market_metadata.market_id) == Ok(r.value.marketID)
  {
    var marketMetadata :- ToMarketMetadata(x, w.market_metadata);
    var emitTime :- ParseBigInt(w.emit_time);
    var emitMarketNonce :- ParseBigInt(w.emit_market_nonce);
    var userEmojicoinBalance :- ParseBigInt(w.user_emojicoin_balance);
    var circulatingSupply :- ParseBigInt(w.circulating_supply);
    var balanceAsFraction :- ParseBigInt(w.balance_as_fraction_of_circulating_supply_q64);
    // `BigInt(market_metadata.market_id)` again: the same parse the metadata made.
    var marketID := marketMetadata.marketID;
    Ok(ChatEvent(
         version, "Chat::" + w.market_metadata.market_id + "::" + w.emit_market_nonce, marketID,
         marketMetadata, emitTime, emitMarketNonce, x.normalizeAddress(w.user), w.message,
         userEmojicoinBalance, circulatingSupply, balanceAsFraction))
  }

  /** The registration guid carries no nonce: a market registers once. */
  function ToMarketRegistrationEvent(x: Collaborators, w: Json.MarketRegistrationEvent, version: int)
    : (r: Result<MarketRegistrationEvent>)
    ensures r.Ok? <==> ValidMarketRegistrationEvent(w)
    ensures r.Ok? ==> r.value.version == version
    ensures r.Ok? ==> r.value.guid == "MarketRegistration::" + w.market_metadata.market_id
    ensures r.Ok? ==> r.value.marketID == r.value.marketMetadata.marketID
    ensures r.Ok? ==> ParseBigInt(w.market_metadata.market_id) == Ok(r.value.marketID)
  {
    var marketMetadata :- ToMarketMetadata(x, w.market_metadata);
    var time :- ParseBigInt(w.time);
    var integratorFee :- ParseBigInt(w.integrator_fee);
    // `BigInt(market_metadata.market_id)` again: the same parse the metadata made.
    var marketID := marketMetadata.marketID;
    Ok(MarketRegistrationEvent(
         version, "MarketRegistration::" + w.market_metadata.market_id, marketID, marketMetadata,
         time, x.normalizeAddress(w.registrant), x.normalizeAddress(w.integrator), integratorFee))
  }

  function ToPeriodicStateEvent(x: Collaborators, w: Json.PeriodicStateEvent, version: int)
    : (r: Result<PeriodicStateEvent>)
    ensures r.Ok? <==> ValidPeriodicStateEvent(w)
    ensures r.Ok? ==> r.value.version == version
    ensures r.Ok? ==> r.value.guid == "PeriodicState::" + w.market_metadata.market_id + "::"
                                      + w.periodic_state_metadata.period + "::"
                                      + w.periodic_state_metadata.emit_market_nonce
    ensures r.Ok? ==> r.value.marketID == r.value.marketMetadata.marketID
    ensures r.Ok? ==> ParseBigInt(w.market_metadata.market_id) == Ok(r.value.marketID)
  {
    var marketMetadata :- ToMarketMetadata(x, w.market_metadata);
    var periodicStateMetadata :- ToPeriodicStateMetadata(x, w.periodic_state_metadata);
    var openPriceQ64 :- ParseBigInt(w.open_price_q64);
    var highPriceQ64 :- ParseBigInt(w.high_price_q64);
    var lowPriceQ64 :- ParseBigInt(w.low_price_q64);
    var closePriceQ64 :- ParseBigInt(w.close_price_q64);
    var volumeBase :- ParseBigInt(w.volume_base);
    var volumeQuote :- ParseBigInt(w.volume_quote);
    var integratorFees :- ParseBigInt(w.integrator_fees);
    var poolFeesBase :- ParseBigInt(w.pool_fees_base);
    var poolFeesQuote :- ParseBigInt(w.pool_fees_quote);
    var numSwaps :- ParseBigInt(w.n_swaps);
    var numChatMessages :- ParseBigInt(w.n_chat_messages);
    var tvlPerLPCoinGrowth :- ParseBigInt(w.tvl_per_lp_coin_growth_q64);
    // `BigInt(market_metadata.market_id)` again: the same parse the metadata made.
    var marketID := marketMetadata.marketID;
    Ok(PeriodicStateEvent(
         version,
         "PeriodicState::" + w.market_metadata.market_id + "::" + w.periodic_state_metadata.period
           + "::" + w.periodic_state_metadata.emit_market_nonce,
         marketID, marketMetadata, periodicStateMetadata, openPriceQ64, highPriceQ64, lowPriceQ64,
         closePriceQ64, volumeBase, volumeQuote, integratorFees, poolFeesBase, poolFeesQuote,
         numSwaps, numChatMessages, w.starts_in_bonding_curve, w.ends_in_bonding_curve,
         tvlPerLPCoinGrowth))
  }

  function ToStateEvent(x: Collaborators, w: Json.StateEvent, version: int): (r: Result<StateEvent>)
    ensures r.Ok? <==> ValidStateEvent(w)
    ensures r.Ok? ==> r.value.version == version
    ensures r.Ok? ==> r.value.guid == "State::" + w.market_metadata.market_id + "::" + w.state_metadata.market_nonce
    ensures r.Ok? ==> r.value.marketID == r.value.marketMetadata.marketID
    ensures r.Ok? ==> ParseBigInt(w.market_metadata.market_id) == Ok(r.value.marketID)
  {
    var marketMetadata :- ToMarketMetadata(x, w.market_metadata);
    var stateMetadata :- ToStateMetadata(x, w.state_metadata);
    var clammVirtualReserves :- ToReserves(w.clamm_virtual_reserves);
    var cpammRealReserves :- ToReserves(w.cpamm_real_reserves);
    var lpCoinSupply :- ParseBigInt(w.lp_coin_supply);
    var cumulativeStats :- ToCumulativeStats(w.cumulative_stats);
    var instantaneousStats :- ToInstantaneousStats(w.instantaneous_stats);
    var lastSwap :- ToLastSwap(w.last_swap);
    // `BigInt(market_metadata.market_id)` again: the same parse the metadata made.
    var marketID := marketMetadata.marketID;
    Ok(StateEvent(
         version, "State::" + w.market_metadata.market_id + "::" + w.state_metadata.market_nonce,
         marketID, marketMetadata, stateMetadata, clammVirtualReserves, cpammRealReserves,
         lpCoinSupply, cumulativeStats, instantaneousStats, lastSwap))
  }

  /** The guid interpolates the raw `registry_nonce` snapshot, not its value. */
  function ToGlobalStateEvent(x: Collaborators, w: Json.GlobalStateEvent, version: int)
    : (r: Result<GlobalStateEvent>)
    ensures r.Ok? <==> ValidGlobalStateEvent(x, w)
    ensures r.Ok? ==> r.value.version == version
    ensures r.Ok? ==> r.value.guid == "GlobalState::" + x.snapshotText(w.registry_nonce)
  {
    var emitTime :- ParseBigInt(w.emit_time);
    var registryNonce :- FromAggregatorSnapshot(x, w.registry_nonce);
    var cumulativeQuoteVolume :- FromAggregatorSnapshot(x, w.cumulative_quote_volume);
    var totalQuoteLocked :- FromAggregatorSnapshot(x, w.total_quote_locked);
    var totalValueLocked :- FromAggregatorSnapshot(x, w.total_value_locked);
    var marketCap :- FromAggregatorSnapshot(x, w.market_cap);
    var fullyDilutedValue :- FromAggregatorSnapshot(x, w.fully_diluted_value);
    var cumulativeIntegratorFees :- FromAggregatorSnapshot(x, w.cumulative_integrator_fees);
    var cumulativeSwaps :- FromAggregatorSnapshot(x, w.cumulative_swaps);
    var cumulativeChatMessages :- FromAggregatorSnapshot(x, w.cumulative_chat_messages);
    Ok(GlobalStateEvent(
         version, "GlobalState::" + x.snapshotText(w.registry_nonce), emitTime, registryNonce,
         x.toStateTrigger(w.trigger), cumulativeQuoteVolume, totalQuoteLocked, totalValueLocked,
         marketCap, fullyDilutedValue, cumulativeIntegratorFees, cumulativeSwaps,
         cumulativeChatMessages))
  }

  /** The provider address is copied, not normalised. */
  function ToLiquidityEvent(w: Json.LiquidityEvent, version: int): (r: Result<LiquidityEvent>)
    ensures r.Ok? <==> ValidLiquidityEvent(w)
    ensures r.Ok? ==> r.value.version == version
    ensures r.Ok? ==> r.value.guid == "Liquidity::" + w.market_id + "::" + w.market_nonce
  {
    var marketID :- ParseBigInt(w.market_id);
    var time :- ParseBigInt(w.time);
    var marketNonce :- ParseBigInt(w.market_nonce);
    var baseAmount :- ParseBigInt(w.base_amount);
    var quoteAmount :- ParseBigInt(w.quote_amount);
    var lpCoinAmount :- ParseBigInt(w.lp_coin_amount);
    var proRataBase :- ParseBigInt(w.pro_rata_base_donation_claim_amount);
    var proRataQuote :- ParseBigInt(w.pro_rata_quote_donation_claim_amount);
    Ok(LiquidityEvent(
         version, "Liquidity::" + w.market_id + "::" + w.market_nonce, marketID, time, marketNonce,
         w.provider, baseAmount, quoteAmount, lpCoinAmount, w.liquidity_provided,
         proRataBase, proRataQuote))
  }

  /** A latest-state row is the state event decoded at the row's transaction
      version, guid and lifted market id included. */
  function ToInboxLatestState(x: Collaborators, w: Json.InboxLatestState): (r: Result<StateEvent>)
    ensures r == ToStateEvent(x, w.state, w.transaction_version)
    ensures r.Ok? <==> ValidStateEvent(w.state)
    ensures r.Ok? ==> r.value.version == w.transaction_version
    ensures r.Ok? ==> r.value.guid == "State::" + w.state.market_metadata.market_id + "::"
                                      + w.state.state_metadata.market_nonce
    ensures r.Ok? ==> r.value.marketID == r.value.marketMetadata.marketID
    ensures r.Ok? ==> ParseBigInt(w.state.market_metadata.market_id) == Ok(r.value.marketID)
  {
    var e :- ToStateEvent(x, w.state, w.transaction_version);
    Ok(e.(version := w.transaction_version))
  }

  // ---------------------------------------------------------------------------
  // View bridging
  // ---------------------------------------------------------------------------

  /** A view row decodes its event at version -1 and then takes `marketID`,
      `period` and `startTime` from the row's own columns. */
  function ToPeriodicStateView(x: Collaborators, w: Json.PeriodicStateView): (r: Result<PeriodicStateView>)
    ensures r.Ok? <==> ValidPeriodicStateEvent(w.data)
    ensures r.Ok? ==> r.value.version == ViewVersion
    ensures r.Ok? ==> r.value.marketID == w.market_id && r.value.period == w.period
                      && r.value.startTime == w.start_time
  {
    var e :- ToPeriodicStateEvent(x, w.data, ViewVersion);
    Ok(PeriodicStateView(
         ViewVersion, e.guid, w.market_id, w.period, w.start_time, e.marketMetadata,
         e.periodicStateMetadata, e.openPriceQ64, e.highPriceQ64, e.lowPriceQ64, e.closePriceQ64,
         e.volumeBase, e.volumeQuote, e.integratorFees, e.poolFeesBase, e.poolFeesQuote,
         e.numSwaps, e.numChatMessages, e.startsInBondingCurve, e.endsInBondingCurve,
         e.tvlPerLPCoinGrowth))
  }

  /** The object `periodicViewToStateEvent` returns: typed as a periodic state
      event, but built by spreading the view, so it still carries the view's
      `period` and `startTime` columns. */
  datatype BridgedPeriodicStateEvent = BridgedPeriodicStateEvent(
    event: PeriodicStateEvent,
    period: nat,
    startTime: nat)

  /** A view row as a periodic state event: every field of the view is kept,
      the version becomes -1 and the numeric `marketID` column becomes the
      event's market id. */
  function PeriodicViewToStateEvent(v: PeriodicStateView): (b: BridgedPeriodicStateEvent)
    ensures b.event.version == ViewVersion && b.event.marketID == v.marketID
    ensures b.period == v.period && b.startTime == v.startTime
    ensures && b.event.guid == v.guid
            && b.event.marketMetadata == v.marketMetadata
            && b.event.periodicStateMetadata == v.periodicStateMetadata
            && b.event.openPriceQ64 == v.openPriceQ64
            && b.event.highPriceQ64 == v.highPriceQ64
            && b.event.lowPriceQ64 == v.lowPriceQ64
            && b.event.closePriceQ64 == v.closePriceQ64
            && b.event.volumeBase == v.volumeBase
            && b.event.volumeQuote == v.volumeQuote
            && b.event.integratorFees == v.integratorFees
            && b.event.poolFeesBase == v.poolFeesBase
            && b.event.poolFeesQuote == v.poolFeesQuote
            && b.event.numSwaps == v.numSwaps
            && b.event.numChatMessages == v.numChatMessages
            && b.event.startsInBondingCurve == v.startsInBondingCurve
            && b.event.endsInBondingCurve == v.endsInBondingCurve
            && b.event.tvlPerLPCoinGrowth == v.tvlPerLPCoinGrowth
  {
    var e := PeriodicStateEvent(
      ViewVersion, v.guid, v.marketID, v.marketMetadata, v.periodicStateMetadata,
      v.openPriceQ64, v.highPriceQ64, v.lowPriceQ64, v.closePriceQ64, v.volumeBase, v.volumeQuote,
      v.integratorFees, v.poolFeesBase, v.poolFeesQuote, v.numSwaps, v.numChatMessages,
      v.startsInBondingCurve, v.endsInBondingCurve, v.tvlPerLPCoinGrowth);
    BridgedPeriodicStateEvent(e, v.period, v.startTime)
  }

  /** Bridging a decoded view row to an event gives the row's event as the
      event decoder builds it at version -1, with one difference: `marketID`
      is the row's column, not the metadata's market id. The row's `period`
      and `startTime` columns ride along on the bridged object. */
  lemma BridgedViewIsDecodedEvent(x: Collaborators, w: Json.PeriodicStateView)
    requires ValidPeriodicStateEvent(w.data)
    ensures ToPeriodicStateEvent(x, w.data, ViewVersion).Ok?
    ensures PeriodicViewToStateEvent(ToPeriodicStateView(x, w).value).event
         == ToPeriodicStateEvent(x, w.data, ViewVersion).value.(marketID := w.market_id)
    ensures PeriodicViewToStateEvent(ToPeriodicStateView(x, w).value).period == w.period
    ensures PeriodicViewToStateEvent(ToPeriodicStateView(x, w).value).startTime == w.start_time
  {
  }

  /** So a bridged event keeps the top-level/metadata market id agreement of
      the event decoders exactly when the row's `market_id` column agrees with
      the market id inside its data. */
  lemma BridgedMarketIDAgreement(x: Collaborators, w: Json.PeriodicStateView)
    requires ValidPeriodicStateEvent(w.data)
    ensures var e := PeriodicViewToStateEvent(ToPeriodicStateView(x, w).value).event;
            e.marketID == e.marketMetadata.marketID
            <==> ParseBigInt(w.data.market_metadata.market_id) == Ok(w.market_id)
  {
    BridgedViewIsDecodedEvent(x, w);
  }

  // ---------------------------------------------------------------------------
  // Wire writers and round trips: decoding a rendered event at its own
  // version gives it back, with the guid rebuilt from its key fields, the
  // market id lifted from the metadata and the decoder's normalisation applied.
  // ---------------------------------------------------------------------------

  function EncodeSwapEvent(e: SwapEvent): Json.SwapEvent {
    Json.SwapEvent(
      Render(e.marketID), Render(e.time), Render(e.marketNonce), e.swapper, Render(e.inputAmount),
      e.isSell, e.integrator, Render(e.netProceeds), Render(e.baseVolume), Render(e.quoteVolume),
      Render(e.avgExecutionPrice), Render(e.integratorFee), Render(e.poolFee),
      e.startsInBondingCurve, e.resultsInStateTransition)
  }

  function EncodeChatEvent(e: ChatEvent): Json.ChatEvent {
    Json.ChatEvent(
      EncodeMarketMetadata(e.marketMetadata), Render(e.emitTime), Render(e.emitMarketNonce), e.user,
      e.message, Render(e.userEmojicoinBalance), Render(e.circulatingSupply),
      Render(e.balanceAsFractionOfCirculatingSupply))
  }

  function EncodeMarketRegistrationEvent(e: MarketRegistrationEvent): Json.MarketRegistrationEvent {
    Json.MarketRegistrationEvent(
      EncodeMarketMetadata(e.marketMetadata), Render(e.time), e.registrant, e.integrator,
      Render(e.integratorFee))
  }

  function EncodePeriodicStateEvent(e: PeriodicStateEvent, enc: Writers): Json.PeriodicStateEvent {
    Json.PeriodicStateEvent(
      EncodeMarketMetadata(e.marketMetadata), EncodePeriodicStateMetadata(e.periodicStateMetadata, enc),
      Render(e.openPriceQ64), Render(e.highPriceQ64), Render(e.lowPriceQ64), Render(e.closePriceQ64),
      Render(e.volumeBase), Render(e.volumeQuote), Render(e.integratorFees), Render(e.poolFeesBase),
      Render(e.poolFeesQuote), Render(e.numSwaps), Render(e.numChatMessages),
      e.startsInBondingCurve, e.endsInBondingCurve, Render(e.tvlPerLPCoinGrowth))
  }

  function EncodeStateEvent(e: StateEvent, enc: Writers): Json.StateEvent {
    Json.StateEvent(
      EncodeMarketMetadata(e.marketMetadata), EncodeStateMetadata(e.stateMetadata, enc),
      EncodeReserves(e.clammVirtualReserves), EncodeReserves(e.cpammRealReserves),
      Render(e.lpCoinSupply), EncodeCumulativeStats(e.cumulativeStats),
      EncodeInstantaneousStats(e.instantaneousStats), EncodeLastSwap(e.lastSwap))
  }

  function EncodeGlobalStateEvent(e: GlobalStateEvent, enc: Writers): Json.GlobalStateEvent {
    Json.GlobalStateEvent(
      Render(e.emitTime), enc.snapshot(e.registryNonce), enc.trigger(e.trigger),
      enc.snapshot(e.cumulativeQuoteVolume), enc.snapshot(e.totalQuoteLocked),
      enc.snapshot(e.totalValueLocked), enc.snapshot(e.marketCap), enc.snapshot(e.fullyDilutedValue),
      enc.snapshot(e.cumulativeIntegratorFees), enc.snapshot(e.cumulativeSwaps),
      enc.snapshot(e.cumulativeChatMessages))
  }

  function EncodeLiquidityEvent(e: LiquidityEvent): Json.LiquidityEvent {
    Json.LiquidityEvent(
      Render(e.marketID), Render(e.time), Render(e.marketNonce), e.provider, Render(e.baseAmount),
      Render(e.quoteAmount), Render(e.lpCoinAmount), e.liquidityProvided,
      Render(e.proRataBaseDonationClaimAmount), Render(e.proRataQuoteDonationClaimAmount))
  }

  lemma {:induction false} SwapEventRoundTrip(e: SwapEvent)
    ensures ToSwapEvent(EncodeSwapEvent(e), e.version)
         == Ok(e.(guid := "Swap::" + Render(e.marketID) + "::" + Render(e.marketNonce)))
  {
    ParseRender(e.marketID);
    ParseRender(e.time);
    ParseRender(e.marketNonce);
    ParseRender(e.inputAmount);
    ParseRender(e.netProceeds);
    ParseRender(e.baseVolume);
    ParseRender(e.quoteVolume);
    ParseRender(e.avgExecutionPrice);
    ParseRender(e.integratorFee);
    ParseRender(e.poolFee);
  }

  lemma ChatEventRoundTrip(x: Collaborators, e: ChatEvent)
    ensures ToChatEvent(x, EncodeChatEvent(e), e.version)
         == Ok(e.(guid := "Chat::" + Render(e.marketMetadata.marketID) + "::" + Render(e.emitMarketNonce),
                  marketID := e.marketMetadata.marketID,
                  marketMetadata := Renormalized(x, e.marketMetadata),
                  user := x.normalizeAddress(e.user)))
  {
    MarketMetadataRoundTrip(x, e.marketMetadata);
    ParseRender(e.marketMetadata.marketID);
    ParseRender(e.emitTime);
    ParseRender(e.emitMarketNonce);
    ParseRender(e.userEmojicoinBalance);
    ParseRender(e.circulatingSupply);
    ParseRender(e.balanceAsFractionOfCirculatingSupply);
  }

  lemma MarketRegistrationEventRoundTrip(x: Collaborators, e: MarketRegistrationEvent)
    ensures ToMarketRegistrationEvent(x, EncodeMarketRegistrationEvent(e), e.version)
         == Ok(e.(guid := "MarketRegistration::" + Render(e.marketMetadata.marketID),
                  marketID := e.marketMetadata.marketID,
                  marketMetadata := Renormalized(x, e.marketMetadata),
                  registrant := x.normalizeAddress(e.registrant),
                  integrator := x.normalizeAddress(e.integrator)))
  {
    MarketMetadataRoundTrip(x, e.marketMetadata);
    ParseRender(e.marketMetadata.marketID);
    ParseRender(e.time);
    ParseRender(e.integratorFee);
  }

  lemma PeriodicStateEventRoundTrip(x: Collaborators, enc: Writers, e: PeriodicStateEvent)
    requires TriggersReadBack(x, enc)
    ensures ToPeriodicStateEvent(x, EncodePeriodicStateEvent(e, enc), e.version)
         == Ok(e.(guid := "PeriodicState::" + Render(e.marketMetadata.marketID) + "::"
                          + Render(e.periodicStateMetadata.period) + "::"
                          + Render(e.periodicStateMetadata.emitMarketNonce),
                  marketID := e.marketMetadata.marketID,
                  marketMetadata := Renormalized(x, e.marketMetadata)))
  {
    MarketMetadataRoundTrip(x, e.marketMetadata);
    PeriodicStateMetadataRoundTrip(x, enc, e.periodicStateMetadata);
    ParseRender(e.marketMetadata.marketID);
    ParseRender(e.openPriceQ64);
    ParseRender(e.highPriceQ64);
    ParseRender(e.lowPriceQ64);
    ParseRender(e.closePriceQ64);
    ParseRender(e.volumeBase);
    ParseRender(e.volumeQuote);
    ParseRender(e.integratorFees);
    ParseRender(e.poolFeesBase);
    ParseRender(e.poolFeesQuote);
    ParseRender(e.numSwaps);
    ParseRender(e.numChatMessages);
    ParseRender(e.tvlPerLPCoinGrowth);
  }

  lemma StateEventRoundTrip(x: Collaborators, enc: Writers, e: StateEvent)
    requires TriggersReadBack(x, enc)
    ensures ToStateEvent(x, EncodeStateEvent(e, enc), e.version)
         == Ok(e.(guid := "State::" + Render(e.marketMetadata.marketID) + "::"
                          + Render(e.stateMetadata.marketNonce),
                  marketID := e.marketMetadata.marketID,
                  marketMetadata := Renormalized(x, e.marketMetadata)))
  {
    MarketMetadataRoundTrip(x, e.marketMetadata);
    StateMetadataRoundTrip(x, enc, e.stateMetadata);
    ParseRender(e.marketMetadata.marketID);
    ReservesRoundTrip(e.clammVirtualReserves);
    ReservesRoundTrip(e.cpammRealReserves);
    ParseRender(e.lpCoinSupply);
    CumulativeStatsRoundTrip(e.cumulativeStats);
    InstantaneousStatsRoundTrip(e.instantaneousStats);
    LastSwapRoundTrip(e.lastSwap);
  }

  lemma GlobalStateEventRoundTrip(x: Collaborators, enc: Writers, e: GlobalStateEvent)
    requires ReadsBack(x, enc)
    ensures ToGlobalStateEvent(x, EncodeGlobalStateEvent(e, enc), e.version)
         == Ok(e.(guid := "GlobalState::" + x.snapshotText(enc.snapshot(e.registryNonce))))
  {
    ParseRender(e.emitTime);
    ParseRender(e.registryNonce);
    ParseRender(e.cumulativeQuoteVolume);
    ParseRender(e.totalQuoteLocked);
    ParseRender(e.totalValueLocked);
    ParseRender(e.marketCap);
    ParseRender(e.fullyDilutedValue);
    ParseRender(e.cumulativeIntegratorFees);
    ParseRender(e.cumulativeSwaps);
    ParseRender(e.cumulativeChatMessages);
  }

  lemma {:induction false} LiquidityEventRoundTrip(e: LiquidityEvent)
    ensures ToLiquidityEvent(EncodeLiquidityEvent(e), e.version)
         == Ok(e.(guid := "Liquidity::" + Render(e.marketID) + "::" + Render(e.marketNonce)))
  {
    ParseRender(e.marketID);
    ParseRender(e.time);
    ParseRender(e.marketNonce);
    ParseRender(e.baseAmount);
    ParseRender(e.quoteAmount);
    ParseRender(e.lpCoinAmount);
    ParseRender(e.proRataBaseDonationClaimAmount);
    ParseRender(e.proRataQuoteDonationClaimAmount);
  }

  /** The swap of the worked example: market 42, nonce 7, version 123. */
  lemma SwapExample(w: Json.SwapEvent)
    requires w.market_id == "42" && w.market_nonce == "7" && ValidSwapEvent(w)
    ensures ToSwapEvent(w, 123).Ok?
    ensures ToSwapEvent(w, 123).value.marketID == 42
    ensures ToSwapEvent(w, 123).value.version == 123
    ensures ToSwapEvent(w, 123).value.guid == "Swap::42::7"
  {
    assert "42"[..1] == "4";
    assert DecimalValue("4") == 4;
  }
}
