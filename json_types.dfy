/** The wire records the decoders read: snake_case keys, integers as decimal
    strings, hex as `0x` strings, booleans as booleans. Each record holds
    the keys its decoder in `types.ts` reads, except Swap's two floating-point
    fields, which the model leaves out. */
module Json {
  import opened Externals

  datatype ExtendRef = ExtendRef(self: string)

  datatype SequenceInfo = SequenceInfo(nonce: string, last_bump_time: string)

  datatype TVLtoLPCoinRatio = TVLtoLPCoinRatio(tvl: string, lp_coins: string)

  datatype Reserves = Reserves(base: string, quote: string)

  datatype PeriodicStateTracker = PeriodicStateTracker(
    start_time: string,
    period: string,
    open_price_q64: string,
    high_price_q64: string,
    low_price_q64: string,
    close_price_q64: string,
    volume_base: string,
    volume_quote: string,
    integrator_fees: string,
    pool_fees_base: string,
    pool_fees_quote: string,
    n_swaps: string,
    n_chat_messages: string,
    starts_in_bonding_curve: bool,
    ends_in_bonding_curve: bool,
    tvl_to_lp_coin_ratio_start: TVLtoLPCoinRatio,
    tvl_to_lp_coin_ratio_end: TVLtoLPCoinRatio)

  datatype RegistryAddress = RegistryAddress(registry_address: string)

  datatype RegistryView = RegistryView(
    registry_address: string,
    nonce: AggregatorSnapshot,
    last_bump_time: string,
    n_markets: string,
    cumulative_quote_volume: AggregatorSnapshot,
    total_quote_locked: AggregatorSnapshot,
    total_value_locked: AggregatorSnapshot,
    market_cap: AggregatorSnapshot,
    fully_diluted_value: AggregatorSnapshot,
    cumulative_integrator_fees: AggregatorSnapshot,
    cumulative_swaps: AggregatorSnapshot,
    cumulative_chat_messages: AggregatorSnapshot)

  datatype MarketMetadata = MarketMetadata(market_id: string, market_address: string, emoji_bytes: string)

  datatype CumulativeStats = CumulativeStats(
    base_volume: string,
    quote_volume: string,
    integrator_fees: string,
    pool_fees_base: string,
    pool_fees_quote: string,
    n_swaps: string,
    n_chat_messages: string)

  datatype InstantaneousStats = InstantaneousStats(
    total_quote_locked: string,
    total_value_locked: string,
    market_cap: string,
    fully_diluted_value: string)

  datatype LastSwap = LastSwap(
    is_sell: bool,
    avg_execution_price_q64: string,
    base_volume: string,
    quote_volume: string,
    nonce: string,
    time: string)

  datatype MarketView = MarketView(
    metadata: MarketMetadata,
    sequence_info: SequenceInfo,
    clamm_virtual_reserves: Reserves,
    cpamm_real_reserves: Reserves,
    lp_coin_supply: string,
    in_bonding_curve: bool,
    cumulative_stats: CumulativeStats,
    instantaneous_stats: InstantaneousStats,
    last_swap: LastSwap,
    periodic_state_trackers: seq<PeriodicStateTracker>,
    aptos_coin_balance: string,
    emojicoin_balance: string,
    emojicoin_lp_balance: string)

  datatype MarketResource = MarketResource(
    metadata: MarketMetadata,
    sequence_info: SequenceInfo,
    extend_ref: ExtendRef,
    clamm_virtual_reserves: Reserves,
    cpamm_real_reserves: Reserves,
    lp_coin_supply: string,
    cumulative_stats: CumulativeStats,
    last_swap: LastSwap,
    periodic_state_trackers: seq<PeriodicStateTracker>)

  datatype PeriodicStateMetadata = PeriodicStateMetadata(
    start_time: string,
    period: string,
    emit_time: string,
    emit_market_nonce: string,
    trigger: WireTrigger)

  datatype StateMetadata = StateMetadata(market_nonce: string, bump_time: string, trigger: WireTrigger)

  datatype RegistrantGracePeriodFlag = RegistrantGracePeriodFlag(
    market_registrant: string,
    market_registration_time: string)

  datatype SwapEvent = SwapEvent(
    market_id: string,
    time: string,
    market_nonce: string,
    swapper: string,
    input_amount: string,
    is_sell: bool,
    integrator: string,
    net_proceeds: string,
    base_volume: string,
    quote_volume: string,
    avg_execution_price_q64: string,
    integrator_fee: string,
    pool_fee: string,
    starts_in_bonding_curve: bool,
    results_in_state_transition: bool)

  datatype ChatEvent = ChatEvent(
    market_metadata: MarketMetadata,
    emit_time: string,
    emit_market_nonce: string,
    user: string,
    message: string,
    user_emojicoin_balance: string,
    circulating_supply: string,
    balance_as_fraction_of_circulating_supply_q64: string)

  datatype MarketRegistrationEvent = MarketRegistrationEvent(
    market_metadata: MarketMetadata,
    time: string,
    registrant: string,
    integrator: string,
    integrator_fee: string)

  datatype PeriodicStateEvent = PeriodicStateEvent(
    market_metadata: MarketMetadata,
    periodic_state_metadata: PeriodicStateMetadata,
    open_price_q64: string,
    high_price_q64: string,
    low_price_q64: string,
    close_price_q64: string,
    volume_base: string,
    volume_quote: string,
    integrator_fees: string,
    pool_fees_base: string,
    pool_fees_quote: string,
    n_swaps: string,
    n_chat_messages: string,
    starts_in_bonding_curve: bool,
    ends_in_bonding_curve: bool,
    tvl_per_lp_coin_growth_q64: string)

  datatype StateEvent = StateEvent(
    market_metadata: MarketMetadata,
    state_metadata: StateMetadata,
    clamm_virtual_reserves: Reserves,
    cpamm_real_reserves: Reserves,
    lp_coin_supply: string,
    cumulative_stats: CumulativeStats,
    instantaneous_stats: InstantaneousStats,
    last_swap: LastSwap)

  datatype GlobalStateEvent = GlobalStateEvent(
    emit_time: string,
    registry_nonce: AggregatorSnapshot,
    trigger: WireTrigger,
    cumulative_quote_volume: AggregatorSnapshot,
    total_quote_locked: AggregatorSnapshot,
    total_value_locked: AggregatorSnapshot,
    market_cap: AggregatorSnapshot,
    fully_diluted_value: AggregatorSnapshot,
    cumulative_integrator_fees: AggregatorSnapshot,
    cumulative_swaps: AggregatorSnapshot,
    cumulative_chat_messages: AggregatorSnapshot)

  datatype LiquidityEvent = LiquidityEvent(
    market_id: string,
    time: string,
    market_nonce: string,
    provider: string,
    base_amount: string,
    quote_amount: string,
    lp_coin_amount: string,
    liquidity_provided: bool,
    pro_rata_base_donation_claim_amount: string,
    pro_rata_quote_donation_claim_amount: string)

  /** A row of the `inbox_latest_state` table: a state event plus the version
      of the transaction that emitted it. */
  datatype InboxLatestState = InboxLatestState(state: StateEvent, transaction_version: int)

  /** A row of the `inbox_periodic_state` view: the periodic state event and
      the row's own numeric key columns. */
  datatype PeriodicStateView = PeriodicStateView(
    market_id: nat,
    period: nat,
    start_time: nat,
    data: PeriodicStateEvent)

  /** An event payload together with the wire shape the `isJSON*Event` guards
      recognise it as; `Unrecognized` is a payload none of them accepts. */
  datatype AnyPayload =
    | SwapPayload(swap: SwapEvent)
    | ChatPayload(chat: ChatEvent)
    | MarketRegistrationPayload(marketRegistration: MarketRegistrationEvent)
    | PeriodicStatePayload(periodicState: PeriodicStateEvent)
    | StatePayload(state: StateEvent)
    | GlobalStatePayload(globalState: GlobalStateEvent)
    | LiquidityPayload(liquidity: LiquidityEvent)
    | Unrecognized
}
