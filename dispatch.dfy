/** Telling the seven events apart and dispatching on them. An event's kind is
    read off the start of its `guid`; a wire payload's kind is its recognised
    shape. */
module Dispatch {
  import opened Wrappers
  import opened Externals
  import opened Events
  import Json

  /** `EventName`: the seven kinds, each written as its guid tag. */
  datatype EventName = Swap | Chat | MarketRegistration | PeriodicState | State | GlobalState | Liquidity

  function Tag(k: EventName): string {
    match k
    case Swap => "Swap"
    case Chat => "Chat"
    case MarketRegistration => "MarketRegistration"
    case PeriodicState => "PeriodicState"
    case State => "State"
    case GlobalState => "GlobalState"
    case Liquidity => "Liquidity"
  }

  /** `AnyEmojicoinEvent`: the union of the seven decoded events. */
  datatype AnyEmojicoinEvent =
    | SwapEvt(swap: SwapEvent)
    | ChatEvt(chat: ChatEvent)
    | MarketRegistrationEvt(marketRegistration: MarketRegistrationEvent)
    | PeriodicStateEvt(periodicState: PeriodicStateEvent)
    | StateEvt(state: StateEvent)
    | GlobalStateEvt(globalState: GlobalStateEvent)
    | LiquidityEvt(liquidity: LiquidityEvent)
  {
    function Guid(): string {
      match this
      case SwapEvt(e) => e.guid
      case ChatEvt(e) => e.guid
      case MarketRegistrationEvt(e) => e.guid
      case PeriodicStateEvt(e) => e.guid
      case StateEvt(e) => e.guid
      case GlobalStateEvt(e) => e.guid
      case LiquidityEvt(e) => e.guid
    }

    function Version(): int {
      match this
      case SwapEvt(e) => e.version
      case ChatEvt(e) => e.version
      case MarketRegistrationEvt(e) => e.version
      case PeriodicStateEvt(e) => e.version
      case StateEvt(e) => e.version
      case GlobalStateEvt(e) => e.version
      case LiquidityEvt(e) => e.version
    }

    /** The kind the event really has, whatever its guid says. */
    function Kind(): EventName {
      match this
      case SwapEvt(_) => Swap
      case ChatEvt(_) => Chat
      case MarketRegistrationEvt(_) => MarketRegistration
      case PeriodicStateEvt(_) => PeriodicState
      case StateEvt(_) => State
      case GlobalStateEvt(_) => GlobalState
      case LiquidityEvt(_) => Liquidity
    }
  }

  // ---------------------------------------------------------------------------
  // Guid predicates
  // ---------------------------------------------------------------------------

  predicate OccursAt(s: string, sub: string, i: int) {
    0 <= i <= |s| - |sub| && s[i..i + |sub|] == sub
  }

  /** `s.includes(sub)`. */
  predicate Contains(s: string, sub: string) {
    exists i | 0 <= i <= |s| - |sub| :: OccursAt(s, sub, i)
  }

  /** `isAnyEmojiCoinEvent`: the guid contains `::`. */
  predicate IsAnyEmojicoinEvent(e: AnyEmojicoinEvent) {
    Contains(e.Guid(), "::")
  }

  /** The guid begins with the kind's tag. */
  predicate HasTag(guid: string, k: EventName) {
    Tag(k) <= guid
  }

  predicate IsSwapEvent(e: AnyEmojicoinEvent) { HasTag(e.Guid(), Swap) }
  predicate IsChatEvent(e: AnyEmojicoinEvent) { HasTag(e.Guid(), Chat) }
  predicate IsMarketRegistrationEvent(e: AnyEmojicoinEvent) { HasTag(e.Guid(), MarketRegistration) }
  predicate IsPeriodicStateEvent(e: AnyEmojicoinEvent) { HasTag(e.Guid(), PeriodicState) }
  predicate IsStateEvent(e: AnyEmojicoinEvent) { HasTag(e.Guid(), State) }
  predicate IsGlobalStateEvent(e: AnyEmojicoinEvent) { HasTag(e.Guid(), GlobalState) }
  predicate IsLiquidityEvent(e: AnyEmojicoinEvent) { HasTag(e.Guid(), Liquidity) }

  /** Whatever tag the guid starts with is the event's own: the type guards
      the `is*Event` predicates claim to be are sound for this event. */
  predicate TagConsistent(e: AnyEmojicoinEvent) {
    forall k :: HasTag(e.Guid(), k) ==> k == e.Kind()
  }

  /** What `isPeriodicStateView` is asked about: a decoded event, a periodic
      state view row, or a view row bridged to an event. No event decoder
      writes a `startTime`; a view row has one, and its bridged object keeps it. */
  datatype Candidate =
    | EventCandidate(event: AnyEmojicoinEvent)
    | ViewCandidate(view: PeriodicStateView)
    | BridgedCandidate(bridged: BridgedPeriodicStateEvent)
  {
    function Guid(): string {
      match this
      case EventCandidate(e) => e.Guid()
      case ViewCandidate(v) => v.guid
      case BridgedCandidate(b) => b.event.guid
    }

    /** The object's top-level numeric `startTime`, when it has one. */
    function StartTime(): Option<nat> {
      match this
      case EventCandidate(_) => None
      case ViewCandidate(v) => Some(v.startTime)
      case BridgedCandidate(b) => Some(b.startTime)
    }
  }

  /** `isPeriodicStateView`: a numeric `startTime` and a `PeriodicState` guid. */
  predicate IsPeriodicStateView(c: Candidate) {
    c.StartTime().Some? && HasTag(c.Guid(), PeriodicState)
  }

  // ---------------------------------------------------------------------------
  // Dispatchers
  // ---------------------------------------------------------------------------

  /** The message of the `Unknown event type` error thrown for an event
      object: an object interpolates as `[object Object]`. */
  const UnknownEventObject: Error := UnknownEventType("Unknown event type: [object Object]")

  /** `getEventTypeName`: the first tag, in the source's order, that starts
      the guid; an error when none does. */
  function GetEventTypeName(e: AnyEmojicoinEvent): (r: Result<EventName>)
    ensures r.Err? ==> r.error == UnknownEventObject
    ensures r.Ok? ==> HasTag(e.Guid(), r.value)
  {
    if IsSwapEvent(e) then Ok(Swap)
    else if IsChatEvent(e) then Ok(Chat)
    else if IsMarketRegistrationEvent(e) then Ok(MarketRegistration)
    else if IsPeriodicStateEvent(e) then Ok(PeriodicState)
    else if IsStateEvent(e) then Ok(State)
    else if IsGlobalStateEvent(e) then Ok(GlobalState)
    else if IsLiquidityEvent(e) then Ok(Liquidity)
    else Err(UnknownEventObject)
  }

  /** The time field each kind of event carries. */
  function TimeOf(e: AnyEmojicoinEvent): nat {
    match e
    case SwapEvt(s) => s.time
    case ChatEvt(c) => c.emitTime
    case MarketRegistrationEvt(m) => m.time
    case PeriodicStateEvt(p) => p.periodicStateMetadata.emitTime
    case StateEvt(s) => s.stateMetadata.bumpTime
    case GlobalStateEvt(g) => g.emitTime
    case LiquidityEvt(l) => l.time
  }

  /** `getEmojicoinEventTime`: the same if-chain as `getEventTypeName`, each
      branch reading its kind's time field. */
  function GetEmojicoinEventTime(e: AnyEmojicoinEvent): (r: Result<nat>)
    requires TagConsistent(e)
    ensures r.Ok? <==> GetEventTypeName(e).Ok?
    ensures r.Err? ==> r.error == GetEventTypeName(e).error
    ensures r.Ok? ==> r.value == TimeOf(e)
  {
    if IsSwapEvent(e) then Ok(e.swap.time)
    else if IsChatEvent(e) then Ok(e.chat.emitTime)
    else if IsMarketRegistrationEvent(e) then Ok(e.marketRegistration.time)
    else if IsPeriodicStateEvent(e) then Ok(e.periodicState.periodicStateMetadata.emitTime)
    else if IsStateEvent(e) then Ok(e.state.stateMetadata.bumpTime)
    else if IsGlobalStateEvent(e) then Ok(e.globalState.emitTime)
    else if IsLiquidityEvent(e) then Ok(e.liquidity.time)
    else Err(UnknownEventObject)
  }

  /** `T & WithTime`: the event with a `time` field added or overwritten. */
  datatype TimedEvent = TimedEvent(event: AnyEmojicoinEvent, time: nat)

  /** `toEventWithTime`: the event unchanged plus its time. */
  function ToEventWithTime(e: AnyEmojicoinEvent): (r: Result<TimedEvent>)
    requires TagConsistent(e)
    ensures r.Ok? <==> GetEventTypeName(e).Ok?
    ensures r.Err? ==> r.error == UnknownEventObject
    ensures r.Ok? ==> r.value.event == e && r.value.time == TimeOf(e)
  {
    var time :- GetEmojicoinEventTime(e);
    Ok(TimedEvent(e, time))
  }

  /** The kind of wire shape a payload was recognised as. */
  function PayloadKind(p: Json.AnyPayload): Option<EventName> {
    match p
    case SwapPayload(_) => Some(Swap)
    case ChatPayload(_) => Some(Chat)
    case MarketRegistrationPayload(_) => Some(MarketRegistration)
    case PeriodicStatePayload(_) => Some(PeriodicState)
    case StatePayload(_) => Some(State)
    case GlobalStatePayload(_) => Some(GlobalState)
    case LiquidityPayload(_) => Some(Liquidity)
    case Unrecognized => None
  }

  /** A recognised payload whose fields all decode. */
  predicate ValidPayload(x: Collaborators, p: Json.AnyPayload) {
    match p
    case SwapPayload(w) => ValidSwapEvent(w)
    case ChatPayload(w) => ValidChatEvent(w)
    case MarketRegistrationPayload(w) => ValidMarketRegistrationEvent(w)
    case PeriodicStatePayload(w) => ValidPeriodicStateEvent(w)
    case StatePayload(w) => ValidStateEvent(w)
    case GlobalStatePayload(w) => ValidGlobalStateEvent(x, w)
    case LiquidityPayload(w) => ValidLiquidityEvent(w)
    case Unrecognized => false
  }

  /** What lifting a decoder's result into the union keeps: the kind, the
      version and a `<tag>::` guid. */
  predicate DecodedAs(r: Result<AnyEmojicoinEvent>, k: EventName, v: int) {
    r.Ok? ==> r.value.Kind() == k && r.value.Version() == v && Tagged(r.value.Guid(), k)
  }

  /** `r` is the decoder's result `d` lifted into the union by `wrap`: the
      same success or the same error. */
  predicate LiftOf<T>(r: Result<AnyEmojicoinEvent>, d: Result<T>, wrap: T -> AnyEmojicoinEvent) {
    match d
    case Ok(e) => r == Ok(wrap(e))
    case Err(err) => r == Err(err)
  }

  function AsSwap(w: Json.SwapEvent, v: int): (r: Result<AnyEmojicoinEvent>)
    ensures r.Ok? <==> ValidSwapEvent(w)
    ensures DecodedAs(r, Swap, v)
    ensures LiftOf(r, ToSwapEvent(w, v), e => SwapEvt(e))
  {
    var e :- ToSwapEvent(w, v);
    SwapGuidIsTagged(w, v);
    Ok(SwapEvt(e))
  }

  function AsChat(x: Collaborators, w: Json.ChatEvent, v: int): (r: Result<AnyEmojicoinEvent>)
    ensures r.Ok? <==> ValidChatEvent(w)
    ensures DecodedAs(r, Chat, v)
    ensures LiftOf(r, ToChatEvent(x, w, v), e => ChatEvt(e))
  {
    var e :- ToChatEvent(x, w, v);
    ChatGuidIsTagged(x, w, v);
    Ok(ChatEvt(e))
  }

  function AsMarketRegistration(x: Collaborators, w: Json.MarketRegistrationEvent, v: int)
    : (r: Result<AnyEmojicoinEvent>)
    ensures r.Ok? <==> ValidMarketRegistrationEvent(w)
    ensures DecodedAs(r, MarketRegistration, v)
    ensures LiftOf(r, ToMarketRegistrationEvent(x, w, v), e => MarketRegistrationEvt(e))
  {
    var e :- ToMarketRegistrationEvent(x, w, v);
    MarketRegistrationGuidIsTagged(x, w, v);
    Ok(MarketRegistrationEvt(e))
  }

  function AsPeriodicState(x: Collaborators, w: Json.PeriodicStateEvent, v: int)
    : (r: Result<AnyEmojicoinEvent>)
    ensures r.Ok? <==> ValidPeriodicStateEvent(w)
    ensures DecodedAs(r, PeriodicState, v)
    ensures LiftOf(r, ToPeriodicStateEvent(x, w, v), e => PeriodicStateEvt(e))
  {
    var e :- ToPeriodicStateEvent(x, w, v);
    PeriodicStateGuidIsTagged(x, w, v);
    Ok(PeriodicStateEvt(e))
  }

  function AsState(x: Collaborators, w: Json.StateEvent, v: int): (r: Result<AnyEmojicoinEvent>)
    ensures r.Ok? <==> ValidStateEvent(w)
    ensures DecodedAs(r, State, v)
    ensures LiftOf(r, ToStateEvent(x, w, v), e => StateEvt(e))
  {
    var e :- ToStateEvent(x, w, v);
    StateGuidIsTagged(x, w, v);
    Ok(StateEvt(e))
  }

  function AsGlobalState(x: Collaborators, w: Json.GlobalStateEvent, v: int): (r: Result<AnyEmojicoinEvent>)
    ensures r.Ok? <==> ValidGlobalStateEvent(x, w)
    ensures DecodedAs(r, GlobalState, v)
    ensures LiftOf(r, ToGlobalStateEvent(x, w, v), e => GlobalStateEvt(e))
  {
    var e :- ToGlobalStateEvent(x, w, v);
    GlobalStateGuidIsTagged(x, w, v);
    Ok(GlobalStateEvt(e))
  }

  function AsLiquidity(w: Json.LiquidityEvent, v: int): (r: Result<AnyEmojicoinEvent>)
    ensures r.Ok? <==> ValidLiquidityEvent(w)
    ensures DecodedAs(r, Liquidity, v)
    ensures LiftOf(r, ToLiquidityEvent(w, v), e => LiquidityEvt(e))
  {
    var e :- ToLiquidityEvent(w, v);
    LiquidityGuidIsTagged(w, v);
    Ok(LiquidityEvt(e))
  }

  /** `toAnyEmojicoinEvent`: decode with the decoder the payload's shape
      selects, at the given version or -1 when none is given. */
  function ToAnyEmojicoinEvent(x: Collaborators, typeName: string, payload: Json.AnyPayload, version: Option<int>)
    : (r: Result<AnyEmojicoinEvent>)
    ensures r.Ok? <==> ValidPayload(x, payload)
    ensures payload.Unrecognized? ==> r == Err(UnknownEventType("Unknown event type: " + typeName))
    ensures r.Ok? ==> PayloadKind(payload) == Some(r.value.Kind())
    ensures r.Ok? ==> r.value.Version() == (if version.Some? then version.value else -1)
    ensures r.Ok? ==> Tagged(r.value.Guid(), r.value.Kind())
    ensures payload.SwapPayload? ==> LiftOf(r, ToSwapEvent(payload.swap, version.GetOr(-1)), e => SwapEvt(e))
    ensures payload.ChatPayload? ==> LiftOf(r, ToChatEvent(x, payload.chat, version.GetOr(-1)), e => ChatEvt(e))
    ensures payload.MarketRegistrationPayload? ==>
              LiftOf(r, ToMarketRegistrationEvent(x, payload.marketRegistration, version.GetOr(-1)),
                     e => MarketRegistrationEvt(e))
    ensures payload.PeriodicStatePayload? ==>
              LiftOf(r, ToPeriodicStateEvent(x, payload.periodicState, version.GetOr(-1)), e => PeriodicStateEvt(e))
    ensures payload.StatePayload? ==> LiftOf(r, ToStateEvent(x, payload.state, version.GetOr(-1)), e => StateEvt(e))
    ensures payload.GlobalStatePayload? ==>
              LiftOf(r, ToGlobalStateEvent(x, payload.globalState, version.GetOr(-1)), e => GlobalStateEvt(e))
    ensures payload.LiquidityPayload? ==>
              LiftOf(r, ToLiquidityEvent(payload.liquidity, version.GetOr(-1)), e => LiquidityEvt(e))
  {
    var v := version.GetOr(-1);
    match payload
    case SwapPayload(w) => AsSwap(w, v)
    case ChatPayload(w) => AsChat(x, w, v)
    case MarketRegistrationPayload(w) => AsMarketRegistration(x, w, v)
    case PeriodicStatePayload(w) => AsPeriodicState(x, w, v)
    case StatePayload(w) => AsState(x, w, v)
    case GlobalStatePayload(w) => AsGlobalState(x, w, v)
    case LiquidityPayload(w) => AsLiquidity(w, v)
    case Unrecognized => Err(UnknownEventType("Unknown event type: " + typeName))
  }

  // ---------------------------------------------------------------------------
  // Classification laws
  // ---------------------------------------------------------------------------

  /** No tag is a prefix of another, so at most one `is*Event` holds. */
  lemma NoTagIsPrefixOfAnother(j: EventName, k: EventName)
    requires j != k
    ensures !(Tag(j) <= Tag(k))
  {
    assert Tag(j)[0] != Tag(k)[0] || Tag(j)[1] != Tag(k)[1];
  }

  /** Two prefixes of one string are prefixes of each other. */
  lemma PrefixesAreComparable(a: string, b: string, s: string)
    requires a <= s && b <= s
    ensures a <= b || b <= a
  {
  }

  /** A guid starts with at most one tag. */
  lemma TagIsUnique(guid: string, j: EventName, k: EventName)
    requires HasTag(guid, j) && HasTag(guid, k)
    ensures j == k
  {
    PrefixesAreComparable(Tag(j), Tag(k), guid);
    if j != k {
      NoTagIsPrefixOfAnother(j, k);
      NoTagIsPrefixOfAnother(k, j);
    }
  }

  /** The if-chain names exactly the tag the guid starts with, so its order
      cannot misclassify. */
  lemma ClassifyExact(e: AnyEmojicoinEvent, k: EventName)
    ensures GetEventTypeName(e) == Ok(k) <==> HasTag(e.Guid(), k)
  {
    if HasTag(e.Guid(), k) && GetEventTypeName(e).Ok? {
      TagIsUnique(e.Guid(), GetEventTypeName(e).value, k);
    }
  }

  /** The name fails exactly when the guid starts with none of the seven tags. */
  lemma ClassifyFailsIffNoTag(e: AnyEmojicoinEvent)
    ensures GetEventTypeName(e).Err? <==> forall k :: !HasTag(e.Guid(), k)
  {
  }

  /** For an event whose guid agrees with its kind, a successful name is the
      kind, and the time is the kind's time field. */
  lemma ConsistentEventIsNamedByKind(e: AnyEmojicoinEvent)
    requires TagConsistent(e)
    ensures GetEventTypeName(e).Ok? ==> GetEventTypeName(e).value == e.Kind()
    ensures GetEventTypeName(e).Ok? ==> GetEmojicoinEventTime(e) == Ok(TimeOf(e))
  {
  }

  /** `Unknown::1::2` looks like an event guid but names no kind: both
      dispatchers throw on it. */
  lemma UnknownGuidIsRejected(e: AnyEmojicoinEvent)
    requires e.Guid() == "Unknown::1::2" && TagConsistent(e)
    ensures IsAnyEmojicoinEvent(e)
    ensures GetEventTypeName(e) == Err(UnknownEventObject)
    ensures GetEmojicoinEventTime(e) == Err(UnknownEventObject)
  {
    var g := e.Guid();
    assert OccursAt(g, "::", 7);
    assert g[0] == 'U';
  }

  /** The guid starts with `<tag>::`, as every decoder writes it. */
  predicate Tagged(guid: string, k: EventName) {
    Tag(k) + "::" <= guid
  }

  /** A `<tag>::` guid starts with that tag and no other, and contains `::`. */
  lemma TaggedGuid(guid: string, k: EventName)
    requires Tagged(guid, k)
    ensures HasTag(guid, k)
    ensures forall j :: HasTag(guid, j) ==> j == k
    ensures Contains(guid, "::")
  {
    assert guid[..|Tag(k)|] == Tag(k);
    assert OccursAt(guid, "::", |Tag(k)|);
    forall j | HasTag(guid, j) ensures j == k {
      TagIsUnique(guid, j, k);
    }
  }

  lemma SwapGuidIsTagged(w: Json.SwapEvent, v: int)
    requires ToSwapEvent(w, v).Ok?
    ensures Tagged(ToSwapEvent(w, v).value.guid, Swap)
  {
  }

  lemma ChatGuidIsTagged(x: Collaborators, w: Json.ChatEvent, v: int)
    requires ToChatEvent(x, w, v).Ok?
    ensures Tagged(ToChatEvent(x, w, v).value.guid, Chat)
  {
  }

  lemma MarketRegistrationGuidIsTagged(x: Collaborators, w: Json.MarketRegistrationEvent, v: int)
    requires ToMarketRegistrationEvent(x, w, v).Ok?
    ensures Tagged(ToMarketRegistrationEvent(x, w, v).value.guid, MarketRegistration)
  {
  }

  lemma PeriodicStateGuidIsTagged(x: Collaborators, w: Json.PeriodicStateEvent, v: int)
    requires ToPeriodicStateEvent(x, w, v).Ok?
    ensures Tagged(ToPeriodicStateEvent(x, w, v).value.guid, PeriodicState)
  {
  }

  lemma StateGuidIsTagged(x: Collaborators, w: Json.StateEvent, v: int)
    requires ToStateEvent(x, w, v).Ok?
    ensures Tagged(ToStateEvent(x, w, v).value.guid, State)
  {
  }

  lemma GlobalStateGuidIsTagged(x: Collaborators, w: Json.GlobalStateEvent, v: int)
    requires ToGlobalStateEvent(x, w, v).Ok?
    ensures Tagged(ToGlobalStateEvent(x, w, v).value.guid, GlobalState)
  {
  }

  lemma LiquidityGuidIsTagged(w: Json.LiquidityEvent, v: int)
    requires ToLiquidityEvent(w, v).Ok?
    ensures Tagged(ToLiquidityEvent(w, v).value.guid, Liquidity)
  {
  }

  /** Decode, then classify: every decoded event is recognised as an event,
      its guid names the kind of the payload it came from, and its time is
      its kind's time field. */
  lemma {:induction false} DecodeThenClassify(x: Collaborators, typeName: string, payload: Json.AnyPayload, version: Option<int>)
    requires ValidPayload(x, payload)
    ensures var e := ToAnyEmojicoinEvent(x, typeName, payload, version).value;
            && TagConsistent(e)
            && IsAnyEmojicoinEvent(e)
            && PayloadKind(payload) == Some(e.Kind())
            && GetEventTypeName(e) == Ok(e.Kind())
            && GetEmojicoinEventTime(e) == Ok(TimeOf(e))
  {
    var e := ToAnyEmojicoinEvent(x, typeName, payload, version).value;
    TaggedGuid(e.Guid(), e.Kind());
    ClassifyExact(e, e.Kind());
  }

  /** A decoded view row passes `isPeriodicStateView`, and so does the object
      bridging it gives, which is named `PeriodicState`. */
  lemma DecodedViewIsRecognised(x: Collaborators, w: Json.PeriodicStateView)
    requires ValidPeriodicStateEvent(w.data)
    ensures IsPeriodicStateView(ViewCandidate(ToPeriodicStateView(x, w).value))
    ensures IsPeriodicStateView(BridgedCandidate(PeriodicViewToStateEvent(ToPeriodicStateView(x, w).value)))
    ensures var e := PeriodicStateEvt(PeriodicViewToStateEvent(ToPeriodicStateView(x, w).value).event);
            TagConsistent(e) && GetEventTypeName(e) == Ok(PeriodicState)
  {
    var v := ToPeriodicStateView(x, w).value;
    PeriodicStateGuidIsTagged(x, w.data, ViewVersion);
    TaggedGuid(v.guid, PeriodicState);
    ClassifyExact(PeriodicStateEvt(PeriodicViewToStateEvent(v).event), PeriodicState);
  }

  /** Bridging keeps the view's `startTime` and guid, so a view row and the
      event it bridges to get the same answer from `isPeriodicStateView`. */
  lemma BridgingKeepsViewAnswer(v: PeriodicStateView)
    ensures IsPeriodicStateView(BridgedCandidate(PeriodicViewToStateEvent(v)))
            <==> IsPeriodicStateView(ViewCandidate(v))
  {
  }

  /** An event straight from `toAnyEmojicoinEvent` carries no `startTime`, so
      `isPeriodicStateView` rejects it. */
  lemma DecodedEventIsNotView(x: Collaborators, typeName: string, payload: Json.AnyPayload, version: Option<int>)
    requires ValidPayload(x, payload)
    ensures !IsPeriodicStateView(EventCandidate(ToAnyEmojicoinEvent(x, typeName, payload, version).value))
  {
  }
}
