/**
 * The shared client state (`QuotexAPI`) and the module-level connection
 * flags (`global_value`), with the outbound command builders, the order
 * bookkeeping and the connection decision that read and write them.
 *
 * The socket is the append-only log `sent`; a frame is sent by appending it.
 */
module Session {
  import opened Values
  import opened Wire
  import opened Profiles
  import opened Channels

  // ---------------------------------------------------------------------------
  // Orders

  datatype DealStatus = Win | Loss

  /**
   * One entry of the order table, a dict keyed by request id. Each field is
   * None while the dict lacks that key; `Some(JNull)` is a key set to None.
   */
  datatype Order = Order(request: Option<Json>, id: Option<Json>, response: Option<Json>,
                         result: Option<Json>, status: Option<DealStatus>)

  /**
   * The order table as a dict: `ids` lists its keys once each, in insertion
   * order, which is the order a scan over the dict visits them.
   */
  ghost predicate OrderTable(orders: map<int, Order>, ids: seq<int>)
  {
    && (forall i, j :: 0 <= i < j < |ids| ==> ids[i] != ids[j])
    && (forall k :: k in orders <==> k in ids)
    && Listed(orders, ids)
  }

  /** Rewriting an existing order keeps the table's key list valid. */
  lemma OrderTableRewrite(orders: map<int, Order>, ids: seq<int>, k: int, o: Order)
    requires OrderTable(orders, ids) && k in orders
    ensures OrderTable(orders[k := o], ids)
  {
  }

  /** Every listed key is a key of the table. */
  predicate Listed(orders: map<int, Order>, ids: seq<int>)
  {
    forall i :: 0 <= i < |ids| ==> ids[i] in orders
  }

  /** The order carries broker id `orderId`: `"id" in order and order["id"] == order_id`. */
  predicate Carries(o: Order, orderId: Json)
  {
    o.id == Some(orderId)
  }

  /** The position, from `from` on, of the first order (in insertion order) carrying `orderId`. */
  function FirstCarrying(orders: map<int, Order>, ids: seq<int>, orderId: Json, from: nat): (r: Option<nat>)
    requires Listed(orders, ids)
    ensures r.Some? ==> from <= r.value < |ids|
    decreases |ids| - from
  {
    if from >= |ids| then None
    else if Carries(orders[ids[from]], orderId) then Some(from)
    else FirstCarrying(orders, ids, orderId, from + 1)
  }

  /** The scan finds the first carrier at or after `from`, and None means there is none. */
  lemma {:induction false} FirstCarryingIsFirst(orders: map<int, Order>, ids: seq<int>, orderId: Json, from: nat)
    requires Listed(orders, ids)
    ensures var r := FirstCarrying(orders, ids, orderId, from);
            && (r.Some? ==> from <= r.value < |ids| && Carries(orders[ids[r.value]], orderId))
            && (forall j :: from <= j < |ids| && (r.None? || j < r.value) ==> !Carries(orders[ids[j]], orderId))
    decreases |ids| - from
  {
    if from < |ids| && !Carries(orders[ids[from]], orderId) {
      FirstCarryingIsFirst(orders, ids, orderId, from + 1);
    }
  }

  /**
   * `get_request_id_from_order_id`: the `request.requestId` of the first
   * order carrying broker id `orderId`, None when no order carries it (or when
   * `orderId` is None); it raises when that order has no request, or the
   * request no `requestId`.
   */
  function RequestIdFor(orders: map<int, Order>, ids: seq<int>, orderId: Json): (r: Outcome<Json>)
    requires Listed(orders, ids)
  {
    if orderId == JNull then Returned(JNull)
    else match FirstCarrying(orders, ids, orderId, 0)
      case None => Returned(JNull)
      case Some(i) =>
        var o := orders[ids[i]];
        if o.request.None? then Raised
        else match Get(o.request.value, "requestId")
          case None => Raised
          case Some(rid) => Returned(rid)
  }

  /** The reverse lookup answers None exactly when no order carries the broker id. */
  lemma RequestIdForMissing(orders: map<int, Order>, ids: seq<int>, orderId: Json)
    requires OrderTable(orders, ids)
    requires orderId != JNull
    ensures (forall k :: k in orders ==> !Carries(orders[k], orderId)) <==> FirstCarrying(orders, ids, orderId, 0).None?
    ensures (forall k :: k in orders ==> !Carries(orders[k], orderId)) ==> RequestIdFor(orders, ids, orderId) == Returned(JNull)
  {
    FirstCarryingIsFirst(orders, ids, orderId, 0);
    if FirstCarrying(orders, ids, orderId, 0).None? {
      forall k | k in orders ensures !Carries(orders[k], orderId) {
        var j :| 0 <= j < |ids| && ids[j] == k;
      }
    }
  }

  /**
   * `get_order_by_id` as written: `for request_id, order in self.orders`
   * iterates the keys alone, and unpacking an integer key raises TypeError,
   * so a broker-id lookup raises as soon as the table is not empty.
   */
  function OrderByIdAsWritten(orders: map<int, Order>, orderId: Json, requestId: Option<int>): (r: Outcome<Option<Order>>)
    ensures requestId.None? ==> r == Raised || r == Returned(None)
    ensures r == Raised <==> orderId != JNull && orders != map[]
  {
    if orderId != JNull then (if orders == map[] then Returned(None) else Raised)
    else if requestId.Some? && requestId.value in orders then Returned(Some(orders[requestId.value]))
    else Returned(None)
  }

  /** A table with one order carrying broker id 7: as written the lookup raises, the intended scan finds it. */
  lemma OrderByIdAsWrittenRaises()
    ensures var o := Order(Some(JObj(map["requestId" := JNum(5.0)])), Some(JNum(7.0)), None, None, None);
            && OrderByIdAsWritten(map[5 := o], JNum(7.0), None) == Raised
            && FirstCarrying(map[5 := o], [5], JNum(7.0), 0) == Some(0)
            && RequestIdFor(map[5 := o], [5], JNum(7.0)) == Returned(JNum(5.0))
  {
    var o := Order(Some(JObj(map["requestId" := JNum(5.0)])), Some(JNum(7.0)), None, None, None);
    assert 5 in map[5 := o];
  }

  /** A request id draw: `get_timestamp()` and `randint(1, 100)`. */
  function Candidate(draw: (int, int)): int
  {
    draw.0 + draw.1
  }

  // ---------------------------------------------------------------------------
  // Pushed state records

  /** A realtime tick as stored in `realtime_price[asset]`. */
  datatype TickPoint = TickPoint(time: Json, price: Json)

  /** A sentiment snapshot as stored in `realtime_sentiment[asset]`. */
  datatype Sentiment = Sentiment(sell: int, buy: int)

  /** The dict stored under `signal_data[asset][time]`; a field is None until written. */
  datatype SignalFields = SignalFields(dir: Option<Json>, duration: Option<Json>)

  /** One call of `listinfodata.set(win, game_state, id)`; what ListInfoData does with it is not modelled. */
  datatype ListInfoCall = ListInfoCall(win: bool, gameState: int, id: Json)

  // ---------------------------------------------------------------------------
  // Outbound frames

  function ActionOf(o: Outgoing): string
  {
    match o
    case Event(a, _) => a
    case Control(t) => t
  }

  function Actions(frames: seq<Outgoing>): (r: seq<string>)
    ensures |r| == |frames|
    ensures forall i :: 0 <= i < |frames| ==> r[i] == ActionOf(frames[i])
  {
    if frames == [] then [] else [ActionOf(frames[0])] + Actions(frames[1..])
  }

  const TickCommand: Outgoing := Event("tick", NoPayload)

  /** `subscribe_realtime_candle`'s frame. */
  function CandleSubscription(asset: Json, period: Json): Outgoing
  {
    Event("instruments/update", Encoded(JObj(map["asset" := asset, "period" := period])))
  }

  /** `get_chart_notifications`'s frame. */
  function ChartNotificationRequest(asset: Json, version: string): Outgoing
  {
    Event("chart_notification/get", Encoded(JObj(map["asset" := asset, "version" := JStr(version)])))
  }

  /**
   * `"_otc" in asset` on a Python value: substring for a string, membership
   * for a list or a dict; None, numbers and bools raise TypeError.
   */
  function OtcIn(asset: Json): (r: Option<bool>)
    ensures asset.JStr? ==> r == Some(IsOtc(asset.s))
    ensures r.None? <==> asset.JNull? || asset.JNum? || asset.JBool?
  {
    match asset
    case JStr(s) => Some(IsOtc(s))
    case JArr(items) => Some(JStr("_otc") in items)
    case JObj(fields) => Some("_otc" in fields)
    case _ => None
  }

  /** The current asset as a Python value: its name, or None. */
  function AssetJson(a: Option<string>): (r: Json)
    ensures r == JNull <==> a.None?
    ensures a.Some? ==> r == JStr(a.value)
    ensures Hashable(r)
  {
    if a.Some? then JStr(a.value) else JNull
  }

  /** The chart settings `switch_to_asset` sends whatever the asset: everything but the three fields below. */
  const FixedChartSettings: map<string, Json> := map[
    "chartId" := JStr("graph"),
    "chartType" := JNum(2.0),
    "isFastOption" := JBool(false),
    "isFastAmountOption" := JBool(false),
    "isIndicatorsMinimized" := JBool(false),
    "isIndicatorsShowing" := JBool(true),
    "isShortBetElement" := JBool(false),
    "chartPeriod" := JNum(4.0),
    "dealValue" := JNum(1.0),
    "dealPercentValue" := JNum(1.0),
    "isVisible" := JBool(true),
    "gridOpacity" := JNum(8.0),
    "isAutoScrolling" := JNum(1.0),
    "isOneClickTrade" := JBool(true),
    "upColor" := JStr("#0FAF59"),
    "downColor" := JStr("#FF6251")
  ]

  /** The chart settings `switch_to_asset` stores, with `expTime` as the current expiration time. */
  function SettingsStorePayload(asset: Json, duration: Json, expTime: Json): Json
  {
    var settings := FixedChartSettings["currentExpirationTime" := expTime]
                                      ["currentAsset" := JObj(map["symbol" := asset])]
                                      ["timePeriod" := duration];
    JObj(map["chartId" := JStr("graph"), "settings" := JObj(settings)])
  }

  /** The stored settings name the asset, the duration and the expiration, beside the fixed ones. */
  lemma SettingsStoreFields(asset: Json, duration: Json, expTime: Json)
    ensures SettingsStorePayload(asset, duration, expTime).JObj? && SettingsStorePayload(asset, duration, expTime).fields.Keys == {"chartId", "settings"}
    ensures var s := SettingsStorePayload(asset, duration, expTime).fields["settings"];
            && s.JObj?
            && s.fields.Keys == FixedChartSettings.Keys + {"currentExpirationTime", "currentAsset", "timePeriod"}
            && s.fields["currentExpirationTime"] == expTime
            && s.fields["timePeriod"] == duration
            && s.fields["currentAsset"] == JObj(map["symbol" := asset])
  {
  }

  /**
   * The expiration `switch_to_asset` stores: the duration itself for an OTC
   * asset, otherwise `expirationTime(int(server_timestamp), duration)`, where
   * `expirationTime` stands for `get_expiration_time_quotex`. None when a step
   * raises: the `"_otc"` test on an asset that is None, or `int()` on a server
   * timestamp that is still None.
   */
  function ExpirationFor(asset: Json, duration: Json, serverTimestamp: Json, expirationTime: (int, Json) -> int): (r: Option<Json>)
    ensures r.None? <==> OtcIn(asset).None? || (OtcIn(asset) == Some(false) && PyInt(serverTimestamp).None?)
    ensures OtcIn(asset) == Some(true) ==> r == Some(duration)
    ensures OtcIn(asset) == Some(false) && PyInt(serverTimestamp).Some? ==>
              r == Some(JNum(expirationTime(PyInt(serverTimestamp).value, duration) as real))
  {
    match OtcIn(asset)
    case None => None
    case Some(otc) =>
      if otc then Some(duration)
      else match PyInt(serverTimestamp)
        case None => None
        case Some(ts) => Some(JNum(expirationTime(ts, duration) as real))
  }

  /**
   * The `time` of an order (`Buy`): the duration for an OTC asset, otherwise
   * the expiration computed from the server clock; None when `int()` raises
   * on a server timestamp that is still None.
   */
  function OrderExpiry(asset: string, duration: int, serverTimestamp: Json, expirationTime: (int, Json) -> int): (r: Option<int>)
    ensures r.None? <==> !IsOtc(asset) && PyInt(serverTimestamp).None?
    ensures IsOtc(asset) ==> r == Some(duration)
    ensures r.Some? ==> ExpirationFor(JStr(asset), JNum(duration as real), serverTimestamp, expirationTime) == Some(JNum(r.value as real))
  {
    if IsOtc(asset) then Some(duration)
    else match PyInt(serverTimestamp)
      case None => None
      case Some(ts) => Some(expirationTime(ts, JNum(duration as real)))
  }

  /** `switch_to_asset`'s frame, storing `expTime` as the chart's expiration. */
  function SettingsStore(asset: Json, duration: Json, expTime: Json): Outgoing
  {
    Event("settings/store", Encoded(SettingsStorePayload(asset, duration, expTime)))
  }

  /** The first five frames of `simulate_asset_switch`, sent before the expiration is needed. */
  function AssetSwitchOpening(asset: string, duration: int, version: string): seq<Outgoing>
  {
    var a, d := JStr(asset), JNum(duration as real);
    [ TickCommand,
      CandleSubscription(a, d),
      ChartNotificationRequest(a, version),
      Event("depth/unfollow", Verbatim(asset)),
      Event("depth/follow", Verbatim(asset))
    ]
  }

  /** The six frames of `simulate_asset_switch`. */
  function AssetSwitchFrames(asset: string, duration: int, version: string, expTime: Json): seq<Outgoing>
  {
    AssetSwitchOpening(asset, duration, version) + [SettingsStore(JStr(asset), JNum(duration as real), expTime)]
  }

  /** Every frame `Buy` sends: the asset switch, a tick, and the order itself. */
  function OrderFrames(price: real, asset: string, direction: string, duration: int, requestId: int,
                       tournamentId: int, accountType: Json, expiry: int): seq<Outgoing>
  {
    AssetSwitchFrames(asset, duration, "1.0.0", JNum(expiry as real)) +
      [TickCommand, Event(BuyAction(tournamentId), Encoded(BuyPayload(price, asset, direction, duration, expiry, requestId, tournamentId, accountType)))]
  }

  /**
   * An asset switch is exactly tick, instruments/update, chart_notification/get,
   * depth/unfollow, depth/follow and settings/store; for an OTC asset the
   * stored expiration is the duration itself, whatever the server clock says.
   */
  lemma AssetSwitchShape(asset: string, duration: int, version: string, serverTimestamp: Json, expirationTime: (int, Json) -> int)
    requires IsOtc(asset)
    ensures var frames := AssetSwitchFrames(asset, duration, version,
                                            ExpirationFor(JStr(asset), JNum(duration as real), serverTimestamp, expirationTime).value);
            && Actions(frames) == ["tick", "instruments/update", "chart_notification/get",
                                   "depth/unfollow", "depth/follow", "settings/store"]
            && frames[5].payload.Encoded?
            && frames[5].payload.value.fields["settings"].fields["currentExpirationTime"] == JNum(duration as real)
  {
    var a, d := JStr(asset), JNum(duration as real);
    assert OtcIn(a) == Some(true);
    var expTime := ExpirationFor(a, d, serverTimestamp, expirationTime).value;
    var frames := AssetSwitchFrames(asset, duration, version, expTime);
    SettingsStoreFields(a, d, expTime);
    assert frames[5] == SettingsStore(a, d, expTime);
  }

  // ---------------------------------------------------------------------------
  // Connection decision

  const ConnectionFailed: Json := JStr("Websocket connection failed.")
  const ConnectionSucceeded: Json := JStr("Websocket connection successful!")
  const TokenRejected: Json := JStr("Websocket token rejected.")

  /**
   * One pass of the polling loop in `start_websocket`: an error wins, then a
   * closed connection, then an open one, then a rejected token; None means
   * none of them has happened yet and the loop polls again.
   */
  function StartVerdict(error: bool, reason: Json, connect: Option<int>, rejected: int): (r: Option<(bool, Json)>)
    ensures error ==> r == Some((false, reason))
    ensures r.Some? && !r.value.0 <==> error || connect == Some(0)
    ensures r == Some((true, ConnectionSucceeded)) <==> !error && connect == Some(1)
    ensures r == Some((true, TokenRejected)) <==> !error && connect != Some(0) && connect != Some(1) && rejected == 1
    ensures r.None? <==> !error && connect != Some(0) && connect != Some(1) && rejected != 1
  {
    if error then Some((false, reason))
    else if connect == Some(0) then Some((false, ConnectionFailed))
    else if connect == Some(1) then Some((true, ConnectionSucceeded))
    else if rejected == 1 then Some((true, TokenRejected))
    else None
  }

  /** The names the settings document uses for the profile fields `get_profile` copies. */
  predicate HasProfileFields(d: Json)
  {
    && d.JObj?
    && "nickname" in d.fields && "id" in d.fields && "demoBalance" in d.fields && "liveBalance" in d.fields
    && "avatar" in d.fields && "country" in d.fields && "countryName" in d.fields && "countryIp" in d.fields
    && "lang" in d.fields && "timeOffset" in d.fields && "minDealAmount" in d.fields
    && "currencyCode" in d.fields && "currencySymbol" in d.fields && "profileLevel" in d.fields
  }

  // ---------------------------------------------------------------------------
  // Module-level flags

  /** The `global_value` module: flags shared by the socket callbacks and the caller. */
  class Globals {
    var ssid: Json
    var checkWebsocketIfConnect: Option<int>
    var checkWebsocketIfError: bool
    var websocketErrorReason: Json
    var checkRejectedConnection: int
    var checkAcceptedConnection: int
    var startedListenInstruments: bool
    var sslMutualExclusion: bool

    constructor ()
      ensures ssid == JNull && checkWebsocketIfConnect.None? && !checkWebsocketIfError
      ensures websocketErrorReason == JNull && checkRejectedConnection == 0 && checkAcceptedConnection == 0
      ensures !startedListenInstruments && !sslMutualExclusion
    {
      ssid := JNull;
      checkWebsocketIfConnect := None;
      checkWebsocketIfError := false;
      websocketErrorReason := JNull;
      checkRejectedConnection := 0;
      checkAcceptedConnection := 0;
      startedListenInstruments := false;
      sslMutualExclusion := false;
    }
  }

  // ---------------------------------------------------------------------------
  // The client state

  class QuotexApi {
    var sent: seq<Outgoing>
    var orders: map<int, Order>
    var orderIds: seq<int>
    var accountType: Json
    var currentAsset: Option<string>
    var currentPeriod: Json
    var serverTimestamp: Json
    var wssMessage: Json
    var instruments: Json
    var accountBalance: Json
    var candlesData: Json
    var buySuccessful: Json
    var buyId: Json
    var soldOptionsRespond: Json
    var profitInOperation: Json
    var trainingBalanceEditRequest: Json
    var listInfo: seq<ListInfoCall>
    var signalData: map<Json, map<Json, SignalFields>>
    var realtimePrice: map<Json, seq<TickPoint>>
    var realtimeSentiment: map<Json, Sentiment>
    var candleV2Data: map<Json, Json>
    var settingsList: Json
    var tempStatus: string
    var timezoneOffset: Json
    const profile: Profile

    ghost predicate Valid()
      reads this`orders, this`orderIds
    {
      OrderTable(orders, orderIds)
    }

    constructor ()
      ensures Valid() && fresh(profile)
      ensures sent == [] && orders == map[] && orderIds == [] && listInfo == []
      ensures signalData == map[] && realtimePrice == map[] && realtimeSentiment == map[] && candleV2Data == map[]
      ensures settingsList == JObj(map[]) && tempStatus == "" && timezoneOffset == JNum(0.0)
      ensures currentAsset.None?
      ensures accountType == currentPeriod == serverTimestamp == wssMessage == instruments == JNull
      ensures accountBalance == candlesData == buySuccessful == buyId == JNull
      ensures soldOptionsRespond == profitInOperation == trainingBalanceEditRequest == JNull
    {
      sent, orders, orderIds, listInfo := [], map[], [], [];
      signalData, realtimePrice, realtimeSentiment, candleV2Data := map[], map[], map[], map[];
      settingsList, tempStatus, timezoneOffset := JObj(map[]), "", JNum(0.0);
      currentAsset := None;
      accountType, currentPeriod, serverTimestamp, wssMessage, instruments := JNull, JNull, JNull, JNull, JNull;
      accountBalance, candlesData, buySuccessful, buyId := JNull, JNull, JNull, JNull;
      soldOptionsRespond, profitInOperation, trainingBalanceEditRequest := JNull, JNull, JNull;
      profile := new Profile();
    }

    /** `send_wss_payload`: one command frame goes out (framed as intended). */
    method SendWssPayload(action: string, payload: Payload)
      modifies this`sent
      ensures sent == old(sent) + [Event(action, payload)]
    {
      sent := sent + [Event(action, payload)];
    }

    method Tick()
      modifies this`sent
      ensures sent == old(sent) + [TickCommand]
    {
      SendWssPayload("tick", NoPayload);
    }

    /**
     * Resets the asset's tick list to empty, then subscribes to its candles.
     * An asset that cannot be a dict key raises first (ok false, nothing changes).
     */
    method SubscribeRealtimeCandle(asset: Json, period: Json) returns (ok: bool)
      modifies this`realtimePrice, this`sent
      ensures ok <==> Hashable(asset)
      ensures ok ==> realtimePrice == old(realtimePrice)[asset := []] && sent == old(sent) + [CandleSubscription(asset, period)]
      ensures !ok ==> realtimePrice == old(realtimePrice) && sent == old(sent)
    {
      if !Hashable(asset) {
        return false;
      }
      realtimePrice := realtimePrice[asset := []];
      SendWssPayload("instruments/update", Encoded(JObj(map["asset" := asset, "period" := period])));
      ok := true;
    }

    method FollowAsset(asset: Json)
      modifies this`sent
      ensures sent == old(sent) + [Event("instruments/follow", PayloadOf(asset))]
    {
      SendWssPayload("instruments/follow", PayloadOf(asset));
    }

    method FollowCandle(asset: Json)
      modifies this`sent
      ensures sent == old(sent) + [Event("depth/follow", PayloadOf(asset))]
    {
      SendWssPayload("depth/follow", PayloadOf(asset));
    }

    method UnfollowCandle(asset: Json)
      modifies this`sent
      ensures sent == old(sent) + [Event("depth/unfollow", PayloadOf(asset))]
    {
      SendWssPayload("depth/unfollow", PayloadOf(asset));
    }

    method GetChartNotifications(asset: Json, version: string := "1.0.0")
      modifies this`sent
      ensures sent == old(sent) + [ChartNotificationRequest(asset, version)]
    {
      SendWssPayload("chart_notification/get", Encoded(JObj(map["asset" := asset, "version" := JStr(version)])));
    }

    /**
     * `switch_to_asset`: stores the chart settings for the asset. Nothing is
     * sent (ok false) when the expiration cannot be computed.
     */
    method SwitchToAsset(asset: Json, duration: Json, expirationTime: (int, Json) -> int) returns (ok: bool)
      modifies this`sent
      ensures var expTime := ExpirationFor(asset, duration, serverTimestamp, expirationTime);
              && (ok <==> expTime.Some?)
              && (ok ==> sent == old(sent) + [SettingsStore(asset, duration, expTime.value)])
              && (!ok ==> sent == old(sent))
    {
      var expTime := ExpirationFor(asset, duration, serverTimestamp, expirationTime);
      if expTime.None? {
        return false;
      }
      SendWssPayload("settings/store", Encoded(SettingsStorePayload(asset, duration, expTime.value)));
      ok := true;
    }

    /**
     * `simulate_asset_switch`: the six frames a browser sends when the user
     * picks an asset. When the expiration cannot be computed the last step
     * raises after the first five frames are out (ok false).
     */
    method SimulateAssetSwitch(asset: string, expirationTime: (int, Json) -> int, duration: int := 60, version: string := "1.0.0")
      returns (ok: bool)
      modifies this`sent, this`realtimePrice
      ensures var expTime := ExpirationFor(JStr(asset), JNum(duration as real), serverTimestamp, expirationTime);
              && (ok <==> expTime.Some?)
              && (ok ==> sent == old(sent) + AssetSwitchFrames(asset, duration, version, expTime.value))
              && (!ok ==> sent == old(sent) + AssetSwitchOpening(asset, duration, version))
      ensures realtimePrice == old(realtimePrice)[JStr(asset) := []]
    {
      var a, d := JStr(asset), JNum(duration as real);
      Tick();
      var subscribed := SubscribeRealtimeCandle(a, d);
      GetChartNotifications(a, version);
      UnfollowCandle(a);
      FollowCandle(a);
      assert sent == old(sent) + AssetSwitchOpening(asset, duration, version);
      ok := SwitchToAsset(a, d, expirationTime);
    }

    /** `change_account_type`: records the mode and tells the broker. */
    method ChangeAccountType(accountType': Json)
      modifies this`accountType, this`sent
      ensures accountType == accountType'
      ensures sent == old(sent) + [Event("account/change", Encoded(JObj(map["demo" := accountType', "tournamentId" := JNum(0.0)])))]
    {
      accountType := accountType';
      SendWssPayload("account/change", Encoded(JObj(map["demo" := accountType, "tournamentId" := JNum(0.0)])));
    }

    /**
     * `generate_request_id`: a timestamp plus a random 1..100, drawn again
     * while the result is already a key of the order table. `draws` are the
     * successive (timestamp, random) pairs; the source draws for ever, the
     * model gives up (None) when the draws run out.
     */
    method GenerateRequestId(draws: seq<(int, int)>) returns (r: Option<int>)
      requires forall i :: 0 <= i < |draws| ==> 1 <= draws[i].1 <= 100
      ensures r.Some? ==> r.value !in orders
      ensures r.Some? ==> exists i :: 0 <= i < |draws| && r.value == Candidate(draws[i]) &&
                            draws[i].0 < r.value <= draws[i].0 + 100 &&
                            forall j :: 0 <= j < i ==> Candidate(draws[j]) in orders
      ensures r.None? <==> forall i :: 0 <= i < |draws| ==> Candidate(draws[i]) in orders
    {
      var i := 0;
      while i < |draws|
        invariant 0 <= i <= |draws|
        invariant forall j :: 0 <= j < i ==> Candidate(draws[j]) in orders
      {
        var id := Candidate(draws[i]);
        if id !in orders {
          return Some(id);
        }
        i := i + 1;
      }
      return None;
    }

    /**
     * `get_order_by_id` as intended: a broker id, when given, wins and finds
     * the first order (in insertion order) that carries it; otherwise the
     * request id is looked up directly; with neither there is no order.
     */
    method GetOrderById(orderId: Json := JNull, requestId: Option<int> := None) returns (r: Option<Order>)
      requires Valid()
      ensures orderId != JNull ==> (r.None? <==> forall k :: k in orders ==> !Carries(orders[k], orderId))
      ensures orderId != JNull && r.Some? ==>
                exists i :: 0 <= i < |orderIds| && r.value == orders[orderIds[i]] && Carries(r.value, orderId) &&
                  forall j :: 0 <= j < i ==> !Carries(orders[orderIds[j]], orderId)
      ensures orderId == JNull && requestId.Some? && requestId.value in orders ==> r == Some(orders[requestId.value])
      ensures orderId == JNull && (requestId.None? || requestId.value !in orders) ==> r.None?
    {
      if orderId != JNull {
        var i := 0;
        while i < |orderIds|
          invariant 0 <= i <= |orderIds|
          invariant forall j :: 0 <= j < i ==> !Carries(orders[orderIds[j]], orderId)
        {
          var o := orders[orderIds[i]];
          if o.id == Some(orderId) {
            ghost var k := orderIds[i];
            assert k in orders && Carries(orders[k], orderId);
            assert !(forall k :: k in orders ==> !Carries(orders[k], orderId));
            assert 0 <= i < |orderIds| && o == orders[orderIds[i]];
            return Some(o);
          }
          i := i + 1;
        }
        forall k | k in orders ensures !Carries(orders[k], orderId) {
          var j :| 0 <= j < |orderIds| && orderIds[j] == k;
        }
        return None;
      } else if requestId.Some? {
        return if requestId.value in orders then Some(orders[requestId.value]) else None;
      }
      return None;
    }

    /** `get_request_id_from_order_id`: the request id the first carrier of `orderId` was placed under. */
    method GetRequestIdFromOrderId(orderId: Json) returns (r: Outcome<Json>)
      requires Valid()
      ensures r == RequestIdFor(orders, orderIds, orderId)
    {
      var order := GetOrderById(orderId);
      if order.None? {
        if orderId != JNull {
          RequestIdForMissing(orders, orderIds, orderId);
        }
        return Returned(JNull);
      }
      FirstCarryingIsFirst(orders, orderIds, orderId, 0);
      var first := FirstCarrying(orders, orderIds, orderId, 0);
      if first.None? {
        RequestIdForMissing(orders, orderIds, orderId);
        assert false;
      }
      var i :| 0 <= i < |orderIds| && order.value == orders[orderIds[i]] && Carries(order.value, orderId) &&
               forall j :: 0 <= j < i ==> !Carries(orders[orderIds[j]], orderId);
      assert i == first.value by {
        if i < first.value {
          assert false;
        } else if i > first.value {
          assert false;
        }
      }
      if order.value.request.None? {
        return Raised;
      }
      var rid := Get(order.value.request.value, "requestId");
      r := if rid.None? then Raised else Returned(rid.value);
    }

    /**
     * The profile and `timezone_offset` after a successful `get_profile` from
     * the settings `d`, where the profile held currency `currency` and
     * minimum `minimum` before: every field is the settings value, and the
     * currency and minimum follow the BRL rule in the currency-first order.
     */
    predicate ProfileCopied(d: map<string, Json>, currency: Json, minimum: Json)
      reads this`timezoneOffset, profile
    {
      && "nickname" in d && "id" in d && "demoBalance" in d && "liveBalance" in d && "avatar" in d
      && "country" in d && "countryName" in d && "countryIp" in d && "lang" in d && "timeOffset" in d
      && "currencySymbol" in d && "profileLevel" in d && "currencyCode" in d && "minDealAmount" in d
      && profile.nickName == d["nickname"] && profile.profileId == d["id"]
      && profile.demoBalance == d["demoBalance"] && profile.liveBalance == d["liveBalance"]
      && profile.avatar == d["avatar"] && profile.country == d["country"]
      && profile.countryName == d["countryName"] && profile.countryIp == d["countryIp"]
      && profile.lang == d["lang"] && profile.timeOffset == d["timeOffset"]
      && timezoneOffset == profile.timeOffset
      && profile.currencySymbol == d["currencySymbol"] && profile.profileLevel == d["profileLevel"]
      && CopyCurrencyThenMinimum(Pair(currency, minimum), d["currencyCode"], d["minDealAmount"])
           == Returned(Pair(profile.currencyCode, profile.minimumAmount))
    }

    /**
     * `get_profile`: unless a profile id is already known and `force` is off,
     * copies the settings document into the profile, field by field, and the
     * time offset into `timezone_offset`. The currency code is copied before
     * the minimum amount, so the minimum follows the new currency. A missing
     * field or a currency code that is not a string raises (ok false).
     */
    method GetProfile(profileData: Json, force: bool := true) returns (ok: bool)
      modifies profile, this`timezoneOffset
      ensures !force && Truthy(old(profile.profileId)) ==> ok && unchanged(profile) && timezoneOffset == old(timezoneOffset)
      ensures force || !Truthy(old(profile.profileId)) ==>
                (ok <==> HasProfileFields(profileData) && profileData.fields["currencyCode"].JStr?)
      ensures (force || !Truthy(old(profile.profileId))) && ok ==>
                ProfileCopied(profileData.fields, old(profile.currencyCode), old(profile.minimumAmount))
      ensures profile.msg == old(profile.msg)
    {
      if !force && Truthy(profile.profileId) {
        return true;
      }
      ok := CopyIdentity(profileData);
      if !ok {
        return;
      }
      ok := CopyCurrency(profileData);
    }

    /** The first ten copies of `get_profile`, up to the time offset; false at the first missing field. */
    method CopyIdentity(d: Json) returns (ok: bool)
      modifies profile`nickName, profile`profileId, profile`demoBalance, profile`liveBalance, profile`avatar,
               profile`country, profile`countryName, profile`countryIp, profile`lang, profile`timeOffset,
               this`timezoneOffset
      ensures ok <==> d.JObj? && "nickname" in d.fields && "id" in d.fields && "demoBalance" in d.fields
                      && "liveBalance" in d.fields && "avatar" in d.fields && "country" in d.fields
                      && "countryName" in d.fields && "countryIp" in d.fields && "lang" in d.fields
                      && "timeOffset" in d.fields
      ensures ok ==> && profile.nickName == d.fields["nickname"] && profile.profileId == d.fields["id"]
                     && profile.demoBalance == d.fields["demoBalance"] && profile.liveBalance == d.fields["liveBalance"]
                     && profile.avatar == d.fields["avatar"] && profile.country == d.fields["country"]
                     && profile.countryName == d.fields["countryName"] && profile.countryIp == d.fields["countryIp"]
                     && profile.lang == d.fields["lang"] && profile.timeOffset == d.fields["timeOffset"]
                     && timezoneOffset == d.fields["timeOffset"]
    {
      ok := false;
      if Get(d, "nickname").None? { return; }
      profile.nickName := d.fields["nickname"];
      if Get(d, "id").None? { return; }
      profile.profileId := d.fields["id"];
      if Get(d, "demoBalance").None? { return; }
      profile.demoBalance := d.fields["demoBalance"];
      if Get(d, "liveBalance").None? { return; }
      profile.liveBalance := d.fields["liveBalance"];
      if Get(d, "avatar").None? { return; }
      profile.avatar := d.fields["avatar"];
      if Get(d, "country").None? { return; }
      profile.country := d.fields["country"];
      if Get(d, "countryName").None? { return; }
      profile.countryName := d.fields["countryName"];
      if Get(d, "countryIp").None? { return; }
      profile.countryIp := d.fields["countryIp"];
      if Get(d, "lang").None? { return; }
      profile.lang := d.fields["lang"];
      if Get(d, "timeOffset").None? { return; }
      profile.timeOffset := d.fields["timeOffset"];
      timezoneOffset := d.fields["timeOffset"];
      ok := true;
    }

    /**
     * The last four copies of `get_profile`, currency code first: false at the
     * first missing field or when the code is not a string.
     */
    method CopyCurrency(d: Json) returns (ok: bool)
      requires d.JObj?
      modifies profile`currencyCode, profile`minimumAmount, profile`currencySymbol, profile`profileLevel
      ensures ok <==> && "currencyCode" in d.fields && d.fields["currencyCode"].JStr? && "minDealAmount" in d.fields
                      && "currencySymbol" in d.fields && "profileLevel" in d.fields
      ensures ok ==> && profile.currencySymbol == d.fields["currencySymbol"] && profile.profileLevel == d.fields["profileLevel"]
                     && CopyCurrencyThenMinimum(Pair(old(profile.currencyCode), old(profile.minimumAmount)),
                                                d.fields["currencyCode"], d.fields["minDealAmount"])
                          == Returned(Pair(profile.currencyCode, profile.minimumAmount))
    {
      ok := false;
      if Get(d, "currencyCode").None? { return; }
      var codeOk := profile.SetCurrencyCode(d.fields["currencyCode"]);
      if !codeOk { return; }
      if Get(d, "minDealAmount").None? { return; }
      var stored := profile.SetMinimumAmount(d.fields["minDealAmount"]);
      if Get(d, "currencySymbol").None? { return; }
      profile.currencySymbol := d.fields["currencySymbol"];
      if Get(d, "profileLevel").None? { return; }
      profile.profileLevel := d.fields["profileLevel"];
      ok := true;
    }

    /** The flag reset at the start of `start_websocket`. */
    method ResetConnectionFlags(g: Globals)
      modifies g`checkWebsocketIfConnect, g`checkWebsocketIfError, g`websocketErrorReason
      ensures g.checkWebsocketIfConnect.None? && !g.checkWebsocketIfError && g.websocketErrorReason == JNull
    {
      g.checkWebsocketIfConnect := None;
      g.checkWebsocketIfError := false;
      g.websocketErrorReason := JNull;
    }

    /**
     * The decision in `start_websocket`'s polling loop, taken on the flags as
     * they stand; a rejected token also forgets the session token.
     */
    method ConnectionVerdict(g: Globals) returns (r: Option<(bool, Json)>)
      modifies g`ssid
      ensures r == StartVerdict(g.checkWebsocketIfError, g.websocketErrorReason, g.checkWebsocketIfConnect, g.checkRejectedConnection)
      ensures g.ssid == if r == Some((true, TokenRejected)) then JNull else old(g.ssid)
    {
      r := StartVerdict(g.checkWebsocketIfError, g.websocketErrorReason, g.checkWebsocketIfConnect, g.checkRejectedConnection);
      if r == Some((true, TokenRejected)) {
        g.ssid := JNull;
      }
    }

    /** The `Ssid` channel: one authorization frame carrying the session token. */
    method Ssid(ssid: Json)
      modifies this`sent
      ensures sent == old(sent) + [Event("authorization", Encoded(SsidPayload(ssid, accountType)))]
    {
      SendWssPayload("authorization", Encoded(JObj(map["session" := ssid, "isDemo" := accountType, "tournamentId" := JNum(0.0)])));
    }

    /**
     * `send_ssid`: clears the last message, then sends the token if there is
     * one and waits for `on_message` to store a reply. `reply` is what it
     * stored during the wait; JNull means nothing arrived before the timeout
     * (a JSON `null` frame stores None too, and the wait goes on).
     */
    method SendSsid(g: Globals, reply: Json) returns (ok: bool)
      modifies this`wssMessage, this`sent
      ensures !Truthy(g.ssid) ==> !ok && wssMessage == JNull && sent == old(sent)
      ensures Truthy(g.ssid) ==> wssMessage == reply && (ok <==> reply != JNull)
      ensures Truthy(g.ssid) ==> sent == old(sent) + [Event("authorization", Encoded(SsidPayload(g.ssid, accountType)))]
    {
      wssMessage := JNull;
      if !Truthy(g.ssid) {
        return false;
      }
      Ssid(g.ssid);
      wssMessage := reply;
      ok := reply != JNull;
    }

    /**
     * The `Buy` channel: computes the order's time first (raising, with
     * nothing sent, when the server clock is needed and unknown), switches to
     * the asset, sends a tick and the order, then records the order payload as
     * `orders[request_id]['request']`. An unknown request id raises after the
     * frames are sent (ok false).
     */
    method Buy(price: real, asset: string, direction: string, duration: int, requestId: int,
               expirationTime: (int, Json) -> int, tournamentId: int := 0) returns (ok: bool)
      requires Valid()
      modifies this`sent, this`realtimePrice, this`orders
      ensures Valid()
      ensures OrderExpiry(asset, duration, serverTimestamp, expirationTime).None? ==>
                !ok && sent == old(sent) && realtimePrice == old(realtimePrice)
      ensures OrderExpiry(asset, duration, serverTimestamp, expirationTime).Some? ==>
                sent == old(sent) + OrderFrames(price, asset, direction, duration, requestId, tournamentId, accountType,
                                                OrderExpiry(asset, duration, serverTimestamp, expirationTime).value)
      ensures OrderExpiry(asset, duration, serverTimestamp, expirationTime).Some? ==>
                realtimePrice == old(realtimePrice)[JStr(asset) := []]
      ensures OrderExpiry(asset, duration, serverTimestamp, expirationTime).Some? ==> (ok <==> requestId in old(orders))
      ensures ok ==> orders == old(orders)[requestId := old(orders)[requestId].(request := Some(BuyPayload(
                       price, asset, direction, duration, OrderExpiry(asset, duration, serverTimestamp, expirationTime).value,
                       requestId, tournamentId, accountType)))]
      ensures !ok ==> orders == old(orders)
    {
      var expiry := OrderExpiry(asset, duration, serverTimestamp, expirationTime);
      if expiry.None? {
        return false;
      }
      var switched := SimulateAssetSwitch(asset, expirationTime, duration);
      ok := PlaceOrder(BuyPayload(price, asset, direction, duration, expiry.value, requestId, tournamentId, accountType),
                       requestId, tournamentId);
    }

    /**
     * The second half of `Buy`: a tick, the order frame, and the payload
     * recorded under the request id (a KeyError, ok false, when the id is
     * not in the table).
     */
    method PlaceOrder(payload: Json, requestId: int, tournamentId: int) returns (ok: bool)
      requires Valid()
      modifies this`sent, this`orders
      ensures Valid()
      ensures sent == old(sent) + [TickCommand, Event(BuyAction(tournamentId), Encoded(payload))]
      ensures ok <==> requestId in old(orders)
      ensures ok ==> orders == old(orders)[requestId := old(orders)[requestId].(request := Some(payload))]
      ensures !ok ==> orders == old(orders)
    {
      Tick();
      SendWssPayload(BuyAction(tournamentId), Encoded(payload));
      if requestId !in orders {
        return false;
      }
      OrderTableRewrite(orders, orderIds, requestId, orders[requestId].(request := Some(payload)));
      orders := orders[requestId := orders[requestId].(request := Some(payload))];
      ok := true;
    }

    /**
     * The `PendingCreate` channel. Without an open time it first refreshes the
     * profile and takes `defaultOpenTime` (the local clock plus 65 seconds,
     * formatted); a failing refresh raises before anything is sent. Then it
     * switches to the asset and sends one pending/create frame; a switch that
     * raises stops it after the switch's first five frames.
     */
    method PendingCreate(asset: string, expirationTime: (int, Json) -> int, defaultOpenTime: Json, profileData: Json,
                         direction: string := "call", duration: int := 60, tradeAmount: real := 1.0,
                         openTime: Json := JNull, openPrice: Json := JNull) returns (ok: bool)
      modifies this`sent, this`realtimePrice, profile, this`timezoneOffset
      ensures openTime != JNull ==> unchanged(profile) && timezoneOffset == old(timezoneOffset)
      ensures openTime == JNull && HasProfileFields(profileData) && profileData.fields["currencyCode"].JStr? ==>
                ProfileCopied(profileData.fields, old(profile.currencyCode), old(profile.minimumAmount))
      ensures profile.msg == old(profile.msg)
      ensures var profiled := openTime != JNull || (HasProfileFields(profileData) && profileData.fields["currencyCode"].JStr?);
              var expTime := ExpirationFor(JStr(asset), JNum(duration as real), serverTimestamp, expirationTime);
              && (ok <==> profiled && expTime.Some?)
              && (!profiled ==> sent == old(sent) && realtimePrice == old(realtimePrice))
              && (profiled ==> realtimePrice == old(realtimePrice)[JStr(asset) := []])
              && (profiled && expTime.None? ==> sent == old(sent) + AssetSwitchOpening(asset, duration, "1.0.0"))
              && (ok ==> sent == old(sent) + AssetSwitchFrames(asset, duration, "1.0.0", expTime.value) +
                           [Event("pending/create", Encoded(PendingPayload(asset, direction, duration, tradeAmount,
                                                                            if openTime == JNull then defaultOpenTime else openTime, openPrice)))])
    {
      var at := openTime;
      if openTime == JNull {
        var profiled := GetProfile(profileData);
        if !profiled {
          return false;
        }
        at := defaultOpenTime;
      }
      ok := SimulateAssetSwitch(asset, expirationTime, duration);
      if !ok {
        return;
      }
      SendWssPayload("pending/create", Encoded(PendingPayload(asset, direction, duration, tradeAmount, at, openPrice)));
    }
  }
}
