/**
 * `WebsocketClient`: the socket callbacks. `OnMessage` is the inbound
 * dispatcher, one step per frame; the other callbacks set the connection
 * flags, and `OnOpen` replays a browser's warm-up requests.
 *
 * Each handler is a method proved against a function of the state it
 * updates. Any exception inside `on_message` is swallowed, so a handler that
 * raises part-way simply stops, keeping the writes made before the raise.
 */
module Client {
  import opened Values
  import opened Wire
  import opened Session
  import opened Dispatch

  // ---------------------------------------------------------------------------
  // Purchase confirmations

  /** What a purchase confirmation writes. */
  datatype Confirmation = Confirmation(orders: map<int, Order>, buySuccessful: Json, buyId: Json, serverTimestamp: Json)

  /**
   * The order a confirmation answers: the one whose request id equals the
   * message's `requestId` (as a number, so 5.0 finds order 5). None when
   * `orders[request_id]` raises.
   */
  function ConfirmedKey(orders: map<int, Order>, m: map<string, Json>): (r: Option<int>)
    ensures r.Some? ==> r.value in orders && GetOr(m, "requestId") == JNum(r.value as real)
    ensures r.None? <==> forall k :: k in orders ==> GetOr(m, "requestId") != JNum(k as real)
  {
    match KeyOf(GetOr(m, "requestId"))
    case None => None
    case Some(k) => if k in orders then Some(k) else None
  }

  /**
   * A `purchaseTime` message: the answered order records the broker id and
   * the message as its response; then `buy_successful`, `buy_id` and the
   * server clock are set, each step raising when its key is missing.
   */
  function Confirm(c: Confirmation, m: map<string, Json>): (r: Confirmation)
    ensures r.orders.Keys == c.orders.Keys
    ensures forall j :: j in c.orders && ConfirmedKey(c.orders, m) != Some(j) ==> r.orders[j] == c.orders[j]
    ensures ConfirmedKey(c.orders, m).None? ==> r == c
    ensures ConfirmedKey(c.orders, m).Some? ==>
              var k := ConfirmedKey(c.orders, m).value;
              && r.orders[k] == c.orders[k].(id := Some(GetOr(m, "id")), response := Some(JObj(m)))
              && r.buySuccessful == JObj(m)
              && r.buyId == (if "id" in m then m["id"] else c.buyId)
              && r.serverTimestamp == (if "id" in m && "closeTimestamp" in m then m["closeTimestamp"] else c.serverTimestamp)
  {
    match ConfirmedKey(c.orders, m)
    case None => c
    case Some(k) =>
      var orders := c.orders[k := c.orders[k].(id := Some(GetOr(m, "id")), response := Some(JObj(m)))];
      if "id" !in m then c.(orders := orders, buySuccessful := JObj(m))
      else if "closeTimestamp" !in m then Confirmation(orders, JObj(m), m["id"], c.serverTimestamp)
      else Confirmation(orders, JObj(m), m["id"], m["closeTimestamp"])
  }

  // ---------------------------------------------------------------------------
  // The dispatch of a decoded dict

  /**
   * The branch a decoded value selects. A value that is not a dict raises at
   * the first `.get`, before any branch writes, which is what `Other` does.
   */
  function Branch(value: Json): (r: Kind)
    ensures value.JObj? ==> r == Classify(value.fields)
    ensures r != Other ==> value.JObj?
  {
    if value.JObj? then Classify(value.fields) else Other
  }

  /** The value the dispatcher works on: the decoded one, or None (which selects no branch) for a raw frame. */
  function DispatchedValue(msg: Msg): (r: Json)
    ensures msg.Raw? ==> Branch(r) == Other
    ensures msg.Parsed? ==> r == msg.value
  {
    if msg.Parsed? then msg.value else JNull
  }

  /** The account balance an error reply `not_money` leaves behind. */
  const NoMoney: Json := JObj(map["liveBalance" := JNum(0.0)])

  /** The `signals` branch: the loop over `message["signals"]`, stamped with `message.get("time")`. */
  function SignalsUpdate(data: SignalTable, m: map<string, Json>): SignalTable
  {
    match Elements(GetOr(m, "signals"))
    case None => data
    case Some(entries) => SignalsFold(data, entries, GetOr(m, "time")).0
  }

  /** The `deals` branch: the loop over `message["deals"]`. */
  function DealsUpdate(ids: seq<int>, l: Ledger, m: map<string, Json>): Ledger
    requires Listed(l.orders, ids)
  {
    match Elements(GetOr(m, "deals"))
    case None => l
    case Some(deals) => SettleDeals(ids, l, deals).0
  }

  /** The state the dispatch of a decoded dict writes: api fields and the two error flags. */
  datatype Replies = Replies(
    signalData: SignalTable, accountBalance: Json, candlesData: Json,
    orders: map<int, Order>, buySuccessful: Json, buyId: Json, serverTimestamp: Json,
    soldOptionsRespond: Json, listInfo: seq<ListInfoCall>, profitInOperation: Json,
    trainingBalanceEditRequest: Json, errorReason: Json, errorFlag: bool)

  /**
   * The dispatch of a decoded value: the branch it selects writes, and no
   * other. `ids` lists the order table's keys in insertion order.
   */
  function Dispatched(s: Replies, ids: seq<int>, value: Json): (r: Replies)
    requires Listed(s.orders, ids)
    ensures r.orders.Keys == s.orders.Keys
  {
    match Branch(value)
    case Signals => s.(signalData := SignalsUpdate(s.signalData, value.fields))
    case Balance => s.(accountBalance := value)
    case Candles => s.(candlesData := value)
    case Purchase =>
      var c := Confirm(Confirmation(s.orders, s.buySuccessful, s.buyId, s.serverTimestamp), value.fields);
      s.(orders := c.orders, buySuccessful := c.buySuccessful, buyId := c.buyId, serverTimestamp := c.serverTimestamp)
    case Sold => s.(soldOptionsRespond := value)
    case Deals =>
      var l := DealsUpdate(ids, Ledger(s.orders, s.listInfo, s.profitInOperation), value.fields);
      s.(orders := l.orders, listInfo := l.listInfo, profitInOperation := l.profit)
    case TrainingBalance => s.(trainingBalanceEditRequest := value)
    case ServerError =>
      var reason := GetOr(value.fields, "error");
      s.(errorReason := reason, errorFlag := true,
         accountBalance := if reason == JStr("not_money") then NoMoney else s.accountBalance)
    case Other => s
  }

  /**
   * At most one branch writes: every part of the state that belongs to
   * another branch is left as it was, and a value that selects no branch
   * changes nothing.
   */
  lemma DispatchWritesOneBranch(s: Replies, ids: seq<int>, value: Json)
    requires Listed(s.orders, ids)
    ensures var r := Dispatched(s, ids, value);
            var k := Branch(value);
            && (k == Other ==> r == s)
            && (k != Signals ==> r.signalData == s.signalData)
            && (k != Balance && k != ServerError ==> r.accountBalance == s.accountBalance)
            && (k != Candles ==> r.candlesData == s.candlesData)
            && (k != Purchase && k != Deals ==> r.orders == s.orders)
            && (k != Purchase ==> r.buySuccessful == s.buySuccessful && r.buyId == s.buyId && r.serverTimestamp == s.serverTimestamp)
            && (k != Sold ==> r.soldOptionsRespond == s.soldOptionsRespond)
            && (k != Deals ==> r.listInfo == s.listInfo && r.profitInOperation == s.profitInOperation)
            && (k != TrainingBalance ==> r.trainingBalanceEditRequest == s.trainingBalanceEditRequest)
            && (k != ServerError ==> r.errorReason == s.errorReason && r.errorFlag == s.errorFlag)
  {
  }

  /**
   * An error reply stores its reason and raises the error flag; only the
   * reason "not_money" also replaces the balance, by a zero live balance.
   */
  lemma ErrorReplyRule(s: Replies, ids: seq<int>, m: map<string, Json>)
    requires Listed(s.orders, ids)
    requires Classify(m) == ServerError
    ensures var r := Dispatched(s, ids, JObj(m));
            && r.errorReason == m["error"] && r.errorFlag
            && (r.accountBalance == NoMoney <==> m["error"] == JStr("not_money") || s.accountBalance == NoMoney)
  {
  }

  // ---------------------------------------------------------------------------
  // Ticks

  /**
   * A tick entry `[asset, time, price, ...]` of a realtime price message: the
   * asset and the point `{time, price}`; None when indexing raises or the
   * asset cannot be a dict key.
   */
  function TickOf(entry: Json): (r: Option<(Json, TickPoint)>)
    ensures r.Some? <==> At(entry, 2).Some? && Hashable(At(entry, 0).value)
    ensures r.Some? ==> r.value == (At(entry, 0).value, TickPoint(At(entry, 1).value, At(entry, 2).value))
  {
    match At(entry, 2)
    case None => None
    case Some(price) =>
      var a := At(entry, 0).value;
      if Hashable(a) then Some((a, TickPoint(At(entry, 1).value, price))) else None
  }

  /**
   * `realtime_price[e[0]].append({time, price})`: only the list of an asset
   * already subscribed to grows, by exactly that point; an unknown asset
   * raises and nothing changes.
   */
  function Ticked(prices: map<Json, seq<TickPoint>>, entry: Json): (r: map<Json, seq<TickPoint>>)
    ensures r.Keys == prices.Keys
    ensures forall a :: a in prices && (TickOf(entry).None? || a != TickOf(entry).value.0) ==> r[a] == prices[a]
    ensures TickOf(entry).Some? && TickOf(entry).value.0 in prices ==>
              var t := TickOf(entry).value;
              r[t.0] == prices[t.0] + [t.1]
  {
    match TickOf(entry)
    case None => prices
    case Some(t) => if t.0 in prices then prices[t.0 := prices[t.0] + [t.1]] else prices
  }

  /** The first entry of a decoded array has `n` elements (`len(message[0]) == n`). */
  predicate FirstHasLength(value: Json, n: nat)
  {
    At(value, 0).Some? && Len(At(value, 0).value) == Some(n)
  }

  // ---------------------------------------------------------------------------
  // Candle history

  /** A history reply is for the current asset (`message.get("asset") == current_asset`, and the key exists). */
  predicate HistoryHit(m: map<string, Json>, currentAsset: Option<string>)
  {
    "asset" in m && m["asset"] == AssetJson(currentAsset)
  }

  /**
   * The history reply after `message["candles"]` is replaced by the named
   * candle records; None when the rewrite raises (no `candles`, something
   * that cannot be iterated, or a candle with fewer than six fields).
   */
  function WithNamedCandles(m: map<string, Json>): Option<map<string, Json>>
  {
    if "candles" !in m then None
    else match Elements(m["candles"])
      case None => None
      case Some(cs) =>
        match CandleRecords(cs)
        case None => None
        case Some(records) => Some(m["candles" := JArr(records)])
  }

  /**
   * The rewrite fails exactly when some candle is short (or there are no
   * candles to iterate); otherwise it keeps every other key and turns the
   * i-th candle into the i-th record.
   */
  lemma NamedCandles(m: map<string, Json>)
    ensures WithNamedCandles(m).Some? <==>
              "candles" in m && Elements(m["candles"]).Some? &&
              forall i :: 0 <= i < |Elements(m["candles"]).value| ==> At(Elements(m["candles"]).value[i], 5).Some?
    ensures WithNamedCandles(m).Some? ==>
              var r := WithNamedCandles(m).value;
              var cs := Elements(m["candles"]).value;
              && r.Keys == m.Keys && (forall k :: k in m && k != "candles" ==> r[k] == m[k])
              && r["candles"].JArr? && |r["candles"].items| == |cs|
              && forall i :: 0 <= i < |cs| ==> r["candles"].items[i] == CandleRecord(cs[i]).value
  {
    if "candles" in m && Elements(m["candles"]).Some? {
      CandleRecordsAll(Elements(m["candles"]).value);
    }
  }

  // ---------------------------------------------------------------------------
  // The correlation tag and the array shapes

  /** The state the tag step writes, and the two names the decoded message was stored under. */
  datatype Tags = Tags(
    tempStatus: string, settingsList: Json, candleV2Data: map<Json, Json>,
    wssMessage: Json, instruments: Json,
    realtimePrice: map<Json, seq<TickPoint>>, realtimeSentiment: map<Json, Sentiment>)

  /** The frame's text mentions a call or a put, so `instruments` takes the decoded message. */
  predicate Aliased(msg: Msg)
  {
    msg.Parsed? && (Contains(msg.shown, "call") || Contains(msg.shown, "put"))
  }

  /** The names a decoded message is stored under before its dispatch. */
  function Received(t: Tags, msg: Msg): Tags
  {
    if msg.Parsed? then t.(wssMessage := msg.value, instruments := if Aliased(msg) then msg.value else t.instruments)
    else t
  }

  /**
   * A history reply for the current asset: stored under its asset, then its
   * candles rewritten in place, which every name holding the same dict sees.
   */
  function HistoryAfter(t: Tags, m: map<string, Json>, aliased: bool, currentAsset: Option<string>): Tags
  {
    if !HistoryHit(m, currentAsset) then t
    else match WithNamedCandles(m)
      case None => t.(candleV2Data := t.candleV2Data[m["asset"] := JObj(m)])
      case Some(rewritten) =>
        t.(candleV2Data := t.candleV2Data[m["asset"] := JObj(rewritten)], wssMessage := JObj(rewritten),
           instruments := if aliased then JObj(rewritten) else t.instruments)
  }

  /**
   * The dict the tag step rewrites in place, as it reads after the rewrite:
   * under the history tag, a decoded reply for the current asset whose
   * candles can all be named. None when the tag step takes another path or
   * the rewrite raises.
   */
  function HistoryRewrite(tempStatus: string, msg: Msg, currentAsset: Option<string>): Option<map<string, Json>>
  {
    if !Contains(Shown(msg), "51-") && tempStatus == HistoryTag && msg.Parsed? && msg.value.JObj?
       && HistoryHit(msg.value.fields, currentAsset)
    then WithNamedCandles(msg.value.fields)
    else None
  }

  /**
   * The reply fields once the frame's dict has been rewritten in place: the
   * field the dispatch stored that same dict in (for a confirmation, both
   * `buy_successful` and the order's `response`) shows the rewritten dict.
   */
  function Retouched(s: Replies, value: Json, rewritten: Option<map<string, Json>>): Replies
  {
    if rewritten.None? then s
    else
      var r := JObj(rewritten.value);
      match Branch(value)
      case Balance => s.(accountBalance := r)
      case Candles => s.(candlesData := r)
      case Purchase =>
        (match ConfirmedKey(s.orders, value.fields)
         case None => s
         case Some(k) => s.(buySuccessful := r, orders := s.orders[k := s.orders[k].(response := Some(r))]))
      case Sold => s.(soldOptionsRespond := r)
      case TrainingBalance => s.(trainingBalanceEditRequest := r)
      case _ => s
  }

  /** The rewrite reaches the entry under the asset, `wss_message` and, when it took the message, `instruments`. */
  lemma HistoryRewriteTags(t: Tags, msg: Msg, currentAsset: Option<string>)
    requires HistoryRewrite(t.tempStatus, msg, currentAsset).Some?
    ensures var seen := JObj(HistoryRewrite(t.tempStatus, msg, currentAsset).value);
            var tags := TagAfter(Received(t, msg), msg, Aliased(msg), currentAsset);
            && tags.candleV2Data[msg.value.fields["asset"]] == seen && tags.wssMessage == seen
            && (Aliased(msg) ==> tags.instruments == seen)
  {
    assert Received(t, msg).tempStatus == HistoryTag;
    assert HistoryTag != SettingsTag;
  }

  /** The rewrite reaches the reply field the dispatch stored the dict in, and no other. */
  lemma RetouchedReplies(d: Replies, m: map<string, Json>, rewritten: map<string, Json>)
    ensures var r := Retouched(d, JObj(m), Some(rewritten));
            var seen := JObj(rewritten);
            && r.orders.Keys == d.orders.Keys
            && r.signalData == d.signalData && r.buyId == d.buyId && r.serverTimestamp == d.serverTimestamp
            && r.listInfo == d.listInfo && r.profitInOperation == d.profitInOperation
            && r.errorReason == d.errorReason && r.errorFlag == d.errorFlag
            && (Classify(m) == Balance ==> r.accountBalance == seen)
            && (Classify(m) == Candles ==> r.candlesData == seen)
            && (Classify(m) == Sold ==> r.soldOptionsRespond == seen)
            && (Classify(m) == TrainingBalance ==> r.trainingBalanceEditRequest == seen)
            && (Classify(m) == Purchase && ConfirmedKey(d.orders, m).Some? ==>
                  r.buySuccessful == seen && r.orders[ConfirmedKey(d.orders, m).value].response == Some(seen))
            && (Classify(m) !in {Balance, Candles, Purchase, Sold, TrainingBalance} ==> r == d)
  {
  }

  /**
   * After one decoded frame under the history tag, every name that holds
   * the frame's dict shows the same rewritten dict: the entry under its
   * asset, `wss_message`, `instruments` when it took the message, and the
   * reply field the dispatch stored it in.
   */
  lemma RewriteSeenThroughEveryAlias(s: Replies, ids: seq<int>, t: Tags, msg: Msg, currentAsset: Option<string>)
    requires Listed(s.orders, ids)
    requires HistoryRewrite(t.tempStatus, msg, currentAsset).Some?
    ensures var m := msg.value.fields;
            var seen := JObj(HistoryRewrite(t.tempStatus, msg, currentAsset).value);
            var r := Retouched(Dispatched(s, ids, msg.value), msg.value, HistoryRewrite(t.tempStatus, msg, currentAsset));
            var tags := TagAfter(Received(t, msg), msg, Aliased(msg), currentAsset);
            && tags.candleV2Data[m["asset"]] == seen && tags.wssMessage == seen
            && (Classify(m) == Candles ==> r.candlesData == tags.wssMessage)
            && (Classify(m) == Balance ==> r.accountBalance == tags.wssMessage)
            && (Classify(m) == Sold ==> r.soldOptionsRespond == tags.wssMessage)
            && (Classify(m) == TrainingBalance ==> r.trainingBalanceEditRequest == tags.wssMessage)
            && (Classify(m) == Purchase && ConfirmedKey(s.orders, m).Some? ==>
                  r.buySuccessful == tags.wssMessage && r.orders[ConfirmedKey(s.orders, m).value].response == Some(tags.wssMessage))
  {
    var m := msg.value.fields;
    var d := Dispatched(s, ids, msg.value);
    HistoryRewriteTags(t, msg, currentAsset);
    RetouchedReplies(d, m, HistoryRewrite(t.tempStatus, msg, currentAsset).value);
    assert ConfirmedKey(d.orders, m) == ConfirmedKey(s.orders, m);
  }

  /**
   * A decoded array recognised by the length of its first entry: four is a
   * tick, two a list of sentiments. Anything else, or indexing that raises,
   * changes nothing.
   */
  function ShapeAfter(t: Tags, value: Json): Tags
  {
    if FirstHasLength(value, 4) then t.(realtimePrice := Ticked(t.realtimePrice, At(value, 0).value))
    else if FirstHasLength(value, 2) then t.(realtimeSentiment := SentimentsFold(t.realtimeSentiment, Elements(value).value).0)
    else t
  }

  /**
   * The tag step, taken on the message after the dispatch. A raw frame never
   * reaches a history or shape handler: `.get` raises on a str or bytes, and
   * `message[0]` of a str is one character long while that of bytes is an
   * int, which has no length.
   */
  function TagAfter(t: Tags, msg: Msg, aliased: bool, currentAsset: Option<string>): Tags
  {
    var shown := Shown(msg);
    if Contains(shown, "51-") then t.(tempStatus := shown)
    else if t.tempStatus == SettingsTag then t.(settingsList := Stored(msg), tempStatus := "")
    else if t.tempStatus == HistoryTag then
      if msg.Parsed? && msg.value.JObj? then HistoryAfter(t, msg.value.fields, aliased, currentAsset) else t
    else if msg.Parsed? then ShapeAfter(t, msg.value)
    else t
  }

  /**
   * The rules of the correlation tag: an announcement is remembered; the
   * frame after the settings announcement becomes the settings list and
   * clears the tag; the history tag is never cleared, so while it stands
   * every frame is taken for a history reply and ticks and sentiments are
   * ignored.
   */
  lemma TagRules(t: Tags, msg: Msg, aliased: bool, currentAsset: Option<string>)
    ensures var r := TagAfter(t, msg, aliased, currentAsset);
            var shown := Shown(msg);
            && (Contains(shown, "51-") ==> r == t.(tempStatus := shown))
            && (!Contains(shown, "51-") && t.tempStatus == SettingsTag ==> r == t.(settingsList := Stored(msg), tempStatus := ""))
            && (!Contains(shown, "51-") && t.tempStatus == HistoryTag ==>
                  && r.tempStatus == HistoryTag && r.settingsList == t.settingsList
                  && r.realtimePrice == t.realtimePrice && r.realtimeSentiment == t.realtimeSentiment)
            && (r.tempStatus != t.tempStatus ==> Contains(shown, "51-") || t.tempStatus == SettingsTag)
  {
    assert |SettingsTag| != |HistoryTag|;
  }

  /**
   * Announcing the history reply and then sending it stores the reply's
   * candles for the current asset, and the tag stays set afterwards.
   */
  lemma HistoryExchange(t: Tags, reply: map<string, Json>, shown: string, currentAsset: string)
    requires !Contains(shown, "51-")
    requires "asset" in reply && reply["asset"] == JStr(currentAsset)
    requires WithNamedCandles(reply).Some?
    ensures var announced := TagAfter(t, Raw(TextFrame(HistoryTag)), false, Some(currentAsset));
            var r := TagAfter(announced, Parsed(JObj(reply), shown), false, Some(currentAsset));
            && announced.tempStatus == HistoryTag
            && r.tempStatus == HistoryTag
            && r.candleV2Data == t.candleV2Data[JStr(currentAsset) := JObj(WithNamedCandles(reply).value)]
            && r.wssMessage == JObj(WithNamedCandles(reply).value)
  {
    TagsAreAnnouncements();
    var announced := TagAfter(t, Raw(TextFrame(HistoryTag)), false, Some(currentAsset));
    assert announced == t.(tempStatus := HistoryTag);
    assert |SettingsTag| != |HistoryTag|;
  }

  // ---------------------------------------------------------------------------
  // Raw checks and ticks

  /** The seconds of the minute at which an incoming frame also triggers a tick. */
  predicate TickSecond(second: int)
  {
    second == 0 || second == 20 || second == 40
  }

  class WebsocketClient {
    const api: QuotexApi
    const g: Globals

    constructor (api: QuotexApi, g: Globals)
      ensures this.api == api && this.g == g
    {
      this.api := api;
      this.g := g;
    }

    /**
     * The substring tests on the frame as it arrived, first match wins: a
     * rejected token, an accepted one, or the instrument list.
     */
    method RawChecks(text: string)
      modifies g`checkRejectedConnection, g`checkAcceptedConnection, g`startedListenInstruments
      ensures Contains(text, "authorization/reject") ==>
                && g.checkRejectedConnection == 1
                && g.checkAcceptedConnection == old(g.checkAcceptedConnection)
                && g.startedListenInstruments == old(g.startedListenInstruments)
      ensures !Contains(text, "authorization/reject") && Contains(text, "s_authorization") ==>
                && g.checkAcceptedConnection == 1 && g.checkRejectedConnection == 0
                && g.startedListenInstruments == old(g.startedListenInstruments)
      ensures !Contains(text, "authorization/reject") && !Contains(text, "s_authorization") ==>
                && g.checkRejectedConnection == old(g.checkRejectedConnection)
                && g.checkAcceptedConnection == old(g.checkAcceptedConnection)
                && g.startedListenInstruments == (old(g.startedListenInstruments) || Contains(text, "instruments/list"))
    {
      if Contains(text, "authorization/reject") {
        g.checkRejectedConnection := 1;
      } else if Contains(text, "s_authorization") {
        g.checkAcceptedConnection := 1;
        g.checkRejectedConnection := 0;
      } else if Contains(text, "instruments/list") {
        g.startedListenInstruments := true;
      }
    }

    // -------------------------------------------------------------------------
    // The branches of the dispatch

    /** One `signals` entry, tried in the current format and then in the legacy one. */
    method RecordSignal(entry: Json, timeIn: Json) returns (ok: bool)
      modifies api`signalData
      ensures (api.signalData, ok) == SignalEntry(old(api.signalData), entry, timeIn)
    {
      var a := At(entry, 0);
      if a.None? || !Hashable(a.value) {
        return false;
      }
      var current := SignalFormatA(entry);
      if current.Some? {
        var f := current.value;
        api.signalData := api.signalData[a.value := map[f.0 := SignalFields(Some(f.1), Some(f.2))]];
        return true;
      }
      api.signalData := api.signalData[a.value := map[]];
      assert api.signalData == old(api.signalData)[a.value := map[]];
      if !Hashable(timeIn) {
        return false;
      }
      api.signalData := api.signalData[a.value := map[timeIn := SignalFields(None, None)]];
      assert api.signalData == old(api.signalData)[a.value := map[timeIn := SignalFields(None, None)]];
      var head := SignalHead(entry);
      if head.None? {
        return false;
      }
      var dir := At(head.value, 1);
      if dir.None? {
        return false;
      }
      api.signalData := api.signalData[a.value := map[timeIn := SignalFields(Some(dir.value), Some(At(head.value, 0).value))]];
      assert api.signalData == old(api.signalData)[a.value := map[timeIn := SignalFields(Some(dir.value), Some(At(head.value, 0).value))]];
      ok := true;
    }

    /** The `signals` loop; it stops at the first entry that raises. */
    method ApplySignals(entries: seq<Json>, timeIn: Json) returns (ok: bool)
      modifies api`signalData
      ensures (api.signalData, ok) == SignalsFold(old(api.signalData), entries, timeIn)
      ensures TagState() == old(TagState())
    {
      var i := 0;
      while i < |entries|
        invariant 0 <= i <= |entries|
        invariant SignalsFold(old(api.signalData), entries, timeIn) == SignalsFold(api.signalData, entries[i..], timeIn)
      {
        assert entries[i..][1..] == entries[i + 1..];
        ok := RecordSignal(entries[i], timeIn);
        if !ok {
          return;
        }
        i := i + 1;
      }
      ok := true;
    }

    /** A purchase confirmation, written field by field as `Confirm` describes. */
    method ApplyPurchase(m: map<string, Json>)
      requires api.Valid()
      modifies api`orders, api`buySuccessful, api`buyId, api`serverTimestamp
      ensures api.Valid()
      ensures Confirmation(api.orders, api.buySuccessful, api.buyId, api.serverTimestamp)
              == Confirm(Confirmation(old(api.orders), old(api.buySuccessful), old(api.buyId), old(api.serverTimestamp)), m)
      ensures TagState() == old(TagState())
    {
      var key := ConfirmedKey(api.orders, m);
      if key.None? {
        return;
      }
      var k := key.value;
      var o := api.orders[k].(id := Some(GetOr(m, "id")), response := Some(JObj(m)));
      OrderTableRewrite(api.orders, api.orderIds, k, o);
      api.orders := api.orders[k := o];
      api.buySuccessful := JObj(m);
      if "id" !in m {
        return;
      }
      api.buyId := m["id"];
      if "closeTimestamp" !in m {
        return;
      }
      api.serverTimestamp := m["closeTimestamp"];
    }

    /**
     * One deal of a `deals` message: the order is found through
     * `get_request_id_from_order_id`, then settled as `SettleDeal` says.
     */
    method SettleOne(deal: Json) returns (ok: bool)
      requires api.Valid()
      modifies api`orders, api`listInfo, api`profitInOperation
      ensures api.Valid()
      ensures (Ledger(api.orders, api.listInfo, api.profitInOperation), ok)
              == SettleDeal(api.orderIds, Ledger(old(api.orders), old(api.listInfo), old(api.profitInOperation)), deal)
    {
      var oid := Get(deal, "id");
      if oid.None? {
        return false;
      }
      var rid := api.GetRequestIdFromOrderId(oid.value);
      if rid.Raised? {
        return false;
      }
      if Truthy(rid.value) {
        var key := KeyOf(rid.value);
        if key.None? || key.value !in api.orders {
          return false;
        }
        var k := key.value;
        var withResult := api.orders[k].(result := Some(deal));
        OrderTableRewrite(api.orders, api.orderIds, k, withResult);
        api.orders := api.orders[k := withResult];
        var win := DealWin(deal);
        if win.None? {
          return false;
        }
        // The order holds the deal dict itself, so marking the deal marks its result too.
        var settled := withResult.(result := Some(Marked(deal, win.value)), status := Some(StatusOf(win.value)));
        OrderTableRewrite(api.orders, api.orderIds, k, settled);
        api.orders := api.orders[k := settled];
        assert api.orders == old(api.orders)[k := old(api.orders)[k].(result := Some(Marked(deal, win.value)), status := Some(StatusOf(win.value)))];
        api.profitInOperation := deal.fields["profit"];
        api.listInfo := api.listInfo + [ListInfoCall(win.value, 1, oid.value)];
      } else {
        var profit := Get(deal, "profit");
        if profit.None? {
          return false;
        }
        api.profitInOperation := profit.value;
        var win := Positive(profit.value);
        if win.None? {
          return false;
        }
        api.listInfo := api.listInfo + [ListInfoCall(win.value, 1, oid.value)];
      }
      ok := true;
    }

    /** The `deals` loop; it stops at the first deal that raises. */
    method ApplyDeals(deals: seq<Json>) returns (ok: bool)
      requires api.Valid()
      modifies api`orders, api`listInfo, api`profitInOperation
      ensures api.Valid()
      ensures (Ledger(api.orders, api.listInfo, api.profitInOperation), ok)
              == SettleDeals(api.orderIds, Ledger(old(api.orders), old(api.listInfo), old(api.profitInOperation)), deals)
      ensures TagState() == old(TagState())
    {
      var i := 0;
      while i < |deals|
        invariant 0 <= i <= |deals|
        invariant api.Valid()
        invariant SettleDeals(api.orderIds, Ledger(old(api.orders), old(api.listInfo), old(api.profitInOperation)), deals)
                  == SettleDeals(api.orderIds, Ledger(api.orders, api.listInfo, api.profitInOperation), deals[i..])
      {
        assert deals[i..][1..] == deals[i + 1..];
        ok := SettleOne(deals[i]);
        if !ok {
          return;
        }
        i := i + 1;
      }
      ok := true;
    }

    /** What the dispatch of a decoded dict writes. */
    function ReplyState(): Replies
      reads api`signalData, api`accountBalance, api`candlesData, api`orders, api`buySuccessful, api`buyId,
            api`serverTimestamp, api`soldOptionsRespond, api`listInfo, api`profitInOperation,
            api`trainingBalanceEditRequest, g`websocketErrorReason, g`checkWebsocketIfError
    {
      Replies(api.signalData, api.accountBalance, api.candlesData, api.orders, api.buySuccessful, api.buyId,
              api.serverTimestamp, api.soldOptionsRespond, api.listInfo, api.profitInOperation,
              api.trainingBalanceEditRequest, g.websocketErrorReason, g.checkWebsocketIfError)
    }

    /** What the tag step writes. */
    function TagState(): Tags
      reads api`tempStatus, api`settingsList, api`candleV2Data, api`wssMessage, api`instruments,
            api`realtimePrice, api`realtimeSentiment
    {
      Tags(api.tempStatus, api.settingsList, api.candleV2Data, api.wssMessage, api.instruments,
           api.realtimePrice, api.realtimeSentiment)
    }

    /** An error reply: the reason and the error flag; `not_money` also empties the live balance. */
    method ApplyError(m: map<string, Json>)
      modifies g`websocketErrorReason, g`checkWebsocketIfError, api`accountBalance
      ensures g.websocketErrorReason == GetOr(m, "error") && g.checkWebsocketIfError
      ensures api.accountBalance == if GetOr(m, "error") == JStr("not_money") then NoMoney else old(api.accountBalance)
      ensures TagState() == old(TagState())
    {
      g.websocketErrorReason := GetOr(m, "error");
      g.checkWebsocketIfError := true;
      if g.websocketErrorReason == JStr("not_money") {
        api.accountBalance := NoMoney;
      }
    }

    /** The two branches that write the order table: purchase confirmations and deals. */
    method DispatchOrders(m: map<string, Json>)
      requires api.Valid()
      requires Classify(m) == Purchase || Classify(m) == Deals
      modifies api`orders, api`buySuccessful, api`buyId, api`serverTimestamp, api`listInfo, api`profitInOperation
      ensures api.Valid()
      ensures ReplyState() == Dispatched(old(ReplyState()), api.orderIds, JObj(m))
      ensures TagState() == old(TagState())
    {
      if Classify(m) == Purchase {
        ApplyPurchase(m);
      } else {
        var deals := Elements(GetOr(m, "deals"));
        if deals.Some? {
          var _ := ApplyDeals(deals.value);
        }
      }
    }

    /** The branches that keep the whole message as the latest reply of its kind. */
    method DispatchStored(m: map<string, Json>)
      requires Listed(api.orders, api.orderIds)
      requires Classify(m) in {Balance, Candles, Sold, TrainingBalance}
      modifies api`accountBalance, api`candlesData, api`soldOptionsRespond, api`trainingBalanceEditRequest
      ensures ReplyState() == Dispatched(old(ReplyState()), api.orderIds, JObj(m))
      ensures TagState() == old(TagState())
    {
      match Classify(m)
      case Balance =>
        api.accountBalance := JObj(m);
      case Candles =>
        api.candlesData := JObj(m);
      case Sold =>
        api.soldOptionsRespond := JObj(m);
      case TrainingBalance =>
        api.trainingBalanceEditRequest := JObj(m);
    }

    /** The signal and error branches, and a dict that selects no branch. */
    method DispatchNotices(m: map<string, Json>)
      requires Listed(api.orders, api.orderIds)
      requires Classify(m) in {Signals, ServerError, Other}
      modifies api`signalData, api`accountBalance, g`websocketErrorReason, g`checkWebsocketIfError
      ensures ReplyState() == Dispatched(old(ReplyState()), api.orderIds, JObj(m))
      ensures TagState() == old(TagState())
    {
      match Classify(m)
      case Signals =>
        var entries := Elements(GetOr(m, "signals"));
        if entries.Some? {
          var _ := ApplySignals(entries.value, GetOr(m, "time"));
        }
      case ServerError =>
        ApplyError(m);
      case Other =>
        // `wss_message = message` once more, or nothing at all: no change either way.
    }

    /** A decoded dict runs the first branch whose key is truthy. */
    method DispatchDict(m: map<string, Json>)
      requires api.Valid()
      modifies api`signalData, api`accountBalance, api`candlesData,
               api`orders, api`buySuccessful, api`buyId, api`serverTimestamp, api`soldOptionsRespond,
               api`listInfo, api`profitInOperation, api`trainingBalanceEditRequest,
               g`websocketErrorReason, g`checkWebsocketIfError
      ensures api.Valid()
      ensures ReplyState() == Dispatched(old(ReplyState()), api.orderIds, JObj(m))
      ensures TagState() == old(TagState())
    {
      if Classify(m) in {Purchase, Deals} {
        DispatchOrders(m);
      } else if Classify(m) in {Balance, Candles, Sold, TrainingBalance} {
        DispatchStored(m);
      } else {
        DispatchNotices(m);
      }
    }

    /** The decoded value becomes `wss_message`, and `instruments` when its text mentions "call" or "put". */
    method Store(value: Json, shown: string) returns (aliased: bool)
      modifies api`wssMessage, api`instruments
      ensures aliased == Aliased(Parsed(value, shown))
      ensures TagState() == Received(old(TagState()), Parsed(value, shown))
      ensures ReplyState() == old(ReplyState())
    {
      api.wssMessage := value;
      aliased := Contains(shown, "call") || Contains(shown, "put");
      if aliased {
        api.instruments := value;
      }
    }

    /** A tick array: the point is appended to the asset's list when that list exists. */
    method AppendTick(entry: Json)
      modifies api`realtimePrice
      ensures api.realtimePrice == Ticked(old(api.realtimePrice), entry)
    {
      var tick := TickOf(entry);
      if tick.None? || tick.value.0 !in api.realtimePrice {
        return;
      }
      var (a, point) := tick.value;
      api.realtimePrice := api.realtimePrice[a := api.realtimePrice[a] + [point]];
    }

    /** The sentiment loop; it stops at the first entry that raises. */
    method ApplySentiments(entries: seq<Json>)
      modifies api`realtimeSentiment
      ensures api.realtimeSentiment == SentimentsFold(old(api.realtimeSentiment), entries).0
    {
      var i := 0;
      while i < |entries|
        invariant 0 <= i <= |entries|
        invariant SentimentsFold(old(api.realtimeSentiment), entries) == SentimentsFold(api.realtimeSentiment, entries[i..])
      {
        assert entries[i..][1..] == entries[i + 1..];
        var s := SentimentOf(entries[i]);
        if s.None? {
          return;
        }
        api.realtimeSentiment := api.realtimeSentiment[s.value.0 := s.value.1];
        i := i + 1;
      }
    }

    /**
     * A reply under the history tag, as `HistoryAfter` describes; the reply
     * field the dispatch stored the same dict in shows the rewrite too.
     */
    method ApplyHistory(m: map<string, Json>, aliased: bool)
      requires api.Valid()
      modifies api`candleV2Data, api`wssMessage, api`instruments,
               api`accountBalance, api`candlesData, api`orders, api`buySuccessful, api`soldOptionsRespond,
               api`trainingBalanceEditRequest
      ensures api.Valid()
      ensures TagState() == HistoryAfter(old(TagState()), m, aliased, api.currentAsset)
      ensures ReplyState() == Retouched(old(ReplyState()), JObj(m), if HistoryHit(m, api.currentAsset) then WithNamedCandles(m) else None)
    {
      if !HistoryHit(m, api.currentAsset) {
        return;
      }
      var rewritten := WithNamedCandles(m);
      StoreHistory(m["asset"], m, rewritten, aliased);
      RetouchReplies(JObj(m), rewritten);
    }

    /** The in-place rewrite, as seen through the reply field the dispatch stored the dict in. */
    method RetouchReplies(value: Json, rewritten: Option<map<string, Json>>)
      requires api.Valid()
      modifies api`accountBalance, api`candlesData, api`orders, api`buySuccessful, api`soldOptionsRespond,
               api`trainingBalanceEditRequest
      ensures api.Valid()
      ensures ReplyState() == Retouched(old(ReplyState()), value, rewritten)
      ensures TagState() == old(TagState())
    {
      if rewritten.None? {
        return;
      }
      if Branch(value) == Purchase {
        RetouchConfirmation(value.fields, JObj(rewritten.value));
      } else {
        RetouchStored(value, rewritten.value);
      }
    }

    /** The branches that keep the dict in one reply field. */
    method RetouchStored(value: Json, rewritten: map<string, Json>)
      requires api.Valid()
      requires Branch(value) != Purchase
      modifies api`accountBalance, api`candlesData, api`soldOptionsRespond, api`trainingBalanceEditRequest
      ensures api.Valid()
      ensures ReplyState() == Retouched(old(ReplyState()), value, Some(rewritten))
      ensures TagState() == old(TagState())
    {
      var r := JObj(rewritten);
      match Branch(value)
      case Balance => api.accountBalance := r;
      case Candles => api.candlesData := r;
      case Sold => api.soldOptionsRespond := r;
      case TrainingBalance => api.trainingBalanceEditRequest := r;
      case _ =>
    }

    /** A confirmation's dict is both `buy_successful` and the answered order's `response`. */
    method RetouchConfirmation(m: map<string, Json>, r: Json)
      requires api.Valid()
      modifies api`orders, api`buySuccessful
      ensures api.Valid()
      ensures ConfirmedKey(old(api.orders), m).None? ==> api.orders == old(api.orders) && api.buySuccessful == old(api.buySuccessful)
      ensures ConfirmedKey(old(api.orders), m).Some? ==>
                var k := ConfirmedKey(old(api.orders), m).value;
                api.buySuccessful == r && api.orders == old(api.orders)[k := old(api.orders)[k].(response := Some(r))]
    {
      var k := ConfirmedKey(api.orders, m);
      if k.Some? {
        OrderTableRewrite(api.orders, api.orderIds, k.value, api.orders[k.value].(response := Some(r)));
        api.buySuccessful := r;
        api.orders := api.orders[k.value := api.orders[k.value].(response := Some(r))];
      }
    }

    /**
     * The reply is stored under its asset; when its candles can be
     * rewritten, the stored dict, `wss_message` and (when it is the same
     * dict) `instruments` all show the rewritten candles.
     */
    method StoreHistory(a: Json, m: map<string, Json>, rewritten: Option<map<string, Json>>, aliased: bool)
      modifies api`candleV2Data, api`wssMessage, api`instruments
      ensures api.candleV2Data == old(api.candleV2Data)[a := JObj(if rewritten.Some? then rewritten.value else m)]
      ensures api.wssMessage == if rewritten.Some? then JObj(rewritten.value) else old(api.wssMessage)
      ensures api.instruments == if rewritten.Some? && aliased then JObj(rewritten.value) else old(api.instruments)
      ensures ReplyState() == old(ReplyState())
    {
      api.candleV2Data := api.candleV2Data[a := JObj(m)];
      if rewritten.None? {
        return;
      }
      api.candleV2Data := api.candleV2Data[a := JObj(rewritten.value)];
      assert api.candleV2Data == old(api.candleV2Data)[a := JObj(rewritten.value)];
      api.wssMessage := JObj(rewritten.value);
      if aliased {
        api.instruments := JObj(rewritten.value);
      }
    }

    /** The tick and sentiment arrays, recognised by the length of the first entry. */
    method ShapeStep(value: Json)
      modifies api`realtimePrice, api`realtimeSentiment
      ensures TagState() == ShapeAfter(old(TagState()), value)
      ensures ReplyState() == old(ReplyState())
    {
      var first := At(value, 0);
      if first.None? {
        return;
      }
      var n := Len(first.value);
      if n == Some(4) {
        AppendTick(first.value);
      } else if n == Some(2) {
        ApplySentiments(Elements(value).value);
      }
    }

    /** The tag step after the dispatch, as `TagAfter` describes. */
    method TagStep(msg: Msg, aliased: bool)
      requires api.Valid()
      modifies api`tempStatus, api`settingsList, api`candleV2Data, api`wssMessage, api`instruments,
               api`realtimePrice, api`realtimeSentiment,
               api`accountBalance, api`candlesData, api`orders, api`buySuccessful, api`soldOptionsRespond,
               api`trainingBalanceEditRequest
      ensures api.Valid()
      ensures TagState() == TagAfter(old(TagState()), msg, aliased, api.currentAsset)
      ensures ReplyState() == Retouched(old(ReplyState()), DispatchedValue(msg), HistoryRewrite(old(api.tempStatus), msg, api.currentAsset))
    {
      var shown := Shown(msg);
      if Contains(shown, "51-") {
        api.tempStatus := shown;
      } else if api.tempStatus == SettingsTag {
        api.settingsList := Stored(msg);
        api.tempStatus := "";
      } else if api.tempStatus == HistoryTag {
        if msg.Parsed? && msg.value.JObj? {
          ApplyHistory(msg.value.fields, aliased);
        }
      } else if msg.Parsed? {
        ShapeStep(msg.value);
      }
    }

    // -------------------------------------------------------------------------
    // The callbacks

    /**
     * `on_message`: one step per incoming frame. It holds the mutual
     * exclusion flag while it runs, ticks on seconds 0, 20 and 40, applies
     * the raw checks, dispatches a decoded dict, marks a bare "41" as a
     * disconnect, then takes the tag step. Every exception is swallowed, so
     * the step is total.
     */
    method OnMessage(f: Frame, second: int)
      requires api.Valid()
      modifies g`sslMutualExclusion, api`sent, g`checkRejectedConnection, g`checkAcceptedConnection,
               g`startedListenInstruments, g`checkWebsocketIfConnect,
               api`wssMessage, api`instruments, api`signalData, api`accountBalance, api`candlesData,
               api`orders, api`buySuccessful, api`buyId, api`serverTimestamp, api`soldOptionsRespond,
               api`listInfo, api`profitInOperation, api`trainingBalanceEditRequest,
               g`websocketErrorReason, g`checkWebsocketIfError,
               api`tempStatus, api`settingsList, api`candleV2Data, api`realtimePrice, api`realtimeSentiment
      ensures api.Valid()
      ensures !g.sslMutualExclusion
      ensures api.sent == old(api.sent) + (if TickSecond(second) then [TickCommand] else [])
      ensures var text := RawText(f);
              && g.checkRejectedConnection == (if Contains(text, "authorization/reject") then 1
                                               else if Contains(text, "s_authorization") then 0
                                               else old(g.checkRejectedConnection))
              && g.checkAcceptedConnection == (if !Contains(text, "authorization/reject") && Contains(text, "s_authorization") then 1
                                               else old(g.checkAcceptedConnection))
              && g.startedListenInstruments == (old(g.startedListenInstruments) ||
                                                (!Contains(text, "authorization/reject") && !Contains(text, "s_authorization") &&
                                                 Contains(text, "instruments/list")))
      ensures g.checkWebsocketIfConnect == if Shown(AfterDecode(f)) == "41" then Some(0) else old(g.checkWebsocketIfConnect)
      ensures ReplyState() == Retouched(Dispatched(old(ReplyState()), api.orderIds, DispatchedValue(AfterDecode(f))),
                                        DispatchedValue(AfterDecode(f)), HistoryRewrite(old(api.tempStatus), AfterDecode(f), api.currentAsset))
      ensures TagState() == TagAfter(Received(old(TagState()), AfterDecode(f)), AfterDecode(f), Aliased(AfterDecode(f)), api.currentAsset)
    {
      g.sslMutualExclusion := true;
      Prelude(RawText(f), second);
      Handle(AfterDecode(f));
      g.sslMutualExclusion := false;
    }

    /** The periodic tick and the checks on the frame's raw text. */
    method Prelude(text: string, second: int)
      modifies api`sent, g`checkRejectedConnection, g`checkAcceptedConnection, g`startedListenInstruments
      ensures api.sent == old(api.sent) + (if TickSecond(second) then [TickCommand] else [])
      ensures && g.checkRejectedConnection == (if Contains(text, "authorization/reject") then 1
                                               else if Contains(text, "s_authorization") then 0
                                               else old(g.checkRejectedConnection))
              && g.checkAcceptedConnection == (if !Contains(text, "authorization/reject") && Contains(text, "s_authorization") then 1
                                               else old(g.checkAcceptedConnection))
              && g.startedListenInstruments == (old(g.startedListenInstruments) ||
                                                (!Contains(text, "authorization/reject") && !Contains(text, "s_authorization") &&
                                                 Contains(text, "instruments/list")))
    {
      if TickSecond(second) {
        api.Tick();
      }
      RawChecks(text);
    }

    /** The decoded part of `on_message`: dispatch, the "41" check, then the tag step. */
    method Handle(msg: Msg)
      requires api.Valid()
      modifies g`checkWebsocketIfConnect,
               api`wssMessage, api`instruments, api`signalData, api`accountBalance, api`candlesData,
               api`orders, api`buySuccessful, api`buyId, api`serverTimestamp, api`soldOptionsRespond,
               api`listInfo, api`profitInOperation, api`trainingBalanceEditRequest,
               g`websocketErrorReason, g`checkWebsocketIfError,
               api`tempStatus, api`settingsList, api`candleV2Data, api`realtimePrice, api`realtimeSentiment
      ensures api.Valid()
      ensures g.checkWebsocketIfConnect == if Shown(msg) == "41" then Some(0) else old(g.checkWebsocketIfConnect)
      ensures ReplyState() == Retouched(Dispatched(old(ReplyState()), api.orderIds, DispatchedValue(msg)),
                                        DispatchedValue(msg), HistoryRewrite(old(api.tempStatus), msg, api.currentAsset))
      ensures TagState() == TagAfter(Received(old(TagState()), msg), msg, Aliased(msg), api.currentAsset)
    {
      var aliased := Receive(msg);
      NoteDisconnect(msg);
      TagStep(msg, aliased);
    }

    /** A bare "41" frame marks the connection as closed. */
    method NoteDisconnect(msg: Msg)
      modifies g`checkWebsocketIfConnect
      ensures g.checkWebsocketIfConnect == if Shown(msg) == "41" then Some(0) else old(g.checkWebsocketIfConnect)
    {
      if Shown(msg) == "41" {
        g.checkWebsocketIfConnect := Some(0);
      }
    }

    /**
     * The inner `try` for a decoded frame: the value is stored, then
     * dispatched. A value that is not a dict raises at the first `.get`, and
     * a raw frame never reaches this `try`.
     */
    method Receive(msg: Msg) returns (aliased: bool)
      requires api.Valid()
      modifies api`wssMessage, api`instruments, api`signalData, api`accountBalance, api`candlesData,
               api`orders, api`buySuccessful, api`buyId, api`serverTimestamp, api`soldOptionsRespond,
               api`listInfo, api`profitInOperation, api`trainingBalanceEditRequest,
               g`websocketErrorReason, g`checkWebsocketIfError
      ensures api.Valid()
      ensures aliased == Aliased(msg)
      ensures ReplyState() == Dispatched(old(ReplyState()), api.orderIds, DispatchedValue(msg))
      ensures TagState() == Received(old(TagState()), msg)
    {
      aliased := false;
      if msg.Raw? {
        assert Branch(DispatchedValue(msg)) == Other;
        return;
      }
      aliased := Store(msg.value, msg.shown);
      if msg.value.JObj? {
        DispatchDict(msg.value.fields);
      } else {
        assert Branch(msg.value) == Other;
      }
    }

    /** `on_error`: the error's text becomes the reason, and the error flag is raised. */
    method OnError(error: string)
      modifies g`websocketErrorReason, g`checkWebsocketIfError
      ensures g.websocketErrorReason == JStr(error) && g.checkWebsocketIfError
    {
      g.websocketErrorReason := JStr(error);
      g.checkWebsocketIfError := true;
    }

    /** `on_close`: the connection flag drops to 0. */
    method OnClose()
      modifies g`checkWebsocketIfConnect
      ensures g.checkWebsocketIfConnect == Some(0)
    {
      g.checkWebsocketIfConnect := Some(0);
    }

    /** `on_pong`: answers with the bare socket.io ping frame "2". */
    method OnPong()
      modifies api`sent
      ensures api.sent == old(api.sent) + [Control("2")]
    {
      api.sent := api.sent + [Control("2")];
    }

    /**
     * `warm_up`: the browser's opening requests for the current asset and
     * period, then the chart settings and a second tick. When the expiration
     * cannot be computed (no asset selected, or no server clock yet for a
     * regular asset) the settings step raises and the rest is not sent.
     */
    method WarmUp(expirationTime: (int, Json) -> int) returns (ok: bool)
      modifies api`sent, api`realtimePrice
      ensures var asset := AssetJson(api.currentAsset);
              var expTime := ExpirationFor(asset, api.currentPeriod, api.serverTimestamp, expirationTime);
              && (ok <==> expTime.Some?)
              && api.sent == old(api.sent) + WarmUpOpening(asset, api.currentPeriod) +
                             (if ok then [SettingsStore(asset, api.currentPeriod, expTime.value), TickCommand] else [])
              && api.realtimePrice == old(api.realtimePrice)[asset := []]
    {
      var asset, period := AssetJson(api.currentAsset), api.currentPeriod;
      SendOpening(asset, period);
      ok := api.SwitchToAsset(asset, period, expirationTime);
      if ok {
        api.Tick();
      }
    }

    /** The first nine requests of `warm_up`, which never fail: the asset is always hashable. */
    method SendOpening(asset: Json, period: Json)
      requires Hashable(asset)
      modifies api`sent, api`realtimePrice
      ensures api.sent == old(api.sent) + WarmUpOpening(asset, period)
      ensures api.realtimePrice == old(api.realtimePrice)[asset := []]
    {
      api.Tick();
      api.SendWssPayload("balance/list", NoPayload);
      api.SendWssPayload("indicator/list", NoPayload);
      api.SendWssPayload("drawing/load", NoPayload);
      api.SendWssPayload("pending/list", NoPayload);
      ghost var before := api.sent;
      var subscribed := api.SubscribeRealtimeCandle(asset, period);
      api.FollowAsset(asset);
      api.GetChartNotifications(asset);
      api.FollowCandle(asset);
      assert api.sent == before + WarmUpOpening(asset, period)[5..];
      assert before == old(api.sent) + WarmUpOpening(asset, period)[..5];
    }

    /** `on_open`: the connection flag rises to 1, then the warm-up runs. */
    method OnOpen(expirationTime: (int, Json) -> int) returns (ok: bool)
      modifies g`checkWebsocketIfConnect, api`sent, api`realtimePrice
      ensures g.checkWebsocketIfConnect == Some(1)
      ensures var asset := AssetJson(api.currentAsset);
              var expTime := ExpirationFor(asset, api.currentPeriod, api.serverTimestamp, expirationTime);
              && (ok <==> expTime.Some?)
              && api.sent == old(api.sent) + WarmUpOpening(asset, api.currentPeriod) +
                             (if ok then [SettingsStore(asset, api.currentPeriod, expTime.value), TickCommand] else [])
              && api.realtimePrice == old(api.realtimePrice)[asset := []]
    {
      g.checkWebsocketIfConnect := Some(1);
      ok := WarmUp(expirationTime);
    }
  }
}
