/**
 * The pure rules behind `WebsocketClient.on_message`: what an incoming
 * frame looks like before and after decoding, which handler a decoded dict
 * selects, and what each handler's loop computes over the state it updates.
 * Every rule follows the handler's own evaluation order, so an entry that
 * raises part-way leaves exactly the writes made before it.
 */
module Dispatch {
  import opened Values
  import opened Wire
  import opened Session

  // ---------------------------------------------------------------------------
  // Frames

  /** The result of `json.loads(message[1:].decode())` and its `str()`. */
  datatype Decoded = Decoded(value: Json, shown: string)

  /**
   * One message as the socket library delivers it: a text frame arrives as a
   * str, a binary frame as bytes. `decoded` is None when the bytes after the
   * leading type byte are not UTF-8 JSON.
   */
  datatype Frame = TextFrame(text: string) | BinaryFrame(bytes: string, decoded: Option<Decoded>)

  /** `message` after the decoding attempt: still the raw frame, or the decoded value. */
  datatype Msg = Raw(frame: Frame) | Parsed(value: Json, shown: string)

  /** `str(message)` on arrival: a str is itself, bytes print as `b'...'`. */
  function RawText(f: Frame): (r: string)
    ensures f.TextFrame? ==> r == f.text
    ensures f.BinaryFrame? ==> |r| >= 3 && r[0] == 'b'
  {
    match f
    case TextFrame(t) => t
    case BinaryFrame(b, _) => "b'" + b + "'"
  }

  /** Only a binary frame is decoded: a str has no `.decode()`, which raises. */
  function AfterDecode(f: Frame): (r: Msg)
    ensures r.Parsed? <==> f.BinaryFrame? && f.decoded.Some?
    ensures r.Raw? ==> r.frame == f
  {
    if f.BinaryFrame? && f.decoded.Some? then Parsed(f.decoded.value.value, f.decoded.value.shown) else Raw(f)
  }

  /** `str(message)` after the decoding attempt. */
  function Shown(m: Msg): string
  {
    match m
    case Raw(f) => RawText(f)
    case Parsed(_, s) => s
  }

  /** The value an assignment `x = message` stores; a raw frame is kept as its text. */
  function Stored(m: Msg): Json
  {
    match m
    case Raw(f) => JStr(if f.TextFrame? then f.text else f.bytes)
    case Parsed(v, _) => v
  }

  /** A binary frame that failed to decode never reads as the bare disconnect event "41". */
  lemma UndecodedBinaryIsNeverDisconnect(bytes: string)
    ensures Shown(AfterDecode(BinaryFrame(bytes, None))) != "41"
  {
  }

  /** The socket.io prefix of a binary-placeholder event announcement. */
  const Announcement: string := "451-"
  const SettingsTag: string := Announcement + "[\"settings/list\",{\"_placeholder\":true,\"num\":0}]"
  const HistoryTag: string := Announcement + "[\"history/list/v2\",{\"_placeholder\":true,\"num\":0}]"

  /** Every announcement contains "51-", so it is recorded as the pending tag. */
  lemma AnnouncementIsRecorded(body: string)
    ensures Contains(Announcement + body, "51-")
  {
    var s := Announcement + body;
    assert s[1..] == "51-" + body;
    assert "51-" <= s[1..];
  }

  /** The two tags the dispatcher waits for are announcements. */
  lemma TagsAreAnnouncements()
    ensures Contains(SettingsTag, "51-") && Contains(HistoryTag, "51-")
  {
    AnnouncementIsRecorded(SettingsTag[4..]);
    AnnouncementIsRecorded(HistoryTag[4..]);
    assert SettingsTag == Announcement + SettingsTag[4..];
    assert HistoryTag == Announcement + HistoryTag[4..];
  }

  // ---------------------------------------------------------------------------
  // Which handler a decoded dict selects

  datatype Kind = Signals | Balance | Candles | Purchase | Sold | Deals | TrainingBalance | ServerError | Other

  /** The test of one branch of the dispatch, taken on its own. */
  predicate Triggers(k: Kind, m: map<string, Json>)
  {
    match k
    case Signals => Truthy(GetOr(m, "signals"))
    case Balance => Truthy(GetOr(m, "liveBalance")) || Truthy(GetOr(m, "demoBalance"))
    case Candles => Truthy(GetOr(m, "index"))
    case Purchase => Truthy(GetOr(m, "purchaseTime"))
    case Sold => Truthy(GetOr(m, "ticket"))
    case Deals => Truthy(GetOr(m, "deals"))
    case TrainingBalance => Truthy(GetOr(m, "isDemo")) && Truthy(GetOr(m, "balance"))
    case ServerError => Truthy(GetOr(m, "error"))
    case Other => true
  }

  /** The branches in the order the `elif` chain tries them. */
  const Priority: seq<Kind> := [Signals, Balance, Candles, Purchase, Sold, Deals, TrainingBalance, ServerError, Other]

  function Rank(k: Kind): (r: nat)
    ensures r < |Priority| && Priority[r] == k
  {
    match k
    case Signals => 0
    case Balance => 1
    case Candles => 2
    case Purchase => 3
    case Sold => 4
    case Deals => 5
    case TrainingBalance => 6
    case ServerError => 7
    case Other => 8
  }

  /**
   * The dispatch: the first branch, in priority order, whose test holds.
   * `Other` stands for the final `elif not message.get("list") == []`, whose
   * assignment repeats the one already made, so it changes nothing.
   */
  function Classify(m: map<string, Json>): (r: Kind)
    ensures Triggers(r, m)
    ensures forall j :: 0 <= j < Rank(r) ==> !Triggers(Priority[j], m)
  {
    if Truthy(GetOr(m, "signals")) then Signals
    else if Truthy(GetOr(m, "liveBalance")) || Truthy(GetOr(m, "demoBalance")) then Balance
    else if Truthy(GetOr(m, "index")) then Candles
    else if Truthy(GetOr(m, "purchaseTime")) then Purchase
    else if Truthy(GetOr(m, "ticket")) then Sold
    else if Truthy(GetOr(m, "deals")) then Deals
    else if Truthy(GetOr(m, "isDemo")) && Truthy(GetOr(m, "balance")) then TrainingBalance
    else if Truthy(GetOr(m, "error")) then ServerError
    else Other
  }

  /** The first kind in `kinds` whose test holds: an independent reading of the priority list. */
  function FirstMatch(kinds: seq<Kind>, m: map<string, Json>): Option<Kind>
  {
    if kinds == [] then None
    else if Triggers(kinds[0], m) then Some(kinds[0])
    else FirstMatch(kinds[1..], m)
  }

  /** The `elif` chain selects exactly the first matching entry of the priority list. */
  lemma {:induction false} ClassifyIsFirstMatch(m: map<string, Json>)
    ensures FirstMatch(Priority, m) == Some(Classify(m))
  {
    var k := Classify(m);
    FirstMatchFindsFirst(Priority, m, Rank(k));
  }

  lemma {:induction false} FirstMatchFindsFirst(kinds: seq<Kind>, m: map<string, Json>, i: nat)
    requires i < |kinds| && Triggers(kinds[i], m)
    requires forall j :: 0 <= j < i ==> !Triggers(kinds[j], m)
    ensures FirstMatch(kinds, m) == Some(kinds[i])
    decreases i
  {
    if i > 0 {
      FirstMatchFindsFirst(kinds[1..], m, i - 1);
    }
  }

  // ---------------------------------------------------------------------------
  // Signals

  type SignalTable = map<Json, map<Json, SignalFields>>

  /** `i[1][0]`: the first element of the entry's second element. */
  function SignalHead(entry: Json): Option<Json>
  {
    match At(entry, 1)
    case None => None
    case Some(second) => At(second, 0)
  }

  /**
   * The current format `[asset, [{"signal": dir, "timeFrame": duration}], time]`:
   * (time, dir, duration), or None when the entry does not fit it.
   */
  function SignalFormatA(entry: Json): (r: Option<(Json, Json, Json)>)
    ensures r.Some? ==> Hashable(r.value.0)
  {
    match At(entry, 2)
    case None => None
    case Some(t) =>
      if !Hashable(t) then None
      else match SignalHead(entry)
        case None => None
        case Some(head) =>
          match (Get(head, "signal"), Get(head, "timeFrame"))
          case (Some(dir), Some(dur)) => Some((t, dir, dur))
          case _ => None
  }

  /**
   * One `signals` entry. The current format is tried first; on any failure
   * the legacy format `[asset, [[duration, dir]]]` stamped with the message
   * time is tried; a failure there abandons the whole message. Either way the
   * asset's slot is reset first, so only that slot ever changes.
   */
  function SignalEntry(data: SignalTable, entry: Json, timeIn: Json): (r: (SignalTable, bool))
    ensures At(entry, 0).None? || !Hashable(At(entry, 0).value) ==> r == (data, false)
    ensures At(entry, 0).Some? && Hashable(At(entry, 0).value) ==>
              var a := At(entry, 0).value;
              && a in r.0 && r.0 == data[a := r.0[a]]
              && (SignalFormatA(entry).Some? ==>
                    var f := SignalFormatA(entry).value;
                    r == (data[a := map[f.0 := SignalFields(Some(f.1), Some(f.2))]], true))
    ensures r.1 <==> At(entry, 0).Some? && Hashable(At(entry, 0).value) &&
                     (SignalFormatA(entry).Some? ||
                      (Hashable(timeIn) && SignalHead(entry).Some? && At(SignalHead(entry).value, 1).Some?))
  {
    match At(entry, 0)
    case None => (data, false)
    case Some(a) =>
      if !Hashable(a) then (data, false)
      else match SignalFormatA(entry)
        case Some(f) => (data[a := map[f.0 := SignalFields(Some(f.1), Some(f.2))]], true)
        case None =>
          if !Hashable(timeIn) then (data[a := map[]], false)
          else match SignalHead(entry)
            case None => (data[a := map[timeIn := SignalFields(None, None)]], false)
            case Some(head) =>
              match At(head, 1)
              case None => (data[a := map[timeIn := SignalFields(None, None)]], false)
              case Some(dir) =>
                (data[a := map[timeIn := SignalFields(Some(dir), Some(At(head, 0).value))]], true)
  }

  /** The `signals` loop: entry by entry, stopping at the first that raises. */
  function SignalsFold(data: SignalTable, entries: seq<Json>, timeIn: Json): (SignalTable, bool)
    decreases |entries|
  {
    if entries == [] then (data, true)
    else
      var step := SignalEntry(data, entries[0], timeIn);
      if !step.1 then step else SignalsFold(step.0, entries[1..], timeIn)
  }

  /** The asset an entry names, when it names a usable one. */
  predicate NamesAsset(entry: Json, x: Json)
  {
    At(entry, 0) == Some(x)
  }

  /** A signal message touches only the assets its entries name. */
  lemma {:induction false} SignalsFoldKeepsOtherAssets(data: SignalTable, entries: seq<Json>, timeIn: Json, x: Json)
    requires forall i :: 0 <= i < |entries| ==> !NamesAsset(entries[i], x)
    ensures var r := SignalsFold(data, entries, timeIn).0;
            (x in r <==> x in data) && (x in data ==> r[x] == data[x])
    decreases |entries|
  {
    if entries != [] {
      var step := SignalEntry(data, entries[0], timeIn);
      assert !NamesAsset(entries[0], x);
      if step.1 {
        SignalsFoldKeepsOtherAssets(step.0, entries[1..], timeIn, x);
      }
    }
  }

  /** After a signal message is fully processed, every asset it names holds exactly one time slot. */
  lemma {:induction false} SignalsFoldOneSlotPerAsset(data: SignalTable, entries: seq<Json>, timeIn: Json)
    requires SignalsFold(data, entries, timeIn).1
    ensures forall i :: 0 <= i < |entries| ==>
              At(entries[i], 0).Some? && At(entries[i], 0).value in SignalsFold(data, entries, timeIn).0 &&
              |SignalsFold(data, entries, timeIn).0[At(entries[i], 0).value].Keys| == 1
    decreases |entries|
  {
    if entries != [] {
      var step := SignalEntry(data, entries[0], timeIn);
      var rest := entries[1..];
      SignalsFoldOneSlotPerAsset(step.0, rest, timeIn);
      var r := SignalsFold(step.0, rest, timeIn).0;
      assert r == SignalsFold(data, entries, timeIn).0;
      var a := At(entries[0], 0).value;
      assert |step.0[a].Keys| == 1;
      forall i | 0 <= i < |entries|
        ensures At(entries[i], 0).Some? && At(entries[i], 0).value in r && |r[At(entries[i], 0).value].Keys| == 1
      {
        if i > 0 {
          assert entries[i] == rest[i - 1];
        } else if exists j :: 0 <= j < |rest| && NamesAsset(rest[j], a) {
          var j :| 0 <= j < |rest| && NamesAsset(rest[j], a);
          assert entries[j + 1] == rest[j];
        } else {
          SignalsFoldKeepsOtherAssets(step.0, rest, timeIn, a);
        }
      }
    }
  }

  // ---------------------------------------------------------------------------
  // Deals

  /** What the deals loop writes: the order table, the `listinfodata.set` calls and `profit_in_operation`. */
  datatype Ledger = Ledger(orders: map<int, Order>, listInfo: seq<ListInfoCall>, profit: Json)

  function StatusOf(win: bool): DealStatus
  {
    if win then Win else Loss
  }

  /** The deal dict after `deal["win"] = ...` and `deal["game_state"] = 1`. */
  function Marked(deal: Json, win: bool): (r: Json)
    requires deal.JObj?
    ensures r.JObj? && r.fields == deal.fields["win" := JBool(win)]["game_state" := JNum(1.0)]
  {
    JObj(deal.fields["win" := JBool(win)]["game_state" := JNum(1.0)])
  }

  /**
   * The order a deal settles: the request id recorded for the deal's broker
   * id, when that lookup succeeds, is truthy and is a key of the table.
   */
  function SettledKey(ids: seq<int>, l: Ledger, deal: Json): (r: Option<int>)
    requires Listed(l.orders, ids)
    ensures r.Some? ==> r.value in l.orders
  {
    match Get(deal, "id")
    case None => None
    case Some(oid) =>
      match RequestIdFor(l.orders, ids, oid)
      case Raised => None
      case Returned(rid) =>
        if !Truthy(rid) then None
        else match KeyOf(rid)
          case None => None
          case Some(k) => if k in l.orders then Some(k) else None
  }

  /** Whether the deal won: its own `profit` is positive (None when that raises). */
  function DealWin(deal: Json): Option<bool>
  {
    match Get(deal, "profit")
    case None => None
    case Some(p) => Positive(p)
  }

  /**
   * One deal of a `deals` message, as intended: the matching order gets the
   * deal as its result and a win/loss status, `profit_in_operation` takes the
   * deal's profit, the deal is marked with `win` and `game_state` (seen
   * through the order, which holds the same dict), and `listinfodata.set` is
   * called. False when a step raises, with the writes made before it kept.
   */
  function SettleDeal(ids: seq<int>, l: Ledger, deal: Json): (r: (Ledger, bool))
    requires Listed(l.orders, ids)
    ensures r.0.orders.Keys == l.orders.Keys
    ensures r.1 <==> Get(deal, "id").Some? && RequestIdFor(l.orders, ids, Get(deal, "id").value).Returned? &&
                     (Truthy(RequestIdFor(l.orders, ids, Get(deal, "id").value).value) ==> SettledKey(ids, l, deal).Some?) &&
                     DealWin(deal).Some?
    ensures !r.1 ==> r.0.listInfo == l.listInfo
    ensures r.1 ==> var win := DealWin(deal).value;
              && r.0.listInfo == l.listInfo + [ListInfoCall(win, 1, deal.fields["id"])]
              && r.0.profit == deal.fields["profit"]
              && (SettledKey(ids, l, deal).Some? ==>
                    var k := SettledKey(ids, l, deal).value;
                    r.0.orders == l.orders[k := l.orders[k].(result := Some(Marked(deal, win)), status := Some(StatusOf(win)))])
              && (SettledKey(ids, l, deal).None? ==> r.0.orders == l.orders)
  {
    match Get(deal, "id")
    case None => (l, false)
    case Some(oid) =>
      match RequestIdFor(l.orders, ids, oid)
      case Raised => (l, false)
      case Returned(rid) =>
        if Truthy(rid) then
          match SettledKey(ids, l, deal)
          case None => (l, false)
          case Some(k) =>
            var withResult := l.orders[k := l.orders[k].(result := Some(deal))];
            match DealWin(deal)
            case None => (l.(orders := withResult), false)
            case Some(win) =>
              var orders := l.orders[k := l.orders[k].(result := Some(Marked(deal, win)), status := Some(StatusOf(win)))];
              (Ledger(orders, l.listInfo + [ListInfoCall(win, 1, oid)], deal.fields["profit"]), true)
        else
          match Get(deal, "profit")
          case None => (l, false)
          case Some(p) =>
            match Positive(p)
            case None => (l.(profit := p), false)
            case Some(win) => (Ledger(l.orders, l.listInfo + [ListInfoCall(win, 1, oid)], p), true)
  }

  /** The `deals` loop: deal by deal, stopping at the first that raises. */
  function SettleDeals(ids: seq<int>, l: Ledger, deals: seq<Json>): (r: (Ledger, bool))
    requires Listed(l.orders, ids)
    ensures r.0.orders.Keys == l.orders.Keys
    decreases |deals|
  {
    if deals == [] then (l, true)
    else
      var step := SettleDeal(ids, l, deals[0]);
      if !step.1 then step else SettleDeals(ids, step.0, deals[1..])
  }

  /**
   * A fully processed `deals` message reports every deal to `listinfodata`,
   * in order, with the deal's own win flag and broker id.
   */
  lemma {:induction false} SettleDealsReportsEach(ids: seq<int>, l: Ledger, deals: seq<Json>)
    requires Listed(l.orders, ids)
    requires SettleDeals(ids, l, deals).1
    ensures var out := SettleDeals(ids, l, deals).0.listInfo;
            && |out| == |l.listInfo| + |deals|
            && out[..|l.listInfo|] == l.listInfo
            && forall i :: 0 <= i < |deals| ==>
                 DealWin(deals[i]).Some? && deals[i].JObj? && "id" in deals[i].fields &&
                 out[|l.listInfo| + i] == ListInfoCall(DealWin(deals[i]).value, 1, deals[i].fields["id"])
    decreases |deals|
  {
    if deals != [] {
      var step := SettleDeal(ids, l, deals[0]);
      SettleDealsReportsEach(ids, step.0, deals[1..]);
      var out := SettleDeals(ids, l, deals).0.listInfo;
      assert out == SettleDeals(ids, step.0, deals[1..]).0.listInfo;
      assert out[..|step.0.listInfo|] == step.0.listInfo;
      assert out[..|l.listInfo|] == step.0.listInfo[..|l.listInfo|];
      forall i | 0 <= i < |deals|
        ensures DealWin(deals[i]).Some? && deals[i].JObj? && "id" in deals[i].fields &&
                out[|l.listInfo| + i] == ListInfoCall(DealWin(deals[i]).value, 1, deals[i].fields["id"])
      {
        if i > 0 {
          assert deals[i] == deals[1..][i - 1];
        }
      }
    }
  }

  /** A settled order's status agrees with the sign of its deal's profit. */
  lemma SettledStatusFollowsProfit(ids: seq<int>, l: Ledger, deal: Json)
    requires Listed(l.orders, ids)
    requires SettleDeal(ids, l, deal).1 && SettledKey(ids, l, deal).Some?
    ensures var k := SettledKey(ids, l, deal).value;
            var o := SettleDeal(ids, l, deal).0.orders[k];
            (o.status == Some(Win) <==> Positive(deal.fields["profit"]) == Some(true)) &&
            (o.status == Some(Loss) <==> Positive(deal.fields["profit"]) == Some(false))
  {
  }

  /**
   * The win test as written reads `profit` from the whole message rather
   * than from the deal; a `deals` message has no such key, so it raises.
   * `deal` is unused, as it is at quotexapi/ws/client.py:116.
   */
  function DealWinAsWritten(message: Json, deal: Json): Option<bool>
  {
    DealWin(message)
  }

  /**
   * One deal of a `deals` message as written: the reverse lookup goes through
   * the as-written `get_order_by_id`, which raises on a non-empty table and
   * otherwise finds nothing, so no order is touched; `profit_in_operation`
   * then takes the deal's profit, and the win test reads the message's.
   */
  function SettleDealAsWritten(l: Ledger, message: Json, deal: Json): (Ledger, bool)
  {
    match Get(deal, "id")
    case None => (l, false)
    case Some(oid) =>
      if OrderByIdAsWritten(l.orders, oid, None).Raised? then (l, false)
      else
        match Get(deal, "profit")
        case None => (l, false)
        case Some(p) =>
          match DealWinAsWritten(message, deal)
          case None => (l.(profit := p), false)
          case Some(win) => (Ledger(l.orders, l.listInfo + [ListInfoCall(win, 1, oid)], p), true)
  }

  /**
   * A deals push with an empty order table, the one case in which the
   * as-written lookup does not raise first: as written `profit_in_operation`
   * is set and the win test then raises, so the deal is never reported; as
   * intended it is reported as a win. With the order in the table, the
   * as-written step raises at the lookup before writing anything.
   */
  lemma DealWinAsWrittenRaises()
    ensures var deal := JObj(map["id" := JStr("d1"), "profit" := JNum(0.8)]);
            var message := JObj(map["deals" := JArr([deal])]);
            var empty := Ledger(map[], [], JNull);
            && DealWinAsWritten(message, deal).None?
            && SettleDealAsWritten(empty, message, deal) == (Ledger(map[], [], JNum(0.8)), false)
            && SettleDeal([], empty, deal) == (Ledger(map[], [ListInfoCall(true, 1, JStr("d1"))], JNum(0.8)), true)
    ensures var deal := JObj(map["id" := JStr("d1"), "profit" := JNum(0.8)]);
            var message := JObj(map["deals" := JArr([deal])]);
            var o := Order(Some(JObj(map["requestId" := JNum(42.0)])), Some(JStr("d1")), None, None, None);
            var l := Ledger(map[42 := o], [], JNull);
            && SettleDealAsWritten(l, message, deal) == (l, false)
            && SettleDeal([42], l, deal).1
            && SettleDeal([42], l, deal).0.orders[42].status == Some(Win)
            && SettleDeal([42], l, deal).0.listInfo == [ListInfoCall(true, 1, JStr("d1"))]
  {
    var deal := JObj(map["id" := JStr("d1"), "profit" := JNum(0.8)]);
    var o := Order(Some(JObj(map["requestId" := JNum(42.0)])), Some(JStr("d1")), None, None, None);
    var l := Ledger(map[42 := o], [], JNull);
    var message := JObj(map["deals" := JArr([deal])]);
    assert "profit" !in message.fields;
    assert DealWinAsWritten(message, deal).None?;
    assert OrderByIdAsWritten(map[], JStr("d1"), None) == Returned(None);
    var empty := Ledger(map[], [], JNull);
    assert SettleDealAsWritten(empty, message, deal) == (Ledger(map[], [], JNum(0.8)), false);
    assert RequestIdFor(map[], [], JStr("d1")) == Returned(JNull);
    assert Get(deal, "id") == Some(JStr("d1")) && Get(deal, "profit") == Some(JNum(0.8));
    assert !Truthy(JNull) && Positive(JNum(0.8)) == Some(true);
    assert SettledKey([], empty, deal).None?;
    assert SettleDeal([], empty, deal).1;
    assert SettleDeal([], empty, deal).0.listInfo == [ListInfoCall(true, 1, JStr("d1"))];
    assert SettleDeal([], empty, deal).0.orders == map[];
    assert SettleDeal([], empty, deal).0.profit == JNum(0.8);
    assert 42 in l.orders;
    assert FirstCarrying(map[], [], JStr("d1"), 0) == None;
    assert FirstCarrying(l.orders, [42], JStr("d1"), 0) == Some(0);
    assert RequestIdFor(l.orders, [42], JStr("d1")) == Returned(JNum(42.0));
    assert KeyOf(JNum(42.0)) == Some(42);
    assert SettledKey([42], l, deal) == Some(42);
  }

  // ---------------------------------------------------------------------------
  // Candle history

  /** One history candle `[time, open, close, high, low, ticks]` as the dict it becomes. */
  function CandleRecord(c: Json): (r: Option<Json>)
    ensures r.Some? <==> At(c, 5).Some?
    ensures r.Some? ==> r.value.JObj? && r.value.fields.Keys == {"time", "open", "close", "high", "low", "ticks"}
    ensures r.Some? ==> r.value.fields["time"] == At(c, 0).value && r.value.fields["open"] == At(c, 1).value
                        && r.value.fields["close"] == At(c, 2).value && r.value.fields["high"] == At(c, 3).value
                        && r.value.fields["low"] == At(c, 4).value && r.value.fields["ticks"] == At(c, 5).value
  {
    match At(c, 5)
    case None => None
    case Some(ticks) =>
      Some(JObj(map["time" := At(c, 0).value, "open" := At(c, 1).value, "close" := At(c, 2).value,
                    "high" := At(c, 3).value, "low" := At(c, 4).value, "ticks" := ticks]))
  }

  /** The list comprehension over `message["candles"]`: all or nothing. */
  function CandleRecords(cs: seq<Json>): Option<seq<Json>>
  {
    if cs == [] then Some([])
    else match (CandleRecord(cs[0]), CandleRecords(cs[1..]))
      case (Some(c), Some(rest)) => Some([c] + rest)
      case _ => None
  }

  /** The comprehension succeeds exactly when every candle converts, and then converts each in place. */
  lemma {:induction false} CandleRecordsAll(cs: seq<Json>)
    ensures CandleRecords(cs).Some? <==> forall i :: 0 <= i < |cs| ==> CandleRecord(cs[i]).Some?
    ensures CandleRecords(cs).Some? ==>
              |CandleRecords(cs).value| == |cs| &&
              forall i :: 0 <= i < |cs| ==> CandleRecords(cs).value[i] == CandleRecord(cs[i]).value
  {
    if cs != [] {
      CandleRecordsAll(cs[1..]);
      assert forall i :: 1 <= i < |cs| ==> cs[i] == cs[1..][i - 1];
    }
  }

  // ---------------------------------------------------------------------------
  // Realtime sentiment

  /** One sentiment entry `[asset, buy]`: the asset and the split `int(buy)` / `100 - int(buy)`. */
  function SentimentOf(entry: Json): (r: Option<(Json, Sentiment)>)
    ensures r.Some? ==> Hashable(r.value.0) && r.value.1.buy + r.value.1.sell == 100
    ensures r.Some? ==> At(entry, 0) == Some(r.value.0) && At(entry, 1).Some? && PyInt(At(entry, 1).value) == Some(r.value.1.buy)
  {
    match At(entry, 1)
    case None => None
    case Some(v) =>
      match PyInt(v)
      case None => None
      case Some(buy) =>
        var a := At(entry, 0).value;
        if Hashable(a) then Some((a, Sentiment(100 - buy, buy))) else None
  }

  /** The sentiment loop: entry by entry, stopping at the first that raises. */
  function SentimentsFold(table: map<Json, Sentiment>, entries: seq<Json>): (map<Json, Sentiment>, bool)
    decreases |entries|
  {
    if entries == [] then (table, true)
    else match SentimentOf(entries[0])
      case None => (table, false)
      case Some(p) => SentimentsFold(table[p.0 := p.1], entries[1..])
  }

  predicate Balanced(table: map<Json, Sentiment>)
  {
    forall a :: a in table ==> table[a].buy + table[a].sell == 100
  }

  /** Buy and sell shares always add up to 100. */
  lemma {:induction false} SentimentsStayBalanced(table: map<Json, Sentiment>, entries: seq<Json>)
    requires Balanced(table)
    ensures Balanced(SentimentsFold(table, entries).0)
    decreases |entries|
  {
    if entries != [] {
      match SentimentOf(entries[0])
      case None =>
      case Some(p) => SentimentsStayBalanced(table[p.0 := p.1], entries[1..]);
    }
  }

  // ---------------------------------------------------------------------------
  // Warm-up

  /** The frames `warm_up` sends before its asset switch. */
  function WarmUpOpening(asset: Json, period: Json): seq<Outgoing>
  {
    [ TickCommand,
      Event("balance/list", NoPayload),
      Event("indicator/list", NoPayload),
      Event("drawing/load", NoPayload),
      Event("pending/list", NoPayload),
      CandleSubscription(asset, period),
      Event("instruments/follow", PayloadOf(asset)),
      ChartNotificationRequest(asset, "1.0.0"),
      Event("depth/follow", PayloadOf(asset))
    ]
  }

  /**
   * The warm-up replays a browser's opening requests in a fixed order; with
   * an asset selected it ends with the chart settings and a second tick.
   */
  lemma WarmUpShape(asset: string, period: Json, expTime: Json)
    ensures var frames := WarmUpOpening(JStr(asset), period) +
                          [Event("settings/store", Encoded(SettingsStorePayload(JStr(asset), period, expTime))), TickCommand];
            Actions(frames) == ["tick", "balance/list", "indicator/list", "drawing/load", "pending/list",
                                "instruments/update", "instruments/follow", "chart_notification/get",
                                "depth/follow", "settings/store", "tick"]
  {
  }
}
