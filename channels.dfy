/**
 * The payload rules of the three outbound channels: placing an order
 * (`Buy`), placing a pending order (`PendingCreate`) and authorising the
 * socket with the session token (`Ssid`). The frames they send and the order
 * table update are in the `QuotexApi` class, which owns the socket.
 */
module Channels {
  import opened Values

  /** OTC assets are named with an "_otc" suffix. */
  predicate IsOtc(asset: string)
  {
    Contains(asset, "_otc")
  }

  /**
   * Option type and expiry of an order: an OTC asset trades a relative
   * duration (option type 100), any other asset an absolute expiration
   * time computed from the server clock (option type 1).
   */
  function BuyTiming(asset: string, duration: int, expiry: int): (r: (int, int))
    ensures IsOtc(asset) ==> r == (100, duration)
    ensures !IsOtc(asset) ==> r == (1, expiry)
  {
    if IsOtc(asset) then (100, duration) else (1, expiry)
  }

  /** Tournament orders go to their own action. */
  function BuyAction(tournamentId: int): (r: string)
    ensures r == "orders/tournament/open" <==> tournamentId > 0
    ensures r == "orders/open" <==> tournamentId <= 0
  {
    if tournamentId > 0 then "orders/tournament/open" else "orders/open"
  }

  /** The order payload of `Buy`. */
  function BuyPayload(price: real, asset: string, direction: string, duration: int, expiry: int,
                      requestId: int, tournamentId: int, accountType: Json): Json
  {
    var timing := BuyTiming(asset, duration, expiry);
    JObj(map[
      "asset" := JStr(asset),
      "amount" := JNum(price),
      "time" := JNum(timing.1 as real),
      "action" := JStr(direction),
      "isDemo" := (if tournamentId > 0 then JNum(0.0) else accountType),
      "tournamentId" := JNum(tournamentId as real),
      "requestId" := JNum(requestId as real),
      "optionType" := JNum(timing.0 as real)
    ])
  }

  /**
   * The order payload carries the order as given, the demo flag of the
   * account (0 inside a tournament), and the timing its asset calls for.
   */
  lemma BuyPayloadFields(price: real, asset: string, direction: string, duration: int, expiry: int,
                         requestId: int, tournamentId: int, accountType: Json)
    ensures var p := BuyPayload(price, asset, direction, duration, expiry, requestId, tournamentId, accountType);
            && p.JObj?
            && p.fields.Keys == {"asset", "amount", "time", "action", "isDemo", "tournamentId", "requestId", "optionType"}
            && p.fields["asset"] == JStr(asset) && p.fields["amount"] == JNum(price)
            && p.fields["action"] == JStr(direction)
            && p.fields["tournamentId"] == JNum(tournamentId as real)
            && p.fields["requestId"] == JNum(requestId as real)
            && p.fields["isDemo"] == (if tournamentId > 0 then JNum(0.0) else accountType)
            && (IsOtc(asset) ==> p.fields["optionType"] == JNum(100.0) && p.fields["time"] == JNum(duration as real))
            && (!IsOtc(asset) ==> p.fields["optionType"] == JNum(1.0) && p.fields["time"] == JNum(expiry as real))
  {
  }

  /** `openType` is 1 when an open price is given, 0 otherwise. */
  function OpenType(openPrice: Json): (r: int)
    ensures r == 1 <==> openPrice != JNull
    ensures r == 0 <==> openPrice == JNull
  {
    if openPrice != JNull then 1 else 0
  }

  /**
   * The payload of `PendingCreate`: a pending order opens either at a time
   * (`openTime`) or at a price (`openPrice`), never both.
   */
  function PendingPayload(asset: string, direction: string, duration: int, tradeAmount: real,
                          openTime: Json, openPrice: Json): Json
  {
    var openType := OpenType(openPrice);
    var base := map[
      "openType" := JNum(openType as real),
      "asset" := JStr(asset),
      "timeframe" := JNum(duration as real),
      "command" := JStr(direction),
      "amount" := JNum(tradeAmount)
    ];
    if openType == 0 then JObj(base["openTime" := openTime]) else JObj(base["openPrice" := openPrice])
  }

  /**
   * A pending order opens either at a time (`openTime`) or at a price
   * (`openPrice`), never both, and `openType` says which.
   */
  lemma PendingPayloadFields(asset: string, direction: string, duration: int, tradeAmount: real,
                             openTime: Json, openPrice: Json)
    ensures var p := PendingPayload(asset, direction, duration, tradeAmount, openTime, openPrice);
            && p.JObj?
            && ("openTime" in p.fields <==> openPrice == JNull)
            && ("openPrice" in p.fields <==> openPrice != JNull)
            && p.fields.Keys - {"openTime", "openPrice"} == {"openType", "asset", "timeframe", "command", "amount"}
            && (openPrice == JNull ==> p.fields["openType"] == JNum(0.0) && p.fields["openTime"] == openTime)
            && (openPrice != JNull ==> p.fields["openType"] == JNum(1.0) && p.fields["openPrice"] == openPrice)
            && p.fields["asset"] == JStr(asset) && p.fields["timeframe"] == JNum(duration as real)
            && p.fields["command"] == JStr(direction) && p.fields["amount"] == JNum(tradeAmount)
  {
  }

  /** The authorisation payload: the session token, the account mode and no tournament. */
  function SsidPayload(ssid: Json, accountType: Json): (r: Json)
    ensures r.JObj? && r.fields.Keys == {"session", "isDemo", "tournamentId"}
    ensures r.fields["session"] == ssid
    ensures r.fields["isDemo"] == accountType
    ensures r.fields["tournamentId"] == JNum(0.0)
  {
    JObj(map["session" := ssid, "isDemo" := accountType, "tournamentId" := JNum(0.0)])
  }
}
