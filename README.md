# Quotex WebSocket session layer in Dafny

This project models the WebSocket session protocol layer of `pyquotex`, a Python client for the Quotex trading broker, and proves properties of that model. The model has three parts:

- **The inbound dispatcher** (`WebsocketClient.on_message` and the connection callbacks), in `client.dfy` with its pure step functions in `dispatch.dfy`. The raw-text checks come first, in priority order. A decoded dict then updates state for at most one branch of the `elif` chain. The correlation tag `_temp_status` links a `51-` announcement frame to the reply after it. Tick and sentiment arrays are recognised by shape. Every failure is swallowed.
- **The outbound command builders** (`send_wss_payload` framing, the asset-switch and warm-up frame sequences, and the `Buy`, `PendingCreate` and `Ssid` channels), in `wire.dfy`, `api.dfy` and `channels.dfy`.
- **The order and connection bookkeeping** (request ids, order lookup, the `start_websocket` verdict, the `send_ssid` early exit and `get_profile`), in `api.dfy`. The `Profile` object and its BRL rule are in `profile.dfy`.

Modelling choices:

- A JSON value is the datatype `Values.Json`. `values.dfy` also gives the Python operations the source applies to it: `.get`, indexing, `len`, iteration, truthiness, `int()`, `> 0`, `in` on strings and `.upper()`. Each of these reports failure where Python raises.
- The socket is the append-only log `QuotexApi.sent` of outbound frames.
- The shared `api` object and the module `global_value` are the classes `Session.QuotexApi` and `Session.Globals`.
- A Python exception becomes an `ok: bool` result or the `Raised` outcome. Where the source swallows exceptions, the model states exactly which writes happened before the failure.
- The dispatch is proved against step functions:
  - `Client.Dispatched` is the reply branch of one decoded message;
  - `Client.Received` and `Client.TagAfter` are the storing of the message and the tag step.
  - `Client.Retouched` is the history rewrite as seen through the reply field that the dispatch stored the same dict in.
  - `Client.ReplyState` and `Client.TagState` project the object state onto these functions.
- Wall-clock time, random draws and the expiration helper are inputs. These are the current second, the `(timestamp, randint)` draws and an `expirationTime` function. The helper's module is not part of this model.

## Model

| member | source | states |
|---|---|---|
| Values.GetOr | quotexapi/ws/client.py:73-74 | `d.get(k)` is the stored value when the key is present and None otherwise |
| Values.Get | quotexapi/ws/client.py:145 | `x[key]` succeeds exactly on a dict that holds the key |
| Values.At | quotexapi/ws/client.py:162-170 | `x[k]` yields a list's k-th element and fails on everything but an in-range list or string |
| Values.Len | quotexapi/ws/client.py:162-165 | `len` is defined exactly on lists, strings and dicts |
| Values.Elements | quotexapi/ws/client.py:75-76 | `for x in v` visits a list's items; iteration succeeds only on lists and strings |
| Values.KeyOf | quotexapi/ws/client.py:95-96 | an integer dict key found for a JSON value equals that value numerically |
| Values.Truncate | quotexapi/api.py:228 | `int()` of a float truncates toward zero: the result is within one of x, on the side of zero |
| Values.PyInt | quotexapi/ws/client.py:169-170 | `int()` truncates numbers, maps bools to 0/1 and fails on None, lists and dicts |
| Values.Positive | quotexapi/ws/client.py:112-113 | `x > 0` is defined on numbers and bools only, and on a number is the sign test |
| Values.ContainsAt | quotexapi/ws/client.py:58-65 | the substring test `sub in s` holds iff `sub` occurs at some index of `s` |
| Values.Upper | quotexapi/ws/objects/profile.py:231 | upper-casing keeps the length and maps each character independently |
| Values.IsBrl | quotexapi/ws/objects/profile.py:231 | the BRL test is defined exactly when the code is a string (`.upper()` raises otherwise) |
| Values.BrlSpelling | quotexapi/ws/objects/profile.py:231 | the BRL test accepts exactly the eight case variants of "brl" |
| Wire.PayloadOf | quotexapi/api.py:492-494 | None means no payload, a string is sent verbatim, any other value is JSON-encoded |
| Wire.PayloadText | quotexapi/api.py:492-497 | the payload text is absent iff there is no payload, else the verbatim string or its JSON encoding |
| Wire.EncodeFrame | quotexapi/api.py:490-497 | every frame starts with the Socket.IO event prefix `42["` and ends with `]` |
| Wire.WireText | quotexapi/api.py:477-499 | an event is sent as its encoded frame, a control frame as its raw text |
| Wire.QuoteIndex | quotexapi/api.py:490 | the scan stops at the first double quote, or at the end |
| Wire.QuoteIndexAfter | quotexapi/api.py:490 | in `action + '"' + tail` with a quote-free action, the first quote ends the action |
| Wire.RoundTrip | quotexapi/api.py:490-497 | decoding an encoded frame gives back the action and the payload text |
| Wire.TickFrame | quotexapi/api.py:161-163 | the tick command is exactly `42["tick"]` and decodes to the action "tick" with no payload |
| Wire.SentAsWrittenDropsPayload | quotexapi/api.py:495-497 | the frame as written is the same for every payload and is not a well-formed frame, while the intended one round-trips |
| Profiles.MinimumUnder | quotexapi/ws/objects/profile.py:224-233 | the minimum setter fails without a string currency; under BRL it stores 5, otherwise the argument |
| Profiles.Profile.constructor | quotexapi/ws/objects/profile.py:7-24 | a fresh profile has name "profile" and every other field None |
| Profiles.Profile.SetMinimumAmount | quotexapi/ws/objects/profile.py:224-233 | succeeds iff the currency is a string; under BRL stores 5 whatever the argument, otherwise the argument; touches only the minimum |
| Profiles.Profile.SetCurrencyCode | quotexapi/ws/objects/profile.py:240-249 | stores the code; a BRL code forces the minimum to 5, any other code leaves it unchanged; fails after the write on a non-string |
| Profiles.CurrencyFirstFollowsCurrency | quotexapi/api.py:453-454 | copying currency then minimum always ends with minimum 5 under BRL and the server value otherwise |
| Profiles.MinimumFirstRaisesOnFreshProfile | quotexapi/api.py:453-454 | as written, the first copy into a fresh profile raises, where the intended order succeeds |
| Profiles.MinimumFirstKeepsStaleBrlMinimum | quotexapi/api.py:453-454 | as written, moving from BRL to USD keeps the stale minimum 5, where the intended order stores the server value |
| Channels.BuyTiming | quotexapi/ws/channels/buy.py:14-19 | an OTC asset gets option type 100 and the duration as time, any other asset type 1 and the expiry |
| Channels.BuyAction | quotexapi/ws/channels/buy.py:35 | the action is "orders/tournament/open" iff the tournament id is positive, else "orders/open" |
| Channels.BuyPayloadFields | quotexapi/ws/channels/buy.py:23-32 | the order payload has exactly its eight keys with asset, amount, direction and ids passed through, and isDemo 0 in a tournament |
| Channels.OpenType | quotexapi/ws/channels/pending_create.py:15-18 | the open type is 1 iff an open price is given, else 0 |
| Channels.PendingPayloadFields | quotexapi/ws/channels/pending_create.py:27-38 | the payload carries openTime without openPrice for type 0, openPrice without openTime for type 1, and the fixed fields |
| Channels.SsidPayload | quotexapi/ws/channels/ssid.py:14-19 | the authorization payload is exactly session, isDemo = account type, tournamentId = 0 |
| Session.OrderTableRewrite | quotexapi/ws/channels/buy.py:37 | rewriting an existing order keeps the insertion-order key list valid |
| Session.FirstCarrying | quotexapi/api.py:634-637 | a found position lies within the scanned range |
| Session.FirstCarryingIsFirst | quotexapi/api.py:634-637 | the scan finds an order carrying the broker id and no earlier order carries it |
| Session.RequestIdForMissing | quotexapi/api.py:643-654 | no order carries the broker id iff the scan finds nothing, and then the request id is None |
| Session.OrderByIdAsWritten | quotexapi/api.py:627-641 | as written, a lookup by broker id raises exactly when the table is not empty; a lookup without a request id never finds an order |
| Session.OrderByIdAsWrittenRaises | quotexapi/api.py:635 | as written, a lookup by broker id in a non-empty table raises, though the intended scan finds the order |
| Session.Actions | quotexapi/api.py:306-319 | the action list has one entry per frame, in order |
| Session.OtcIn | quotexapi/api.py:227 | the `"_otc" in asset` test holds on strings by substring and raises on None, numbers and bools |
| Session.AssetJson | quotexapi/ws/client.py:231-235 | the current asset is sent as a string, or None when unset, and is always a valid dict key |
| Session.SettingsStoreFields | quotexapi/api.py:231-257 | settings/store carries the fixed chart settings plus the expiration, the asset symbol and the period |
| Session.ExpirationFor | quotexapi/api.py:226-229 | an OTC asset expires after its duration; otherwise the expiration helper at int(server timestamp); it fails iff the test or `int()` raises |
| Session.OrderExpiry | quotexapi/ws/channels/buy.py:14-19 | the order's expiry agrees with the asset switch's expiration and fails only when `int()` of the timestamp fails |
| Session.AssetSwitchShape | quotexapi/api.py:306-319 | for an OTC asset the sequence is tick, instruments/update, chart_notification/get, depth/unfollow, depth/follow, settings/store, with the duration as expiration |
| Session.StartVerdict | quotexapi/api.py:551-563 | error flag first (fail with reason), then connect 0 (fail), then connect 1 (success), then rejected 1 (token rejected), else keep waiting |
| Session.Globals.constructor | quotexapi/api.py:525-528 | the connect flag starts unset, the error flag false and the reason None, the values `start_websocket` resets them to; the other flags start at assumed defaults |
| Session.QuotexApi.constructor | quotexapi/api.py:70-150 | the first session in a process starts with no orders, no frames sent, empty tables and every reply field None; the starting server timestamp and `candles_data` are assumed None |
| Session.QuotexApi.SendWssPayload | quotexapi/api.py:477-499 | exactly one frame with the given action and payload is appended |
| Session.QuotexApi.Tick | quotexapi/api.py:161-163 | exactly one tick frame is appended |
| Session.QuotexApi.SubscribeRealtimeCandle | quotexapi/api.py:165-175 | on a hashable asset the price list is reset to empty and one instruments/update frame is sent; otherwise nothing changes |
| Session.QuotexApi.FollowAsset | quotexapi/api.py:177-183 | exactly one instruments/follow frame is appended |
| Session.QuotexApi.FollowCandle | quotexapi/api.py:185-191 | exactly one depth/follow frame is appended |
| Session.QuotexApi.UnfollowCandle | quotexapi/api.py:193-199 | exactly one depth/unfollow frame is appended |
| Session.QuotexApi.GetChartNotifications | quotexapi/api.py:209-218 | exactly one chart_notification/get frame is appended |
| Session.QuotexApi.SwitchToAsset | quotexapi/api.py:220-257 | succeeds iff the expiration is defined, and then sends exactly one settings/store frame; otherwise sends nothing |
| Session.QuotexApi.SimulateAssetSwitch | quotexapi/api.py:306-319 | sends the five opening frames, then settings/store iff the expiration is defined; the asset's price list is reset |
| Session.QuotexApi.ChangeAccountType | quotexapi/api.py:289-298 | the account type is stored and one account/change frame carries it with tournament 0 |
| Session.QuotexApi.GenerateRequestId | quotexapi/api.py:616-625 | the result is never a key of the order table, is the first draw not in the table, and lies in (ts, ts + 100]; none iff every draw collides |
| Session.QuotexApi.GetOrderById | quotexapi/api.py:627-641 | a broker id returns the first order in insertion order that carries it, None iff none does; otherwise the request id looks up the table; neither gives None |
| Session.QuotexApi.GetRequestIdFromOrderId | quotexapi/api.py:643-654 | the result is the found order's request id, None when no order carries the broker id, and raises when the order has no request |
| Session.QuotexApi.GetProfile | quotexapi/api.py:434-457 | skips when a profile id is set and force is off; otherwise copies every field, sets the timezone to the profile offset, and applies the currency-then-minimum BRL rule; the profile's `msg` is never touched |
| Session.QuotexApi.CopyIdentity | quotexapi/api.py:441-452 | succeeds iff the settings hold the identity fields, and then the profile and the timezone offset carry them |
| Session.QuotexApi.CopyCurrency | quotexapi/api.py:453-456 | succeeds iff the currency fields are present with a string code, copying them under the BRL rule |
| Session.QuotexApi.ResetConnectionFlags | quotexapi/api.py:526-528 | the connect flag, error flag and error reason are cleared |
| Session.QuotexApi.ConnectionVerdict | quotexapi/api.py:551-563 | the verdict is the flag-priority choice, and the SSID is cleared exactly when the token was rejected |
| Session.QuotexApi.Ssid | quotexapi/ws/channels/ssid.py:10-19 | exactly one authorization frame with the session payload is appended, and nothing else changes |
| Session.QuotexApi.SendSsid | quotexapi/api.py:565-580 | with an empty or None SSID it returns False and sends nothing; otherwise it sends one authorization frame, `wss_message` holds the reply stored during the wait, and it returns True iff that reply is not None |
| Session.QuotexApi.Buy | quotexapi/ws/channels/buy.py:11-37 | when the expiry is defined, sends the asset switch, a tick and the order frame, then stores the payload as the order's request iff the request id is known; otherwise sends nothing |
| Session.QuotexApi.PlaceOrder | quotexapi/ws/channels/buy.py:34-37 | sends a tick and the order frame; the request is stored on a known request id only, and other orders are unchanged |
| Session.QuotexApi.PendingCreate | quotexapi/ws/channels/pending_create.py:14-40 | sends the asset switch then exactly one pending/create frame; an explicit open time is used unchanged and leaves the profile alone, otherwise the profile is refreshed from the settings as `get_profile` does and the default open time is used |
| Dispatch.RawText | quotexapi/ws/client.py:57-58 | a text frame is checked as is; a bytes frame as its `b'...'` rendering |
| Dispatch.AfterDecode | quotexapi/ws/client.py:66-69 | only a bytes frame that decodes is parsed; anything else stays raw |
| Dispatch.UndecodedBinaryIsNeverDisconnect | quotexapi/ws/client.py:132-136 | a bytes frame that does not decode can never be the bare "41" |
| Dispatch.AnnouncementIsRecorded | quotexapi/ws/client.py:137-138 | every `451-[` announcement contains the tag marker "51-" |
| Dispatch.TagsAreAnnouncements | quotexapi/ws/client.py:139-143 | both placeholder tags are announcements |
| Dispatch.Rank | quotexapi/ws/client.py:73-129 | each branch has one place in the priority list |
| Dispatch.Classify | quotexapi/ws/client.py:73-129 | the branch chosen has its key truthy and no earlier branch's does |
| Dispatch.ClassifyIsFirstMatch | quotexapi/ws/client.py:73-129 | the chosen branch is the first match of the `elif` chain |
| Dispatch.FirstMatchFindsFirst | quotexapi/ws/client.py:73-129 | the first truthy test in a chain is the one selected |
| Dispatch.SignalFormatA | quotexapi/ws/client.py:78-82 | the first signal format keys its entry by a hashable asset |
| Dispatch.SignalEntry | quotexapi/ws/client.py:76-89 | one signal writes only its asset's slot, replacing it in the first format, and fails iff its asset or fields cannot be read |
| Dispatch.SignalsFoldKeepsOtherAssets | quotexapi/ws/client.py:75-89 | assets no signal names keep their entries |
| Dispatch.SignalsFoldOneSlotPerAsset | quotexapi/ws/client.py:75-89 | after a successful loop, every signalled asset holds exactly one time slot |
| Dispatch.Marked | quotexapi/ws/client.py:114-117 | the stored deal gets `win` and `game_state = 1` and keeps its other fields |
| Dispatch.SettledKey | quotexapi/ws/client.py:107-110 | a resolved request id is a key of the order table |
| Dispatch.SettleDeal | quotexapi/ws/client.py:106-120 | a deal resolved to an order gets result and WIN/LOSS status by its profit; profit-in-operation and the history record follow; a failed deal leaves the history unchanged |
| Dispatch.SettleDeals | quotexapi/ws/client.py:105-120 | settling keeps the set of orders |
| Dispatch.SettleDealsReportsEach | quotexapi/ws/client.py:105-120 | a successful loop appends exactly one history record per deal, in order |
| Dispatch.SettledStatusFollowsProfit | quotexapi/ws/client.py:111-113 | the order's status is WIN iff `deal["profit"] > 0` and LOSS iff not |
| Dispatch.DealWinAsWrittenRaises | quotexapi/ws/client.py:106-120 | as written, with an empty order table a deals push stores the deal's profit, then raises at `message["profit"]` and adds no history record, while the intended `deal["profit"]` records the win; with the order known the as-written lookup raises even earlier |
| Dispatch.CandleRecord | quotexapi/ws/client.py:148-157 | a raw candle maps to time, open, close, high, low and ticks from positions 0 to 5, and fails iff position 5 is missing |
| Dispatch.CandleRecordsAll | quotexapi/ws/client.py:146-158 | the rewrite succeeds iff every candle does, preserving count and order |
| Dispatch.SentimentOf | quotexapi/ws/client.py:165-173 | a sentiment entry has buy = int(v) and sell = 100 - buy under a hashable asset |
| Dispatch.SentimentsStayBalanced | quotexapi/ws/client.py:165-173 | buy + sell = 100 holds for every asset before and after the loop |
| Dispatch.WarmUpShape | quotexapi/ws/client.py:229-244 | warm-up sends exactly the eleven actions tick ... settings/store, tick in that order |
| Client.ConfirmedKey | quotexapi/ws/client.py:95-96 | the confirmed order is the one whose key equals the message's requestId, none iff no key does |
| Client.Confirm | quotexapi/ws/client.py:94-102 | on a known request id only that order gets id and response, and buy id, buy result and server time follow the message; an unknown id changes nothing |
| Client.Branch | quotexapi/ws/client.py:66-73 | a dict takes its classified branch; anything else selects none |
| Client.DispatchedValue | quotexapi/ws/client.py:66-73 | a raw frame selects no branch; a parsed one dispatches its value |
| Client.Dispatched | quotexapi/ws/client.py:73-129 | dispatch never adds or removes orders |
| Client.DispatchWritesOneBranch | quotexapi/ws/client.py:73-129 | every reply field outside the selected branch is unchanged, and no branch changes nothing |
| Client.ErrorReplyRule | quotexapi/ws/client.py:123-127 | an error stores its reason and sets the flag; the balance becomes `{"liveBalance": 0}` iff the reason is "not_money" (or it already was) |
| Client.TickOf | quotexapi/ws/client.py:162-164 | a tick entry yields its asset and the point (time, price) iff it has three readable positions and a hashable asset |
| Client.Ticked | quotexapi/ws/client.py:162-164 | only the tick's asset list grows, by one point, and only when it already exists |
| Client.NamedCandles | quotexapi/ws/client.py:146-158 | the history rewrite succeeds iff every candle has six positions, then replaces only "candles" with the named records |
| Client.TagRules | quotexapi/ws/client.py:137-161 | an announcement becomes the tag; after the settings tag the frame becomes the settings list and the tag clears; the history tag is kept |
| Client.HistoryRewriteTags | quotexapi/ws/client.py:70-161 | after a rewrite, the entry under the asset, `wss_message` and (when it took the message) `instruments` all hold the rewritten dict |
| Client.RetouchedReplies | quotexapi/ws/client.py:90-161 | the rewrite reaches the reply field that holds the same dict (balance, candles, sold, training balance, or the confirmation and its order's response) and no other field |
| Client.RewriteSeenThroughEveryAlias | quotexapi/ws/client.py:70-161 | after one frame under the history tag, every name holding the frame's dict shows the same rewritten candles as `wss_message` |
| Client.HistoryExchange | quotexapi/ws/client.py:137-161 | an announcement then a reply for the current asset stores the rewritten candles under that asset and leaves the history tag in place |
| Client.WebsocketClient.constructor | quotexapi/ws/client.py:18-26 | the client is bound to its session |
| Client.WebsocketClient.RawChecks | quotexapi/ws/client.py:58-65 | "authorization/reject" sets rejected = 1 only; otherwise "s_authorization" sets accepted = 1 and rejected = 0; otherwise "instruments/list" sets the listen flag |
| Client.WebsocketClient.RecordSignal | quotexapi/ws/client.py:76-89 | one signal updates the table as the signal step function says |
| Client.WebsocketClient.ApplySignals | quotexapi/ws/client.py:75-89 | the loop updates the table as the fold over the signals, stopping at the first failure |
| Client.WebsocketClient.ApplyPurchase | quotexapi/ws/client.py:94-102 | the purchase branch updates orders and buy fields as the confirmation function says |
| Client.WebsocketClient.SettleOne | quotexapi/ws/client.py:106-120 | one deal updates orders, history and profit as the settlement function says |
| Client.WebsocketClient.ApplyDeals | quotexapi/ws/client.py:105-120 | the loop settles deals in order, stopping at the first failure |
| Client.WebsocketClient.ApplyError | quotexapi/ws/client.py:123-127 | the error reason and flag are stored; the balance becomes `{"liveBalance": 0}` on "not_money" |
| Client.WebsocketClient.DispatchOrders | quotexapi/ws/client.py:94-120 | the purchase and deals branches change the state as the dispatch function says |
| Client.WebsocketClient.DispatchStored | quotexapi/ws/client.py:90-122 | the balance, candles, ticket and training-balance branches store the message as the dispatch function says |
| Client.WebsocketClient.DispatchNotices | quotexapi/ws/client.py:73-131 | the signals, error and fall-through branches change the state as the dispatch function says |
| Client.WebsocketClient.DispatchDict | quotexapi/ws/client.py:73-131 | a decoded dict updates the reply state exactly as the dispatch function says |
| Client.WebsocketClient.Store | quotexapi/ws/client.py:70-72 | a decoded message becomes `wss_message`, and also `instruments` when its text mentions call or put |
| Client.WebsocketClient.AppendTick | quotexapi/ws/client.py:162-164 | the price table changes as the tick function says |
| Client.WebsocketClient.ApplySentiments | quotexapi/ws/client.py:165-173 | the sentiment table is the fold over the entries |
| Client.WebsocketClient.ApplyHistory | quotexapi/ws/client.py:143-161 | a reply for the current asset is stored as the history function says, and the reply field holding the same dict shows the rewrite |
| Client.WebsocketClient.RetouchReplies | quotexapi/ws/client.py:146-161 | the in-place rewrite changes the reply fields as the retouch function says and leaves the tag fields alone |
| Client.WebsocketClient.RetouchStored | quotexapi/ws/client.py:90-122 | a balance, candles, sold or training-balance reply field shows the rewritten dict |
| Client.WebsocketClient.RetouchConfirmation | quotexapi/ws/client.py:94-99 | a confirmation's rewrite shows in `buy_successful` and in the answered order's response, and only there |
| Client.WebsocketClient.StoreHistory | quotexapi/ws/client.py:146-161 | the reply is stored under its asset, with candles rewritten when possible, and `wss_message` and an aliased `instruments` show the rewrite |
| Client.WebsocketClient.ShapeStep | quotexapi/ws/client.py:162-173 | tick and sentiment arrays change the tables as the shape function says |
| Client.WebsocketClient.TagStep | quotexapi/ws/client.py:137-173 | the tag step changes the tag state as the tag function says; the only reply change is the history rewrite seen through the dispatched dict |
| Client.WebsocketClient.OnMessage | quotexapi/ws/client.py:46-176 | a frame sends a tick iff the second is 0/20/40, runs the raw checks, dispatches exactly one branch, records "41" and runs the tag step, whose history rewrite also shows in the reply field the dispatch stored; the lock is released |
| Client.WebsocketClient.Prelude | quotexapi/ws/client.py:53-65 | the tick rule and the raw-text checks, in that order |
| Client.WebsocketClient.Handle | quotexapi/ws/client.py:66-175 | storing, dispatch, the disconnect check and the tag step, in that order; the reply state is the dispatch followed by the history rewrite of the same dict |
| Client.WebsocketClient.NoteDisconnect | quotexapi/ws/client.py:132-136 | a bare "41" frame sets the connect flag to 0 and nothing else |
| Client.WebsocketClient.Receive | quotexapi/ws/client.py:66-131 | the message is stored and dispatched as the two step functions say |
| Client.WebsocketClient.OnError | quotexapi/ws/client.py:178-187 | the error text becomes the reason and the error flag is set |
| Client.WebsocketClient.OnClose | quotexapi/ws/client.py:200-209 | the connect flag becomes 0 |
| Client.WebsocketClient.OnPong | quotexapi/ws/client.py:220-227 | exactly one raw "2" frame is sent |
| Client.WebsocketClient.WarmUp | quotexapi/ws/client.py:229-244 | sends the nine opening frames, then settings/store and a tick iff the expiration is defined; resets the asset's price list |
| Client.WebsocketClient.SendOpening | quotexapi/ws/client.py:230-240 | the nine opening frames are sent in order and the asset's price list is reset |
| Client.WebsocketClient.OnOpen | quotexapi/ws/client.py:189-198 | the connect flag becomes 1, then the warm-up sequence is sent and the current asset's price list is reset |

## Left out

- Networking, threads and TLS are left out. The model has no socket, no websocket thread start or join, and no certificate setup. The socket is the frame log. websocket-client's handing of a callback's exception to `on_error` is not modelled either.
- The `ssl_Mutual_exclusion*` spin-wait flags are left out. `on_message` raises its flag and clears it at the end (`OnMessage` ensures it ends cleared). The write lock in `send_websocket_request` and its waiting are not modelled.
- The polling loops with `time.sleep` and wall-clock timeouts are left out. `start_websocket` becomes one evaluation of the verdict, and `send_ssid`'s wait becomes the input `reply`, the message stored during the wait.
- Client.WebsocketClient.OnMessage: as written, the tick at second 0, 20 or 40 never leaves. `on_message` raises `ssl_Mutual_exclusion` (quotexapi/ws/client.py:53) before calling `tick()` (line 56), and `send_websocket_request` spins while that flag is up (quotexapi/api.py:468-471). Only `connect` and the end of `on_message` clear it, so the receive thread hangs there and this frame and every later one go unprocessed. The model leaves the flags' waiting out: the tick is sent and the frame is processed.
- Client.WebsocketClient.Prelude: the same hang applies; the tick rule is modelled as if the send went through.
- SendSsid: does not model the timeout's exact timing; `reply` is None when no message arrived before the timeout.
- `connect`, `reconnect`, `close`, `authenticate`, `login`, `logout`, `send_http_request_v1` and `get_candles` are left out. They orchestrate I/O and HTTP, not the protocol rules.
- `unsubscribe_realtime_candle`, `edit_training_balance`, `refill_demo_balance`, `signals_subscribe`, `change_account` and `indicators` are left out. Each is one more frame send with the same shape as the modelled builders.
- `on_ping` is not modelled: it does nothing.
- JSON parsing and encoding are inputs. A bytes frame comes with its decoded value, or none, and `json.dumps` is a function parameter.
- Bytes are rendered as `b'...'` without Python's escaping of non-printable characters.
- The expiration helper and the timestamp come from a module that is not part of this model. They are a function parameter, the server timestamp and the `(timestamp, randint)` draws.
- `GenerateRequestId` is bounded by the finite list of draws, where the source re-rolls forever.
- `ListInfoData.set` is a history log of the calls made. `Settings.get_settings` is the input `profileData`.
- Orders are created by the callers, which are not part of this model. The model takes the order table as it finds it, with its keys in insertion order.
- Values.Elements: iterating a dict (its keys) is treated as a failure.
- JSON numbers are reals: the model does not tell `1` from `1.0`, which `json.dumps` writes differently (`trade_amount=1` at quotexapi/ws/channels/pending_create.py:14 is `1.0` here), and it cannot represent `NaN` or `Infinity`.
- Python's equality of `True` with `1` as a dict key is not modelled.
- Values.Upper: does ASCII upper-casing only.
- Values.PyInt: does not accept the surrounding whitespace or `_` separators that Python's `int()` accepts.
- Aliasing is modelled where a later reader of the state can see it.
  - `wss_message`, `instruments` and the reply field filled by the dispatch branch all share the decoded dict. The reply field is one of `account_balance`, `candles_data`, `buy_successful` with the order's `response`, `sold_options_respond` or `training_balance_edit_request`. The in-place candle rewrite under `candle_v2_data` is seen through all of them (`Client.RewriteSeenThroughEveryAlias`).
  - An order's `result` carries the `win` and `game_state` marks the loop adds to the same deal dict afterwards (`Dispatch.Marked`).
  - The same marks also show through `wss_message["deals"]` in the source. The model's `wssMessage` keeps the deals unmarked.
- Logging and the `print` calls are left out.
- The `Profile` getters and plain setters are direct field accesses on `Profiles.Profile`. Only the two coupled setters are methods.
- Dispatch branch "list": `elif not message.get("list") == []` assigns `wss_message` again, which it already holds. The model treats it as the no-op branch `Other`.
- Session.QuotexApi.constructor: the starting `timesync.server_timestamp` and `candles.candles_data` are assumed None, because `TimeSync` and `Candles` (quotexapi/api.py:88-89) are not part of this model. This start decides whether `WarmUp` and `Buy` on a non-OTC asset can compute an expiration before the first purchase confirmation.
- Session.QuotexApi.constructor: `orders`, `profile`, `listinfodata`, `timesync` and `candles` are class attributes in the source (quotexapi/api.py:72-90), shared by every `QuotexAPI` in the process. The model gives each session its own, so the empty order table and fresh profile hold only for the first instance.
- Session.QuotexApi.GetProfile: on a missing field the source has already written the fields copied before it (quotexapi/api.py:441-456). The model does not state that partial state, and neither do `CopyIdentity` and `CopyCurrency`.
- Session.Globals.constructor: the starting values of `SSID`, the reject, accept and listen flags and the mutex flag are assumed (None, 0, 0, false, false), because `global_value.py` is not part of this model. Only the connect, error and reason values follow `start_websocket`.
- The trade-history sink is unbounded here. No bound appears in the code, and `ListInfoData` is not part of this model.

## Findings

| source | as written | input that shows it | evidently intended | confidence | as-written member | corrected member |
|---|---|---|---|---|---|---|
| quotexapi/api.py:495-497 | `data.replace(...)` results are discarded, so every frame is sent as the literal template `42["action"%payload%]` | any action with any payload, e.g. `tick` with none | substitute `,payload` or nothing into the template | not executed | Wire.SentAsWrittenDropsPayload | Wire.RoundTrip |
| quotexapi/api.py:635 | `for request_id, order in self.orders` unpacks integer keys and raises TypeError on any non-empty table | orders `{5: {"id": 7, ...}}`, order_id 7 | iterate `self.orders.items()` | not executed | Session.OrderByIdAsWrittenRaises | Session.QuotexApi.GetOrderById |
| quotexapi/ws/client.py:116 | `message["profit"]` reads the push, not the deal; a deals push has no "profit" key, so the step raises after storing the deal's profit and before recording it | `{"deals": [{"id": "d1", "profit": 0.8}]}` with an empty order table: `profit_in_operation` becomes 0.8, line 116 raises KeyError, no history record is added (with the order known, api.py:635 raises first) | `deal["profit"]` | not executed | Dispatch.DealWinAsWrittenRaises | Dispatch.SettleDeal |
| quotexapi/api.py:453-454 | the minimum is set before the currency: the first call raises on `None.upper()`, and a move from BRL keeps the minimum 5 | a fresh profile; or currency BRL then USD with minDealAmount 1 | set the currency code first, then the minimum | not executed | Profiles.MinimumFirstKeepsStaleBrlMinimum | Session.QuotexApi.GetProfile |

Both setters apply the BRL rule (quotexapi/ws/objects/profile.py:231-233 and 247-249), so the minimum a profile update ends with depends on the copy order at quotexapi/api.py:453-454. Only with the currency set first does the minimum follow the new currency whatever the previous one was. Minimum first raises while the currency is None, and keeps a stale 5 after a move away from BRL; between two non-BRL currencies both orders store the server's minimum. The model follows the corrected order, in which the minimum always follows the new currency (`Profiles.CurrencyFirstFollowsCurrency`).

The tag `history/list/v2` is never cleared (quotexapi/ws/client.py:143-161), unlike the settings tag. The model keeps this as written. While the tag stands, every later frame is treated as a history reply, and tick and sentiment arrays are ignored (`Client.TagRules`).
