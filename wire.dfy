/**
 * The outbound wire format of the socket.io-style transport: a command
 * frame is `42["<action>"` followed by `,<payload>` when there is a payload,
 * then `]`. `send_wss_payload` uses a string payload verbatim and JSON-encodes
 * any other payload.
 */
module Wire {
  import opened Values

  /** What `send_wss_payload` was handed as its payload. */
  datatype Payload =
    | NoPayload               // payload=None
    | Verbatim(text: string)  // a str payload, sent as it is
    | Encoded(value: Json)    // anything else, sent as json.dumps(value)

  /** One write on the socket: a command frame, or a bare control frame. */
  datatype Outgoing =
    | Event(action: string, payload: Payload)
    | Control(text: string)

  /** The payload a Python value becomes: None, a str, or something to encode. */
  function PayloadOf(p: Json): (r: Payload)
    ensures p == JNull <==> r == NoPayload
    ensures p.JStr? <==> r.Verbatim?
    ensures r.Verbatim? ==> r.text == p.s
    ensures r.Encoded? ==> r.value == p
  {
    match p
    case JNull => NoPayload
    case JStr(s) => Verbatim(s)
    case _ => Encoded(p)
  }

  /** The text that follows the action, given `json.dumps` as `dumps`. */
  function PayloadText(p: Payload, dumps: Json -> string): (r: Option<string>)
    ensures r.None? <==> p.NoPayload?
    ensures p.Verbatim? ==> r == Some(p.text)
    ensures p.Encoded? ==> r == Some(dumps(p.value))
  {
    match p
    case NoPayload => None
    case Verbatim(t) => Some(t)
    case Encoded(j) => Some(dumps(j))
  }

  const Prefix: string := "42[\""

  /** The frame the template is meant to produce. */
  function EncodeFrame(action: string, payloadText: Option<string>): (r: string)
    ensures Prefix <= r && r[|r| - 1] == ']'
  {
    Prefix + action + "\"" + (if payloadText.Some? then "," + payloadText.value else "") + "]"
  }

  /** The wire text of one socket write. */
  function WireText(o: Outgoing, dumps: Json -> string): (r: string)
    ensures o.Event? ==> r == EncodeFrame(o.action, PayloadText(o.payload, dumps))
    ensures o.Control? ==> r == o.text
  {
    match o
    case Event(a, p) => EncodeFrame(a, PayloadText(p, dumps))
    case Control(t) => t
  }

  predicate NoQuote(s: string)
  {
    forall i :: 0 <= i < |s| ==> s[i] != '"'
  }

  /** Index of the first double quote in `s`, or |s| when there is none. */
  function QuoteIndex(s: string): (k: nat)
    ensures k <= |s|
    ensures k < |s| ==> s[k] == '"'
    ensures NoQuote(s[..k])
  {
    if s == [] then 0
    else if s[0] == '"' then 0
    else
      var k := 1 + QuoteIndex(s[1..]);
      assert s[..k] == [s[0]] + s[1..][..k - 1];
      k
  }

  /**
   * Reading a command frame back: the action up to the closing quote, then
   * either `]` alone or `,` payload `]`. Anything else is not a command frame.
   */
  function DecodeFrame(frame: string): Option<(string, Option<string>)>
  {
    if !(Prefix <= frame) then None
    else
      var rest := frame[|Prefix|..];
      var k := QuoteIndex(rest);
      if k == |rest| then None
      else
        var after := rest[k + 1..];
        if after == "]" then Some((rest[..k], None))
        else if |after| >= 2 && after[0] == ',' && after[|after| - 1] == ']' then
          Some((rest[..k], Some(after[1..|after| - 1])))
        else None
  }

  /** The quote search stops exactly at the end of a quote-free action. */
  lemma {:induction false} QuoteIndexAfter(action: string, tail: string)
    requires NoQuote(action)
    ensures QuoteIndex(action + "\"" + tail) == |action|
    decreases |action|
  {
    if action != [] {
      assert (action + "\"" + tail)[1..] == action[1..] + "\"" + tail;
      QuoteIndexAfter(action[1..], tail);
    }
  }

  /** Every command frame decodes back to its action and payload text. */
  lemma RoundTrip(action: string, payloadText: Option<string>)
    requires NoQuote(action)
    ensures DecodeFrame(EncodeFrame(action, payloadText)) == Some((action, payloadText))
  {
    var frame := EncodeFrame(action, payloadText);
    var tail := (if payloadText.Some? then "," + payloadText.value else "") + "]";
    assert frame == Prefix + (action + "\"" + tail);
    var rest := frame[|Prefix|..];
    assert rest == action + "\"" + tail;
    QuoteIndexAfter(action, tail);
    assert rest[..|action|] == action;
    assert rest[|action| + 1..] == tail;
  }

  /** The keep-alive command `tick` travels as `42["tick"]`. */
  lemma TickFrame()
    ensures EncodeFrame("tick", PayloadText(NoPayload, _ => "")) == "42[\"tick\"]"
    ensures DecodeFrame("42[\"tick\"]") == Some(("tick", None))
  {
    RoundTrip("tick", None);
  }

  /**
   * The template as `send_wss_payload` leaves it: the results of both
   * `str.replace` calls are discarded, so the placeholder is what is sent.
   */
  function SentAsWritten(action: string, payload: Payload): (r: string)
  {
    Prefix + action + "\"%payload%]"
  }

  /**
   * As written, the payload never reaches the wire and what is sent is not a
   * command frame at all, while the intended frame decodes to the payload.
   */
  lemma SentAsWrittenDropsPayload(action: string, p: Payload, q: Payload, dumps: Json -> string)
    requires NoQuote(action)
    ensures SentAsWritten(action, p) == SentAsWritten(action, q)
    ensures DecodeFrame(SentAsWritten(action, p)) == None
    ensures DecodeFrame(EncodeFrame(action, PayloadText(p, dumps))) == Some((action, PayloadText(p, dumps)))
  {
    var tail := "%payload%]";
    assert SentAsWritten(action, p) == Prefix + (action + "\"" + tail);
    QuoteIndexAfter(action, tail);
    var rest := SentAsWritten(action, p)[|Prefix|..];
    assert rest == action + "\"" + tail;
    assert rest[|action| + 1..] == tail;
    RoundTrip(action, PayloadText(p, dumps));
  }
}
