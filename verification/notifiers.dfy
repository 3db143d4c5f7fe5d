/**
  The two notification sinks (`send_discord_notification` and
  `send_home_assistant_notification`): each builds a payload from the record,
  with every missing key replaced by "N/A", and posts it unless its webhook URL
  is empty. Transport failures are caught inside the sink and only logged.
 */
module Notifiers {
  import opened Text
  import opened Aircraft

  /** Everything the chat message carries. The emoji and Markdown framing of
      the text are not modelled. */
  datatype ChatMessage = ChatMessage(
    tailNumber: string,
    altitude: Scalar,
    groundSpeed: Scalar,
    squawk: Scalar,
    trackingLink: string)

  datatype Payload =
    | Chat(message: ChatMessage)
    | Automation(
        tailNumber: string,
        altitude: Scalar,
        speed: Scalar,
        squawk: Scalar,
        latitude: Scalar,
        longitude: Scalar)

  datatype Post = Post(url: string, body: Payload)

  /** One POST the dispatcher issued, and whether the transport delivered it. */
  datatype Attempt = Attempt(post: Post, delivered: bool)

  const TrackingBase: string := "https://flightaware.com/live/flight/"

  /** `field` rendered into a payload: the stored value, or "N/A" when missing. */
  predicate Defaulted(field: Option<Scalar>, rendered: Scalar) {
    && (field.Some? ==> rendered == field.value)
    && (field.None? ==> rendered == Str(Placeholder))
  }

  /** The tail number both sinks report: the stripped `flight`, or "N/A". */
  predicate TailNumberOf(r: Record, tail: string) {
    && (r.flight.None? ==> tail == Placeholder)
    && (r.flight.Some? && r.flight.value.Str? ==> tail == Strip(r.flight.value.s))
  }

  function TailNumber(r: Record): (tail: string)
    requires Readable(r)
    ensures TailNumberOf(r, tail)
  {
    var t := StrippedOr(r.flight, Placeholder);
    StripTrimmed(Placeholder);
    t.value
  }

  /** The chat webhook's POST, or `None` when the webhook is not configured. */
  function DiscordPost(url: string, r: Record): (p: Option<Post>)
    requires url != "" ==> Readable(r)
    ensures p.None? <==> url == ""
    ensures p.Some? ==> p.value.url == url && p.value.body.Chat?
    ensures p.Some? ==>
      var m := p.value.body.message;
      && TailNumberOf(r, m.tailNumber)
      && m.trackingLink == TrackingBase + m.tailNumber
      && Defaulted(r.altBaro, m.altitude)
      && Defaulted(r.gs, m.groundSpeed)
      && Defaulted(r.squawk, m.squawk)
  {
    if url == "" then None
    else
      var tail := TailNumber(r);
      var na := Str(Placeholder);
      Some(Post(url, Chat(ChatMessage(
        tail, GetOr(r.altBaro, na), GetOr(r.gs, na), GetOr(r.squawk, na),
        TrackingBase + tail))))
  }

  /** The automation webhook's POST, or `None` when the webhook is not configured. */
  function HomeAssistantPost(url: string, r: Record): (p: Option<Post>)
    requires url != "" ==> Readable(r)
    ensures p.None? <==> url == ""
    ensures p.Some? ==> p.value.url == url && p.value.body.Automation?
    ensures p.Some? ==>
      var b := p.value.body;
      && TailNumberOf(r, b.tailNumber)
      && Defaulted(r.altBaro, b.altitude)
      && Defaulted(r.gs, b.speed)
      && Defaulted(r.squawk, b.squawk)
      && Defaulted(r.lat, b.latitude)
      && Defaulted(r.lon, b.longitude)
  {
    if url == "" then None
    else
      var na := Str(Placeholder);
      Some(Post(url, Automation(
        TailNumber(r), GetOr(r.altBaro, na), GetOr(r.gs, na), GetOr(r.squawk, na),
        GetOr(r.lat, na), GetOr(r.lon, na))))
  }

  /** Issue an optional POST through `transport`. A failed delivery is recorded
      and otherwise ignored, as the sinks swallow transport exceptions. */
  function Send(p: Option<Post>, transport: Post -> bool): (a: seq<Attempt>)
    ensures p.None? ==> a == []
    ensures p.Some? ==> |a| == 1 && a[0].post == p.value && a[0].delivered == transport(p.value)
  {
    match p
    case None => []
    case Some(post) => [Attempt(post, transport(post))]
  }

  /** The tail number a payload reports. */
  function TailOfPost(p: Post): string {
    match p.body
    case Chat(m) => m.tailNumber
    case Automation(t, _, _, _, _, _) => t
  }
}
