/**
  The polling cycle of `main`: every record of the feed is normalised to an
  identifier, matched against the watch list and, when the identifier is not
  cooling down, dispatched to both sinks and stamped with the cycle's time in
  the last-seen map. Time is an integer count of microseconds (the resolution
  of the timestamps the program takes); the cooldown is in the same unit.
 */
module Spotter {
  import opened Text
  import opened Aircraft
  import opened Notifiers

  /** Identifier -> time of the last notification for it. */
  type LastSeen = map<string, int>

  const MicrosPerMinute: int := 60_000_000

  datatype Config = Config(
    watchList: seq<string>,
    cooldown: int,
    discordUrl: string,
    homeAssistantUrl: string)

  /** The configuration the program ships with: two watched tail numbers,
      a 90-minute cooldown and both webhooks disabled. */
  const DefaultConfig: Config :=
    Config(["IDAHO99", "N2163J"], 90 * MicrosPerMinute, "", "")

  /** ELIGIBLE: never notified, or the last notification is more than
      `cooldown` in the past. Otherwise the identifier is COOLING. */
  predicate Eligible(seen: LastSeen, id: string, now: int, cooldown: int) {
    id !in seen || now - seen[id] > cooldown
  }

  /** One notification: the matched identifier, the cycle time and the record
      the sinks are handed. */
  datatype Event = Notified(id: string, at: int, record: Record)

  /** A record with the identifier line 94 reads from it, or `None` when
      reading it raises. */
  datatype Sighting = Sighting(id: Option<string>, record: Record)

  function Sight(r: Record): (s: Sighting)
    ensures s.record == r
    ensures s.id.Some? <==> Readable(r)
  {
    Sighting(Identifier(r), r)
  }

  function Sightings(records: seq<Record>): (s: seq<Sighting>)
    ensures |s| == |records|
    ensures forall i :: 0 <= i < |records| ==> s[i] == Sight(records[i])
  {
    seq(|records|, i requires 0 <= i < |records| => Sight(records[i]))
  }

  datatype StepResult = Continue(seen: LastSeen, events: seq<Event>) | Abort

  /** The outcome of one cycle; `aborted` when an error ended it early. */
  datatype CycleResult = CycleResult(seen: LastSeen, events: seq<Event>, aborted: bool)

  function NotifiedIds(events: seq<Event>): set<string> {
    set e | e in events :: e.id
  }

  lemma NotifiedIdsAppend(a: seq<Event>, b: seq<Event>)
    ensures NotifiedIds(a + b) == NotifiedIds(a) + NotifiedIds(b)
  {
    assert forall e :: e in a + b <==> e in a || e in b;
  }

  /** The chat sink, then the automation sink, each attempted whatever became
      of the other. */
  function Dispatch(cfg: Config, r: Record, transport: Post -> bool): (a: seq<Attempt>)
    requires Readable(r)
    ensures |a| == (if cfg.discordUrl == "" then 0 else 1) + (if cfg.homeAssistantUrl == "" then 0 else 1)
    ensures forall i :: 0 <= i < |a| ==>
      TailNumberOf(r, TailOfPost(a[i].post)) && a[i].delivered == transport(a[i].post)
    ensures cfg.discordUrl != "" ==> a[0].post == DiscordPost(cfg.discordUrl, r).value
    ensures cfg.homeAssistantUrl != "" ==> a[|a| - 1].post == HomeAssistantPost(cfg.homeAssistantUrl, r).value
  {
    var chat := Send(DiscordPost(cfg.discordUrl, r), transport);
    var automation := Send(HomeAssistantPost(cfg.homeAssistantUrl, r), transport);
    assert forall i :: 0 <= i < |chat| ==>
      TailNumberOf(r, TailOfPost(chat[i].post)) && chat[i].delivered == transport(chat[i].post);
    assert forall i :: 0 <= i < |automation| ==>
      TailNumberOf(r, TailOfPost(automation[i].post))
      && automation[i].delivered == transport(automation[i].post);
    chat + automation
  }

  /** The body of the per-record loop (lines 94-105). An identifier that
      cannot be read abandons the rest of the cycle. */
  function Step(cfg: Config, now: int, seen: LastSeen, s: Sighting): (r: StepResult)
    ensures r.Abort? <==> s.id.None?
    ensures r.Continue? ==> |r.events| <= 1
    ensures r.Continue? ==> forall e :: e in r.events ==>
      && s.id == Some(e.id)
      && e.id in cfg.watchList
      && e.at == now
      && e.record == s.record
    ensures r.Continue? && r.events == [] ==> r.seen == seen
    ensures r.Continue? && r.events != [] ==> r.seen == seen[r.events[0].id := now]
  {
    match s.id
    case None => Abort
    case Some(id) =>
      if id in cfg.watchList && Eligible(seen, id, now, cfg.cooldown) then
        Continue(seen[id := now], [Notified(id, now, s.record)])
      else
        Continue(seen, [])
  }

  /** The records of one feed document, in order, at one fixed time `now`. */
  function Cycle(cfg: Config, now: int, seen: LastSeen, sightings: seq<Sighting>): CycleResult
    decreases |sightings|
  {
    if sightings == [] then CycleResult(seen, [], false)
    else
      match Step(cfg, now, seen, sightings[0])
      case Abort => CycleResult(seen, [], true)
      case Continue(next, events) => Resume(events, Cycle(cfg, now, next, sightings[1..]))
  }

  /** A cycle's remainder after `events` were already produced. */
  function Resume(events: seq<Event>, rest: CycleResult): CycleResult {
    CycleResult(rest.seen, events + rest.events, rest.aborted)
  }

  /** What a fetch produced: a failure (transport error, non-success status or
      malformed JSON), or a document whose `aircraft` key may be missing. */
  datatype Feed = FetchFailed | Document(aircraft: Option<seq<Record>>)

  /** One iteration of the `while True` loop, with `now` taken after the fetch. */
  function Poll(cfg: Config, now: int, seen: LastSeen, feed: Feed): CycleResult {
    match feed
    case FetchFailed => CycleResult(seen, [], true)
    case Document(None) => Cycle(cfg, now, seen, [])
    case Document(Some(records)) => Cycle(cfg, now, seen, Sightings(records))
  }

  /** A cycle's clock reading and fetch result. */
  datatype Tick = Tick(now: int, feed: Feed)

  datatype RunResult = RunResult(seen: LastSeen, events: seq<Event>)

  /** A finite prefix of the process: the cycles in order, threading the map. */
  function Run(cfg: Config, seen: LastSeen, ticks: seq<Tick>): RunResult
    decreases |ticks|
  {
    if ticks == [] then RunResult(seen, [])
    else
      var c := Poll(cfg, ticks[0].now, seen, ticks[0].feed);
      var rest := Run(cfg, c.seen, ticks[1..]);
      RunResult(rest.seen, c.events + rest.events)
  }

  lemma CycleUnfold(cfg: Config, now: int, seen: LastSeen, sightings: seq<Sighting>)
    requires sightings != []
    ensures var step := Step(cfg, now, seen, sightings[0]);
      Cycle(cfg, now, seen, sightings) ==
        if step.Abort? then CycleResult(seen, [], true)
        else Resume(step.events, Cycle(cfg, now, step.seen, sightings[1..]))
  {
  }

  /** The loop invariant of RunCycle carries over one more record. */
  lemma {:induction false} CycleAdvance(cfg: Config, now: int, seen0: LastSeen, sightings: seq<Sighting>,
                                        i: nat, seen: LastSeen, events: seq<Event>)
    requires i < |sightings|
    requires Cycle(cfg, now, seen0, sightings) == Resume(events, Cycle(cfg, now, seen, sightings[i..]))
    ensures var step := Step(cfg, now, seen, sightings[i]);
      && (step.Abort? ==> Cycle(cfg, now, seen0, sightings) == CycleResult(seen, events, true))
      && (step.Continue? ==>
            Cycle(cfg, now, seen0, sightings)
              == Resume(events + step.events, Cycle(cfg, now, step.seen, sightings[i + 1..])))
  {
    CycleUnfold(cfg, now, seen, sightings[i..]);
    assert sightings[i..][0] == sightings[i];
    assert sightings[i..][1..] == sightings[i + 1..];
    var step := Step(cfg, now, seen, sightings[i]);
    if step.Abort? {
      assert events + [] == events;
    } else {
      var after := Cycle(cfg, now, step.seen, sightings[i + 1..]);
      assert (events + step.events) + after.events == events + (step.events + after.events);
    }
  }

  /** The loop of lines 93-105 as written: the map is updated in place and the
      loop is left at the first record whose identifier cannot be read. */
  method RunCycle(cfg: Config, now: int, seen0: LastSeen, records: seq<Record>)
    returns (seen: LastSeen, events: seq<Event>, aborted: bool)
    ensures CycleResult(seen, events, aborted) == Cycle(cfg, now, seen0, Sightings(records))
  {
    ghost var sightings := Sightings(records);
    seen, events, aborted := seen0, [], false;
    var i := 0;
    assert sightings[i..] == sightings;
    assert [] + Cycle(cfg, now, seen0, sightings).events == Cycle(cfg, now, seen0, sightings).events;
    while i < |records|
      invariant 0 <= i <= |records|
      invariant Cycle(cfg, now, seen0, sightings) == Resume(events, Cycle(cfg, now, seen, sightings[i..]))
    {
      CycleAdvance(cfg, now, seen0, sightings, i, seen, events);
      var rec := records[i];
      var id := Identifier(rec);
      assert sightings[i] == Sighting(id, rec);
      if id.None? {
        aborted := true;
        return;
      }
      var flightInfo := id.value;
      if flightInfo in cfg.watchList && (flightInfo !in seen || now - seen[flightInfo] > cfg.cooldown) {
        assert Step(cfg, now, seen, sightings[i]) == Continue(seen[flightInfo := now], [Notified(flightInfo, now, rec)]);
        events := events + [Notified(flightInfo, now, rec)];
        seen := seen[flightInfo := now];
      } else {
        assert Step(cfg, now, seen, sightings[i]) == Continue(seen, []);
        assert events + [] == events;
      }
      i := i + 1;
    }
    assert sightings[i..] == [];
    assert events + [] == events;
  }
}
