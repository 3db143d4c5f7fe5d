/**
  What the watch-and-cooldown rule of `main` guarantees: who is notified,
  how the last-seen map changes, what happens at the cooldown boundary, and
  what the map looks like after any number of cycles.
 */
module Cooldown {
  import opened Text
  import opened Aircraft
  import opened Notifiers
  import opened Spotter

  /** How many notifications in `events` are for `id`. */
  function Occurrences(events: seq<Event>, id: string): nat {
    if events == [] then 0
    else (if events[0].id == id then 1 else 0) + Occurrences(events[1..], id)
  }

  /** The identifiers a cycle gets to look at: those before the first record
      whose identifier cannot be read. */
  function ProcessedIds(sightings: seq<Sighting>): seq<string> {
    if sightings == [] || sightings[0].id.None? then []
    else [sightings[0].id.value] + ProcessedIds(sightings[1..])
  }

  /** The map after a cycle, relative to the map before it: stamped with `now`
      exactly at the notified identifiers, every other entry kept. */
  ghost predicate Stamped(cfg: Config, now: int, seen: LastSeen, r: CycleResult) {
    && (forall e :: e in r.events ==> e.at == now && e.id in cfg.watchList)
    && r.seen.Keys == seen.Keys + NotifiedIds(r.events)
    && (forall k :: k in NotifiedIds(r.events) ==> r.seen[k] == now)
    && (forall k :: k in seen && k !in NotifiedIds(r.events) ==> r.seen[k] == seen[k])
  }

  /** Every key of the last-seen map is a watched identifier. */
  ghost predicate WithinWatchList(cfg: Config, seen: LastSeen) {
    forall k :: k in seen ==> k in cfg.watchList
  }

  /** Every entry of the map is the time of a notification for that identifier. */
  ghost predicate Explained(seen: LastSeen, events: seq<Event>) {
    forall k :: k in seen ==> exists e :: e in events && e.id == k && e.at == seen[k]
  }

  // ---------------------------------------------------------------------------
  // One record
  // ---------------------------------------------------------------------------

  /** A record whose identifier is not watched changes nothing and notifies nobody. */
  lemma UnwatchedRecordIgnored(cfg: Config, now: int, seen: LastSeen, rec: Record, id: string)
    requires Identifier(rec) == Some(id) && id !in cfg.watchList
    ensures Step(cfg, now, seen, Sight(rec)) == Continue(seen, [])
  {
  }

  /** A record without a `flight` key is matched as "not_available", so it is
      ignored unless that very string is on the watch list. */
  lemma MissingFlightIgnored(cfg: Config, now: int, seen: LastSeen, rec: Record)
    requires rec.flight.None? && NotAvailable !in cfg.watchList
    ensures Step(cfg, now, seen, Sight(rec)) == Continue(seen, [])
  {
    IdentifierOfMissingFlight(rec);
  }

  /** Nothing in the code keeps "not_available" off the watch list; when it is
      there, every record without a `flight` key matches it. */
  lemma MissingFlightMatchesSentinel(cfg: Config, now: int, seen: LastSeen, rec: Record)
    requires rec.flight.None? && NotAvailable in cfg.watchList
    requires Eligible(seen, NotAvailable, now, cfg.cooldown)
    ensures Step(cfg, now, seen, Sight(rec))
      == Continue(seen[NotAvailable := now], [Notified(NotAvailable, now, rec)])
  {
    IdentifierOfMissingFlight(rec);
  }

  /** Matching is on the stripped `flight`: whitespace around a watched tail
      number does not prevent a match. */
  lemma PaddedFlightMatches(cfg: Config, now: int, seen: LastSeen, rec: Record,
                            p: string, t: string, q: string)
    requires rec.flight == Some(Str(p + t + q))
    requires AllSpace(p) && AllSpace(q) && Trimmed(t)
    requires t in cfg.watchList && t !in seen
    ensures Step(cfg, now, seen, Sight(rec)) == Continue(seen[t := now], [Notified(t, now, rec)])
  {
    IdentifierIgnoresPadding(rec, p, t, q);
  }

  /** `" N2163J "` matches the watch entry `"N2163J"` of the shipped configuration. */
  lemma PaddedTailNumberExample(now: int)
    ensures var rec := Record(Some(Str(" N2163J ")), None, None, None, None, None);
      Step(DefaultConfig, now, map[], Sight(rec))
        == Continue(map["N2163J" := now], [Notified("N2163J", now, rec)])
  {
    var rec := Record(Some(Str(" N2163J ")), None, None, None, None, None);
    assert " N2163J " == " " + "N2163J" + " ";
    assert Trimmed("N2163J");
    assert AllSpace(" ");
    PaddedFlightMatches(DefaultConfig, now, map[], rec, " ", "N2163J", " ");
  }

  /** The first sighting of a watched identifier is always notified and stamped. */
  lemma FirstSightingNotifies(cfg: Config, now: int, seen: LastSeen, s: Sighting, id: string)
    requires s.id == Some(id) && id in cfg.watchList && id !in seen
    ensures Step(cfg, now, seen, s) == Continue(seen[id := now], [Notified(id, now, s.record)])
  {
  }

  /** Within the cooldown (inclusive) a sighting is skipped and nothing changes. */
  lemma CoolingSkips(cfg: Config, now: int, seen: LastSeen, s: Sighting, id: string)
    requires s.id == Some(id) && id in seen && now - seen[id] <= cfg.cooldown
    ensures Step(cfg, now, seen, s) == Continue(seen, [])
  {
  }

  /** The comparison is strict: exactly `cooldown` after the last notification
      is still cooling; one unit later is eligible again. */
  lemma CooldownBoundary(cfg: Config, seen: LastSeen, s: Sighting, id: string)
    requires s.id == Some(id) && id in cfg.watchList && id in seen
    ensures Step(cfg, seen[id] + cfg.cooldown, seen, s) == Continue(seen, [])
    ensures var later := seen[id] + cfg.cooldown + 1;
      Step(cfg, later, seen, s) == Continue(seen[id := later], [Notified(id, later, s.record)])
  {
  }

  // ---------------------------------------------------------------------------
  // One cycle
  // ---------------------------------------------------------------------------

  lemma NotifiedIdsOfEmpty()
    ensures NotifiedIds([]) == {}
  {
    var none: seq<Event> := [];
    assert forall e :: e !in none;
  }

  lemma OccurrencesAppend(a: seq<Event>, b: seq<Event>, id: string)
    ensures Occurrences(a + b, id) == Occurrences(a, id) + Occurrences(b, id)
  {
    if a == [] {
      assert a + b == b;
    } else {
      assert (a + b)[1..] == a[1..] + b;
    }
  }

  /** After a cycle the map holds `now` at exactly the identifiers notified in
      it and is unchanged elsewhere; every notification is for a watched
      identifier and carries the cycle's time. */
  lemma {:induction false} CycleStamps(cfg: Config, now: int, seen: LastSeen, sightings: seq<Sighting>)
    ensures Stamped(cfg, now, seen, Cycle(cfg, now, seen, sightings))
    decreases |sightings|
  {
    if sightings == [] {
      NotifiedIdsOfEmpty();
    } else {
      var step := Step(cfg, now, seen, sightings[0]);
      if step.Abort? {
        NotifiedIdsOfEmpty();
      } else {
        var rest := Cycle(cfg, now, step.seen, sightings[1..]);
        CycleStamps(cfg, now, step.seen, sightings[1..]);
        NotifiedIdsAppend(step.events, rest.events);
        if step.events == [] {
          NotifiedIdsOfEmpty();
        } else {
          assert step.events == [step.events[0]];
          assert NotifiedIds(step.events) == {step.events[0].id};
        }
      }
    }
  }

  /** A cycle notifies `id` if and only if `id` is watched, ELIGIBLE when the
      cycle starts, and occurs among the records read before any error. */
  lemma {:induction false} NotifiedIff(cfg: Config, now: int, seen: LastSeen, sightings: seq<Sighting>, id: string)
    ensures id in NotifiedIds(Cycle(cfg, now, seen, sightings).events)
      <==> id in cfg.watchList && Eligible(seen, id, now, cfg.cooldown) && id in ProcessedIds(sightings)
    decreases |sightings|
  {
    NotifiedIdsOfEmpty();
    if sightings != [] && sightings[0].id.Some? {
      var x := sightings[0].id.value;
      var step := Step(cfg, now, seen, sightings[0]);
      var rest := Cycle(cfg, now, step.seen, sightings[1..]);
      NotifiedIff(cfg, now, step.seen, sightings[1..], id);
      NotifiedIdsAppend(step.events, rest.events);
      assert ProcessedIds(sightings) == [x] + ProcessedIds(sightings[1..]);
      if step.events != [] {
        assert step.events == [Notified(x, now, sightings[0].record)];
        assert NotifiedIds(step.events) == {x};
      }
      if x != id {
        assert Eligible(step.seen, id, now, cfg.cooldown) == Eligible(seen, id, now, cfg.cooldown);
      }
    }
  }

  /** Once `id` is stamped with `now`, the rest of the cycle cannot notify it again. */
  lemma {:induction false} NoRepeatOnceStamped(cfg: Config, now: int, seen: LastSeen, sightings: seq<Sighting>,
                                                 id: string)
    requires cfg.cooldown >= 0 && id in seen && seen[id] == now
    ensures Occurrences(Cycle(cfg, now, seen, sightings).events, id) == 0
    decreases |sightings|
  {
    if sightings != [] {
      var step := Step(cfg, now, seen, sightings[0]);
      if step.Continue? {
        var rest := Cycle(cfg, now, step.seen, sightings[1..]);
        NoRepeatOnceStamped(cfg, now, step.seen, sightings[1..], id);
        OccurrencesAppend(step.events, rest.events, id);
        assert Occurrences(step.events, id) == 0;
      }
    }
  }

  /** With a non-negative cooldown, an identifier is notified at most once per
      cycle, however often it occurs in the feed: the cycle's single `now`
      makes the second occurrence see an elapsed time of zero. */
  lemma {:induction false} AtMostOncePerCycle(cfg: Config, now: int, seen: LastSeen, sightings: seq<Sighting>,
                                                id: string)
    requires cfg.cooldown >= 0
    ensures Occurrences(Cycle(cfg, now, seen, sightings).events, id) <= 1
    decreases |sightings|
  {
    if sightings != [] {
      var step := Step(cfg, now, seen, sightings[0]);
      if step.Continue? {
        var rest := Cycle(cfg, now, step.seen, sightings[1..]);
        OccurrencesAppend(step.events, rest.events, id);
        if step.events != [] && step.events[0].id == id {
          NoRepeatOnceStamped(cfg, now, step.seen, sightings[1..], id);
          assert step.events == [step.events[0]];
        } else {
          AtMostOncePerCycle(cfg, now, step.seen, sightings[1..], id);
          assert Occurrences(step.events, id) == 0;
        }
      }
    }
  }

  /** The bound above needs the cooldown to be non-negative: with a negative
      cooldown the same record twice in one feed is notified twice. */
  lemma NegativeCooldownRepeats(cfg: Config, now: int, seen: LastSeen, s: Sighting, id: string)
    requires cfg.cooldown < 0 && s.id == Some(id) && id in cfg.watchList
    requires Eligible(seen, id, now, cfg.cooldown)
    ensures Occurrences(Cycle(cfg, now, seen, [s, s]).events, id) == 2
  {
    var first := Step(cfg, now, seen, s);
    var second := Step(cfg, now, first.seen, s);
    assert first == Continue(seen[id := now], [Notified(id, now, s.record)]);
    assert second == Continue(first.seen[id := now], [Notified(id, now, s.record)]);
    CycleUnfold(cfg, now, seen, [s, s]);
    assert [s, s][1..] == [s];
    CycleUnfold(cfg, now, first.seen, [s]);
    assert [s][1..] == [];
    var events := Cycle(cfg, now, seen, [s, s]).events;
    assert events == first.events + (second.events + []);
    assert events == [Notified(id, now, s.record), Notified(id, now, s.record)];
    assert events[1..][1..] == [];
    assert Occurrences(events[1..][1..], id) == 0;
    assert Occurrences(events[1..], id) == 1;
  }

  /** Every notification of a cycle is for one of its sightings, under that
      sighting's identifier and with that sighting's record. */
  lemma {:induction false} CycleEventsFromSightings(cfg: Config, now: int, seen: LastSeen,
                                                      sightings: seq<Sighting>)
    ensures forall e :: e in Cycle(cfg, now, seen, sightings).events ==> Sighting(Some(e.id), e.record) in sightings
    decreases |sightings|
  {
    if sightings != [] {
      var step := Step(cfg, now, seen, sightings[0]);
      if step.Continue? {
        var rest := Cycle(cfg, now, step.seen, sightings[1..]);
        CycleEventsFromSightings(cfg, now, step.seen, sightings[1..]);
        CycleUnfold(cfg, now, seen, sightings);
        forall e | e in step.events + rest.events
          ensures Sighting(Some(e.id), e.record) in sightings
        {
          if e in step.events {
            assert sightings[0] == Sighting(Some(e.id), e.record);
          } else {
            assert Sighting(Some(e.id), e.record) in sightings[1..];
          }
        }
      }
    }
  }

  /** An unreadable identifier ends the cycle: the updates and notifications
      of the records before it stand, the records after it are not looked at. */
  lemma {:induction false} AbortKeepsEarlierUpdates(cfg: Config, now: int, seen: LastSeen,
                                                      sightings: seq<Sighting>, k: nat)
    requires k < |sightings| && sightings[k].id.None?
    requires forall j :: 0 <= j < k ==> sightings[j].id.Some?
    ensures var before := Cycle(cfg, now, seen, sightings[..k]);
      && !before.aborted
      && Cycle(cfg, now, seen, sightings) == CycleResult(before.seen, before.events, true)
    decreases k
  {
    if k == 0 {
      assert sightings[..0] == [];
    } else {
      var step := Step(cfg, now, seen, sightings[0]);
      assert sightings[..k][0] == sightings[0];
      assert sightings[..k][1..] == sightings[1..][..k - 1];
      AbortKeepsEarlierUpdates(cfg, now, step.seen, sightings[1..], k - 1);
    }
  }

  // ---------------------------------------------------------------------------
  // Cycles in sequence
  // ---------------------------------------------------------------------------

  lemma PollStamps(cfg: Config, now: int, seen: LastSeen, feed: Feed)
    ensures Stamped(cfg, now, seen, Poll(cfg, now, seen, feed))
  {
    NotifiedIdsOfEmpty();
    match feed
    case FetchFailed =>
    case Document(None) =>
    case Document(Some(records)) => CycleStamps(cfg, now, seen, Sightings(records));
  }

  /** A failed fetch, a document without an `aircraft` list and an empty list
      all leave the map as it was and notify nobody. */
  lemma UnusableFeedChangesNothing(cfg: Config, now: int, seen: LastSeen, feed: Feed)
    requires feed == FetchFailed || feed == Document(None) || feed == Document(Some([]))
    ensures Poll(cfg, now, seen, feed).seen == seen
    ensures Poll(cfg, now, seen, feed).events == []
  {
    if feed == Document(Some([])) {
      assert Sightings([]) == [];
    }
  }

  /** The keys of the map stay within the watch list over any number of cycles. */
  lemma {:induction false} RunKeepsKeysWatched(cfg: Config, seen: LastSeen, ticks: seq<Tick>)
    requires WithinWatchList(cfg, seen)
    ensures WithinWatchList(cfg, Run(cfg, seen, ticks).seen)
    decreases |ticks|
  {
    if ticks != [] {
      var c := Poll(cfg, ticks[0].now, seen, ticks[0].feed);
      PollStamps(cfg, ticks[0].now, seen, ticks[0].feed);
      assert WithinWatchList(cfg, c.seen);
      RunKeepsKeysWatched(cfg, c.seen, ticks[1..]);
    }
  }

  /** Starting from the empty map of process start, only watched identifiers
      ever become keys. */
  lemma KeysWatchedFromStart(cfg: Config, ticks: seq<Tick>)
    ensures WithinWatchList(cfg, Run(cfg, map[], ticks).seen)
  {
    RunKeepsKeysWatched(cfg, map[], ticks);
  }

  /** One cycle keeps every entry explained by a notification. */
  lemma PollExplained(cfg: Config, now: int, seen: LastSeen, past: seq<Event>, feed: Feed)
    requires Explained(seen, past)
    ensures Explained(Poll(cfg, now, seen, feed).seen, past + Poll(cfg, now, seen, feed).events)
  {
    var c := Poll(cfg, now, seen, feed);
    PollStamps(cfg, now, seen, feed);
    forall k | k in c.seen
      ensures exists e :: e in past + c.events && e.id == k && e.at == c.seen[k]
    {
      if k in NotifiedIds(c.events) {
        var e :| e in c.events && e.id == k;
        assert e in past + c.events;
      } else {
        var e :| e in past && e.id == k && e.at == seen[k];
        assert e in past + c.events;
      }
    }
  }

  /** Every entry of the map is the time of some notification for that key. */
  lemma {:induction false} RunExplained(cfg: Config, seen: LastSeen, past: seq<Event>, ticks: seq<Tick>)
    requires Explained(seen, past)
    ensures Explained(Run(cfg, seen, ticks).seen, past + Run(cfg, seen, ticks).events)
    decreases |ticks|
  {
    if ticks == [] {
      assert past + [] == past;
    } else {
      var c := Poll(cfg, ticks[0].now, seen, ticks[0].feed);
      PollExplained(cfg, ticks[0].now, seen, past, ticks[0].feed);
      var rest := Run(cfg, c.seen, ticks[1..]);
      RunExplained(cfg, c.seen, past + c.events, ticks[1..]);
      assert (past + c.events) + rest.events == past + (c.events + rest.events);
    }
  }

  /** From process start, an identifier has a map entry only once it has been notified. */
  lemma EntriesFollowNotifications(cfg: Config, ticks: seq<Tick>)
    ensures Explained(Run(cfg, map[], ticks).seen, Run(cfg, map[], ticks).events)
  {
    RunExplained(cfg, map[], [], ticks);
    assert [] + Run(cfg, map[], ticks).events == Run(cfg, map[], ticks).events;
  }

  /** The scenario of a 90-minute cooldown: notified at 0, skipped at 30 minutes,
      notified again at 95 minutes. */
  lemma NinetyMinuteScenario()
    ensures var rec := Record(Some(Str("N2163J")), Some(Int(10000)), None, None, None, None);
      var feed := Document(Some([rec]));
      var r := Run(DefaultConfig, map[],
        [Tick(0, feed), Tick(30 * MicrosPerMinute, feed), Tick(95 * MicrosPerMinute, feed)]);
      && r.events == [Notified("N2163J", 0, rec), Notified("N2163J", 95 * MicrosPerMinute, rec)]
      && r.seen == map["N2163J" := 95 * MicrosPerMinute]
  {
    var rec := Record(Some(Str("N2163J")), Some(Int(10000)), None, None, None, None);
    var feed := Document(Some([rec]));
    var cfg := DefaultConfig;
    var m := MicrosPerMinute;
    assert Trimmed("N2163J");
    StripTrimmed("N2163J");
    var s := Sight(rec);
    assert s.id == Some("N2163J");
    assert "N2163J" in cfg.watchList by {
      assert cfg.watchList[1] == "N2163J";
    }
    assert Sightings([rec]) == [s];
    assert [s][1..] == [];
    var t0, t1, t2 := Tick(0, feed), Tick(30 * m, feed), Tick(95 * m, feed);

    var seen0: LastSeen := map[];
    CycleUnfold(cfg, 0, seen0, [s]);
    var c0 := Poll(cfg, 0, seen0, feed);
    assert c0 == CycleResult(map["N2163J" := 0], [Notified("N2163J", 0, rec)], false);

    CycleUnfold(cfg, 30 * m, c0.seen, [s]);
    var c1 := Poll(cfg, 30 * m, c0.seen, feed);
    assert c1 == CycleResult(c0.seen, [], false);

    CycleUnfold(cfg, 95 * m, c1.seen, [s]);
    var c2 := Poll(cfg, 95 * m, c1.seen, feed);
    assert c2 == CycleResult(map["N2163J" := 95 * m], [Notified("N2163J", 95 * m, rec)], false);

    assert [t0, t1, t2][1..] == [t1, t2];
    assert [t1, t2][1..] == [t2];
    assert [t2][1..] == [];
    assert Run(cfg, c2.seen, []) == RunResult(c2.seen, []);
    assert Run(cfg, c1.seen, [t2]) == RunResult(c2.seen, c2.events);
    assert Run(cfg, c0.seen, [t1, t2]) == RunResult(c2.seen, c1.events + c2.events);
    assert Run(cfg, seen0, [t0, t1, t2]) == RunResult(c2.seen, c0.events + (c1.events + c2.events));
  }

  // ---------------------------------------------------------------------------
  // What the sinks are sent
  // ---------------------------------------------------------------------------

  /** Both payloads of a notification name the aircraft by the identifier that
      matched, when the record has a `flight` value. */
  lemma PayloadsNameTheMatch(cfg: Config, e: Event, transport: Post -> bool)
    requires Identifier(e.record) == Some(e.id) && e.record.flight.Some?
    ensures forall a :: a in Dispatch(cfg, e.record, transport) ==> TailOfPost(a.post) == e.id
  {
  }

  /** A poll notifies only about records of the feed it read, and each such
      record yields the notified identifier at line 94. */
  lemma PollEventsMatch(cfg: Config, now: int, seen: LastSeen, records: seq<Record>)
    ensures forall e :: e in Poll(cfg, now, seen, Document(Some(records))).events ==>
      && e.record in records
      && Identifier(e.record) == Some(e.id)
      && Readable(e.record)
  {
    var sightings := Sightings(records);
    CycleEventsFromSightings(cfg, now, seen, sightings);
    forall e | e in Poll(cfg, now, seen, Document(Some(records))).events
      ensures e.record in records && Identifier(e.record) == Some(e.id) && Readable(e.record)
    {
      var i :| 0 <= i < |sightings| && sightings[i] == Sighting(Some(e.id), e.record);
      assert Sight(records[i]) == sightings[i];
    }
  }

  /** The sinks are handed what the poll notified about: for every notification
      of a poll whose record has a `flight`, each post reports the identifier
      that matched. */
  lemma PollPayloadsNameTheMatch(cfg: Config, now: int, seen: LastSeen, records: seq<Record>,
                                 transport: Post -> bool)
    ensures forall e :: e in Poll(cfg, now, seen, Document(Some(records))).events ==>
      && Readable(e.record)
      && (e.record.flight.Some? ==>
            forall a :: a in Dispatch(cfg, e.record, transport) ==> TailOfPost(a.post) == e.id)
  {
    PollEventsMatch(cfg, now, seen, records);
    forall e | e in Poll(cfg, now, seen, Document(Some(records))).events && e.record.flight.Some?
      ensures forall a :: a in Dispatch(cfg, e.record, transport) ==> TailOfPost(a.post) == e.id
    {
      PayloadsNameTheMatch(cfg, e, transport);
    }
  }

  /** For a record without `flight` the sinks report "N/A", not the
      "not_available" that matched. */
  lemma MissingFlightPayloadTail(cfg: Config, rec: Record, transport: Post -> bool)
    requires rec.flight.None?
    ensures forall a :: a in Dispatch(cfg, rec, transport) ==> TailOfPost(a.post) == Placeholder
    ensures Identifier(rec) == Some(NotAvailable)
  {
    IdentifierOfMissingFlight(rec);
  }

  /** What is posted does not depend on whether earlier posts were delivered. */
  lemma DispatchIgnoresDelivery(cfg: Config, rec: Record, t1: Post -> bool, t2: Post -> bool)
    requires Readable(rec)
    ensures var a1, a2 := Dispatch(cfg, rec, t1), Dispatch(cfg, rec, t2);
      |a1| == |a2| && forall i :: 0 <= i < |a1| ==> a1[i].post == a2[i].post
  {
  }
}
