# Aircraft spotter: watch list and notification cooldown

The program polls a feed of aircraft records. Every poll, it looks for
tail numbers on a watch list. For each match it posts a notification to
a chat webhook and to a home-automation webhook. A per-identifier
cooldown keeps it from repeating an alert too soon. This project models
the logic of that loop as pure Dafny functions and proves what the loop
guarantees.

- `text.dfy` (module `Text`): Python's `str.strip()`. It removes the
  leading and trailing characters for which `str.isspace()` holds.
- `aircraft.dfy` (module `Aircraft`): an aircraft record as a set of
  optional JSON scalars. It covers `dict.get` with a default, and the
  identifier `main` matches on: the stripped `flight`, or
  `"not_available"` when the key is missing.
- `notifiers.dfy` (module `Notifiers`): the payloads of the chat sink and
  the automation sink. A sink with an empty URL sends nothing. Every
  missing field becomes `"N/A"`.
- `spotter.dfy` (module `Spotter`): the per-record step, the cycle, the
  poll and a run of many cycles. The step is the watch-list test, the
  strict cooldown comparison, the notification and the last-seen stamp.
  The cycle folds the step over one feed at one fixed `now`. The poll
  handles a failed fetch and a missing `aircraft` list. `RunCycle` is the
  same loop written imperatively, proved equal to the fold.
- `properties.dfy` (module `Cooldown`): the properties of the rule. They
  cover who is notified, what the map looks like afterwards, the cooldown
  boundary, at most one notification per cycle, and invariants over any
  number of cycles.

Time is an integer count of microseconds, the resolution of the
program's timestamps. The shipped 90-minute cooldown is
`90 * MicrosPerMinute`. Each identifier is either ELIGIBLE (no entry, or
the last notification is more than `cooldown` ago) or COOLING.

The model follows the code in three places where a reader might expect
otherwise:

- Nothing keeps `"not_available"` off the watch list. If it is on the
  list, every record without `flight` matches it
  (`Cooldown.MissingFlightMatchesSentinel`).
- The sinks use a different default, `"N/A"`, for a missing `flight`.
  Such a notification therefore reports `"N/A"`, not the identifier that
  matched (`Cooldown.MissingFlightPayloadTail`).
- The bound of one notification per identifier per cycle needs a
  non-negative cooldown. With a negative one, a record repeated in a feed
  is notified twice (`Cooldown.NegativeCooldownRepeats`).

## Model

| member | source | states |
|---|---|---|
| Text.Strip | spotter.py:94 | the stripped identifier neither starts nor ends with a whitespace character |
| Text.StripRemovesOnlyPadding | spotter.py:94 | stripping removes only whitespace: the input is the result with whitespace on both sides |
| Text.StripPadding | spotter.py:94 | stripping any whitespace padding from around a trimmed string gives back exactly that string |
| Text.StripIdempotent | spotter.py:94 | stripping twice equals stripping once, and a string is its own strip exactly when it is already trimmed |
| Text.StripTrimmed | spotter.py:94 | a string without surrounding whitespace, such as a default value, is left unchanged by strip |
| Aircraft.GetOr | spotter.py:38-40 | `dict.get` yields the stored value when the key is present and the default when it is missing |
| Aircraft.StrippedOr | spotter.py:94 | reading-and-stripping succeeds exactly when the key is missing or holds text, and its result is trimmed |
| Aircraft.Identifier | spotter.py:94 | the identifier can be read exactly when `flight` is missing or text; it is "not_available" for a missing key and the stripped text otherwise |
| Aircraft.IdentifierOfMissingFlight | spotter.py:94 | a record without `flight` is matched under the identifier "not_available" |
| Aircraft.IdentifierIgnoresPadding | spotter.py:94 | whitespace around the `flight` value does not change the identifier |
| Notifiers.TailNumber | spotter.py:37 | the tail number in a payload is the stripped `flight`, or "N/A" when the key is missing |
| Notifiers.Send | spotter.py:55-59 | no attempt for an unconfigured sink; otherwise exactly one attempt of that post, whose failure is recorded and not raised |
| Notifiers.DiscordPost | spotter.py:32-53 | no post exactly when the chat URL is empty; otherwise altitude, speed and squawk are the record's values or "N/A", and the tracking link ends in the tail number |
| Notifiers.HomeAssistantPost | spotter.py:61-75 | no post exactly when the automation URL is empty; otherwise each of the five fields is the record's value or "N/A" |
| Spotter.Dispatch | spotter.py:101-102 | one post per configured sink, each attempted whatever became of the other: first the chat sink's post to its URL, last the automation sink's post to its URL, each exactly that sink's payload and each naming the record's tail number |
| Spotter.Step | spotter.py:94-105 | an unreadable identifier aborts; otherwise at most one notification, for a watched identifier at `now`, and the map changes only at that identifier, to `now` |
| Spotter.Cycle | spotter.py:93-105 | the fold of the step over one feed; its contract is carried by Cooldown.CycleStamps, Cooldown.NotifiedIff, Cooldown.AtMostOncePerCycle and Cooldown.AbortKeepsEarlierUpdates |
| Spotter.Poll | spotter.py:86-112 | one iteration of the loop body; its contract is carried by Cooldown.PollStamps, Cooldown.UnusableFeedChangesNothing and Cooldown.PollEventsMatch |
| Spotter.Run | spotter.py:85-115 | successive iterations threading the map; its contract is carried by Cooldown.RunKeepsKeysWatched and Cooldown.RunExplained |
| Spotter.RunCycle | spotter.py:93-105 | the in-place loop with early exit computes the same map, notifications and abort flag as the functional cycle |
| Cooldown.UnwatchedRecordIgnored | spotter.py:94-96 | a record whose stripped identifier is not watched notifies nobody and leaves the map unchanged |
| Cooldown.MissingFlightIgnored | spotter.py:94-96 | a record without `flight` changes nothing while "not_available" is not watched |
| Cooldown.MissingFlightMatchesSentinel | spotter.py:94-103 | if "not_available" is watched and ELIGIBLE, a record without `flight` is notified under that identifier and stamps it |
| Cooldown.PaddedFlightMatches | spotter.py:94-103 | a watched tail number with whitespace around it in the feed matches and is notified on first sight |
| Cooldown.PaddedTailNumberExample | spotter.py:94-96 | " N2163J " matches the shipped watch entry "N2163J" and stamps it |
| Cooldown.FirstSightingNotifies | spotter.py:97-103 | a watched identifier without a map entry is always notified and stamped with `now` |
| Cooldown.CoolingSkips | spotter.py:99-105 | when `now - last <= cooldown` the record notifies nobody and the map is unchanged |
| Cooldown.CooldownBoundary | spotter.py:99 | exactly `cooldown` after the last notification is still skipped; one unit later notifies again |
| Cooldown.CycleStamps | spotter.py:93-105 | after a cycle, the map's keys are the old keys plus the notified identifiers; notified ones hold `now` and all others are unchanged |
| Cooldown.NotifiedIff | spotter.py:93-105 | a cycle notifies an identifier if and only if it is watched, ELIGIBLE at the start of the cycle, and found before any unreadable record |
| Cooldown.NoRepeatOnceStamped | spotter.py:91-103 | with a non-negative cooldown, once an identifier holds this cycle's `now`, the rest of the cycle cannot notify it again |
| Cooldown.AtMostOncePerCycle | spotter.py:91-103 | with a non-negative cooldown an identifier is notified at most once per cycle, however often it occurs |
| Cooldown.NegativeCooldownRepeats | spotter.py:99 | with a negative cooldown the same record twice in one feed is notified twice |
| Cooldown.CycleEventsFromSightings | spotter.py:93-103 | every notification of a cycle comes from one of the records it read, under that record's identifier |
| Cooldown.AbortKeepsEarlierUpdates | spotter.py:93-112 | a record whose `flight` is not text ends the cycle; updates from earlier records stand and later records are not read |
| Cooldown.UnusableFeedChangesNothing | spotter.py:86-110 | a failed fetch, a document without `aircraft`, or an empty list leaves the map unchanged and notifies nobody |
| Cooldown.PollStamps | spotter.py:87-105 | one poll changes the map only by stamping the identifiers it notified |
| Cooldown.RunKeepsKeysWatched | spotter.py:85-115 | if every key of the map is watched, this stays true over any number of cycles |
| Cooldown.KeysWatchedFromStart | spotter.py:30 | starting from the empty map, only watched identifiers ever become keys |
| Cooldown.PollExplained | spotter.py:99-103 | after a poll, every map entry is the time of a notification for that identifier |
| Cooldown.RunExplained | spotter.py:85-115 | every map entry stays the time of some notification for its key, over any number of cycles |
| Cooldown.EntriesFollowNotifications | spotter.py:30 | from process start, an identifier has a map entry only once it has been notified at that time |
| Cooldown.NinetyMinuteScenario | spotter.py:85-115 | with the shipped configuration, "N2163J" is notified at 0, skipped at 30 minutes and notified again at 95 minutes |
| Cooldown.PayloadsNameTheMatch | spotter.py:66-69 | for a record with `flight`, every post of a notification reports the identifier that matched |
| Cooldown.PollEventsMatch | spotter.py:93-103 | every notification of a poll is for a record of the feed, whose identifier at line 94 is the notified one and whose `flight` the sinks can read |
| Cooldown.PollPayloadsNameTheMatch | spotter.py:94-102 | for every notification of a poll whose record has `flight`, each post the sinks issue reports the identifier that matched |
| Cooldown.MissingFlightPayloadTail | spotter.py:37 | for a record without `flight`, the posts report "N/A" while the match was on "not_available" |
| Cooldown.DispatchIgnoresDelivery | spotter.py:55-59 | the posts a notification issues do not depend on whether any post is delivered |

## Left out

- HTTP: the GET of the feed, `raise_for_status`, JSON decoding and the webhook POSTs. A fetch is a `Feed` value: `FetchFailed`, or a parsed document. Delivery is a `transport` parameter. It decides only the `delivered` flag, which the program only logs.
- A JSON document that is not an object, or an `aircraft` value that is not a list (such as `null`, a number, an object or a string). The program either raises before any record is handled, or iterates the value's keys or characters and raises at line 94 on the first one, or finds nothing to iterate. Each time the exception is caught at line 111 or the loop ends normally, and the map and the notifications are unchanged. Such a document is modelled as `FetchFailed`, which has that same effect.
- A list element that is not an object. Its `.get` raises at line 94, exactly like a `flight` that is not text: the cycle ends there and the earlier records' updates stand. The model has no separate case for it; a record whose `flight` is not text stands in for it.
- The `while True` loop, `time.sleep` and `datetime.now()`. A run is a finite sequence of `Tick`s, each a clock reading and a fetch result. Local-time jumps, such as daylight-saving changes, are not modelled.
- Logging with `print`: it has no effect on state.
- The text of the chat message (emoji, Markdown, labels). The message is modelled as its fields plus the tracking link.
- Non-integral numbers: they are only passed through, so they are kept as their literal text (`Scalar.Number`).
- Exceptions other than `RequestException` raised while posting: they are not expected from the webhooks and are not modelled.
- Notifiers.DiscordPost: requires the `flight` value to be text when the URL is set. The sinks are only called after `main` has stripped the same value, so their own `strip()` cannot fail.
- Notifiers.HomeAssistantPost: same precondition as DiscordPost, for the same reason.
- The configuration constants (lines 10-25) are a `Config` value. `DefaultConfig` holds the shipped values: the two tail numbers, a 90-minute cooldown and both webhooks empty.
