/**
  One aircraft record of the feed, as the program reads it: a loosely typed
  JSON object from which a handful of keys are looked up with `dict.get`,
  any of which may be missing.
 */
module Aircraft {
  import opened Text

  datatype Option<+T> = None | Some(value: T)

  /** A JSON scalar. Non-integral numbers are kept as their literal text:
      the program only passes them through, it never computes with them. */
  datatype Scalar =
    | Null
    | Bool(b: bool)
    | Int(i: int)
    | Number(literal: string)
    | Str(s: string)

  /** The keys of a record the program reads; `None` is a missing key. */
  datatype Record = Record(
    flight: Option<Scalar>,
    altBaro: Option<Scalar>,
    gs: Option<Scalar>,
    squawk: Option<Scalar>,
    lat: Option<Scalar>,
    lon: Option<Scalar>)

  /** The default `main` substitutes for a missing `flight` key (spotter.py:94). */
  const NotAvailable: string := "not_available"

  /** The default both notifiers substitute for every missing key (spotter.py:37-40, 66-75). */
  const Placeholder: string := "N/A"

  /** `record.get(key, default)`: the stored value, or the default when the key is missing. */
  function GetOr(field: Option<Scalar>, default: Scalar): (v: Scalar)
    ensures field.Some? ==> v == field.value
    ensures field.None? ==> v == default
  {
    match field
    case Some(x) => x
    case None => default
  }

  /** `record.get(key, default).strip()`. Only a string has `strip()`; any other
      stored value (a number, `null`, a boolean) raises, which is `None` here. */
  function StrippedOr(field: Option<Scalar>, default: string): (r: Option<string>)
    ensures r.Some? <==> (field.None? || field.value.Str?)
    ensures r.Some? ==> Trimmed(r.value)
  {
    match GetOr(field, Str(default))
    case Str(s) => Some(Strip(s))
    case _ => None
  }

  /** The identifier `main` matches against the watch list (spotter.py:94),
      or `None` when reading it raises. */
  function Identifier(r: Record): (id: Option<string>)
    ensures id.Some? <==> Readable(r)
    ensures r.flight.None? ==> id == Some(NotAvailable)
    ensures r.flight.Some? && r.flight.value.Str? ==> id == Some(Strip(r.flight.value.s))
  {
    StripTrimmed(NotAvailable);
    StrippedOr(r.flight, NotAvailable)
  }

  /** The record's `flight` key can be read as text (or is missing). */
  predicate Readable(r: Record) {
    r.flight.None? || r.flight.value.Str?
  }

  lemma IdentifierOfMissingFlight(r: Record)
    requires r.flight.None?
    ensures Identifier(r) == Some(NotAvailable)
  {
    StripTrimmed(NotAvailable);
  }

  /** Whitespace around the `flight` value does not change the identifier. */
  lemma IdentifierIgnoresPadding(r: Record, p: string, t: string, q: string)
    requires r.flight == Some(Str(p + t + q))
    requires AllSpace(p) && AllSpace(q) && Trimmed(t)
    ensures Identifier(r) == Some(t)
  {
    StripPadding(p, t, q);
  }
}
