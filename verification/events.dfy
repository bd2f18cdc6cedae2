/**
 * The `Event` record the extraction produces, and its JSON encoding
 * (`EventEncoder.default` in cosmocaixa_scraper.py).
 *
 * `datetime.isoformat` is not modelled: the encoder receives it as the
 * function `iso`, and the decoder (the encoder's partner, which the program
 * leaves to `json.load` plus Pydantic) receives a parser `parse`.
 */
module Events {
  import opened Wrappers
  import opened Json

  /**
   * A `datetime`: its calendar fields and, for an aware value, its offset
   * from UTC in microseconds (`None` for a naive value). The offset is what
   * `isoformat` writes after the time; the zone's name is not.
   */
  datatype Timestamp = Timestamp(
    year: int, month: int, day: int,
    hour: int, minute: int, second: int, microsecond: int,
    utcOffset: Option<int>)

  /** Pydantic's `Event`; `price` is the optional float, taken as an exact real. */
  datatype Event = Event(
    name: string,
    startingDate: Option<Timestamp>,
    endingDate: Option<Timestamp>,
    description: string,
    price: Option<real>,
    eventType: string)

  const NameKey := "name"
  const StartKey := "starting_date"
  const EndKey := "ending_date"
  const DescriptionKey := "description"
  const PriceKey := "price"
  const TypeKey := "type"

  /** The keys of an encoded event, and no others. */
  const EventKeys: set<string> := {NameKey, StartKey, EndKey, DescriptionKey, PriceKey, TypeKey}

  /** A `datetime` is always truthy, so a present date is always formatted. */
  function EncodeDate(d: Option<Timestamp>, iso: Timestamp -> string): (j: Json)
    ensures j.Null? <==> d.None?
  {
    match d
    case None => Null
    case Some(t) => Str(iso(t))
  }

  function EncodePrice(p: Option<real>): (j: Json)
    ensures j.Null? <==> p.None?
  {
    match p
    case None => Null
    case Some(x) => Num(x)
  }

  /** The dict `EventEncoder.default` builds for an `Event`. */
  function EncodeEvent(e: Event, iso: Timestamp -> string): (r: Record)
    ensures r.Keys == EventKeys
    ensures r[NameKey] == Str(e.name) && r[DescriptionKey] == Str(e.description)
    ensures r[TypeKey] == Str(e.eventType)
    ensures r[StartKey].Null? <==> e.startingDate.None?
    ensures r[EndKey].Null? <==> e.endingDate.None?
    ensures e.startingDate.Some? ==> r[StartKey] == Str(iso(e.startingDate.value))
    ensures e.endingDate.Some? ==> r[EndKey] == Str(iso(e.endingDate.value))
    ensures r[PriceKey].Null? <==> e.price.None?
    ensures e.price.Some? ==> r[PriceKey] == Num(e.price.value)
  {
    map[
      NameKey := Str(e.name),
      StartKey := EncodeDate(e.startingDate, iso),
      EndKey := EncodeDate(e.endingDate, iso),
      DescriptionKey := Str(e.description),
      PriceKey := EncodePrice(e.price),
      TypeKey := Str(e.eventType)
    ]
  }

  /** `json.dump(events, cls=EventEncoder)`: one object per event, in order. */
  function EncodeEvents(events: seq<Event>, iso: Timestamp -> string): (rs: seq<Record>)
    ensures |rs| == |events|
    ensures forall i :: 0 <= i < |events| ==> rs[i] == EncodeEvent(events[i], iso)
  {
    seq(|events|, i requires 0 <= i < |events| => EncodeEvent(events[i], iso))
  }

  /** The values `json.dump` hands to `EventEncoder.default`. */
  datatype Encodable = EventValue(event: Event) | DateTimeValue(t: Timestamp) | OtherValue

  /**
   * `EventEncoder.default`: events become objects, datetimes their ISO text,
   * and anything else is refused (`None` stands for the `TypeError` raised by
   * `JSONEncoder.default`).
   */
  function Default(obj: Encodable, iso: Timestamp -> string): (j: Option<Json>)
    ensures j.None? <==> obj.OtherValue?
    ensures obj.EventValue? ==> j.value.Obj? && j.value.fields.Keys == EventKeys
    ensures obj.EventValue? ==> j == Some(Obj(EncodeEvent(obj.event, iso)))
    ensures obj.DateTimeValue? ==> j == Some(Str(iso(obj.t)))
  {
    match obj
    case EventValue(e) => Some(Obj(EncodeEvent(e, iso)))
    case DateTimeValue(t) => Some(Str(iso(t)))
    case OtherValue => None
  }

  /** Reads back an encoded date: `null` is absent, text must parse. */
  function DecodeDate(j: Json, parse: string -> Option<Timestamp>): Option<Option<Timestamp>>
  {
    match j
    case Null => Some(None)
    case Str(s) => (match parse(s) case Some(t) => Some(Some(t)) case None => None)
    case _ => None
  }

  function DecodePrice(j: Json): Option<Option<real>>
  {
    match j
    case Null => Some(None)
    case Num(x) => Some(Some(x))
    case _ => None
  }

  /**
   * The partner of `EncodeEvent`: reads an event back from a record, ignoring
   * keys other than the six event keys (so a merged record, which also holds
   * `source`, still reads back).
   */
  function DecodeEvent(r: Record, parse: string -> Option<Timestamp>): Option<Event>
  {
    if EventKeys <= r.Keys && r[NameKey].Str? && r[DescriptionKey].Str? && r[TypeKey].Str? then
      match (DecodeDate(r[StartKey], parse), DecodeDate(r[EndKey], parse), DecodePrice(r[PriceKey]))
      case (Some(start), Some(end), Some(price)) =>
        Some(Event(r[NameKey].s, start, end, r[DescriptionKey].s, price, r[TypeKey].s))
      case _ => None
    else
      None
  }

  /** `parse` reads back every text `iso` writes. */
  ghost predicate IsoRoundTrips(iso: Timestamp -> string, parse: string -> Option<Timestamp>)
  {
    forall t :: parse(iso(t)) == Some(t)
  }

  /**
   * Serialising an event and reading it back yields the same event: absent
   * dates and price come back absent, present ones come back equal.
   */
  lemma EncodeDecodeRoundTrip(e: Event, iso: Timestamp -> string, parse: string -> Option<Timestamp>)
    requires IsoRoundTrips(iso, parse)
    ensures DecodeEvent(EncodeEvent(e, iso), parse) == Some(e)
  {
  }

  /** Only the six event keys matter when reading an event back. */
  lemma DecodeIgnoresOtherKeys(r: Record, k: string, v: Json, parse: string -> Option<Timestamp>)
    requires k !in EventKeys
    ensures DecodeEvent(r[k := v], parse) == DecodeEvent(r, parse)
  {
  }
}
