/** The kind of a satisfaction update event, a Go string type with two named values. */
module EventTypes {
  import opened Wrappers
  import opened Driver

  datatype EventType = EventType(raw: string)

  const InitEvent: EventType := EventType("INIT_EVENT")
  const ChatAnalysisEvent: EventType := EventType("CHAT_ANALYSIS_EVENT")

  /** Width of the `event_type` column, `varchar(20)`. */
  const ColumnWidth: nat := 20

  /** IsValid: a switch over the two named values. */
  predicate IsValid(et: EventType) {
    match et.raw
    case "INIT_EVENT" => true
    case "CHAT_ANALYSIS_EVENT" => true
    case _ => false
  }

  /** Exactly the two named kinds are valid, and they are distinct. */
  lemma ValidKinds(et: EventType)
    ensures IsValid(et) <==> et == InitEvent || et == ChatAnalysisEvent
    ensures InitEvent != ChatAnalysisEvent
  {
  }

  /** Value: the driver value is the underlying string. */
  function Value(et: EventType): (v: DriverValue)
    ensures v.StringValue?
  {
    StringValue(et.raw)
  }

  /**
   * Scan: any string is accepted without validation and the error is always
   * nil; a non-string value makes the type assertion panic (None).
   */
  function Scan(v: DriverValue): (r: Option<EventType>)
    ensures r.Some? <==> v.StringValue?
  {
    match v
    case StringValue(s) => Some(EventType(s))
    case _ => None
  }

  /** String returns the underlying string. */
  function String(et: EventType): string {
    et.raw
  }

  /** Value and Scan are inverse, and Scan keeps the text it was given. */
  lemma ScanValueRoundTrip(et: EventType, s: string)
    ensures Scan(Value(et)) == Some(et)
    ensures Scan(StringValue(s)).Some? && String(Scan(StringValue(s)).value) == s
  {
  }

  /** Scan does not validate: an unknown text becomes an invalid event type. */
  lemma ScanAcceptsInvalid()
    ensures Scan(StringValue("DELETE_EVENT")).Some?
    ensures !IsValid(Scan(StringValue("DELETE_EVENT")).value)
  {
  }

  /** Both defined kinds fit the varchar(20) column (10 and 19 characters). */
  lemma DefinedKindsFitColumn()
    ensures |InitEvent.raw| == 10 && |ChatAnalysisEvent.raw| == 19
    ensures forall et :: IsValid(et) ==> |String(et)| <= ColumnWidth
  {
  }
}
