/**
 The dynamic values that event records are made of: what a Python dictionary
 stored in, and read back from, the document store can hold.
 */
module Values {

  /** An instant in time. The model never inspects it; it is only stored and compared. */
  datatype Instant = Instant(ticks: int)

  /**
   The two clock readings the event constructors may default a timestamp from:
   `datetime.utcnow()` for the document events, `datetime.now()` for the post events.
   */
  datatype Clock = Clock(utcNow: Instant, localNow: Instant)

  /** A dynamically typed value, as held by a dictionary entry. */
  datatype Value =
    | VNone
    | VBool(b: bool)
    | VInt(i: int)
    | VStr(s: string)
    | VTime(t: Instant)
    | VList(items: seq<Value>)
    | VMap(entries: map<string, Value>)

  /** A flat dictionary with string keys: keyword arguments, or a stored event record. */
  type Record = map<string, Value>
}
