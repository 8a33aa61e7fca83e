/**
 Reading an event back from a stored record (`event_from_dict`), and the
 round trip between it and `as_dict`.
 */
module Codec {
  import opened Wrappers
  import opened Values
  import opened Events

  /** The keys `event_from_dict` consumes before calling the class. */
  const ConsumedKeys: set<string> := {"class_name", "_id", "kind"}

  /**
   Whether decoding a record gets as far as calling the class: the record
   names one of the six classes, holds `_id`, and holds a valid `kind`.
   */
  predicate ReachesCall(rec: Record)
  {
    && "class_name" in rec && LookupClass(rec["class_name"]).Some?
    && "_id" in rec && "kind" in rec && ParseKind(rec["kind"]).Some?
  }

  /**
   `event_from_dict`: looks up the class named by `class_name`, drops
   `class_name` and the store's `_id`, parses `kind`, and calls the class with
   the remaining entries as keyword arguments. Each step raises on a record it
   cannot handle, in that order. The `kind` is taken from the record as it is:
   it is not compared with the class.
   */
  function Decode(rec: Record, clock: Clock): (r: Result<Event, Error>)
    ensures "class_name" !in rec ==> r == Failure(MissingKey("class_name"))
    ensures "class_name" in rec && LookupClass(rec["class_name"]).None? ==>
              r == Failure(UnknownClass(rec["class_name"]))
    ensures "class_name" in rec && LookupClass(rec["class_name"]).Some? && "_id" !in rec ==>
              r == Failure(MissingKey("_id"))
    ensures "class_name" in rec && LookupClass(rec["class_name"]).Some? && "_id" in rec
            && "kind" !in rec ==>
              r == Failure(MissingKey("kind"))
    ensures "class_name" in rec && LookupClass(rec["class_name"]).Some? && "_id" in rec
            && "kind" in rec && ParseKind(rec["kind"]).None? ==>
              r == Failure(InvalidKind(rec["kind"]))
    ensures ReachesCall(rec) && !(rec.Keys - ConsumedKeys <= Params(LookupClass(rec["class_name"]).value)) ==>
              r == Failure(UnexpectedArguments(
                     rec.Keys - ConsumedKeys - Params(LookupClass(rec["class_name"]).value)))
    ensures ReachesCall(rec) && rec.Keys - ConsumedKeys <= Params(LookupClass(rec["class_name"]).value)
            && !(Required(LookupClass(rec["class_name"]).value) <= rec.Keys) ==>
              r == Failure(MissingArguments(
                     Required(LookupClass(rec["class_name"]).value) - (rec.Keys - ConsumedKeys)))
    ensures ReachesCall(rec) && rec.Keys - ConsumedKeys <= Params(LookupClass(rec["class_name"]).value)
            && Required(LookupClass(rec["class_name"]).value) <= rec.Keys && !rec["document"].VMap? ==>
              r == Failure(NotADocument(rec["document"]))
    ensures r.Success? <==>
              && "class_name" in rec && LookupClass(rec["class_name"]).Some?
              && "_id" in rec && "kind" in rec && ParseKind(rec["kind"]).Some?
              && Required(LookupClass(rec["class_name"]).value) <= rec.Keys
              && rec.Keys - ConsumedKeys <= Params(LookupClass(rec["class_name"]).value)
              && rec["document"].VMap?
    ensures r.Success? ==> ConsumedKeys <= rec.Keys
    ensures r.Success? ==> rec["class_name"] == VStr(ClassName(ClassOf(r.value)))
    ensures r.Success? ==> rec["kind"] == VStr(KindValue(r.value.kind))
    ensures r.Success? ==> Required(ClassOf(r.value)) <= rec.Keys
    ensures r.Success? ==> rec.Keys - ConsumedKeys <= Params(ClassOf(r.value))
    ensures r.Success? ==> rec["document"].VMap? && r.value.document == DocForEvent(rec["document"].entries)
    ensures r.Success? ==>
              forall name :: name in rec && name !in ConsumedKeys && name != "document" ==>
                Attributes(r.value)[name] == rec[name]
    ensures r.Success? && "timestamp" !in rec ==>
              r.value.timestamp == VTime(DefaultTime(ClassOf(r.value), clock))
  {
    if "class_name" !in rec then Failure(MissingKey("class_name"))
    else match LookupClass(rec["class_name"])
      case None => Failure(UnknownClass(rec["class_name"]))
      case Some(cls) =>
        if "_id" !in rec then Failure(MissingKey("_id"))
        else if "kind" !in rec then Failure(MissingKey("kind"))
        else match ParseKind(rec["kind"])
          case None => Failure(InvalidKind(rec["kind"]))
          case Some(kind) => Instantiate(cls, rec - ConsumedKeys, Some(kind), clock)
  }

  /**
   Decoding a record fails when one of the class's required attributes is
   missing, whatever else the record holds.
   */
  lemma DecodeNeedsRequiredAttributes(rec: Record, clock: Clock, name: string)
    requires "class_name" in rec && LookupClass(rec["class_name"]).Some?
    requires name in Required(LookupClass(rec["class_name"]).value) && name !in rec
    ensures Decode(rec, clock).Failure?
  {
  }

  /**
   Decoding a record fails when it holds an entry the class does not declare,
   besides the ones decoding consumes.
   */
  lemma DecodeRejectsForeignAttributes(rec: Record, clock: Clock, name: string)
    requires "class_name" in rec && LookupClass(rec["class_name"]).Some?
    requires name in rec && name !in ConsumedKeys
    requires name !in Params(LookupClass(rec["class_name"]).value)
    ensures Decode(rec, clock).Failure?
  {
  }

  /**
   Round trip: the dictionary of an event, once the store has added its `_id`,
   decodes to that same event, whatever the clock reads.
   */
  lemma RoundTrip(e: Event, id: Value, clock: Clock)
    ensures Decode(AsDict(e)["_id" := id], clock) == Success(e)
  {
    var rec := AsDict(e)["_id" := id];
    var cls := ClassOf(e);
    assert LookupClass(rec["class_name"]) == Some(cls);
    assert ParseKind(rec["kind"]) == Some(e.kind);
    var kwargs := rec - ConsumedKeys;
    assert kwargs == Attributes(e);
    DocForEventKeepsDocRef(e.document);
    var r := Instantiate(cls, kwargs, Some(e.kind), clock);
    assert r.Success?;
    match e
    case NewDoc(_, _, _) =>
    case UpdatedDoc(_, _, _) =>
    case DeletedDoc(_, _, _) =>
    case PostStarted(_, _, _, _) =>
    case PostSucceeded(_, _, _, _, _) =>
    case PostFailed(_, _, _, _, _, _) =>
  }

  /**
   The converse round trip: an event decoded from a record flattens back to
   that record without its `_id`, up to the two things decoding fills in, the
   reduced document and, when the record has none, the timestamp.
   */
  lemma DecodeThenAsDict(rec: Record, clock: Clock)
    requires Decode(rec, clock).Success?
    ensures
      var e := Decode(rec, clock).value;
      && AsDict(e).Keys == (rec.Keys - {"_id"}) + {"timestamp"}
      && AsDict(e)["document"] == VMap(DocForEvent(rec["document"].entries))
      && forall name :: name in rec && name !in {"_id", "document"} ==> AsDict(e)[name] == rec[name]
  {
    var e := Decode(rec, clock).value;
    var d := AsDict(e);
    assert Params(ClassOf(e)) == Required(ClassOf(e)) + {"timestamp"};
    forall name | name in rec && name !in {"_id", "document"}
      ensures d[name] == rec[name]
    {
      if name == "kind" {
      } else if name == "class_name" {
      } else {
        assert name !in ConsumedKeys;
      }
    }
  }

  /** Distinct events flatten to distinct dictionaries: `as_dict` loses nothing. */
  lemma AsDictInjective(e1: Event, e2: Event)
    requires AsDict(e1) == AsDict(e2)
    ensures e1 == e2
  {
    var clock := Clock(Instant(0), Instant(0));
    RoundTrip(e1, VNone, clock);
    RoundTrip(e2, VNone, clock);
  }

  /**
   Events of different classes get different `class_name` entries, even when
   every attribute they share is equal; with `RoundTrip`, each decodes back to
   its own class.
   */
  lemma ClassesDisambiguated(e1: Event, e2: Event)
    requires ClassOf(e1) != ClassOf(e2)
    ensures AsDict(e1)["class_name"] != AsDict(e2)["class_name"]
  {
    ClassNameInjective(ClassOf(e1), ClassOf(e2));
  }

  /**
   The case that needs the class name: a succeeded and a failed post on one
   channel agree on `channel` but not on `class_name`, and each decodes back
   to itself.
   */
  lemma PostSuccessAndFailureDisambiguated(s: Event, f: Event, id: Value, clock: Clock)
    requires s.PostSucceeded? && f.PostFailed? && s.channel == f.channel
    ensures AsDict(s)["channel"] == AsDict(f)["channel"]
    ensures LookupClass(AsDict(s)["class_name"]) == Some(PostSuccessEvent)
    ensures LookupClass(AsDict(f)["class_name"]) == Some(PostFailureEvent)
    ensures Decode(AsDict(s)["_id" := id], clock) == Success(s)
    ensures Decode(AsDict(f)["_id" := id], clock) == Success(f)
  {
    RoundTrip(s, id, clock);
    RoundTrip(f, id, clock);
  }

  /**
   The stored `kind` is not checked against the class: a new-document record
   whose kind says `post_failure` decodes to a new-document event of that kind.
   */
  lemma KindNotCheckedAgainstClass(doc: DocRef, id: Value, clock: Clock)
    ensures
      var rec := map["class_name" := VStr("NewDocEvent"), "_id" := id,
                     "kind" := VStr("post_failure"), "document" := VMap(doc)];
      Decode(rec, clock) == Success(NewDoc(doc, PostFailure, VTime(clock.utcNow)))
  {
    var rec := map["class_name" := VStr("NewDocEvent"), "_id" := id,
                   "kind" := VStr("post_failure"), "document" := VMap(doc)];
    assert rec - ConsumedKeys == map["document" := VMap(doc)];
    DocForEventKeepsDocRef(doc);
  }

  // ---------------------------------------------------------------------------
  // The class lookup as written
  // ---------------------------------------------------------------------------

  /**
   What the open lookup of the class name can produce: one of the six events,
   or an instance of the base class itself.
   */
  datatype Instance =
    | Derived(event: Event)
    | Base(document: DocRef, kind: EventKind, timestamp: Value)

  /** The base class's keyword parameters besides `kind`. */
  const BaseParams: set<string> := {"document", "timestamp"}

  /** The base class's parameters without a default. */
  const BaseRequired: set<string> := {"document"}

  /** Whether a record names the base class. */
  predicate NamesBase(rec: Record)
  {
    "class_name" in rec && rec["class_name"] == VStr("BaseEvent")
  }

  /**
   `event_from_dict` with its class lookup as written: the name is looked up
   among all the module's names, and the only one besides the six events that
   both passes the check that a class was found and accepts the call is the
   base class. A record naming it goes through the same steps as any other,
   against the base class's signature (`document`, and `timestamp` defaulting
   to the UTC clock), and decodes to a base-class instance.
   */
  function DecodeAsWritten(rec: Record, clock: Clock): (r: Result<Instance, Error>)
    ensures NamesBase(rec) && "_id" !in rec ==> r == Failure(MissingKey("_id"))
    ensures NamesBase(rec) && "_id" in rec && "kind" !in rec ==> r == Failure(MissingKey("kind"))
    ensures NamesBase(rec) && "_id" in rec && "kind" in rec && ParseKind(rec["kind"]).None? ==>
              r == Failure(InvalidKind(rec["kind"]))
    ensures NamesBase(rec) && "_id" in rec && "kind" in rec && ParseKind(rec["kind"]).Some?
            && !(rec.Keys - ConsumedKeys <= BaseParams) ==>
              r == Failure(UnexpectedArguments(rec.Keys - ConsumedKeys - BaseParams))
    ensures NamesBase(rec) && "_id" in rec && "kind" in rec && ParseKind(rec["kind"]).Some?
            && rec.Keys - ConsumedKeys <= BaseParams && !(BaseRequired <= rec.Keys) ==>
              r == Failure(MissingArguments(BaseRequired - (rec.Keys - ConsumedKeys)))
    ensures NamesBase(rec) && "_id" in rec && "kind" in rec && ParseKind(rec["kind"]).Some?
            && rec.Keys - ConsumedKeys <= BaseParams && "document" in rec && !rec["document"].VMap? ==>
              r == Failure(NotADocument(rec["document"]))
    ensures NamesBase(rec) ==>
              (r.Success? <==>
                 && "_id" in rec && "kind" in rec && ParseKind(rec["kind"]).Some?
                 && rec.Keys - ConsumedKeys <= BaseParams && "document" in rec && rec["document"].VMap?)
    ensures NamesBase(rec) && r.Success? ==>
              r.value == Base(DocForEvent(rec["document"].entries), ParseKind(rec["kind"]).value,
                              if "timestamp" in rec then rec["timestamp"] else VTime(clock.utcNow))
    ensures !NamesBase(rec) ==>
              match Decode(rec, clock)
              case Success(e) => r == Success(Derived(e))
              case Failure(err) => r == Failure(err)
  {
    if "class_name" in rec && rec["class_name"] == VStr("BaseEvent") then
      if "_id" !in rec then Failure(MissingKey("_id"))
      else if "kind" !in rec then Failure(MissingKey("kind"))
      else match ParseKind(rec["kind"])
        case None => Failure(InvalidKind(rec["kind"]))
        case Some(kind) =>
          var kwargs := rec - ConsumedKeys;
          if !(kwargs.Keys <= BaseParams) then Failure(UnexpectedArguments(kwargs.Keys - BaseParams))
          else if !(BaseRequired <= kwargs.Keys) then Failure(MissingArguments(BaseRequired - kwargs.Keys))
          else if !kwargs["document"].VMap? then Failure(NotADocument(kwargs["document"]))
          else
            var t := if "timestamp" in kwargs then kwargs["timestamp"] else VTime(clock.utcNow);
            Success(Base(DocForEvent(kwargs["document"].entries), kind, t))
    else
      match Decode(rec, clock)
      case Success(e) => Success(Derived(e))
      case Failure(err) => Failure(err)
  }

  /**
   The discrepancy: a record naming the base class, which no event variant
   writes, is accepted by the lookup as written and refused by the closed
   six-way lookup.
   */
  lemma BaseEventRecordAccepted(doc: DocRef, kind: EventKind, id: Value, t: Value, clock: Clock)
    ensures
      var rec := map["class_name" := VStr("BaseEvent"), "_id" := id, "kind" := VStr(KindValue(kind)),
                     "document" := VMap(doc), "timestamp" := t];
      && DecodeAsWritten(rec, clock) == Success(Base(doc, kind, t))
      && Decode(rec, clock) == Failure(UnknownClass(VStr("BaseEvent")))
  {
    var rec := map["class_name" := VStr("BaseEvent"), "_id" := id, "kind" := VStr(KindValue(kind)),
                   "document" := VMap(doc), "timestamp" := t];
    assert (rec - ConsumedKeys).Keys == BaseParams;
    assert ParseKind(rec["kind"]) == Some(kind);
    DocForEventKeepsDocRef(doc);
    assert LookupClass(VStr("BaseEvent")) == None;
  }

  /** The corrected lookup: whatever decodes names one of the six event classes. */
  lemma DecodeClosedOverClasses(rec: Record, clock: Clock)
    requires Decode(rec, clock).Success?
    ensures exists c :: rec["class_name"] == VStr(ClassName(c))
    ensures rec["class_name"] != VStr("BaseEvent")
  {
  }
}
