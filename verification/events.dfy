/**
 The event variants of the bibliography monitor: their kinds, the reduced
 document each one carries, the keyword-argument constructor every variant
 class gets, and the flattening of an event into a dictionary (`as_dict`).
 */
module Events {
  import opened Wrappers
  import opened Values

  // ---------------------------------------------------------------------------
  // Event kinds
  // ---------------------------------------------------------------------------

  /** The closed enumeration of event kinds. */
  datatype EventKind =
    | NewDocument
    | UpdatedDocument
    | DeletedDocument
    | PostStart
    | PostSuccess
    | PostFailure

  /** The string value of a kind, which is also its member name. */
  function KindValue(k: EventKind): (r: string)
  {
    match k
    case NewDocument => "new_document"
    case UpdatedDocument => "updated_document"
    case DeletedDocument => "deleted_document"
    case PostStart => "post_start"
    case PostSuccess => "post_success"
    case PostFailure => "post_failure"
  }

  /**
   `EventKind(v)`: the kind whose value is `v`. Any other value, a string or
   not, makes the enumeration raise, which is `None` here.
   */
  function ParseKind(v: Value): (r: Option<EventKind>)
    ensures forall k :: r == Some(k) <==> v == VStr(KindValue(k))
  {
    if v == VStr("new_document") then Some(NewDocument)
    else if v == VStr("updated_document") then Some(UpdatedDocument)
    else if v == VStr("deleted_document") then Some(DeletedDocument)
    else if v == VStr("post_start") then Some(PostStart)
    else if v == VStr("post_success") then Some(PostSuccess)
    else if v == VStr("post_failure") then Some(PostFailure)
    else None
  }

  // ---------------------------------------------------------------------------
  // The document carried by an event
  // ---------------------------------------------------------------------------

  /** The only document keys an event keeps. */
  const DocKeys: set<string> := {"id", "title", "slug"}

  /** A document reduced to (a subset of) its identifying keys. */
  type DocRef = d: map<string, Value> | d.Keys <= DocKeys witness map[]

  /**
   `doc_for_event`: keeps exactly the entries of `document` whose key is one of
   `id`, `title`, `slug`. A missing key is simply absent from the result; it is
   not an error.
   */
  function DocForEvent(document: map<string, Value>): (r: DocRef)
    ensures forall k :: k in r <==> k in document && k in DocKeys
    ensures forall k :: k in r ==> r[k] == document[k]
  {
    map k | k in document && k in DocKeys :: document[k]
  }

  /** A document that is already reduced passes the filter unchanged. */
  lemma DocForEventKeepsDocRef(d: DocRef)
    ensures DocForEvent(d) == d
  {
  }

  /** Filtering twice is filtering once, so re-running the converter on decode changes nothing. */
  lemma DocForEventIdempotent(document: map<string, Value>)
    ensures DocForEvent(DocForEvent(document)) == DocForEvent(document)
  {
    DocForEventKeepsDocRef(DocForEvent(document));
  }

  /** A full document record yields a reference with exactly the three identifying keys. */
  lemma DocForEventComplete(document: map<string, Value>)
    requires DocKeys <= document.Keys
    ensures DocForEvent(document).Keys == DocKeys
    ensures forall k :: k in DocKeys ==> DocForEvent(document)[k] == document[k]
  {
  }

  // ---------------------------------------------------------------------------
  // Event classes and their constructor signatures
  // ---------------------------------------------------------------------------

  /** The six concrete event classes. */
  datatype EventClass =
    | NewDocEvent
    | UpdatedDocEvent
    | DeletedDocEvent
    | PostStartEvent
    | PostSuccessEvent
    | PostFailureEvent

  /** The class's `__name__`. */
  function ClassName(c: EventClass): (r: string)
  {
    match c
    case NewDocEvent => "NewDocEvent"
    case UpdatedDocEvent => "UpdatedDocEvent"
    case DeletedDocEvent => "DeletedDocEvent"
    case PostStartEvent => "PostStartEvent"
    case PostSuccessEvent => "PostSuccessEvent"
    case PostFailureEvent => "PostFailureEvent"
  }

  /**
   The lookup of a stored class name, as a closed match over the six event
   classes: a value naming none of them finds nothing.
   */
  function LookupClass(name: Value): (r: Option<EventClass>)
    ensures forall c :: r == Some(c) <==> name == VStr(ClassName(c))
  {
    if name == VStr("NewDocEvent") then Some(NewDocEvent)
    else if name == VStr("UpdatedDocEvent") then Some(UpdatedDocEvent)
    else if name == VStr("DeletedDocEvent") then Some(DeletedDocEvent)
    else if name == VStr("PostStartEvent") then Some(PostStartEvent)
    else if name == VStr("PostSuccessEvent") then Some(PostSuccessEvent)
    else if name == VStr("PostFailureEvent") then Some(PostFailureEvent)
    else None
  }

  /** Distinct classes have distinct names, so a stored name identifies its class. */
  lemma ClassNameInjective(c1: EventClass, c2: EventClass)
    ensures ClassName(c1) == ClassName(c2) ==> c1 == c2
  {
  }

  /** The default of each class's `kind` attribute. */
  function DefaultKind(c: EventClass): (r: EventKind)
  {
    match c
    case NewDocEvent => NewDocument
    case UpdatedDocEvent => UpdatedDocument
    case DeletedDocEvent => DeletedDocument
    case PostStartEvent => PostStart
    case PostSuccessEvent => PostSuccess
    case PostFailureEvent => PostFailure
  }

  /** Whether the class is one of the three post events. */
  predicate IsPostClass(c: EventClass)
  {
    c == PostStartEvent || c == PostSuccessEvent || c == PostFailureEvent
  }

  /**
   The instant a constructed event's timestamp defaults to: the UTC clock for
   the document events (inherited from the base class), the local clock for
   the post events, which override the default.
   */
  function DefaultTime(c: EventClass, clock: Clock): (r: Instant)
  {
    if IsPostClass(c) then clock.localNow else clock.utcNow
  }

  /** The attributes of each class other than `kind`: its keyword parameters besides `kind`. */
  function Params(c: EventClass): (r: set<string>)
  {
    match c
    case NewDocEvent => {"document", "timestamp"}
    case UpdatedDocEvent => {"document", "timestamp"}
    case DeletedDocEvent => {"document", "timestamp"}
    case PostStartEvent => {"document", "channel", "timestamp"}
    case PostSuccessEvent => {"document", "channel", "post", "timestamp"}
    case PostFailureEvent => {"document", "channel", "error", "allow_retry", "timestamp"}
  }

  /** The parameters without a default, which a constructor call must supply. */
  function Required(c: EventClass): (r: set<string>)
    ensures r == Params(c) - {"timestamp"}
    ensures "document" in r
  {
    match c
    case NewDocEvent => {"document"}
    case UpdatedDocEvent => {"document"}
    case DeletedDocEvent => {"document"}
    case PostStartEvent => {"document", "channel"}
    case PostSuccessEvent => {"document", "channel", "post"}
    case PostFailureEvent => {"document", "channel", "error", "allow_retry"}
  }

  // ---------------------------------------------------------------------------
  // Events
  // ---------------------------------------------------------------------------

  /**
   An event. Every variant has the base attributes `document`, `kind` and
   `timestamp`; the post variants add theirs. Attribute annotations are not
   enforced at run time, so the added attributes and the timestamp hold any
   value; the document has always been through `DocForEvent`.
   */
  datatype Event =
    | NewDoc(document: DocRef, kind: EventKind, timestamp: Value)
    | UpdatedDoc(document: DocRef, kind: EventKind, timestamp: Value)
    | DeletedDoc(document: DocRef, kind: EventKind, timestamp: Value)
    | PostStarted(document: DocRef, channel: Value, kind: EventKind, timestamp: Value)
    | PostSucceeded(document: DocRef, channel: Value, post: Value, kind: EventKind, timestamp: Value)
    | PostFailed(document: DocRef, channel: Value, error: Value, allowRetry: Value,
                 kind: EventKind, timestamp: Value)

  /** The concrete class of an event. */
  function ClassOf(e: Event): (r: EventClass)
  {
    match e
    case NewDoc(_, _, _) => NewDocEvent
    case UpdatedDoc(_, _, _) => UpdatedDocEvent
    case DeletedDoc(_, _, _) => DeletedDocEvent
    case PostStarted(_, _, _, _) => PostStartEvent
    case PostSucceeded(_, _, _, _, _) => PostSuccessEvent
    case PostFailed(_, _, _, _, _, _) => PostFailureEvent
  }

  /**
   The attributes of an event other than `kind`, by name, with the document as
   a nested dictionary: what `attr.asdict` yields for them.
   */
  function Attributes(e: Event): (r: Record)
    ensures r.Keys == Params(ClassOf(e))
    ensures r["document"] == VMap(e.document)
    ensures r["timestamp"] == e.timestamp
    ensures e.PostStarted? || e.PostSucceeded? || e.PostFailed? ==> r["channel"] == e.channel
    ensures e.PostSucceeded? ==> r["post"] == e.post
    ensures e.PostFailed? ==> r["error"] == e.error && r["allow_retry"] == e.allowRetry
  {
    match e
    case NewDoc(d, _, t) => map["document" := VMap(d), "timestamp" := t]
    case UpdatedDoc(d, _, t) => map["document" := VMap(d), "timestamp" := t]
    case DeletedDoc(d, _, t) => map["document" := VMap(d), "timestamp" := t]
    case PostStarted(d, ch, _, t) =>
      map["document" := VMap(d), "channel" := ch, "timestamp" := t]
    case PostSucceeded(d, ch, p, _, t) =>
      map["document" := VMap(d), "channel" := ch, "post" := p, "timestamp" := t]
    case PostFailed(d, ch, err, retry, _, t) =>
      map["document" := VMap(d), "channel" := ch, "error" := err, "allow_retry" := retry,
          "timestamp" := t]
  }

  /** What a constructor call, or the decoding of a record, raises. */
  datatype Error =
      /** a dictionary lookup of a key that is absent (`KeyError`) */
    | MissingKey(key: string)
      /** a stored class name that names no event class */
    | UnknownClass(name: Value)
      /** a kind value that is not one of the six (`ValueError`) */
    | InvalidKind(value: Value)
      /** keyword arguments the class does not declare (`TypeError`) */
    | UnexpectedArguments(names: set<string>)
      /** required parameters left without an argument (`TypeError`) */
    | MissingArguments(names: set<string>)
      /** a `document` argument that is not a dictionary (`AttributeError` in the converter) */
    | NotADocument(document: Value)

  /**
   Calls class `cls` with keyword arguments `kwargs`, and with `kind` when it
   is given. The call fails on an argument the class does not declare, then on
   a required parameter left out, then when the document is not a dictionary.
   Otherwise the document goes through `DocForEvent`, `kind` and `timestamp`
   take their class defaults when absent, and every other argument becomes the
   attribute of that name unchanged.
   */
  function Instantiate(cls: EventClass, kwargs: Record, kind: Option<EventKind>, clock: Clock)
    : (r: Result<Event, Error>)
    requires "kind" !in kwargs
    ensures !(kwargs.Keys <= Params(cls)) ==>
              r == Failure(UnexpectedArguments(kwargs.Keys - Params(cls)))
    ensures kwargs.Keys <= Params(cls) && !(Required(cls) <= kwargs.Keys) ==>
              r == Failure(MissingArguments(Required(cls) - kwargs.Keys))
    ensures kwargs.Keys <= Params(cls) && Required(cls) <= kwargs.Keys && !kwargs["document"].VMap? ==>
              r == Failure(NotADocument(kwargs["document"]))
    ensures r.Success? <==>
              kwargs.Keys <= Params(cls) && Required(cls) <= kwargs.Keys && kwargs["document"].VMap?
    ensures r.Success? ==> ClassOf(r.value) == cls
    ensures r.Success? ==> r.value.kind == (if kind.Some? then kind.value else DefaultKind(cls))
    ensures r.Success? ==> r.value.document == DocForEvent(kwargs["document"].entries)
    ensures r.Success? && "timestamp" !in kwargs ==> r.value.timestamp == VTime(DefaultTime(cls, clock))
    ensures r.Success? ==>
              forall name :: name in kwargs && name != "document" ==> Attributes(r.value)[name] == kwargs[name]
  {
    if !(kwargs.Keys <= Params(cls)) then
      Failure(UnexpectedArguments(kwargs.Keys - Params(cls)))
    else if !(Required(cls) <= kwargs.Keys) then
      Failure(MissingArguments(Required(cls) - kwargs.Keys))
    else if !kwargs["document"].VMap? then
      Failure(NotADocument(kwargs["document"]))
    else
      var doc := DocForEvent(kwargs["document"].entries);
      var k := if kind.Some? then kind.value else DefaultKind(cls);
      var t := if "timestamp" in kwargs then kwargs["timestamp"] else VTime(DefaultTime(cls, clock));
      match cls
      case NewDocEvent => Success(NewDoc(doc, k, t))
      case UpdatedDocEvent => Success(UpdatedDoc(doc, k, t))
      case DeletedDocEvent => Success(DeletedDoc(doc, k, t))
      case PostStartEvent => Success(PostStarted(doc, kwargs["channel"], k, t))
      case PostSuccessEvent => Success(PostSucceeded(doc, kwargs["channel"], kwargs["post"], k, t))
      case PostFailureEvent =>
        Success(PostFailed(doc, kwargs["channel"], kwargs["error"], kwargs["allow_retry"], k, t))
  }

  // ---------------------------------------------------------------------------
  // Flattening (as_dict)
  // ---------------------------------------------------------------------------

  /**
   `as_dict`: every attribute of the event, with `kind` replaced by its string
   value, plus `class_name` naming the event's class. Nothing else is added.
   */
  function AsDict(e: Event): (r: Record)
    ensures r.Keys == Params(ClassOf(e)) + {"kind", "class_name"}
    ensures r["kind"] == VStr(KindValue(e.kind))
    ensures r["class_name"] == VStr(ClassName(ClassOf(e)))
    ensures r["document"] == VMap(e.document)
    ensures forall name :: name in Params(ClassOf(e)) ==> r[name] == Attributes(e)[name]
  {
    Attributes(e)["kind" := VStr(KindValue(e.kind))]["class_name" := VStr(ClassName(ClassOf(e)))]
  }
}
