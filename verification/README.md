# Events of the ASC study monitor, in Dafny

The monitor records what happens to a bibliography as an immutable log of
events. Three events track documents: a document is new, updated or deleted.
Three track announcements on a social channel: a post is started, succeeds or
fails. This project models the event module (`ascmonitor/events.py`):

- the closed `EventKind` enumeration and its string values (`Events.KindValue`, `Events.ParseKind`);
- `doc_for_event`, the converter that reduces a document to its `id`, `title` and `slug` entries
  (`Events.DocForEvent`). Every event's `document` has been through it, so the model gives events a
  subset type `DocRef` whose keys lie within those three;
- the six event classes (`Events.EventClass`) and the events themselves (`Events.Event`). The keyword
  constructor that attrs generates for each class is `Events.Instantiate`. It fills in the class's
  default `kind` and, when the caller gives no timestamp, a clock reading;
- `as_dict` (`Events.AsDict`) flattens an event into a record. It keeps every attribute, turns `kind`
  into its string value and adds `class_name`;
- `event_from_dict` (`Codec.Decode`), which rebuilds an event from a stored record.

Values in records are a small dynamic type (`Values.Value`): none, booleans, integers, strings,
instants, lists and string-keyed dictionaries. attrs does not enforce type annotations at run time.
So `channel`, `post`, `error`, `allow_retry` and `timestamp` hold any `Value`. The constructor checks
only `document`: it must be a dictionary, since the converter calls `.items()` on it. A `kind` given to
the constructor is stored unchecked (see Left out). Decoding is what parses `kind`: the stored string
must be the value of one of the six kinds.

Clocks are parameters. A `Clock` carries the two readings the constructors may use. Document events
default to the UTC reading (`datetime.utcnow`, ascmonitor/events.py:46). Post events default to the
local reading (`datetime.now`, ascmonitor/events.py:83,93,104). The model keeps this difference as
written: see `Events.DefaultTime`.

Decoding follows the code step by step, and each step has its own error:

1. A missing `class_name` gives `MissingKey`.
2. A class name that names no event class gives `UnknownClass`.
3. A missing `_id` gives `MissingKey`.
4. A missing `kind` gives `MissingKey`.
5. A kind string that is not one of the six gives `InvalidKind`.
6. The class call can then fail in three ways, checked in this order:
   - an entry the class does not declare gives `UnexpectedArguments`;
   - a required attribute that is absent gives `MissingArguments`;
   - a document that is not a dictionary gives `NotADocument`.

The decoded `kind` is not compared with the class (`Codec.KindNotCheckedAgainstClass`).

Some behaviour of the code worth stating plainly:

- Reducing a document never fails on a missing `id`, `title` or `slug`; that key is simply absent
  from the result.
- Every variant inherits the `document` attribute from the base class, so every constructor call,
  post events included, must pass a document.
- Decoding deletes `_id` after the class lookup and before it reads `kind`, so a record without
  `_id` does not decode.
- Decoding passes every remaining entry to the class as a keyword argument, so a record with an
  entry the class does not declare does not decode.

## Model

| member | source | states |
|---|---|---|
| Events.ParseKind | ascmonitor/events.py:10-18 | `EventKind(v)` yields kind `k` exactly when `v` is the string value of `k`; every other value raises |
| Events.DocForEvent | ascmonitor/events.py:21-24 | a key survives exactly when it is in the input and is one of `id`, `title`, `slug`; its value is unchanged; a missing key is absent, not an error |
| Events.DocForEventKeepsDocRef | ascmonitor/events.py:44 | a document that is already reduced passes the converter unchanged |
| Events.DocForEventIdempotent | ascmonitor/events.py:21-24 | reducing a reduced document changes nothing, so the second pass on decode is harmless |
| Events.DocForEventComplete | ascmonitor/events.py:21-24 | a document that has all three identifying keys yields exactly those three keys, with their values |
| Events.LookupClass | ascmonitor/events.py:29 | the class lookup finds class `c` exactly when the stored name is `c`'s name; no other value finds a class |
| Events.ClassNameInjective | ascmonitor/events.py:56-104 | distinct event classes have distinct names |
| Events.Required | ascmonitor/events.py:37-104 | a class's required parameters are its attributes other than the defaulted `timestamp`, and always include `document` |
| Events.Attributes | ascmonitor/events.py:37-104 | an event has exactly the attributes its class declares, besides `kind`; `document`, `timestamp`, and where the class declares them `channel`, `post`, `error` and `allow_retry`, are the values the event holds under those names |
| Events.Instantiate | ascmonitor/events.py:37-104 | a constructor call succeeds exactly when every argument is declared, every required one is given and the document is a dictionary; an undeclared argument is reported first (`UnexpectedArguments` with the undeclared names), a missing one next (`MissingArguments` with the missing names), and a document that is not a dictionary last (`NotADocument`); the event is of the class called, its document is the reduced argument, its `kind` is the given one or else the class's own (`NewDocEvent` gets `new_document`, and so on), its timestamp is the given one or the class's clock reading, and every other argument becomes the attribute unchanged |
| Events.AsDict | ascmonitor/events.py:48-53 | the record holds the class's attributes plus `kind` and `class_name` and nothing else; `kind` is the kind's string value, `class_name` the class name, every attribute its value |
| Codec.Decode | ascmonitor/events.py:27-34 | the failures come in the code's order (missing `class_name`, unknown class, missing `_id`, missing `kind`, invalid kind), and once the class is called, an undeclared entry gives `UnexpectedArguments` with the undeclared names, then a missing required attribute gives `MissingArguments` with the missing names, then a non-dictionary document gives `NotADocument`; a record decodes exactly when it names a class, holds `_id` and a valid kind, holds every required attribute of the class and no undeclared entry, and its document is a dictionary; a decoded event's class and kind are those the record names, its document is the reduced stored one, every other stored attribute is kept, and an absent timestamp takes the class's clock reading |
| Codec.DecodeNeedsRequiredAttributes | ascmonitor/events.py:34 | a record that lacks a required attribute of its class does not decode |
| Codec.DecodeRejectsForeignAttributes | ascmonitor/events.py:34 | a record with an entry its class does not declare does not decode |
| Codec.RoundTrip | ascmonitor/events.py:27-53 | decoding `as_dict(e)` with an `_id` added yields `e`, for every event, id and clock |
| Codec.DecodeThenAsDict | ascmonitor/events.py:27-53 | an event decoded from a record flattens back to that record without `_id`; the document is reduced and a missing timestamp is filled in |
| Codec.AsDictInjective | ascmonitor/events.py:48-53 | distinct events have distinct dictionaries |
| Codec.ClassesDisambiguated | ascmonitor/events.py:52 | events of different classes get different `class_name` entries |
| Codec.PostSuccessAndFailureDisambiguated | ascmonitor/events.py:86-104 | a succeeded and a failed post on the same channel agree on `channel`, yet their `class_name` entries look up `PostSuccessEvent` and `PostFailureEvent` respectively, and each decodes back to itself |
| Codec.KindNotCheckedAgainstClass | ascmonitor/events.py:32-34 | a `NewDocEvent` record whose kind is `post_failure` decodes to a new-document event of kind `post_failure` |
| Codec.DecodeAsWritten | ascmonitor/events.py:29-34 | with the open name lookup, a record naming `BaseEvent` goes through the same steps against the base class: missing `_id`, missing `kind`, invalid kind, an undeclared entry, a missing document and a non-dictionary document each fail, in that order, with the same errors as for the six classes; it decodes exactly when it holds `_id`, a valid kind, a dictionary document, at most a `timestamp` besides, and then yields a base-class instance whose timestamp defaults to the UTC clock; a record not naming `BaseEvent` decodes as under the closed lookup |
| Codec.BaseEventRecordAccepted | ascmonitor/events.py:29-34 | a record naming `BaseEvent` is accepted by the lookup as written and refused as an unknown class by the closed lookup |
| Codec.DecodeClosedOverClasses | ascmonitor/events.py:29 | whatever decodes names one of the six event classes, never `BaseEvent` |

## Findings

| source | as written | input that shows it | evidently intended | confidence | as-written member | corrected member |
|---|---|---|---|---|---|---|
| ascmonitor/events.py:29-34 | the class is looked up by name among all the module's globals, and the only check is that the result is a class | `{"class_name": "BaseEvent", "_id": 1, "kind": "new_document", "document": {}, "timestamp": t}` decodes to an instance of the base class, which is none of the six events | only the six event classes can be decoded; any other name is an unknown class | low; not executed | Codec.DecodeAsWritten (counterexample: Codec.BaseEventRecordAccepted) | Codec.Decode (closed lookup: Codec.DecodeClosedOverClasses) |

## Left out

- ascmonitor/app.py: Flask routes, MongoDB client setup and the wiring of collaborators are I/O glue.
  The `/queue` view only slices a list for display.
- The event store. Appending and querying events lives in `ascmonitor/event_store.py`, which is not
  part of this model. So are the document catalog, the Mendeley client and the poster.
- Clock sources are not modelled. `datetime.utcnow()` and `datetime.now()` become the two readings of
  a `Clock` parameter.
- `event_from_dict` deletes `class_name` and `_id` from the caller's dictionary in place. The model
  decodes a map without mutating anything.
- Python reflection is not modelled. The `globals()` table, the `isinstance` assertion and attrs
  internals become a closed match, except in `Codec.DecodeAsWritten`. Every other module-level name
  either fails that assertion or rejects the keyword call. Such names are therefore an error in both
  lookups, and the model reports them as `UnknownClass`.
- Events.Instantiate: an explicitly given `kind` is an `EventKind`. The source would store any other
  value a caller passed unchecked. Decoding always passes a parsed kind.
- Events.Instantiate: an `UnexpectedArguments` error carries every undeclared name. Python reports
  only the first one in dictionary order, which a map does not have.
- Codec.Decode: a `class_name` value that cannot be hashed makes the lookup raise `TypeError`, not
  `KeyError`. Both become `UnknownClass`. The exception types and messages are not modelled beyond
  the `Error` constructors.
- Values: floats, tuples, non-string dictionary keys and arbitrary objects are not in `Value`.
  `attr.asdict` copies nested containers (tuples become lists). The model copies values as they are.
