/**
 * The "record event" page of a batch: the role-filtered menu of event types,
 * the form and how one input changes it, the metadata payload built from the
 * form, and the page's handlers for loading the batch and submitting.
 */
module AddEvent {
  import opened Types
  import opened Gateway
  import Js
  import Json

  /** An entry of the event-type menu: the type, its label (`name`) and the roles that may pick it. */
  datatype EventOption = EventOption(value: EventType, name: string, roles: seq<int>)

  /** The whole menu, in the order the form lists it. Harvest is not on it. */
  const AllEvents: seq<EventOption> := [
    EventOption(Shipment, "Shipment", [1]),
    EventOption(Processing, "Processing", [2]),
    EventOption(QualityCheck, "Quality Check", [2, 4]),
    EventOption(Sale, "Sale", [3])
  ]

  /** `a` is `b` with some entries left out and the others kept in order. */
  predicate IsSubsequence<T(==)>(a: seq<T>, b: seq<T>)
    decreases |b|
  {
    if a == [] then true
    else if b == [] then false
    else if a[0] == b[0] then IsSubsequence(a[1..], b[1..])
    else IsSubsequence(a, b[1..])
  }

  /** Leaving out the first entry of `b` keeps every subsequence of the rest a subsequence. */
  lemma {:induction false} SubsequenceOfTail<T>(a: seq<T>, b: seq<T>)
    requires b != [] && IsSubsequence(a, b[1..])
    ensures IsSubsequence(a, b)
    decreases |b|, 0
  {
    if a != [] && a[0] == b[0] {
      SubsequenceDropHead(a, b[1..]);
    }
  }

  /** Leaving out the first entry of a subsequence keeps it a subsequence. */
  lemma {:induction false} SubsequenceDropHead<T>(a: seq<T>, c: seq<T>)
    requires a != [] && IsSubsequence(a, c)
    ensures IsSubsequence(a[1..], c)
    decreases |c|, 1
  {
    if a[0] == c[0] {
      SubsequenceOfTail(a[1..], c);
    } else {
      SubsequenceDropHead(a, c[1..]);
      SubsequenceOfTail(a[1..], c);
    }
  }

  /** The entries of `options` whose role list includes `role`, in their order. */
  function FilterByRole(options: seq<EventOption>, role: int): (r: seq<EventOption>)
    ensures IsSubsequence(r, options)
  {
    if options == [] then []
    else
      var rest := FilterByRole(options[1..], role);
      if role in options[0].roles then
        assert ([options[0]] + rest)[1..] == rest;
        [options[0]] + rest
      else
        SubsequenceOfTail(rest, options);
        rest
  }

  /** The filter keeps exactly the entries whose role list holds the role. */
  lemma {:induction false} FilterByRoleMembers(options: seq<EventOption>, role: int)
    ensures forall o :: o in FilterByRole(options, role) <==> o in options && role in o.roles
  {
    if options != [] {
      FilterByRoleMembers(options[1..], role);
      assert options == [options[0]] + options[1..];
    }
  }

  /**
   * The event types the signed-in user may pick: none without a profile,
   * otherwise the menu entries whose role list holds the user's role.
   */
  function AvailableEventTypes(profile: Option<UserProfile>): (r: seq<EventOption>)
    ensures profile.None? ==> r == []
    ensures profile.Some? ==> forall o :: o in r <==> o in AllEvents && profile.value.role in o.roles
    ensures IsSubsequence(r, AllEvents)
    ensures forall o :: o in r ==> o.value != Harvest
  {
    if profile.None? then []
    else
      FilterByRoleMembers(AllEvents, profile.value.role);
      FilterByRole(AllEvents, profile.value.role)
  }

  function Values(os: seq<EventOption>): (r: seq<EventType>)
    ensures |r| == |os| && forall i :: 0 <= i < |os| ==> r[i] == os[i].value
  {
    seq(|os|, i requires 0 <= i < |os| => os[i].value)
  }

  /** The menu entries each role is offered, in menu order. */
  lemma FilterAllEvents(role: int)
    ensures FilterByRole(AllEvents, role) ==
      if role == 1 then [AllEvents[0]]
      else if role == 2 then [AllEvents[1], AllEvents[2]]
      else if role == 3 then [AllEvents[3]]
      else if role == 4 then [AllEvents[2]]
      else []
  {
    var o1, o2, o3, o4 := AllEvents[0], AllEvents[1], AllEvents[2], AllEvents[3];
    assert AllEvents[1..] == [o2, o3, o4] && [o2, o3, o4][1..] == [o3, o4];
    assert [o3, o4][1..] == [o4] && [o4][1..] == [];
    FilterStep([o4], role);
    FilterStep([o3, o4], role);
    FilterStep([o2, o3, o4], role);
    FilterStep(AllEvents, role);
  }

  /** One step of the filter: the first entry is kept exactly when its role list holds the role. */
  lemma FilterStep(options: seq<EventOption>, role: int)
    requires options != []
    ensures FilterByRole(options, role) ==
      (if role in options[0].roles then [options[0]] else []) + FilterByRole(options[1..], role)
  {
  }

  /** The event types each role is offered, in menu order. */
  lemma AvailableByRole(p: UserProfile)
    ensures Values(AvailableEventTypes(Some(p))) ==
      if p.role == 1 then [Shipment]
      else if p.role == 2 then [Processing, QualityCheck]
      else if p.role == 3 then [Sale]
      else if p.role == 4 then [QualityCheck]
      else []
  {
    FilterAllEvents(p.role);
  }

  /** Who may record what: producers ship, processors process, processors and certifiers check quality, retailers sell. */
  predicate MayRecord(role: int, e: EventType): (b: bool)
    ensures b ==> e != Harvest && 1 <= role <= 4
  {
    match e
    case Harvest => false
    case Shipment => role == 1
    case Processing => role == 2
    case QualityCheck => role == 2 || role == 4
    case Sale => role == 3
  }

  /** Some entry of `os` has type `e` exactly when `e` is among their types. */
  lemma SomeEntryHasType(os: seq<EventOption>, e: EventType)
    ensures (exists o :: o in os && o.value == e) <==> e in Values(os)
  {
    var vs := Values(os);
    if e in vs {
      var i :| 0 <= i < |vs| && vs[i] == e;
      assert os[i] in os && os[i].value == e;
    }
    if exists o :: o in os && o.value == e {
      var o :| o in os && o.value == e;
      var i :| 0 <= i < |os| && os[i] == o;
      assert vs[i] == e;
    }
  }

  /** The menu offers an event type to a user exactly when the user's role may record it. */
  lemma OfferedIffMayRecord(p: UserProfile, e: EventType)
    ensures (exists o :: o in AvailableEventTypes(Some(p)) && o.value == e) <==> MayRecord(p.role, e)
  {
    SomeEntryHasType(AvailableEventTypes(Some(p)), e);
    AvailableByRole(p);
  }

  /** The form's fields; the event type is a JavaScript number, the rest are text. */
  datatype FormData = FormData(
    eventType: Js.Number, notes: string, location: string, qualityScore: string, certificateHash: string)

  /** The form as the page opens it: the Shipment code and empty texts. */
  const InitialForm: FormData := FormData(Js.Finite(1), "", "", "", "")

  /** The page's initial event type is Shipment, which roles 2, 3 and 4 are not offered. */
  lemma InitialTypeNotOffered(p: UserProfile)
    requires p.role == 2 || p.role == 3 || p.role == 4
    ensures InitialForm.eventType == Js.Finite(Code(Shipment))
    ensures forall o :: o in AvailableEventTypes(Some(p)) ==> InitialForm.eventType != Js.Finite(Code(o.value))
  {
    forall o | o in AvailableEventTypes(Some(p))
      ensures InitialForm.eventType != Js.Finite(Code(o.value))
    {
      OfferedIffMayRecord(p, o.value);
    }
  }

  /** `text || undefined` as a member: `JSON.stringify` leaves out members whose value is undefined. */
  function OptionalMember(key: string, text: string): (r: seq<Json.Member>)
    ensures |r| == 1 <==> text != []
    ensures |r| <= 1 && forall m :: m in r ==> m == Json.Member(key, Json.Str(text))
  {
    if text == [] then [] else [Json.Member(key, Json.Str(text))]
  }

  /**
   * The object serialised as the event's data reference, member by member:
   * notes and location, the quality score and certificate only when their
   * text is not empty, then the recorder's name and role; no key twice.
   */
  function Payload(form: FormData, profile: UserProfile): (p: seq<Json.Member>)
    ensures var nq := if form.qualityScore == [] then 0 else 1;
      var nc := if form.certificateHash == [] then 0 else 1;
      && |p| == 4 + nq + nc
      && p[0] == Json.Member("notes", Json.Str(form.notes))
      && p[1] == Json.Member("location", Json.Str(form.location))
      && (nq == 1 ==> p[2] == Json.Member("qualityScore", Json.Str(form.qualityScore)))
      && (nc == 1 ==> p[|p| - 3] == Json.Member("certificateHash", Json.Str(form.certificateHash)))
      && p[|p| - 2] == Json.Member("recordedBy", Json.Str(profile.name))
      && p[|p| - 1] == Json.Member("role", Json.Num(profile.role))
    ensures forall i, j :: 0 <= i < j < |p| ==> p[i].key != p[j].key
  {
    var m1 := Json.Member("notes", Json.Str(form.notes));
    var m2 := Json.Member("location", Json.Str(form.location));
    var m3 := Json.Member("qualityScore", Json.Str(form.qualityScore));
    var m4 := Json.Member("certificateHash", Json.Str(form.certificateHash));
    var m5 := Json.Member("recordedBy", Json.Str(profile.name));
    var m6 := Json.Member("role", Json.Num(profile.role));
    var p := [m1, m2] + OptionalMember("qualityScore", form.qualityScore)
             + OptionalMember("certificateHash", form.certificateHash) + [m5, m6];
    assert form.qualityScore == [] && form.certificateHash == [] ==> p == [m1, m2, m5, m6];
    assert form.qualityScore == [] && form.certificateHash != [] ==> p == [m1, m2, m4, m5, m6];
    assert form.qualityScore != [] && form.certificateHash == [] ==> p == [m1, m2, m3, m5, m6];
    assert form.qualityScore != [] && form.certificateHash != [] ==> p == [m1, m2, m3, m4, m5, m6];
    p
  }

  /** The data reference sent with a new event; it decodes back to the payload it was written from. */
  function DataHash(form: FormData, profile: UserProfile): (r: string)
    ensures Json.Parse(r) == Some(Payload(form, profile))
  {
    Json.ParseStringify(Payload(form, profile));
    Json.Stringify(Payload(form, profile))
  }

  /**
   * What the payload holds: notes, location, recorder and role always; the
   * quality score and certificate only when their text is not empty; no key
   * twice; and nothing from the event type.
   */
  lemma PayloadMembers(form: FormData, profile: UserProfile)
    ensures var p := Payload(form, profile);
      && Json.Lookup(p, "notes") == Some(Json.Str(form.notes))
      && Json.Lookup(p, "location") == Some(Json.Str(form.location))
      && Json.Lookup(p, "qualityScore") ==
           (if form.qualityScore == [] then None else Some(Json.Str(form.qualityScore)))
      && Json.Lookup(p, "certificateHash") ==
           (if form.certificateHash == [] then None else Some(Json.Str(form.certificateHash)))
      && Json.Lookup(p, "recordedBy") == Some(Json.Str(profile.name))
      && Json.Lookup(p, "role") == Some(Json.Num(profile.role))
      && (forall i, j :: 0 <= i < j < |p| ==> p[i].key != p[j].key)
    ensures forall t :: Payload(form.(eventType := t), profile) == Payload(form, profile)
  {
    var p := Payload(form, profile);
    LookupAt(p, 0);
    LookupAt(p, 1);
    LookupAt(p, |p| - 2);
    LookupAt(p, |p| - 1);
    if form.qualityScore != [] {
      LookupAt(p, 2);
    } else {
      PayloadKeyAbsent(p, "qualityScore");
    }
    if form.certificateHash != [] {
      LookupAt(p, |p| - 3);
    } else {
      PayloadKeyAbsent(p, "certificateHash");
    }
  }

  /** A key found at none of a payload's positions is looked up in vain. */
  lemma PayloadKeyAbsent(p: seq<Json.Member>, key: string)
    requires 4 <= |p| <= 5
    requires p[0].key != key && p[1].key != key && p[|p| - 2].key != key && p[|p| - 1].key != key
    requires |p| == 5 ==> p[2].key != key
    ensures Json.Lookup(p, key) == None
  {
  }

  /** In a member list without repeated keys, looking up the key at `i` finds the value at `i`. */
  lemma LookupAt(p: seq<Json.Member>, i: nat)
    requires i < |p|
    requires forall a, b :: 0 <= a < b < |p| ==> p[a].key != p[b].key
    ensures Json.Lookup(p, p[i].key) == Some(p[i].value)
  {
    Json.LookupFirst(p, p[i].key, i);
  }

  /**
   * The payload's keys in order: notes, location, then the optional quality
   * score and certificate, then recorder and role.
   */
  lemma PayloadKeyOrder(form: FormData, profile: UserProfile)
    ensures var ks := Json.Keys(Payload(form, profile));
      && |ks| == 4 + (if form.qualityScore == [] then 0 else 1) + (if form.certificateHash == [] then 0 else 1)
      && ks[0] == "notes" && ks[1] == "location"
      && ks[|ks| - 2] == "recordedBy" && ks[|ks| - 1] == "role"
      && (form.qualityScore != [] ==> ks[2] == "qualityScore")
      && (form.certificateHash != [] ==> ks[|ks| - 3] == "certificateHash")
  {
  }

  /**
   * Equal data references come from equal inputs: the reference pins down the
   * four text fields and the profile (an empty optional field and an absent
   * one being the same input).
   */
  lemma DataHashInjective(f1: FormData, p1: UserProfile, f2: FormData, p2: UserProfile)
    requires DataHash(f1, p1) == DataHash(f2, p2)
    ensures f1.notes == f2.notes && f1.location == f2.location
    ensures f1.qualityScore == f2.qualityScore && f1.certificateHash == f2.certificateHash
    ensures p1 == p2
  {
    Json.StringifyInjective(Payload(f1, p1), Payload(f2, p2));
    PayloadMembers(f1, p1);
    PayloadMembers(f2, p2);
  }

  /** The form's inputs, by their `name` attribute. */
  datatype Field = EventTypeInput | NotesInput | LocationInput | QualityScoreInput | CertificateHashInput

  /** What a field holds. */
  datatype FieldValue = NumberValue(n: Js.Number) | TextValue(t: string)

  function Get(form: FormData, f: Field): FieldValue
  {
    match f
    case EventTypeInput => NumberValue(form.eventType)
    case NotesInput => TextValue(form.notes)
    case LocationInput => TextValue(form.location)
    case QualityScoreInput => TextValue(form.qualityScore)
    case CertificateHashInput => TextValue(form.certificateHash)
  }

  /**
   * The form after input `f` reports `value`: that field alone changes; the
   * event type is stored as `Number(value)`, a text field as `value` itself.
   */
  function WithInput(prev: FormData, f: Field, value: string): (r: FormData)
    ensures Get(r, f) == if f == EventTypeInput then NumberValue(Js.ToNumber(value)) else TextValue(value)
    ensures forall g :: g != f ==> Get(r, g) == Get(prev, g)
  {
    match f
    case EventTypeInput => prev.(eventType := Js.ToNumber(value))
    case NotesInput => prev.(notes := value)
    case LocationInput => prev.(location := value)
    case QualityScoreInput => prev.(qualityScore := value)
    case CertificateHashInput => prev.(certificateHash := value)
  }

  /** Two forms that agree on every field are the same form. */
  lemma {:induction false} FormExtensionality(a: FormData, b: FormData)
    requires forall g :: Get(a, g) == Get(b, g)
    ensures a == b
  {
    assert Get(a, EventTypeInput) == Get(b, EventTypeInput);
    assert Get(a, NotesInput) == Get(b, NotesInput);
    assert Get(a, LocationInput) == Get(b, LocationInput);
    assert Get(a, QualityScoreInput) == Get(b, QualityScoreInput);
    assert Get(a, CertificateHashInput) == Get(b, CertificateHashInput);
  }

  /** Changes to two different inputs commute; a second change to the same input overrides the first. */
  lemma {:induction false} InputChangesCompose(prev: FormData, f: Field, u: string, g: Field, v: string)
    ensures f != g ==> WithInput(WithInput(prev, f, u), g, v) == WithInput(WithInput(prev, g, v), f, u)
    ensures WithInput(WithInput(prev, f, u), f, v) == WithInput(prev, f, v)
  {
    if f != g {
      FormExtensionality(WithInput(WithInput(prev, f, u), g, v), WithInput(WithInput(prev, g, v), f, u));
    }
    FormExtensionality(WithInput(WithInput(prev, f, u), f, v), WithInput(prev, f, v));
  }

  /** Picking a menu entry (whose option value is `String(code)`) stores that entry's code. */
  lemma PickingAnOptionStoresItsCode(prev: FormData, o: EventOption)
    ensures WithInput(prev, EventTypeInput, Js.DecimalText(Code(o.value))).eventType == Js.Finite(Code(o.value))
  {
    Js.ToNumberOfDecimalText(Code(o.value));
  }

  /** What the page shows. */
  datatype Screen =
    | LoadingBatch
    | ErrorPanel(message: string)
    | EventForm(options: seq<EventOption>, successBanner: Option<string>, errorBanner: Option<string>,
                qualityFields: bool, busy: bool)

  /**
   * The page for the given state: a spinner while loading; the error panel
   * when an error is set and no batch is loaded; otherwise the form, with the
   * quality score and certificate inputs only for the Quality Check code.
   */
  function ScreenOf(loading: bool, error: Option<string>, batch: Option<Batch>, profile: Option<UserProfile>,
                    form: FormData, success: Option<string>, submitting: bool): (s: Screen)
    ensures s.LoadingBatch? <==> loading
    ensures s.ErrorPanel? <==> !loading && Js.Truthy(error) && batch.None?
    ensures s.ErrorPanel? ==> Js.Truthy(Some(s.message)) && error == Some(s.message)
    ensures s.EventForm? ==> s.options == AvailableEventTypes(profile)
    ensures s.EventForm? ==> (s.qualityFields <==> form.eventType == Js.Finite(Code(QualityCheck)))
    ensures s.EventForm? ==> (s.successBanner.Some? <==> Js.Truthy(success)) && (s.errorBanner.Some? <==> Js.Truthy(error))
    ensures s.EventForm? ==> (Js.Truthy(success) ==> s.successBanner == success) && (Js.Truthy(error) ==> s.errorBanner == error)
    ensures s.EventForm? ==> s.busy == submitting
  {
    if loading then LoadingBatch
    else if Js.Truthy(error) && batch.None? then ErrorPanel(error.value)
    else EventForm(AvailableEventTypes(profile),
                   if Js.Truthy(success) then success else None,
                   if Js.Truthy(error) then error else None,
                   form.eventType == Js.Finite(3),
                   submitting)
  }

  const LoadFailed: string := "Failed to load batch"
  const RecordFailed: string := "Failed to record event"
  const Recorded: string := "Event recorded successfully!"

  /** The page's state, updated in place by its handlers. */
  class AddEventPage {
    var batch: Option<Batch>
    var loading: bool
    var submitting: bool
    var error: Option<string>
    var success: Option<string>
    var formData: FormData

    constructor ()
      ensures batch == None && loading && !submitting && error == None && success == None
      ensures formData == InitialForm
    {
      batch, loading, submitting, error, success := None, true, false, None, None;
      formData := InitialForm;
    }

    function View(profile: Option<UserProfile>): Screen
      reads this
    {
      ScreenOf(loading, error, batch, profile, formData, success, submitting)
    }

    /**
     * Loads the batch named by the route's id. Without an id nothing happens.
     * Otherwise one `getBatch` call: its batch is stored, or its error message
     * is; an earlier error is not cleared; loading ends either way.
     */
    method LoadBatchData(id: Option<nat>, reply: Reply<Batch>) returns (calls: seq<Call>)
      modifies this
      ensures id.None? ==> calls == [] && unchanged(this)
      ensures id.Some? ==> calls == [GetBatch(id.value)] && !loading
      ensures id.Some? ==> batch == if reply.Returned? then Some(reply.value) else old(batch)
      ensures id.Some? ==> error == if reply.Threw? then Some(ErrorText(reply.message, LoadFailed)) else old(error)
      ensures submitting == old(submitting) && success == old(success) && formData == old(formData)
      ensures id.Some? && reply.Threw? && old(batch).None? ==> forall p :: View(p).ErrorPanel?
    {
      if id.None? {
        return [];
      }
      loading := true;
      calls := [GetBatch(id.value)];
      match reply {
        case Returned(b) =>
          batch := Some(b);
        case Threw(message) =>
          error := Some(ErrorText(message, LoadFailed));
      }
      loading := false;
    }

    /** The user changed input `f` to `value`: only that field of the form changes. */
    method HandleInputChange(f: Field, value: string)
      modifies this`formData
      ensures formData == WithInput(old(formData), f, value)
    {
      formData := WithInput(formData, f, value);
    }

    /**
     * Submits the form. Without an id or a profile nothing happens.
     * Otherwise banners are cleared and `recordEvent` is sent the form's event
     * type as it stands (it is not checked against the menu) with the data
     * reference; when it returns, the history is fetched; success is announced
     * only when both calls returned, and the first error's message is stored
     * otherwise; submitting ends false in every case.
     */
    method HandleSubmit(id: Option<nat>, profile: Option<UserProfile>,
                        recordReply: Reply<()>, historyReply: Reply<seq<SupplyChainEvent>>)
      returns (calls: seq<Call>)
      modifies this
      ensures id.None? || profile.None? ==> calls == [] && unchanged(this)
      ensures id.Some? && profile.Some? ==>
        calls == [RecordEvent(id.value, old(formData).eventType, DataHash(old(formData), profile.value))]
                 + (if recordReply.Returned? then [GetBatchHistory(id.value)] else [])
      ensures id.Some? && profile.Some? ==>
        && !submitting
        && success == (if recordReply.Returned? && historyReply.Returned? then Some(Recorded) else None)
        && error == (if recordReply.Threw? then Some(ErrorText(recordReply.message, RecordFailed))
                     else if historyReply.Threw? then Some(ErrorText(historyReply.message, RecordFailed))
                     else None)
      ensures batch == old(batch) && loading == old(loading) && formData == old(formData)
      ensures id.Some? && profile.Some? ==> success.None? || error.None?
    {
      if id.None? || profile.None? {
        return [];
      }
      var record := RecordEvent(id.value, formData.eventType, DataHash(formData, profile.value));
      calls := Send(id.value, record, recordReply, historyReply);
    }

    /**
     * The awaited part of a submit: banners cleared, `record` sent, then the
     * history fetched when it returned; the outcome goes to the banners and
     * submitting ends false.
     */
    method Send(id: nat, record: Call, recordReply: Reply<()>, historyReply: Reply<seq<SupplyChainEvent>>)
      returns (calls: seq<Call>)
      modifies this
      ensures calls == [record] + (if recordReply.Returned? then [GetBatchHistory(id)] else [])
      ensures !submitting
      ensures success == (if recordReply.Returned? && historyReply.Returned? then Some(Recorded) else None)
      ensures error == (if recordReply.Threw? then Some(ErrorText(recordReply.message, RecordFailed))
                        else if historyReply.Threw? then Some(ErrorText(historyReply.message, RecordFailed))
                        else None)
      ensures batch == old(batch) && loading == old(loading) && formData == old(formData)
    {
      submitting := true;
      error := None;
      success := None;
      calls := [record];
      match recordReply {
        case Threw(message) =>
          error := Some(ErrorText(message, RecordFailed));
        case Returned(_) =>
          calls := calls + [GetBatchHistory(id)];
          match historyReply {
            case Threw(message) =>
              error := Some(ErrorText(message, RecordFailed));
            case Returned(_) =>
              success := Some(Recorded);
          }
      }
      submitting := false;
    }
  }
}
