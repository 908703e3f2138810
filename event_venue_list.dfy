/**
 * The venue list screen: the venues table, an edit modal whose draft is
 * filled from the row with defaults, an image preview, a multipart update
 * and delete by id.
 */
module EventVenueList {
  import opened Js
  import opened Rows

  /** The draft's keys; they are also the names of the update's first six entries. */
  const DraftKeys: seq<string> := ["eventMasterItem", "city", "place", "map", "date", "isActive"]

  /** The update's keys when a file is chosen. */
  const FileBodyKeys: seq<string> := DraftKeys + ["image"]

  lemma DraftKeysDistinct()
    ensures Distinct(DraftKeys)
  {
  }

  lemma FileBodyKeysDistinct()
    ensures Distinct(FileBodyKeys) && "image" !in DraftKeys
  {
  }

  /** The draft on mount: empty strings and an unchecked flag. */
  function InitialDraft(): (d: Object)
    ensures Keys(d) == DraftKeys
    ensures forall i :: 0 <= i < 5 ==> Get(d, DraftKeys[i]) == Str("")
    ensures Get(d, "isActive") == Bool(false)
  {
    var vs := seq(5, _ => Str("")) + [Bool(false)];
    DraftKeysDistinct();
    ZipGet(DraftKeys, vs);
    assert DraftKeys[5] == "isActive";
    Zip(DraftKeys, vs)
  }

  /**
   * handleEdit's draft. `iso` is the text of `new Date(event.date).toISOString()`,
   * which the host computes, or None when the date is invalid and the call
   * throws a RangeError; only the part before the 'T' is kept. The draft is
   * None exactly when the row has a truthy date whose conversion throws.
   */
  function EditDraft(row: Object, iso: Option<string>): Option<Object> {
    if Truthy(Get(row, "date")) && iso.None? then None
    else
      Some(Zip(DraftKeys, [Or(Get(Fields(Get(row, "eventMasterItem")), "_id"), Str("")),
                           Or(Get(row, "city"), Str("")),
                           Or(Get(row, "place"), Str("")),
                           Or(Get(row, "map"), Str("")),
                           if Truthy(Get(row, "date")) then Str(BeforeT(iso.value)) else Str(""),
                           Or(Get(row, "isActive"), Bool(false))]))
  }

  /**
   * The edit throws only on a truthy date the host cannot convert. Otherwise
   * each field of the draft is the row's value when that is truthy and the
   * default otherwise: the id of the row's event, its text fields, the date
   * part of its timestamp, and its flag or false.
   */
  lemma EditDraftFields(row: Object, iso: Option<string>)
    ensures EditDraft(row, iso).None? <==> Truthy(Get(row, "date")) && iso.None?
    ensures EditDraft(row, iso).Some? ==>
            var d := EditDraft(row, iso).value;
            var master := Get(Fields(Get(row, "eventMasterItem")), "_id");
            Keys(d) == DraftKeys &&
            Get(d, "eventMasterItem") == (if Truthy(master) then master else Str("")) &&
            (forall i :: 1 <= i < 4 ==>
               Get(d, DraftKeys[i]) == if Truthy(Get(row, DraftKeys[i])) then Get(row, DraftKeys[i]) else Str("")) &&
            Get(d, "date") == (if Truthy(Get(row, "date")) then Str(BeforeT(iso.value)) else Str("")) &&
            Get(d, "isActive") == (if Truthy(Get(row, "isActive")) then Get(row, "isActive") else Bool(false))
  {
    if EditDraft(row, iso).Some? {
      var vs := [Or(Get(Fields(Get(row, "eventMasterItem")), "_id"), Str("")),
                 Or(Get(row, "city"), Str("")),
                 Or(Get(row, "place"), Str("")),
                 Or(Get(row, "map"), Str("")),
                 if Truthy(Get(row, "date")) then Str(BeforeT(iso.value)) else Str(""),
                 Or(Get(row, "isActive"), Bool(false))];
      assert EditDraft(row, iso).value == Zip(DraftKeys, vs);
      DraftKeysDistinct();
      ZipGet(DraftKeys, vs);
      assert DraftKeys[0] == "eventMasterItem" && DraftKeys[1] == "city" && DraftKeys[2] == "place";
      assert DraftKeys[3] == "map" && DraftKeys[4] == "date" && DraftKeys[5] == "isActive";
    }
  }

  /** A row without an event, or whose event is not an object, edits with an empty event id. */
  lemma EditDraftNoMaster(row: Object, iso: Option<string>)
    requires !Get(row, "eventMasterItem").Obj?
    ensures EditDraft(row, iso).Some? ==> Get(EditDraft(row, iso).value, "eventMasterItem") == Str("")
  {
    EditDraftFields(row, iso);
  }

  /** The draft's values in DraftKeys order. */
  function DraftValues(d: Object): seq<Value> {
    seq(|DraftKeys|, i requires 0 <= i < |DraftKeys| => Get(d, DraftKeys[i]))
  }

  /** The update body: the six draft fields under their own names, then the chosen file if there is one. */
  function Body(d: Object, chosen: Option<string>): FormData {
    seq(|DraftKeys|, i requires 0 <= i < |DraftKeys| => (DraftKeys[i], Get(d, DraftKeys[i])))
    + (if chosen.Some? then [("image", File(chosen.value))] else [])
  }

  /**
   * handleSubmit's appends. `chosen` is the file the form's image input
   * holds at submit time; the draft's own `image` entry is never sent.
   */
  method BuildBody(d: Object, chosen: Option<string>) returns (body: FormData)
    ensures body == Body(d, chosen)
  {
    body := [];
    body := body + [("eventMasterItem", Get(d, "eventMasterItem"))];
    body := body + [("city", Get(d, "city"))];
    body := body + [("place", Get(d, "place"))];
    body := body + [("map", Get(d, "map"))];
    body := body + [("date", Get(d, "date"))];
    body := body + [("isActive", Get(d, "isActive"))];
    if chosen.Some? {
      body := body + [("image", File(chosen.value))];
    }
  }

  /** The body sends every draft field under its own name, and an `image` entry exactly when a file is chosen. */
  lemma BodyFields(d: Object, chosen: Option<string>)
    ensures forall i :: 0 <= i < |DraftKeys| ==> Get(Body(d, chosen), DraftKeys[i]) == Get(d, DraftKeys[i])
    ensures Get(Body(d, chosen), "image") == if chosen.Some? then File(chosen.value) else Undefined
  {
    var b := Body(d, chosen);
    var vs := DraftValues(d);
    if chosen.Some? {
      var fvs := vs + [File(chosen.value)];
      assert b == Zip(FileBodyKeys, fvs);
      FileBodyKeysDistinct();
      ZipGet(FileBodyKeys, fvs);
      assert FileBodyKeys[6] == "image";
      assert forall i :: 0 <= i < |DraftKeys| ==> FileBodyKeys[i] == DraftKeys[i] && fvs[i] == vs[i];
    } else {
      assert b == Zip(DraftKeys, vs);
      DraftKeysDistinct();
      ZipGet(DraftKeys, vs);
      FileBodyKeysDistinct();
      HasKeys(b, "image");
    }
  }

  /** With no file chosen, the body of a draft of the form's own shape is that draft, entry for entry. */
  lemma BodyIsDraft(d: Object)
    requires Keys(d) == DraftKeys
    ensures Body(d, None) == d
  {
    DraftKeysDistinct();
    forall i | 0 <= i < |d| ensures Body(d, None)[i] == d[i] {
      GetAt(d, i);
    }
  }

  class VenueListScreen {
    var modalOpen: bool
    var selected: Option<Object>
    /** The venues in the table. */
    var events: seq<Object>
    /** The events the selector lists. */
    var eventList: Value
    var preview: Value
    var loading: bool
    var draft: Object

    constructor ()
      ensures !modalOpen && selected == None && events == [] && eventList == Arr([])
      ensures preview == Null && !loading && draft == InitialDraft()
    {
      modalOpen, selected, events, eventList := false, None, [], Arr([]);
      preview, loading, draft := Null, false, InitialDraft();
    }

    /** fetchEvents: a parsed list replaces the venues; a failed fetch leaves them. */
    method FetchEvents(result: Option<seq<Object>>)
      modifies this
      ensures events == if result.Some? then result.value else old(events)
      ensures modalOpen == old(modalOpen) && selected == old(selected) && eventList == old(eventList)
      ensures preview == old(preview) && loading == old(loading) && draft == old(draft)
    {
      if result.Some? {
        events := result.value;
      }
    }

    /** fetchEventList: a parsed body replaces the selector's events. */
    method FetchEventList(result: Option<Value>)
      modifies this
      ensures eventList == if result.Some? then result.value else old(eventList)
      ensures modalOpen == old(modalOpen) && selected == old(selected) && events == old(events)
      ensures preview == old(preview) && loading == old(loading) && draft == old(draft)
    {
      if result.Some? {
        eventList := result.value;
      }
    }

    /**
     * handleChange: checkboxes store `checked`, every other input its value
     * (for a file input, the path string). A file input also previews its
     * first file; with no file the preview call throws and the preview stays.
     */
    method HandleChange(t: Target)
      modifies this
      ensures draft == Set(old(draft), t.name, CheckedOrText(t))
      ensures Get(draft, t.name) == (if t.inputType == "checkbox" then Bool(t.checked) else Str(t.value))
      ensures forall k :: k != t.name ==> Get(draft, k) == Get(old(draft), k)
      ensures preview == if t.inputType == "file" && |t.files| > 0 then HostString(ObjectUrl, File(t.files[0])) else old(preview)
      ensures modalOpen == old(modalOpen) && selected == old(selected) && events == old(events)
      ensures eventList == old(eventList) && loading == old(loading)
    {
      draft := Set(draft, t.name, CheckedOrText(t));
      if t.inputType == "file" && |t.files| > 0 {
        preview := HostString(ObjectUrl, File(t.files[0]));
      }
    }

    /**
     * handleEdit stores the selection first; when building the draft throws
     * (an invalid date), the draft, the preview and the modal stay as they were.
     */
    method HandleEdit(row: Object, iso: Option<string>)
      modifies this
      ensures selected == Some(row)
      ensures if EditDraft(row, iso).Some?
              then draft == EditDraft(row, iso).value && preview == Get(row, "img") && modalOpen
              else draft == old(draft) && preview == old(preview) && modalOpen == old(modalOpen)
      ensures events == old(events) && eventList == old(eventList) && loading == old(loading)
    {
      selected := Some(row);
      var next := EditDraft(row, iso);
      if next.Some? {
        draft := next.value;
        preview := Get(row, "img");
        modalOpen := true;
      }
    }

    /** closeModal clears the selection and the preview; the draft keeps its values. */
    method CloseModal()
      modifies this
      ensures !modalOpen && selected == None && preview == Null
      ensures draft == old(draft) && events == old(events) && eventList == old(eventList) && loading == old(loading)
    {
      modalOpen := false;
      selected := None;
      preview := Null;
    }

    /**
     * handleDelete asks for no confirmation: the DELETE for `id` is always
     * sent (`target`), and an ok response drops the rows with that id.
     */
    method HandleDelete(id: Value, ok: bool) returns (target: Value)
      modifies this
      ensures target == id
      ensures events == if ok then RemoveById(old(events), id) else old(events)
      ensures modalOpen == old(modalOpen) && selected == old(selected) && eventList == old(eventList)
      ensures preview == old(preview) && loading == old(loading) && draft == old(draft)
    {
      target := id;
      if ok {
        events := RemoveById(events, id);
      }
    }

    /**
     * handleSubmit. The body is built first; without a selection the URL
     * cannot be built and nothing is sent. `ok` is an ok response whose
     * body parsed: the modal closes (selection, preview and draft stay) and
     * the venues are fetched again (`refetch`). Loading ends off either way.
     */
    method HandleSubmit(chosen: Option<string>, ok: bool) returns (body: FormData, sent: bool, target: Value, refetch: bool)
      modifies this
      ensures body == Body(old(draft), chosen)
      ensures sent == old(selected).Some?
      ensures sent ==> target == Get(old(selected).value, "_id")
      ensures refetch == (sent && ok)
      ensures modalOpen == (old(modalOpen) && !refetch)
      ensures !loading
      ensures selected == old(selected) && preview == old(preview) && draft == old(draft)
      ensures events == old(events) && eventList == old(eventList)
    {
      loading := true;
      body := BuildBody(draft, chosen);
      sent := selected.Some?;
      target := if sent then Get(selected.value, "_id") else Undefined;
      refetch := false;
      if sent && ok {
        modalOpen := false;
        refetch := true;
      }
      loading := false;
    }
  }
}
