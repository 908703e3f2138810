/**
 * The event price list screen: a table of price plans, an edit modal with a
 * draft plan and its offerings, delete by id and update by id.
 */
module EventPriceList {
  import opened Js
  import opened Rows

  /** The keys handleEdit copies from the row unchanged. */
  const CopiedKeys: seq<string> := ["titleTop", "title", "price", "offerings", "isActive", "paymentLink", "slots"]

  /** The draft's keys, in the order the screen creates them. */
  const DraftKeys: seq<string> := CopiedKeys + ["event"]

  lemma DraftKeysDistinct()
    ensures Distinct(DraftKeys)
  {
  }

  /** The draft on mount and after closeModal: empty strings, no offerings, inactive. */
  function InitialDraft(): (d: Object)
    ensures Keys(d) == DraftKeys
    ensures Get(d, "titleTop") == Str("") && Get(d, "title") == Str("") && Get(d, "price") == Str("")
    ensures Get(d, "offerings") == Arr([]) && Get(d, "isActive") == Bool(false)
    ensures Get(d, "paymentLink") == Str("") && Get(d, "slots") == Str("") && Get(d, "event") == Str("")
  {
    var vs := [Str(""), Str(""), Str(""), Arr([]), Bool(false), Str(""), Str(""), Str("")];
    DraftKeysDistinct();
    ZipGet(DraftKeys, vs);
    assert DraftKeys[0] == "titleTop" && DraftKeys[1] == "title" && DraftKeys[2] == "price" && DraftKeys[3] == "offerings";
    assert DraftKeys[4] == "isActive" && DraftKeys[5] == "paymentLink" && DraftKeys[6] == "slots" && DraftKeys[7] == "event";
    Zip(DraftKeys, vs)
  }

  /** `event.eventMasterItem ? event.eventMasterItem._id : ''` */
  function MasterId(row: Object): Value {
    var master := Get(row, "eventMasterItem");
    if Truthy(master) then Get(Fields(master), "_id") else Str("")
  }

  /** handleEdit's draft: seven fields copied from the row and the id of its event. */
  function EditDraft(row: Object): (d: Object)
    ensures Keys(d) == DraftKeys
    ensures forall i :: 0 <= i < |CopiedKeys| ==> Get(d, CopiedKeys[i]) == Get(row, CopiedKeys[i])
    ensures Get(d, "event") == MasterId(row)
    ensures !Truthy(Get(row, "eventMasterItem")) ==> Get(d, "event") == Str("")
  {
    var copied := seq(|CopiedKeys|, i requires 0 <= i < |CopiedKeys| => Get(row, CopiedKeys[i]));
    var vs := copied + [MasterId(row)];
    DraftKeysDistinct();
    ZipGet(DraftKeys, vs);
    assert forall i :: 0 <= i < |CopiedKeys| ==> DraftKeys[i] == CopiedKeys[i] && vs[i] == copied[i];
    assert DraftKeys[7] == "event" && vs[7] == MasterId(row);
    Zip(DraftKeys, vs)
  }

  /** handleChange: checkboxes give `checked`, the isActive radios give `value === 'true'`, anything else its value. */
  function Coerce(t: Target): Value {
    if t.inputType == "checkbox" then Bool(t.checked)
    else if t.name == "isActive" then Bool(t.value == "true")
    else Str(t.value)
  }

  /**
   * What a change stores: a boolean or text, never anything else. `isActive`
   * never receives text, and its radios store `value === 'true'`; text is
   * stored exactly for a non-checkbox input with another name.
   */
  lemma CoerceKinds(t: Target)
    ensures Coerce(t).Bool? || Coerce(t).Str?
    ensures t.name == "isActive" ==> Coerce(t).Bool?
    ensures t.name == "isActive" && t.inputType != "checkbox" ==> Coerce(t) == Bool(t.value == "true")
    ensures Coerce(t).Str? <==> t.inputType != "checkbox" && t.name != "isActive"
  {
  }

  /** The offering edited in handleOfferingChange: `{...offering, description: value}`. */
  function Describe(offering: Value, value: string): Value {
    Obj(Set(Fields(offering), "description", Str(value)))
  }

  /** The PUT body: every draft field, plus `eventMasterItem` set to the draft's `event`. */
  function UpdatePayload(d: Object): (p: Object)
    ensures Get(p, "eventMasterItem") == Get(d, "event")
    ensures forall k :: k != "eventMasterItem" ==> Get(p, k) == Get(d, k)
    ensures forall k :: Has(p, k) <==> Has(d, k) || k == "eventMasterItem" || k == "isActive"
  {
    var withMaster := Set(d, "eventMasterItem", Get(d, "event"));
    var p := Set(withMaster, "isActive", Get(d, "isActive"));
    assert |"isActive"| != |"eventMasterItem"|;
    GetSetOther(withMaster, "isActive", Get(d, "isActive"), "eventMasterItem");
    p
  }

  class EventPriceScreen {
    var modalOpen: bool
    var selected: Option<Object>
    var prices: seq<Object>
    var loading: bool
    var draft: Object
    /** The events offered by the edit form's event selector. */
    var events: seq<Object>

    constructor ()
      ensures !modalOpen && selected == None && prices == [] && !loading && draft == InitialDraft()
      ensures events == []
    {
      modalOpen, selected, prices, loading, draft := false, None, [], false, InitialDraft();
      events := [];
    }

    /** The fetch on mount: a parsed list replaces the prices; a failed fetch leaves them. */
    method FetchPrices(result: Option<seq<Object>>)
      modifies this
      ensures prices == if result.Some? then result.value else old(prices)
      ensures modalOpen == old(modalOpen) && selected == old(selected) && loading == old(loading) && draft == old(draft)
      ensures events == old(events)
    {
      if result.Some? {
        prices := result.value;
      }
    }

    /** fetchEvents: a parsed list replaces the selector's events; a failed fetch leaves them. */
    method FetchEvents(result: Option<seq<Object>>)
      modifies this
      ensures events == if result.Some? then result.value else old(events)
      ensures prices == old(prices) && modalOpen == old(modalOpen) && selected == old(selected)
      ensures loading == old(loading) && draft == old(draft)
    {
      if result.Some? {
        events := result.value;
      }
    }

    method HandleEdit(row: Object)
      modifies this
      ensures selected == Some(row) && draft == EditDraft(row) && modalOpen
      ensures prices == old(prices) && loading == old(loading) && events == old(events)
    {
      selected := Some(row);
      draft := EditDraft(row);
      modalOpen := true;
    }

    method CloseModal()
      modifies this
      ensures !modalOpen && selected == None && draft == InitialDraft()
      ensures prices == old(prices) && loading == old(loading) && events == old(events)
    {
      modalOpen := false;
      selected := None;
      draft := InitialDraft();
    }

    /**
     * The DELETE for `id` is sent (`sent`) only after the confirm dialog is
     * accepted. A confirmed delete whose response is ok drops the rows with
     * that id; otherwise the list stays. A confirmed delete always ends with
     * loading off.
     */
    method HandleDelete(id: Value, confirmed: bool, ok: bool) returns (sent: Option<Value>)
      modifies this
      ensures sent == if confirmed then Some(id) else None
      ensures prices == if confirmed && ok then RemoveById(old(prices), id) else old(prices)
      ensures loading == if confirmed then false else old(loading)
      ensures modalOpen == old(modalOpen) && selected == old(selected) && draft == old(draft)
      ensures events == old(events)
    {
      sent := None;
      if confirmed {
        sent := Some(id);
        loading := true;
        if ok {
          prices := RemoveById(prices, id);
        }
        loading := false;
      }
    }

    method HandleChange(t: Target)
      modifies this
      ensures draft == Set(old(draft), t.name, Coerce(t))
      ensures Get(draft, t.name) == Coerce(t)
      ensures forall k :: k != t.name ==> Get(draft, k) == Get(old(draft), k)
      ensures Has(old(draft), t.name) ==> Keys(draft) == Keys(old(draft))
      ensures modalOpen == old(modalOpen) && selected == old(selected) && prices == old(prices) && loading == old(loading) && events == old(events)
    {
      draft := Set(draft, t.name, Coerce(t));
    }

    /** The rendered offerings list supplies an index into the draft's offerings array. */
    method HandleOfferingChange(index: nat, value: string)
      requires Get(draft, "offerings").Arr? && index < |Get(draft, "offerings").items|
      modifies this
      ensures Get(draft, "offerings").Arr?
      ensures var before := old(Get(draft, "offerings").items);
              Get(draft, "offerings").items == before[index := Describe(before[index], value)]
      ensures forall k :: k != "offerings" ==> Get(draft, k) == Get(old(draft), k)
      ensures Keys(draft) == Keys(old(draft))
      ensures modalOpen == old(modalOpen) && selected == old(selected) && prices == old(prices) && loading == old(loading) && events == old(events)
    {
      var items := Get(draft, "offerings").items;
      draft := Set(draft, "offerings", Arr(items[index := Describe(items[index], value)]));
    }

    method AddOffering()
      requires Get(draft, "offerings").Arr?
      modifies this
      ensures Get(draft, "offerings") == Arr(old(Get(draft, "offerings").items) + [Obj([("description", Str(""))])])
      ensures forall k :: k != "offerings" ==> Get(draft, k) == Get(old(draft), k)
      ensures Keys(draft) == Keys(old(draft))
      ensures modalOpen == old(modalOpen) && selected == old(selected) && prices == old(prices) && loading == old(loading) && events == old(events)
    {
      var items := Get(draft, "offerings").items;
      draft := Set(draft, "offerings", Arr(items + [Obj([("description", Str(""))])]));
    }

    method RemoveOffering(index: int)
      requires Get(draft, "offerings").Arr?
      modifies this
      ensures Get(draft, "offerings") == Arr(RemoveAt(old(Get(draft, "offerings").items), index))
      ensures forall k :: k != "offerings" ==> Get(draft, k) == Get(old(draft), k)
      ensures Keys(draft) == Keys(old(draft))
      ensures modalOpen == old(modalOpen) && selected == old(selected) && prices == old(prices) && loading == old(loading) && events == old(events)
    {
      var items := Get(draft, "offerings").items;
      draft := Set(draft, "offerings", Arr(RemoveAt(items, index)));
    }

    /**
     * handleSubmit. Without a selection the URL cannot be built and nothing is
     * sent. `ok` is an ok response whose body (`returned`) parsed: the row
     * with the returned id is replaced and the modal closes. Otherwise the
     * list and the modal stay. Loading always ends off.
     */
    method HandleSubmit(ok: bool, returned: Object) returns (sent: Option<Object>, target: Value)
      modifies this
      ensures sent == if old(selected).Some? then Some(UpdatePayload(old(draft))) else None
      ensures sent.Some? ==> target == Get(old(selected).value, "_id")
      ensures if sent.Some? && ok
              then prices == ReplaceById(old(prices), returned) && !modalOpen && selected == None && draft == InitialDraft()
              else prices == old(prices) && modalOpen == old(modalOpen) && selected == old(selected) && draft == old(draft)
      ensures !loading && events == old(events)
    {
      loading := true;
      if selected.None? {
        sent, target := None, Undefined;
      } else {
        sent, target := Some(UpdatePayload(draft)), Get(selected.value, "_id");
        if ok {
          prices := ReplaceById(prices, returned);
          CloseModal();
        }
      }
      loading := false;
    }
  }
}
