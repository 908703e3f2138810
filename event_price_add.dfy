/**
 * The add-price-plan form: a flat draft, a list of offering descriptions
 * edited by position, and a JSON create request.
 */
module EventPriceAdd {
  import opened Js
  import opened Rows

  /** The draft's keys on mount. */
  const DraftKeys: seq<string> := ["event", "titleTop", "title", "price", "paymentLink", "slots", "isActive"]

  /** The keys of the draft installed after a successful create: `slots` is gone and `paymentLink` comes before `price`. */
  const ResetKeys: seq<string> := ["event", "titleTop", "title", "paymentLink", "price", "isActive"]

  /** The keys of the create request, in the order the payload literal lists them. */
  const PayloadKeys: seq<string> := ["eventMasterItem", "titleTop", "title", "offerings", "price", "paymentLink", "slots", "isActive"]

  lemma DraftKeysDistinct()
    ensures Distinct(DraftKeys)
  {
  }

  lemma ResetKeysDistinct()
    ensures Distinct(ResetKeys)
  {
  }

  lemma PayloadKeysDistinct()
    ensures Distinct(PayloadKeys)
  {
  }

  /** Every field of the draft on mount is the empty string. */
  function InitialDraft(): (d: Object)
    ensures Keys(d) == DraftKeys
    ensures forall i :: 0 <= i < |DraftKeys| ==> Get(d, DraftKeys[i]) == Str("")
  {
    var vs := seq(|DraftKeys|, _ => Str(""));
    DraftKeysDistinct();
    ZipGet(DraftKeys, vs);
    Zip(DraftKeys, vs)
  }

  /** The draft after a successful create: empty strings, and no `slots` key at all. */
  function ResetDraft(): (d: Object)
    ensures Keys(d) == ResetKeys
    ensures forall i :: 0 <= i < |ResetKeys| ==> Get(d, ResetKeys[i]) == Str("")
    ensures !Has(d, "slots") && Get(d, "slots") == Undefined
  {
    var vs := seq(|ResetKeys|, _ => Str(""));
    ResetKeysDistinct();
    ZipGet(ResetKeys, vs);
    var d := Zip(ResetKeys, vs);
    HasKeys(d, "slots");
    d
  }

  function EmptyOffering(): Object {
    [("description", Str(""))]
  }

  /** `offerings.map(offering => ({ description: offering.description }))` */
  function Descriptions(offerings: seq<Object>): seq<Value> {
    seq(|offerings|, i requires 0 <= i < |offerings| => Obj([("description", Get(offerings[i], "description"))]))
  }

  /** The create request built from the draft `d` and the offerings. */
  function Payload(d: Object, offerings: seq<Object>): Object {
    Zip(PayloadKeys, [Get(d, "event"), Get(d, "titleTop"), Get(d, "title"), Arr(Descriptions(offerings)),
                      Get(d, "price"), Get(d, "paymentLink"), Get(d, "slots"), Bool(Get(d, "isActive") == Str("true"))])
  }

  /**
   * The request carries the draft's event as `eventMasterItem`, five text
   * fields as they are, each offering reduced to its description, and the
   * radio value as a boolean that is true only for the string 'true'.
   */
  lemma PayloadFields(d: Object, offerings: seq<Object>)
    ensures var p := Payload(d, offerings);
            Keys(p) == PayloadKeys &&
            Get(p, "eventMasterItem") == Get(d, "event") &&
            Get(p, "titleTop") == Get(d, "titleTop") && Get(p, "title") == Get(d, "title") &&
            Get(p, "price") == Get(d, "price") && Get(p, "paymentLink") == Get(d, "paymentLink") &&
            Get(p, "slots") == Get(d, "slots") &&
            Get(p, "isActive") == Bool(Get(d, "isActive") == Str("true"))
    ensures var sent := Get(Payload(d, offerings), "offerings");
            sent.Arr? && |sent.items| == |offerings| &&
            forall i :: 0 <= i < |offerings| ==>
              sent.items[i].Obj? && Keys(sent.items[i].fields) == ["description"] &&
              Get(sent.items[i].fields, "description") == Get(offerings[i], "description")
  {
    var vs := [Get(d, "event"), Get(d, "titleTop"), Get(d, "title"), Arr(Descriptions(offerings)),
               Get(d, "price"), Get(d, "paymentLink"), Get(d, "slots"), Bool(Get(d, "isActive") == Str("true"))];
    PayloadKeysDistinct();
    ZipGet(PayloadKeys, vs);
    assert PayloadKeys[0] == "eventMasterItem" && PayloadKeys[1] == "titleTop" && PayloadKeys[2] == "title";
    assert PayloadKeys[3] == "offerings" && PayloadKeys[4] == "price" && PayloadKeys[5] == "paymentLink";
    assert PayloadKeys[6] == "slots" && PayloadKeys[7] == "isActive";
  }

  /**
   * After a successful create the next request, unless the slots input is
   * edited again, sends no `slots` and an inactive plan.
   */
  lemma PayloadAfterReset(offerings: seq<Object>)
    ensures Get(Payload(ResetDraft(), offerings), "slots") == Undefined
    ensures Get(Payload(ResetDraft(), offerings), "isActive") == Bool(false)
  {
    PayloadFields(ResetDraft(), offerings);
    assert ResetKeys[5] == "isActive";
  }

  /** How the create request ended: ok with a parsed body, not ok with a parsed body, or an exception. */
  datatype Outcome = Created | Rejected | Threw

  class AddEventPriceScreen {
    var draft: Object
    var loading: bool
    /** The fetched events the selector lists. */
    var events: Value
    var offerings: seq<Object>

    constructor ()
      ensures draft == InitialDraft() && !loading && events == Arr([]) && offerings == [EmptyOffering()]
    {
      draft, loading, events, offerings := InitialDraft(), false, Arr([]), [EmptyOffering()];
    }

    /** fetchEvents: a parsed body replaces the events; loading ends off either way. */
    method FetchEvents(result: Option<Value>)
      modifies this
      ensures events == if result.Some? then result.value else old(events)
      ensures !loading && draft == old(draft) && offerings == old(offerings)
    {
      if result.Some? {
        events := result.value;
      }
      loading := false;
    }

    /** handleChange stores the raw value under the input's name; the radios store the strings 'true' and 'false'. */
    method HandleChange(t: Target)
      modifies this
      ensures draft == Set(old(draft), t.name, Str(t.value))
      ensures Get(draft, t.name) == Str(t.value)
      ensures forall k :: k != t.name ==> Get(draft, k) == Get(old(draft), k)
      ensures Has(old(draft), t.name) ==> Keys(draft) == Keys(old(draft))
      ensures loading == old(loading) && events == old(events) && offerings == old(offerings)
    {
      draft := Set(draft, t.name, Str(t.value));
    }

    method HandleOfferingChange(index: int, t: Target)
      modifies this
      ensures offerings == SetFieldAt(old(offerings), index, t.name, Str(t.value))
      ensures draft == old(draft) && loading == old(loading) && events == old(events)
    {
      offerings := SetFieldAt(offerings, index, t.name, Str(t.value));
    }

    method AddOffering()
      modifies this
      ensures offerings == old(offerings) + [EmptyOffering()]
      ensures draft == old(draft) && loading == old(loading) && events == old(events)
    {
      offerings := offerings + [EmptyOffering()];
    }

    method RemoveOffering(index: int)
      modifies this
      ensures offerings == RemoveAt(old(offerings), index)
      ensures draft == old(draft) && loading == old(loading) && events == old(events)
    {
      offerings := RemoveAt(offerings, index);
    }

    /**
     * handleSubmit. The request is built before anything is awaited. A
     * created plan resets the draft and the offerings; a rejected one keeps
     * them. Only an exception turns loading off again.
     */
    method HandleSubmit(outcome: Outcome) returns (payload: Object)
      modifies this
      ensures payload == Payload(old(draft), old(offerings))
      ensures outcome == Created ==> draft == ResetDraft() && offerings == [EmptyOffering()]
      ensures outcome != Created ==> draft == old(draft) && offerings == old(offerings)
      ensures loading == (outcome != Threw)
      ensures events == old(events)
    {
      loading := true;
      payload := Payload(draft, offerings);
      match outcome {
        case Created =>
          draft := ResetDraft();
          offerings := [EmptyOffering()];
        case Rejected =>
        case Threw =>
          loading := false;
      }
    }
  }
}
