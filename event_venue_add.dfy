/**
 * The add-venue form: a flat draft with an image, a list of dated price
 * offerings, and a multipart create request built by walking the draft's keys.
 */
module EventVenueAdd {
  import opened Js
  import opened Rows

  const DraftKeys: seq<string> := ["eventMasterItem", "city", "place", "map", "date", "isactive", "image"]

  /** The multipart field names for a draft of that shape: `image` goes out as `img`, and the offerings come last. */
  const WireKeys: seq<string> := ["eventMasterItem", "city", "place", "map", "date", "isactive", "img", "offerings"]

  const OfferingKeys: seq<string> := ["startDate", "endDate", "price"]

  lemma DraftKeysDistinct()
    ensures Distinct(DraftKeys)
  {
  }

  lemma WireKeysDistinct()
    ensures Distinct(WireKeys)
  {
  }

  lemma OfferingKeysDistinct()
    ensures Distinct(OfferingKeys)
  {
  }

  /** The draft on mount and after a successful create: empty strings and no image. */
  function InitialDraft(): (d: Object)
    ensures Keys(d) == DraftKeys
    ensures Get(d, "image") == Null
    ensures forall i :: 0 <= i < |DraftKeys| - 1 ==> Get(d, DraftKeys[i]) == Str("")
  {
    var vs := seq(|DraftKeys| - 1, _ => Str("")) + [Null];
    DraftKeysDistinct();
    ZipGet(DraftKeys, vs);
    assert DraftKeys[6] == "image";
    Zip(DraftKeys, vs)
  }

  /** A fresh offering: empty start date, end date and price. */
  function EmptyOffering(): (o: Object)
    ensures Keys(o) == OfferingKeys
    ensures forall i :: 0 <= i < |OfferingKeys| ==> Get(o, OfferingKeys[i]) == Str("")
  {
    var vs := seq(|OfferingKeys|, _ => Str(""));
    OfferingKeysDistinct();
    ZipGet(OfferingKeys, vs);
    Zip(OfferingKeys, vs)
  }

  /** The name a draft key is sent under. */
  function WireName(k: string): string {
    if k == "image" then "img" else k
  }

  /** `JSON.stringify(offerings)`: the text itself is left to the host. */
  function OfferingsJson(offerings: seq<Object>): Value {
    HostString(JsonStringify, Arr(seq(|offerings|, i requires 0 <= i < |offerings| => Obj(offerings[i]))))
  }

  /** The request body: one entry per draft key in key order, then the offerings. */
  function Body(d: Object, offerings: seq<Object>): FormData {
    var ks := Keys(d);
    seq(|ks|, i requires 0 <= i < |ks| => (WireName(ks[i]), Get(d, ks[i]))) + [("offerings", OfferingsJson(offerings))]
  }

  /**
   * The loop in handleSubmit: `for (const key in formData)` appends each
   * key's value, the image under `img`, and the offerings go last.
   */
  method BuildBody(d: Object, offerings: seq<Object>) returns (body: FormData)
    ensures body == Body(d, offerings)
  {
    var ks := Keys(d);
    body := [];
    var i := 0;
    while i < |ks|
      invariant 0 <= i <= |ks|
      invariant |body| == i
      invariant forall j :: 0 <= j < i ==> body[j] == (WireName(ks[j]), Get(d, ks[j]))
    {
      var key := ks[i];
      if key == "image" {
        body := body + [("img", Get(d, "image"))];
      } else {
        body := body + [(key, Get(d, key))];
      }
      i := i + 1;
    }
    body := body + [("offerings", OfferingsJson(offerings))];
  }

  /** The draft's values in DraftKeys order. */
  function DraftValues(d: Object): seq<Value> {
    seq(|DraftKeys|, i requires 0 <= i < |DraftKeys| => Get(d, DraftKeys[i]))
  }

  /** For a draft of the form's own shape the loop's output is a literal with the keys WireKeys. */
  lemma BodyIsLiteral(d: Object, offerings: seq<Object>)
    requires Keys(d) == DraftKeys
    ensures Body(d, offerings) == Zip(WireKeys, DraftValues(d) + [OfferingsJson(offerings)])
  {
    assert forall i :: 0 <= i < |DraftKeys| ==> WireName(DraftKeys[i]) == WireKeys[i];
  }

  /**
   * The server reads each field of such a draft back under its wire name:
   * the image as `img`, the flag as the lowercase `isactive`, and the
   * offerings last.
   */
  lemma BodyForDraft(d: Object, offerings: seq<Object>)
    requires Keys(d) == DraftKeys
    ensures Keys(Body(d, offerings)) == WireKeys
    ensures forall i :: 0 <= i < |DraftKeys| ==> Get(Body(d, offerings), WireKeys[i]) == Get(d, DraftKeys[i])
    ensures Get(Body(d, offerings), "offerings") == OfferingsJson(offerings)
  {
    BodyIsLiteral(d, offerings);
    WireKeysDistinct();
    ZipGet(WireKeys, DraftValues(d) + [OfferingsJson(offerings)]);
    assert WireKeys[7] == "offerings";
  }

  /** No `image` and no camel-case `isActive` key is ever sent for such a draft. */
  lemma BodyOmitsImage(d: Object, offerings: seq<Object>)
    requires Keys(d) == DraftKeys
    ensures !Has(Body(d, offerings), "image") && !Has(Body(d, offerings), "isActive")
  {
    BodyIsLiteral(d, offerings);
    HasKeys(Body(d, offerings), "image");
    HasKeys(Body(d, offerings), "isActive");
  }

  class AddEventVenueScreen {
    var draft: Object
    var loading: bool
    var events: Value
    var offerings: seq<Object>

    constructor ()
      ensures draft == InitialDraft() && !loading && events == Arr([]) && offerings == [EmptyOffering()]
    {
      draft, loading, events, offerings := InitialDraft(), false, Arr([]), [EmptyOffering()];
    }

    /** fetchEvents: a parsed body replaces the events; nothing else changes. */
    method FetchEvents(result: Option<Value>)
      modifies this
      ensures events == if result.Some? then result.value else old(events)
      ensures draft == old(draft) && loading == old(loading) && offerings == old(offerings)
    {
      if result.Some? {
        events := result.value;
      }
    }

    method HandleChange(t: Target)
      modifies this
      ensures draft == Set(old(draft), t.name, FileOrText(t))
      ensures Get(draft, t.name) == (if t.inputType == "file" then FirstFile(t.files) else Str(t.value))
      ensures forall k :: k != t.name ==> Get(draft, k) == Get(old(draft), k)
      ensures Has(old(draft), t.name) ==> Keys(draft) == Keys(old(draft))
      ensures loading == old(loading) && events == old(events) && offerings == old(offerings)
    {
      draft := Set(draft, t.name, FileOrText(t));
    }

    method HandleOfferingChange(index: int, t: Target)
      modifies this
      ensures offerings == SetFieldAt(old(offerings), index, t.name, Str(t.value))
      ensures draft == old(draft) && loading == old(loading) && events == old(events)
    {
      offerings := SetFieldAt(offerings, index, t.name, Str(t.value));
    }

    method AddOffering()
      modifies this
      ensures offerings == old(offerings) + [EmptyOffering()]
      ensures draft == old(draft) && loading == old(loading) && events == old(events)
    {
      offerings := offerings + [EmptyOffering()];
    }

    method RemoveOffering(index: int)
      modifies this
      ensures offerings == RemoveAt(old(offerings), index)
      ensures draft == old(draft) && loading == old(loading) && events == old(events)
    {
      offerings := RemoveAt(offerings, index);
    }

    /**
     * handleSubmit: `ok` is an ok response whose body parsed. It resets the
     * draft and the offerings; a failure keeps both. Loading ends off either way.
     */
    method HandleSubmit(ok: bool) returns (body: FormData)
      modifies this
      ensures body == Body(old(draft), old(offerings))
      ensures draft == (if ok then InitialDraft() else old(draft))
      ensures offerings == (if ok then [EmptyOffering()] else old(offerings))
      ensures !loading && events == old(events)
    {
      loading := true;
      body := BuildBody(draft, offerings);
      if ok {
        draft := InitialDraft();
        offerings := [EmptyOffering()];
      }
      loading := false;
    }
  }
}
