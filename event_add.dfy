/**
 * The add-event form: a title, content, an image, two dates and a status,
 * sent as a six-entry multipart create request.
 */
module EventAdd {
  import opened Js

  /** The draft's keys; they are also the request's names, in the order they are appended. */
  const DraftKeys: seq<string> := ["title", "content", "image", "startDate", "endDate", "isActive"]

  lemma DraftKeysDistinct()
    ensures Distinct(DraftKeys)
  {
  }

  /** The draft on mount and after a successful create: empty strings and no image. */
  function InitialDraft(): (d: Object)
    ensures Keys(d) == DraftKeys
    ensures Get(d, "image") == Null
    ensures forall i :: 0 <= i < |DraftKeys| && i != 2 ==> Get(d, DraftKeys[i]) == Str("")
  {
    var vs := [Str(""), Str(""), Null, Str(""), Str(""), Str("")];
    DraftKeysDistinct();
    ZipGet(DraftKeys, vs);
    assert DraftKeys[2] == "image";
    Zip(DraftKeys, vs)
  }

  /** handleSubmit's appends. */
  method BuildBody(d: Object) returns (body: FormData)
    ensures body == Pick(d, DraftKeys)
  {
    body := [];
    body := body + [("title", Get(d, "title"))];
    body := body + [("content", Get(d, "content"))];
    body := body + [("image", Get(d, "image"))];
    body := body + [("startDate", Get(d, "startDate"))];
    body := body + [("endDate", Get(d, "endDate"))];
    body := body + [("isActive", Get(d, "isActive"))];
  }

  /**
   * The request carries the six fields in that fixed order under their own
   * names; for a draft of the form's own shape it is the draft itself.
   */
  lemma BodyFields(d: Object)
    ensures Keys(Pick(d, DraftKeys)) == DraftKeys
    ensures forall i :: 0 <= i < |DraftKeys| ==> Get(Pick(d, DraftKeys), DraftKeys[i]) == Get(d, DraftKeys[i])
    ensures Keys(d) == DraftKeys ==> Pick(d, DraftKeys) == d
  {
    DraftKeysDistinct();
    PickGet(d, DraftKeys);
    if Keys(d) == DraftKeys {
      PickAll(d);
    }
  }

  class AddEventScreen {
    var draft: Object
    var loading: bool

    constructor ()
      ensures draft == InitialDraft() && !loading
    {
      draft, loading := InitialDraft(), false;
    }

    method HandleChange(t: Target)
      modifies this
      ensures draft == Set(old(draft), t.name, FileOrText(t))
      ensures Get(draft, t.name) == (if t.inputType == "file" then FirstFile(t.files) else Str(t.value))
      ensures forall k :: k != t.name ==> Get(draft, k) == Get(old(draft), k)
      ensures Has(old(draft), t.name) ==> Keys(draft) == Keys(old(draft))
      ensures loading == old(loading)
    {
      draft := Set(draft, t.name, FileOrText(t));
    }

    /**
     * handleSubmit: `ok` is an ok response whose body parsed; it resets the
     * form, anything else keeps it. Loading ends off either way.
     */
    method HandleSubmit(ok: bool) returns (body: FormData)
      modifies this
      ensures body == Pick(old(draft), DraftKeys)
      ensures draft == if ok then InitialDraft() else old(draft)
      ensures !loading
    {
      loading := true;
      body := BuildBody(draft);
      if ok {
        draft := InitialDraft();
      }
      loading := false;
    }
  }
}
