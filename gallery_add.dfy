/**
 * The add-gallery form: an image, a publication date, a category and a
 * flag, sent as a four-entry multipart create request.
 */
module GalleryAdd {
  import opened Js

  /** The draft's keys; they are also the request's names, in the order they are appended. */
  const DraftKeys: seq<string> := ["image", "publishedAt", "category", "isActive"]

  lemma DraftKeysDistinct()
    ensures Distinct(DraftKeys)
  {
  }

  /** The draft on mount and after a successful create. */
  function InitialDraft(): (d: Object)
    ensures Keys(d) == DraftKeys
    ensures Get(d, "image") == Null && Get(d, "publishedAt") == Str("") && Get(d, "category") == Str("")
    ensures Get(d, "isActive") == Bool(false)
  {
    var vs := [Null, Str(""), Str(""), Bool(false)];
    DraftKeysDistinct();
    ZipGet(DraftKeys, vs);
    assert DraftKeys[0] == "image" && DraftKeys[1] == "publishedAt";
    assert DraftKeys[2] == "category" && DraftKeys[3] == "isActive";
    Zip(DraftKeys, vs)
  }

  /** handleSubmit's appends. */
  method BuildBody(d: Object) returns (body: FormData)
    ensures body == Pick(d, DraftKeys)
  {
    body := [];
    body := body + [("image", Get(d, "image"))];
    body := body + [("publishedAt", Get(d, "publishedAt"))];
    body := body + [("category", Get(d, "category"))];
    body := body + [("isActive", Get(d, "isActive"))];
  }

  /**
   * The request carries the four fields under their own names; for a draft
   * of the form's own shape (which every handleChange on these inputs
   * keeps) it is the draft, entry for entry.
   */
  lemma BodyFields(d: Object)
    ensures Keys(Pick(d, DraftKeys)) == DraftKeys
    ensures forall i :: 0 <= i < |DraftKeys| ==> Get(Pick(d, DraftKeys), DraftKeys[i]) == Get(d, DraftKeys[i])
    ensures Keys(d) == DraftKeys ==> Pick(d, DraftKeys) == d
  {
    DraftKeysDistinct();
    PickGet(d, DraftKeys);
    if Keys(d) == DraftKeys {
      PickAll(d);
    }
  }

  class AddGalleryScreen {
    var draft: Object
    var loading: bool

    constructor ()
      ensures draft == InitialDraft() && !loading
    {
      draft, loading := InitialDraft(), false;
    }

    method HandleChange(t: Target)
      modifies this
      ensures draft == Set(old(draft), t.name, FileCheckedOrText(t))
      ensures Get(draft, t.name) == (if t.inputType == "file" then FirstFile(t.files)
                                     else if t.inputType == "checkbox" then Bool(t.checked) else Str(t.value))
      ensures forall k :: k != t.name ==> Get(draft, k) == Get(old(draft), k)
      ensures Has(old(draft), t.name) ==> Keys(draft) == Keys(old(draft))
      ensures loading == old(loading)
    {
      draft := Set(draft, t.name, FileCheckedOrText(t));
    }

    /** handleSubmit: `ok` is an ok response; it resets the form, a failure keeps it. Loading ends off either way. */
    method HandleSubmit(ok: bool) returns (body: FormData)
      modifies this
      ensures body == Pick(old(draft), DraftKeys)
      ensures draft == if ok then InitialDraft() else old(draft)
      ensures !loading
    {
      loading := true;
      body := BuildBody(draft);
      if ok {
        draft := InitialDraft();
      }
      loading := false;
    }
  }
}
