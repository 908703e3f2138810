/**
 * The add-sponsor form: a flat draft with an image and a five-entry
 * multipart create request.
 */
module SponsorAdd {
  import opened Js

  /** The draft's keys on mount; they are also the request's names, in the order they are appended. */
  const DraftKeys: seq<string> := ["title", "link", "image", "category", "isActive"]

  lemma DraftKeysDistinct()
    ensures Distinct(DraftKeys)
  {
  }

  /** The draft on mount: empty strings and no image. */
  function InitialDraft(): (d: Object)
    ensures Keys(d) == DraftKeys
    ensures Get(d, "image") == Null
    ensures forall i :: 0 <= i < |DraftKeys| && i != 2 ==> Get(d, DraftKeys[i]) == Str("")
  {
    var vs := [Str(""), Str(""), Null, Str(""), Str("")];
    DraftKeysDistinct();
    ZipGet(DraftKeys, vs);
    assert DraftKeys[2] == "image";
    Zip(DraftKeys, vs)
  }

  /** handleSubmit's appends. */
  method BuildBody(d: Object) returns (body: FormData)
    ensures body == Pick(d, DraftKeys)
  {
    body := [];
    body := body + [("title", Get(d, "title"))];
    body := body + [("link", Get(d, "link"))];
    body := body + [("image", Get(d, "image"))];
    body := body + [("category", Get(d, "category"))];
    body := body + [("isActive", Get(d, "isActive"))];
  }

  /**
   * The request carries the five fields under their own names; the form's
   * date input writes `publishedAt` into the draft, and that never reaches
   * the request.
   */
  lemma BodyFields(d: Object, published: Value)
    ensures Keys(Pick(d, DraftKeys)) == DraftKeys
    ensures forall i :: 0 <= i < |DraftKeys| ==> Get(Pick(d, DraftKeys), DraftKeys[i]) == Get(d, DraftKeys[i])
    ensures Pick(Set(d, "publishedAt", published), DraftKeys) == Pick(d, DraftKeys)
  {
    DraftKeysDistinct();
    PickGet(d, DraftKeys);
    PickIgnores(d, DraftKeys, "publishedAt", published);
  }

  class AddSponsorScreen {
    var draft: Object
    var loading: bool

    constructor ()
      ensures draft == InitialDraft() && !loading
    {
      draft, loading := InitialDraft(), false;
    }

    method HandleChange(t: Target)
      modifies this
      ensures draft == Set(old(draft), t.name, FileOrText(t))
      ensures Get(draft, t.name) == (if t.inputType == "file" then FirstFile(t.files) else Str(t.value))
      ensures forall k :: k != t.name ==> Get(draft, k) == Get(old(draft), k)
      ensures loading == old(loading)
    {
      draft := Set(draft, t.name, FileOrText(t));
    }

    /**
     * handleSubmit: success is reported whenever the response body parses,
     * whatever the status (`parsed`). The form is never reset, and loading
     * ends off either way.
     */
    method HandleSubmit(parsed: bool) returns (body: FormData, reportedSuccess: bool)
      modifies this
      ensures body == Pick(old(draft), DraftKeys)
      ensures reportedSuccess == parsed
      ensures draft == old(draft) && !loading
    {
      loading := true;
      body := BuildBody(draft);
      reportedSuccess := parsed;
      loading := false;
    }
  }
}
