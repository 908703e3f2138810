/**
 * The add-speaker form: a flat draft, a rich-text biography, and a
 * twelve-entry multipart body whose field names differ from the draft's.
 */
module SpeakerAdd {
  import opened Js

  const DraftKeys: seq<string> := ["name", "email", "youtubeLink", "instagramLink", "twitterLink", "linkedinLink",
                                   "bio", "phoneNumber", "image", "registeredAt", "type", "isActive"]

  /** The draft fields sent as they are, in the order they are appended. */
  const SentFrom: seq<string> := ["name", "email", "youtubeLink", "instagramLink", "twitterLink", "linkedinLink",
                                  "bio", "phoneNumber", "image", "type", "registeredAt"]

  /** The multipart field names, position by position; the last carries the converted flag. */
  const WireKeys: seq<string> := ["name", "email", "youTubeLink", "instagramLink", "TwitterLink", "LinkedinLink",
                                  "BioGraphy", "phone", "image", "type", "registeredAt", "isActive"]

  lemma KeysDistinct()
    ensures Distinct(DraftKeys) && Distinct(WireKeys)
  {
  }

  /** The draft on mount and after resetForm: empty strings and no image. */
  function InitialDraft(): (d: Object)
    ensures Keys(d) == DraftKeys
    ensures Get(d, "image") == Null
    ensures forall i :: 0 <= i < |DraftKeys| && DraftKeys[i] != "image" ==> Get(d, DraftKeys[i]) == Str("")
  {
    var vs := seq(|DraftKeys|, i requires 0 <= i < |DraftKeys| => if DraftKeys[i] == "image" then Null else Str(""));
    KeysDistinct();
    ZipGet(DraftKeys, vs);
    assert DraftKeys[8] == "image";
    Zip(DraftKeys, vs)
  }

  /** `formData.isActive === 'active' ? 'true' : 'false'` */
  function ActiveFlag(d: Object): (r: Value)
    ensures r == Str("true") <==> Get(d, "isActive") == Str("active")
    ensures r == Str("true") || r == Str("false")
  {
    Str(if Get(d, "isActive") == Str("active") then "true" else "false")
  }

  /** The untouched form sends the flag as 'false'. */
  lemma InitialFlagIsFalse()
    ensures ActiveFlag(InitialDraft()) == Str("false")
  {
    assert DraftKeys[11] == "isActive";
  }

  /** The value appended under each of the wire keys: the draft field, then the converted flag. */
  function BodyValues(d: Object): (vs: seq<Value>)
    ensures |vs| == |WireKeys|
  {
    seq(|SentFrom|, i requires 0 <= i < |SentFrom| => Get(d, SentFrom[i])) + [ActiveFlag(d)]
  }

  /** The multipart body handleSubmit builds from the draft `d`. */
  function Body(d: Object): FormData {
    Zip(WireKeys, BodyValues(d))
  }

  /**
   * The server reads every draft field back under its wire name (`bio` as
   * `BioGraphy`, `phoneNumber` as `phone`, ...), and `isActive` as the
   * string flag.
   */
  lemma BodyFields(d: Object)
    ensures Keys(Body(d)) == WireKeys
    ensures forall i :: 0 <= i < |SentFrom| ==> Get(Body(d), WireKeys[i]) == Get(d, SentFrom[i])
    ensures Get(Body(d), "isActive") == ActiveFlag(d)
  {
    KeysDistinct();
    ZipGet(WireKeys, BodyValues(d));
    assert WireKeys[|SentFrom|] == "isActive";
  }

  /** handleSubmit's appends, one field at a time. */
  method BuildBody(d: Object) returns (body: FormData)
    ensures body == Body(d)
  {
    body := [];
    body := body + [("name", Get(d, "name"))];
    body := body + [("email", Get(d, "email"))];
    body := body + [("youTubeLink", Get(d, "youtubeLink"))];
    body := body + [("instagramLink", Get(d, "instagramLink"))];
    body := body + [("TwitterLink", Get(d, "twitterLink"))];
    body := body + [("LinkedinLink", Get(d, "linkedinLink"))];
    body := body + [("BioGraphy", Get(d, "bio"))];
    body := body + [("phone", Get(d, "phoneNumber"))];
    body := body + [("image", Get(d, "image"))];
    body := body + [("type", Get(d, "type"))];
    body := body + [("registeredAt", Get(d, "registeredAt"))];
    body := body + [("isActive", ActiveFlag(d))];
  }

  class AddSpeakerScreen {
    var draft: Object
    var loading: bool

    constructor ()
      ensures draft == InitialDraft() && !loading
    {
      draft := InitialDraft();
      loading := false;
    }

    /** handleChange: file inputs store their first file, every other input its value. */
    method HandleChange(t: Target)
      modifies this
      ensures draft == Set(old(draft), t.name, FileOrText(t))
      ensures Get(draft, t.name) == (if t.inputType == "file" then FirstFile(t.files) else Str(t.value))
      ensures forall k :: k != t.name ==> Get(draft, k) == Get(old(draft), k)
      ensures Has(old(draft), t.name) ==> Keys(draft) == Keys(old(draft))
      ensures loading == old(loading)
    {
      draft := Set(draft, t.name, FileOrText(t));
    }

    method HandleBioChange(value: string)
      modifies this
      ensures Get(draft, "bio") == Str(value)
      ensures forall k :: k != "bio" ==> Get(draft, k) == Get(old(draft), k)
      ensures Has(old(draft), "bio") ==> Keys(draft) == Keys(old(draft))
      ensures loading == old(loading)
    {
      draft := Set(draft, "bio", Str(value));
    }

    method ResetForm()
      modifies this
      ensures draft == InitialDraft() && loading == old(loading)
    {
      draft := InitialDraft();
    }

    /**
     * handleSubmit: the body is built from the current draft; an ok response
     * resets the form, anything else (a non-ok response is rethrown) keeps it.
     * Loading ends off either way.
     */
    method HandleSubmit(ok: bool) returns (body: FormData)
      modifies this
      ensures body == Body(old(draft))
      ensures draft == if ok then InitialDraft() else old(draft)
      ensures !loading
    {
      loading := true;
      body := BuildBody(draft);
      if ok {
        ResetForm();
      }
      loading := false;
    }
  }
}
