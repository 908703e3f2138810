/**
 * The speaker list screen: the backend records reshaped into table rows,
 * an edit modal whose draft is the row itself, an image preview, a
 * multipart update built by walking the draft's keys, and delete.
 */
module SpeakerView {
  import opened Js

  /** The row keys fetchSpeakers copies from a record, possibly renamed ... */
  const CopiedTo: seq<string> := ["id", "name", "phone", "email", "youTubeLink", "instagramLink", "twitterLink",
                                  "linkedinLink", "BioGraphy", "registeredAt", "type"]

  /** ... and the record keys they are copied from, position by position. */
  const CopiedFrom: seq<string> := ["_id", "name", "phone", "email", "youTubeLink", "instagramLink", "TwitterLink",
                                    "LinkedinLink", "BioGraphy", "registeredAt", "type"]

  /** A row's keys: the copied ones, then the computed flag, the image, the display date and the raw timestamp. */
  const RowKeys: seq<string> := CopiedTo + ["isActive", "image", "date", "createdAt"]

  lemma RowKeysDistinct()
    ensures Distinct(RowKeys)
  {
  }

  /** The values of a row, in RowKeys order. */
  function RowValues(s: Object): seq<Value> {
    seq(|CopiedFrom|, i requires 0 <= i < |CopiedFrom| => Get(s, CopiedFrom[i]))
    + [Bool(Truthy(Get(s, "isActive"))), Get(s, "img"), HostString(LocaleDateString, Get(s, "createdAt")), Get(s, "createdAt")]
  }

  /** The row fetchSpeakers builds from one backend record. */
  function Transform(s: Object): Object {
    Zip(RowKeys, RowValues(s))
  }

  /**
   * A row carries each copied field under its new name, `isActive` as a
   * real boolean (the record's truthiness), `image` from `img`, `createdAt`
   * unchanged and `date` as the host's local rendering of it.
   */
  lemma TransformFields(s: Object)
    ensures Keys(Transform(s)) == RowKeys && DistinctKeys(Transform(s))
    ensures forall i :: 0 <= i < |CopiedTo| ==> Get(Transform(s), CopiedTo[i]) == Get(s, CopiedFrom[i])
    ensures Get(Transform(s), "isActive") == Bool(Truthy(Get(s, "isActive")))
    ensures Get(Transform(s), "image") == Get(s, "img")
    ensures Get(Transform(s), "date") == HostString(LocaleDateString, Get(s, "createdAt"))
    ensures Get(Transform(s), "createdAt") == Get(s, "createdAt")
  {
    RowKeysDistinct();
    ZipGet(RowKeys, RowValues(s));
    assert forall i :: 0 <= i < |CopiedTo| ==> RowKeys[i] == CopiedTo[i];
    assert RowKeys[11] == "isActive" && RowKeys[12] == "image" && RowKeys[13] == "date" && RowKeys[14] == "createdAt";
  }

  /** The renamings spelled out: the id, the two social links with capitalised backend names, and the image. */
  lemma TransformRenames(s: Object)
    ensures Get(Transform(s), "id") == Get(s, "_id")
    ensures Get(Transform(s), "twitterLink") == Get(s, "TwitterLink")
    ensures Get(Transform(s), "linkedinLink") == Get(s, "LinkedinLink")
    ensures Get(Transform(s), "image") == Get(s, "img")
  {
    TransformFields(s);
    assert CopiedTo[0] == "id" && CopiedFrom[0] == "_id";
    assert CopiedTo[6] == "twitterLink" && CopiedFrom[6] == "TwitterLink";
    assert CopiedTo[7] == "linkedinLink" && CopiedFrom[7] == "LinkedinLink";
  }

  /** `response.data.data.map(speaker => ...)` */
  function TransformAll(records: seq<Object>): seq<Object> {
    seq(|records|, i requires 0 <= i < |records| => Transform(records[i]))
  }

  /**
   * handleUpdate's walk over `Object.keys(formData)`. Both branches of its
   * `image instanceof File` test append the key with its own value.
   */
  method BuildBody(d: Object) returns (body: FormData)
    ensures body == Entries(d)
  {
    var ks := Keys(d);
    body := [];
    var i := 0;
    while i < |ks|
      invariant 0 <= i <= |ks|
      invariant |body| == i
      invariant forall j :: 0 <= j < i ==> body[j] == (ks[j], Get(d, ks[j]))
    {
      var key := ks[i];
      if key == "image" && Get(d, key).File? {
        body := body + [("image", Get(d, key))];
      } else {
        body := body + [(key, Get(d, key))];
      }
      i := i + 1;
    }
  }

  /**
   * A draft opened from a row is sent entry for entry as the row; edits
   * made through Set keep its keys distinct, so this carries over to them.
   */
  lemma RowSentAsIs(s: Object)
    ensures Entries(Transform(s)) == Transform(s)
  {
    TransformFields(s);
    PickAll(Transform(s));
  }

  class SpeakerListScreen {
    var speakers: seq<Object>
    var modalOpen: bool
    var selected: Option<Object>
    var draft: Object
    var preview: Value
    var loading: bool

    constructor ()
      ensures speakers == [] && !modalOpen && selected == None && draft == [] && preview == Null && !loading
    {
      speakers, modalOpen, selected, draft, preview, loading := [], false, None, [], Null, false;
    }

    /** fetchSpeakers: a parsed list of records replaces the rows; a failed fetch leaves them. */
    method FetchSpeakers(records: Option<seq<Object>>)
      modifies this
      ensures speakers == if records.Some? then TransformAll(records.value) else old(speakers)
      ensures modalOpen == old(modalOpen) && selected == old(selected) && draft == old(draft)
      ensures preview == old(preview) && loading == old(loading)
    {
      if records.Some? {
        speakers := TransformAll(records.value);
      }
    }

    /** handleEdit: the draft is the row itself and the preview its image. */
    method HandleEdit(row: Object)
      modifies this
      ensures selected == Some(row) && draft == row && preview == Get(row, "image") && modalOpen
      ensures speakers == old(speakers) && loading == old(loading)
    {
      selected := Some(row);
      draft := row;
      preview := Get(row, "image");
      modalOpen := true;
    }

    /** closeModal: the selection and the draft stay. */
    method CloseModal()
      modifies this
      ensures !modalOpen && preview == Null
      ensures speakers == old(speakers) && selected == old(selected) && draft == old(draft) && loading == old(loading)
    {
      modalOpen := false;
      preview := Null;
    }

    method HandleInputChange(t: Target)
      modifies this
      ensures draft == Set(old(draft), t.name, Str(t.value))
      ensures Get(draft, t.name) == Str(t.value)
      ensures forall k :: k != t.name ==> Get(draft, k) == Get(old(draft), k)
      ensures speakers == old(speakers) && modalOpen == old(modalOpen) && selected == old(selected)
      ensures preview == old(preview) && loading == old(loading)
    {
      draft := Set(draft, t.name, Str(t.value));
    }

    /** handleImageChange: a chosen file becomes the draft's image and is previewed; no file changes nothing. */
    method HandleImageChange(files: seq<string>)
      modifies this
      ensures |files| > 0 ==> draft == Set(old(draft), "image", File(files[0])) && preview == HostString(ObjectUrl, File(files[0]))
      ensures |files| == 0 ==> draft == old(draft) && preview == old(preview)
      ensures speakers == old(speakers) && modalOpen == old(modalOpen) && selected == old(selected) && loading == old(loading)
    {
      if |files| > 0 {
        draft := Set(draft, "image", File(files[0]));
        preview := HostString(ObjectUrl, File(files[0]));
      }
    }

    /** The two radios: each stores its own boolean. */
    method SetActive(active: bool)
      modifies this
      ensures draft == Set(old(draft), "isActive", Bool(active))
      ensures speakers == old(speakers) && modalOpen == old(modalOpen) && selected == old(selected)
      ensures preview == old(preview) && loading == old(loading)
    {
      draft := Set(draft, "isActive", Bool(active));
    }

    /**
     * handleUpdate: the PUT goes to the draft's `id`. `ok` is a resolved
     * request: the rows are fetched again (`refetch`) and the modal closes.
     * Loading ends off either way.
     */
    method HandleUpdate(ok: bool) returns (body: FormData, target: Value, refetch: bool)
      modifies this
      ensures body == Entries(old(draft)) && target == Get(old(draft), "id") && refetch == ok
      ensures modalOpen == (old(modalOpen) && !ok)
      ensures preview == (if ok then Null else old(preview))
      ensures !loading
      ensures speakers == old(speakers) && selected == old(selected) && draft == old(draft)
    {
      loading := true;
      body := BuildBody(draft);
      target := Get(draft, "id");
      refetch := ok;
      if ok {
        CloseModal();
      }
      loading := false;
    }

    /**
     * handleDelete. `confirmed` is the answer to `window.confirm`; only then
     * is the DELETE for `id` sent (`sent`). A resolved request fetches the
     * rows again (`refetch`); the rows themselves are not edited here.
     */
    method HandleDelete(id: Value, confirmed: bool, ok: bool) returns (sent: Option<Value>, refetch: bool)
      ensures sent == (if confirmed then Some(id) else None)
      ensures refetch <==> sent.Some? && ok
    {
      sent, refetch := None, false;
      if confirmed {
        sent := Some(id);
        refetch := ok;
      }
    }
  }
}
