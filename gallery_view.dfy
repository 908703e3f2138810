/**
 * The gallery list screen: an edit modal whose draft holds a category and a
 * flag copied from the row, a multipart update that carries the image only
 * when one was chosen, and delete.
 */
module GalleryView {
  import opened Js

  const DraftKeys: seq<string> := ["image", "category", "isActive"]

  lemma DraftKeysDistinct()
    ensures Distinct(DraftKeys)
  {
  }

  /** The draft on mount: no image, an empty category and an unchecked flag. */
  function InitialDraft(): (d: Object)
    ensures Keys(d) == DraftKeys
    ensures Get(d, "image") == Null && Get(d, "category") == Str("") && Get(d, "isActive") == Bool(false)
  {
    var vs := [Null, Str(""), Bool(false)];
    DraftKeysDistinct();
    ZipGet(DraftKeys, vs);
    assert DraftKeys[0] == "image" && DraftKeys[1] == "category" && DraftKeys[2] == "isActive";
    Zip(DraftKeys, vs)
  }

  /** handleEdit's draft: no image, and the row's category and flag as they are. */
  function EditDraft(row: Object): (d: Object)
    ensures Keys(d) == DraftKeys
    ensures Get(d, "image") == Null
    ensures Get(d, "category") == Get(row, "category") && Get(d, "isActive") == Get(row, "isActive")
  {
    var vs := [Null, Get(row, "category"), Get(row, "isActive")];
    DraftKeysDistinct();
    ZipGet(DraftKeys, vs);
    assert DraftKeys[0] == "image" && DraftKeys[1] == "category" && DraftKeys[2] == "isActive";
    Zip(DraftKeys, vs)
  }

  /** The update body: the image first when it is truthy, then the category and the flag. */
  function Body(d: Object): FormData {
    (if Truthy(Get(d, "image")) then [("image", Get(d, "image"))] else [])
    + [("category", Get(d, "category")), ("isActive", Get(d, "isActive"))]
  }

  /** handleSubmit's appends. */
  method BuildBody(d: Object) returns (body: FormData)
    ensures body == Body(d)
  {
    body := [];
    if Truthy(Get(d, "image")) {
      body := body + [("image", Get(d, "image"))];
    }
    body := body + [("category", Get(d, "category"))];
    body := body + [("isActive", Get(d, "isActive"))];
  }

  /**
   * The body always carries the category and the flag, and carries an
   * `image` entry exactly when the draft's image is truthy; so a draft
   * fresh from handleEdit sends no image.
   */
  lemma BodyFields(d: Object)
    ensures Get(Body(d), "category") == Get(d, "category")
    ensures Get(Body(d), "isActive") == Get(d, "isActive")
    ensures Has(Body(d), "image") <==> Truthy(Get(d, "image"))
    ensures Get(Body(d), "image") == if Truthy(Get(d, "image")) then Get(d, "image") else Undefined
    ensures |Body(d)| == if Truthy(Get(d, "image")) then 3 else 2
  {
    var b := Body(d);
    if Truthy(Get(d, "image")) {
      var ks := ["image", "category", "isActive"];
      var vs := [Get(d, "image"), Get(d, "category"), Get(d, "isActive")];
      assert b == Zip(ks, vs);
      assert Distinct(ks);
      ZipGet(ks, vs);
      assert ks[0] == "image" && ks[1] == "category" && ks[2] == "isActive";
    } else {
      var ks := ["category", "isActive"];
      var vs := [Get(d, "category"), Get(d, "isActive")];
      assert b == Zip(ks, vs);
      assert Distinct(ks);
      ZipGet(ks, vs);
      assert ks[0] == "category" && ks[1] == "isActive";
      HasKeys(b, "image");
    }
  }

  /** An edit that changes no image sends only the category and the flag. */
  lemma EditWithoutImage(row: Object)
    ensures Body(EditDraft(row)) == [("category", Get(row, "category")), ("isActive", Get(row, "isActive"))]
  {
  }

  class GalleryListScreen {
    var modalOpen: bool
    var selected: Option<Object>
    var gallery: Value
    var draft: Object
    var loading: bool

    constructor ()
      ensures !modalOpen && selected == None && gallery == Arr([]) && draft == InitialDraft() && !loading
    {
      modalOpen, selected, gallery, draft, loading := false, None, Arr([]), InitialDraft(), false;
    }

    /** fetchGalleryData: the parsed body replaces the list; a failed fetch leaves it. */
    method FetchGallery(result: Option<Value>)
      modifies this
      ensures gallery == if result.Some? then result.value else old(gallery)
      ensures modalOpen == old(modalOpen) && selected == old(selected) && draft == old(draft) && loading == old(loading)
    {
      if result.Some? {
        gallery := result.value;
      }
    }

    method HandleChange(t: Target)
      modifies this
      ensures draft == Set(old(draft), t.name, FileCheckedOrText(t))
      ensures Get(draft, t.name) == (if t.inputType == "file" then FirstFile(t.files)
                                     else if t.inputType == "checkbox" then Bool(t.checked) else Str(t.value))
      ensures forall k :: k != t.name ==> Get(draft, k) == Get(old(draft), k)
      ensures modalOpen == old(modalOpen) && selected == old(selected) && gallery == old(gallery) && loading == old(loading)
    {
      draft := Set(draft, t.name, FileCheckedOrText(t));
    }

    method HandleEdit(row: Object)
      modifies this
      ensures selected == Some(row) && draft == EditDraft(row) && modalOpen
      ensures gallery == old(gallery) && loading == old(loading)
    {
      selected := Some(row);
      draft := EditDraft(row);
      modalOpen := true;
    }

    method CloseModal()
      modifies this
      ensures !modalOpen && selected == None
      ensures gallery == old(gallery) && draft == old(draft) && loading == old(loading)
    {
      modalOpen := false;
      selected := None;
    }

    /**
     * handleSubmit. Without a selection nothing happens at all. Otherwise
     * the body goes to the selected row's `_id`; `ok` is a resolved
     * request, which fetches the list again and closes the modal. Loading
     * ends off either way.
     */
    method HandleSubmit(ok: bool) returns (body: Option<FormData>, target: Value, refetch: bool)
      modifies this
      ensures old(selected).Some? ==> target == Get(old(selected).value, "_id")
      ensures old(selected).None? ==> body == None && !refetch && loading == old(loading) && modalOpen == old(modalOpen)
      ensures old(selected).Some? ==> body == Some(Body(old(draft))) && refetch == ok && !loading
      ensures old(selected).Some? && ok ==> !modalOpen && selected == None
      ensures old(selected).Some? && !ok ==> modalOpen == old(modalOpen) && selected == old(selected)
      ensures old(selected).None? ==> selected == None
      ensures gallery == old(gallery) && draft == old(draft)
    {
      target := Undefined;
      if selected.None? {
        body, refetch := None, false;
        return;
      }
      loading := true;
      target := Get(selected.value, "_id");
      var b := BuildBody(draft);
      body := Some(b);
      refetch := ok;
      if ok {
        CloseModal();
      }
      loading := false;
    }

    /**
     * handleDelete. `confirmed` is the answer to `window.confirm`; only then
     * is the DELETE for `id` sent (`sent`). A resolved request fetches the
     * list again (`refetch`); the list itself is not edited here.
     */
    method HandleDelete(id: Value, confirmed: bool, ok: bool) returns (sent: Option<Value>, refetch: bool)
      ensures sent == (if confirmed then Some(id) else None)
      ensures refetch <==> sent.Some? && ok
    {
      sent, refetch := None, false;
      if confirmed {
        sent := Some(id);
        refetch := ok;
      }
    }
  }
}
