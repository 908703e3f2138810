/**
 * The sponsor list screen: an edit modal whose draft is filled from the
 * row, a multipart update that sends the image only when one was chosen,
 * and delete.
 */
module SponsorView {
  import opened Js

  const DraftKeys: seq<string> := ["title", "link", "image", "category", "isActive"]

  lemma DraftKeysDistinct()
    ensures Distinct(DraftKeys)
  {
  }

  /** The draft on mount: empty strings and no image. */
  function InitialDraft(): (d: Object)
    ensures Keys(d) == DraftKeys
    ensures Get(d, "image") == Null
    ensures forall i :: 0 <= i < |DraftKeys| && i != 2 ==> Get(d, DraftKeys[i]) == Str("")
  {
    var vs := [Str(""), Str(""), Null, Str(""), Str("")];
    DraftKeysDistinct();
    ZipGet(DraftKeys, vs);
    assert DraftKeys[2] == "image";
    Zip(DraftKeys, vs)
  }

  /** `v.toString()` for a value that is neither null nor undefined; only booleans and strings are spelled out. */
  function ToText(v: Value): (r: Value)
    requires !v.Undefined? && !v.Null?
    ensures v.Bool? ==> r == Str(if v.b then "true" else "false")
    ensures v.Str? ==> r == v
  {
    match v
    case Bool(b) => Str(if b then "true" else "false")
    case Str(_) => v
    case _ => HostString(StringOf, v)
  }

  /** handleEdit's draft: the row's text fields, no image, and the flag as text. */
  function EditDraft(row: Object): Object
    requires !Get(row, "isActive").Undefined? && !Get(row, "isActive").Null?
  {
    Zip(DraftKeys, [Get(row, "title"), Get(row, "link"), Null, Get(row, "category"), ToText(Get(row, "isActive"))])
  }

  /**
   * The draft copies the title, link and category, starts with no image,
   * and holds the flag as 'true' or 'false' for a boolean row, so that the
   * radios (which compare with those strings) show it.
   */
  lemma EditDraftFields(row: Object)
    requires !Get(row, "isActive").Undefined? && !Get(row, "isActive").Null?
    ensures var d := EditDraft(row);
            Keys(d) == DraftKeys &&
            Get(d, "title") == Get(row, "title") && Get(d, "link") == Get(row, "link") &&
            Get(d, "image") == Null && Get(d, "category") == Get(row, "category") &&
            Get(d, "isActive") == ToText(Get(row, "isActive"))
    ensures Get(row, "isActive") == Bool(true) ==> Get(EditDraft(row), "isActive") == Str("true")
    ensures Get(row, "isActive") == Bool(false) ==> Get(EditDraft(row), "isActive") == Str("false")
  {
    var vs := [Get(row, "title"), Get(row, "link"), Null, Get(row, "category"), ToText(Get(row, "isActive"))];
    DraftKeysDistinct();
    ZipGet(DraftKeys, vs);
    assert DraftKeys[0] == "title" && DraftKeys[1] == "link" && DraftKeys[2] == "image";
    assert DraftKeys[3] == "category" && DraftKeys[4] == "isActive";
  }

  /** Whether the walk in handleSubmit appends key `k` with value `v`: every key but `image`, which needs a truthy value. */
  predicate Keep(k: string, v: Value) {
    k != "image" || Truthy(v)
  }

  /** The entries the walk appends for the keys `ks`, in order. */
  function Kept(d: Object, ks: seq<string>): FormData
    decreases |ks|
  {
    if ks == [] then []
    else
      var k := ks[|ks| - 1];
      Kept(d, ks[..|ks| - 1]) + (if Keep(k, Get(d, k)) then [(k, Get(d, k))] else [])
  }

  /** `Object.keys(formData).forEach(...)` in handleSubmit. */
  method BuildBody(d: Object) returns (body: FormData)
    ensures body == Kept(d, Keys(d))
  {
    var ks := Keys(d);
    body := [];
    var i := 0;
    while i < |ks|
      invariant 0 <= i <= |ks|
      invariant body == Kept(d, ks[..i])
    {
      var key := ks[i];
      assert ks[..i + 1][..i] == ks[..i];
      if key == "image" && Truthy(Get(d, key)) {
        body := body + [(key, Get(d, key))];
      } else if key != "image" {
        body := body + [(key, Get(d, key))];
      }
      i := i + 1;
    }
    assert ks[..|ks|] == ks;
  }

  /**
   * The body holds exactly the entries `(k, d[k])` for the walked keys,
   * except an `image` entry whose value is falsy.
   */
  lemma {:induction false} KeptMembers(d: Object, ks: seq<string>)
    ensures forall e :: e in Kept(d, ks) <==> e.0 in ks && e.1 == Get(d, e.0) && Keep(e.0, e.1)
    decreases |ks|
  {
    if ks != [] {
      var init := ks[..|ks| - 1];
      KeptMembers(d, init);
      assert ks == init + [ks[|ks| - 1]];
    }
  }

  /** An unchanged image (still null from handleEdit) is not sent; a chosen file is. */
  lemma ImageSentIffChosen(d: Object)
    ensures ("image", Get(d, "image")) in Kept(d, Keys(d)) <==> Has(d, "image") && Truthy(Get(d, "image"))
    ensures forall k :: Has(d, k) && k != "image" ==> (k, Get(d, k)) in Kept(d, Keys(d))
  {
    KeptMembers(d, Keys(d));
    HasKeys(d, "image");
    forall k | Has(d, k) && k != "image" ensures (k, Get(d, k)) in Kept(d, Keys(d)) {
      HasKeys(d, k);
    }
  }

  class SponsorListScreen {
    var sponsors: seq<Object>
    var modalOpen: bool
    var loading: bool
    var selected: Option<Object>
    var draft: Object

    constructor ()
      ensures sponsors == [] && !modalOpen && !loading && selected == None && draft == InitialDraft()
    {
      sponsors, modalOpen, loading, selected, draft := [], false, false, None, InitialDraft();
    }

    /** fetchSponsors: a parsed list replaces the rows; a failed fetch leaves them. */
    method FetchSponsors(result: Option<seq<Object>>)
      modifies this
      ensures sponsors == if result.Some? then result.value else old(sponsors)
      ensures modalOpen == old(modalOpen) && loading == old(loading) && selected == old(selected) && draft == old(draft)
    {
      if result.Some? {
        sponsors := result.value;
      }
    }

    /**
     * handleEdit. A row whose flag is null or undefined makes `toString`
     * throw after the selection is stored: the draft and the modal stay.
     */
    method HandleEdit(row: Object)
      modifies this
      ensures selected == Some(row)
      ensures var flag := Get(row, "isActive");
              if flag.Undefined? || flag.Null? then draft == old(draft) && modalOpen == old(modalOpen)
              else draft == EditDraft(row) && modalOpen
      ensures sponsors == old(sponsors) && loading == old(loading)
    {
      selected := Some(row);
      var flag := Get(row, "isActive");
      if !flag.Undefined? && !flag.Null? {
        draft := EditDraft(row);
        modalOpen := true;
      }
    }

    method HandleChange(t: Target)
      modifies this
      ensures draft == Set(old(draft), t.name, FileOrText(t))
      ensures Get(draft, t.name) == (if t.inputType == "file" then FirstFile(t.files) else Str(t.value))
      ensures forall k :: k != t.name ==> Get(draft, k) == Get(old(draft), k)
      ensures sponsors == old(sponsors) && modalOpen == old(modalOpen) && loading == old(loading) && selected == old(selected)
    {
      draft := Set(draft, t.name, FileOrText(t));
    }

    method CloseModal()
      modifies this
      ensures !modalOpen && selected == None
      ensures sponsors == old(sponsors) && loading == old(loading) && draft == old(draft)
    {
      modalOpen := false;
      selected := None;
    }

    /**
     * handleSubmit. Loading goes on first; without a selection the handler
     * returns there and loading stays on. Otherwise the body is built and
     * sent to the selected row's `_id`; `ok` is a resolved request, which
     * closes the modal and fetches the rows again. Loading then ends off.
     */
    method HandleSubmit(ok: bool) returns (body: Option<FormData>, target: Value, refetch: bool)
      modifies this
      ensures old(selected).Some? ==> target == Get(old(selected).value, "_id")
      ensures old(selected).None? ==> body == None && !refetch && loading && modalOpen == old(modalOpen) && selected == None
      ensures old(selected).Some? ==> body == Some(Kept(old(draft), Keys(old(draft)))) && refetch == ok && !loading
      ensures old(selected).Some? && ok ==> !modalOpen && selected == None
      ensures old(selected).Some? && !ok ==> modalOpen == old(modalOpen) && selected == old(selected)
      ensures sponsors == old(sponsors) && draft == old(draft)
    {
      loading := true;
      target := Undefined;
      if selected.None? {
        body, refetch := None, false;
        return;
      }
      target := Get(selected.value, "_id");
      var b := BuildBody(draft);
      body := Some(b);
      refetch := ok;
      if ok {
        CloseModal();
      }
      loading := false;
    }

    /**
     * handleDelete. `confirmed` is the answer to `window.confirm`; only then
     * is the DELETE for `id` sent (`sent`). A resolved request fetches the
     * rows again (`refetch`); the rows themselves are not edited here.
     */
    method HandleDelete(id: Value, confirmed: bool, ok: bool) returns (sent: Option<Value>, refetch: bool)
      ensures sent == (if confirmed then Some(id) else None)
      ensures refetch <==> sent.Some? && ok
    {
      sent, refetch := None, false;
      if confirmed {
        sent := Some(id);
        refetch := ok;
      }
    }
  }
}
