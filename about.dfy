/**
 * The about page: the first record's text and image are loaded, edited in
 * two modals, and sent back as a multipart update that carries the image
 * whenever the draft holds one.
 */
module About {
  import opened Js

  /** The update body: the text under `about`, then the image when it is truthy. */
  function Body(content: Value, image: Value): FormData {
    [("about", content)] + (if Truthy(image) then [("image", image)] else [])
  }

  /** handleUpdate's appends. */
  method BuildBody(content: Value, image: Value) returns (body: FormData)
    ensures body == Body(content, image)
  {
    body := [];
    body := body + [("about", content)];
    if Truthy(image) {
      body := body + [("image", image)];
    }
  }

  /**
   * The text is always sent; an image is sent exactly when the draft's is
   * truthy, so the path remembered from the loaded record is sent again
   * even when no new file was chosen.
   */
  lemma BodyFields(content: Value, image: Value)
    ensures Get(Body(content, image), "about") == content
    ensures Has(Body(content, image), "image") <==> Truthy(image)
    ensures Get(Body(content, image), "image") == if Truthy(image) then image else Undefined
    ensures forall path :: path != "" ==> Get(Body(content, Str(path)), "image") == Str(path)
  {
    var b := Body(content, image);
    if Truthy(image) {
      assert b == Zip(["about", "image"], [content, image]);
      ZipGet(["about", "image"], [content, image]);
    } else {
      assert b == Zip(["about"], [content]);
      HasKeys(b, "image");
    }
    forall path | path != "" ensures Get(Body(content, Str(path)), "image") == Str(path) {
      ZipGet(["about", "image"], [content, Str(path)]);
    }
  }

  class AboutScreen {
    var content: Value
    var image: Value
    /** The loaded record (`aboutData`). */
    var record: Option<Object>
    var loading: bool
    var modalOpen: bool
    var imageModalOpen: bool

    constructor ()
      ensures content == Str("") && image == Null && record == None
      ensures !loading && !modalOpen && !imageModalOpen
    {
      content, image, record := Str(""), Null, None;
      loading, modalOpen, imageModalOpen := false, false, false;
    }

    /** The submit button: enabled only with a loaded record and no request under way. */
    predicate SubmitEnabled()
      reads this
    {
      record.Some? && !loading
    }

    /**
     * fetchAbout. `result` is the parsed body of an ok response as its
     * `success` flag and its `data` list (None for a failed request). Only
     * a set flag with a non-empty list selects the first element, whose
     * `about` and `image` become the draft. Loading ends off either way.
     */
    method Fetch(result: Option<(bool, seq<Object>)>)
      modifies this
      ensures var hit := result.Some? && result.value.0 && |result.value.1| > 0;
              if hit then
                var about := result.value.1[0];
                record == Some(about) && content == Get(about, "about") && image == Get(about, "image")
              else
                record == old(record) && content == old(content) && image == old(image)
      ensures !loading && modalOpen == old(modalOpen) && imageModalOpen == old(imageModalOpen)
    {
      loading := true;
      if result.Some? && result.value.0 && |result.value.1| > 0 {
        var about := result.value.1[0];
        record := Some(about);
        content := Get(about, "about");
        image := Get(about, "image");
      }
      loading := false;
    }

    /** handleChange: only the text changes. */
    method HandleChange(value: string)
      modifies this
      ensures content == Str(value)
      ensures image == old(image) && record == old(record) && loading == old(loading)
      ensures modalOpen == old(modalOpen) && imageModalOpen == old(imageModalOpen)
    {
      content := Str(value);
    }

    /** handleImageChange: only the image changes, and only when a file was chosen. */
    method HandleImageChange(files: seq<string>)
      modifies this
      ensures image == if |files| > 0 then File(files[0]) else old(image)
      ensures content == old(content) && record == old(record) && loading == old(loading)
      ensures modalOpen == old(modalOpen) && imageModalOpen == old(imageModalOpen)
    {
      if |files| > 0 {
        image := File(files[0]);
      }
    }

    method SetModalOpen(open: bool)
      modifies this
      ensures modalOpen == open
      ensures content == old(content) && image == old(image) && record == old(record)
      ensures loading == old(loading) && imageModalOpen == old(imageModalOpen)
    {
      modalOpen := open;
    }

    method SetImageModalOpen(open: bool)
      modifies this
      ensures imageModalOpen == open
      ensures content == old(content) && image == old(image) && record == old(record)
      ensures loading == old(loading) && modalOpen == old(modalOpen)
    {
      imageModalOpen := open;
    }

    /**
     * handleUpdate. The body is built first; without a record, reading its
     * `_id` throws and nothing is sent. `ok` is an ok response whose body
     * parsed, and only that starts a reload. Loading ends off either way.
     */
    method HandleUpdate(ok: bool) returns (sent: Option<FormData>, target: Value, refetch: bool)
      modifies this
      ensures old(record).None? ==> sent == None && !refetch
      ensures old(record).Some? ==> sent == Some(Body(old(content), old(image))) && target == Get(old(record).value, "_id")
      ensures refetch == (old(record).Some? && ok)
      ensures old(SubmitEnabled()) ==> sent.Some?
      ensures !loading
      ensures content == old(content) && image == old(image) && record == old(record)
      ensures modalOpen == old(modalOpen) && imageModalOpen == old(imageModalOpen)
    {
      loading := true;
      var body := BuildBody(content, image);
      sent, target, refetch := None, Undefined, false;
      if record.Some? {
        sent := Some(body);
        target := Get(record.value, "_id");
        refetch := ok;
      }
      loading := false;
    }
  }
}
