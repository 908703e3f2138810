/**
 * The single-text content pages. The home page and the agenda page are the
 * same screen over different backend records: the first record of the list
 * is loaded, its text (under `home` or `agenda`) is edited in a modal, and
 * sent back as a one-key JSON object to the record's `_id`.
 */
module ContentPage {
  import opened Js

  /** The record field each page edits. */
  const HomeField: string := "home"
  const AgendaField: string := "agenda"

  /** The JSON object handleUpdate sends. */
  function UpdateBody(field: string, content: Value): (body: Object)
    ensures Keys(body) == [field]
    ensures Get(body, field) == content
    ensures forall k :: k != field ==> Get(body, k) == Undefined
  {
    [(field, content)]
  }

  class ContentScreen {
    /** `home` or `agenda`. */
    const field: string
    var content: Value
    /** The loaded record (`homeData` / `agenda`). */
    var record: Option<Object>
    var loading: bool
    var modalOpen: bool

    constructor (field: string)
      ensures this.field == field
      ensures content == Str("") && record == None && !loading && !modalOpen
    {
      this.field := field;
      content, record, loading, modalOpen := Str(""), None, false, false;
    }

    /** The submit button: enabled only with a loaded record and no request under way. */
    predicate SubmitEnabled()
      reads this
    {
      record.Some? && !loading
    }

    /**
     * fetchHomeData / fetchAgenda. `result` is the parsed list of an ok
     * response (None for a failed request). A non-empty list selects its
     * first element and loads that element's text; an empty one, or a
     * failure, leaves both unset. Loading ends off either way.
     */
    method Fetch(result: Option<seq<Object>>)
      modifies this
      ensures result.Some? && |result.value| > 0 ==>
                record == Some(result.value[0]) && content == Get(result.value[0], field)
      ensures !(result.Some? && |result.value| > 0) ==> record == old(record) && content == old(content)
      ensures !loading && modalOpen == old(modalOpen)
    {
      loading := true;
      if result.Some? && |result.value| > 0 {
        record := Some(result.value[0]);
        content := Get(result.value[0], field);
      }
      loading := false;
    }

    /** handleChange: the modal's textarea replaces the text, and only the text. */
    method HandleChange(value: string)
      modifies this
      ensures content == Str(value)
      ensures record == old(record) && loading == old(loading) && modalOpen == old(modalOpen)
    {
      content := Str(value);
    }

    method OpenModal()
      modifies this
      ensures modalOpen
      ensures content == old(content) && record == old(record) && loading == old(loading)
    {
      modalOpen := true;
    }

    method CloseModal()
      modifies this
      ensures !modalOpen
      ensures content == old(content) && record == old(record) && loading == old(loading)
    {
      modalOpen := false;
    }

    /**
     * handleUpdate. Without a record, reading its `_id` throws and nothing
     * is sent. Otherwise `{field: content}` goes to the record's `_id`;
     * `ok` is an ok response whose body parsed, and only that starts a
     * reload (`refetch`), which is not awaited. Loading ends off either way.
     */
    method HandleUpdate(ok: bool) returns (sent: Option<Object>, target: Value, refetch: bool)
      modifies this
      ensures old(record).None? ==> sent == None && !refetch
      ensures old(record).Some? ==> sent == Some(UpdateBody(field, old(content))) && target == Get(old(record).value, "_id")
      ensures refetch == (old(record).Some? && ok)
      ensures old(SubmitEnabled()) ==> sent.Some?
      ensures !loading
      ensures content == old(content) && record == old(record) && modalOpen == old(modalOpen)
    {
      loading := true;
      sent, target, refetch := None, Undefined, false;
      if record.Some? {
        sent := Some(UpdateBody(field, content));
        target := Get(record.value, "_id");
        refetch := ok;
      }
      loading := false;
    }
  }
}
