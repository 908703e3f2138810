/**
 * The event list screen: the events table, an edit modal over a copy of
 * the row, a JSON update and a delete, each followed by an awaited reload
 * of the list.
 */
module EventList {
  import opened Js

  /**
   * What a date input of the modal shows: the part of the stored text
   * before its first 'T'. A value that is not text has no `split`, and
   * rendering it throws (None).
   */
  function DateInput(v: Value): (r: Option<string>)
    ensures r.Some? <==> v.Str?
    ensures v.Str? ==> r.value <= v.s && 'T' !in r.value
  {
    if v.Str? then Some(BeforeT(v.s)) else None
  }

  /**
   * A stored ISO timestamp shows as its date part, and a date the input
   * itself wrote back (which has no 'T') shows unchanged.
   */
  lemma DateInputShowsDate(date: string, time: string)
    requires 'T' !in date
    ensures DateInput(Str(date + "T" + time)) == Some(date)
    ensures DateInput(Str(date)) == Some(date)
  {
    BeforeTIso(date, time);
    BeforeTPlain(date);
  }

  /** The edited copy after an input change; a change while no copy exists starts from an empty object. */
  function Edited(edited: Option<Object>, name: string, value: string): (r: Object)
    ensures Get(r, name) == Str(value)
    ensures forall k :: k != name ==> Get(r, k) == (if edited.Some? then Get(edited.value, k) else Undefined)
  {
    Set(if edited.Some? then edited.value else [], name, Str(value))
  }

  class EventListScreen {
    var modalOpen: bool
    var selected: Option<Object>
    var events: seq<Object>
    var loading: bool
    var edited: Option<Object>

    constructor ()
      ensures !modalOpen && selected == None && events == [] && !loading && edited == None
    {
      modalOpen, selected, events, loading, edited := false, None, [], false, None;
    }

    /** fetchEvents: a parsed body replaces the rows; a failed fetch leaves them. */
    method FetchEvents(result: Option<seq<Object>>)
      modifies this
      ensures events == if result.Some? then result.value else old(events)
      ensures modalOpen == old(modalOpen) && selected == old(selected) && loading == old(loading) && edited == old(edited)
    {
      if result.Some? {
        events := result.value;
      }
    }

    /** handleEdit: the row is selected and the modal edits a copy of it. */
    method HandleEdit(row: Object)
      modifies this
      ensures selected == Some(row) && edited == Some(row) && modalOpen
      ensures events == old(events) && loading == old(loading)
    {
      selected := Some(row);
      edited := Some(row);
      modalOpen := true;
    }

    /** closeModal: the selection and the copy go. */
    method CloseModal()
      modifies this
      ensures !modalOpen && selected == None && edited == None
      ensures events == old(events) && loading == old(loading)
    {
      modalOpen := false;
      selected := None;
      edited := None;
    }

    /** handleInputChange: the named key of the copy takes the input's value as text (the status select's too). */
    method HandleInputChange(t: Target)
      modifies this
      ensures edited == Some(Edited(old(edited), t.name, t.value))
      ensures modalOpen == old(modalOpen) && selected == old(selected) && events == old(events) && loading == old(loading)
    {
      edited := Some(Edited(edited, t.name, t.value));
    }

    /**
     * handleDelete. The DELETE for `id` is sent at once (`target`); `ok` is
     * an ok response, and only then is the list reloaded, `reloaded` being
     * what that awaited fetch parsed. Loading ends off either way.
     */
    method HandleDelete(id: Value, ok: bool, reloaded: Option<seq<Object>>) returns (target: Value)
      modifies this
      ensures target == id
      ensures events == if ok && reloaded.Some? then reloaded.value else old(events)
      ensures !loading
      ensures modalOpen == old(modalOpen) && selected == old(selected) && edited == old(edited)
    {
      loading := true;
      target := id;
      if ok {
        FetchEvents(reloaded);
      }
      loading := false;
    }

    /**
     * handleUpdate. The copy is sent as JSON to its own `_id`; without a
     * copy reading `_id` throws and nothing is sent. An ok response reloads
     * the list and closes the modal; otherwise the modal stays open.
     * Loading ends off either way.
     */
    method HandleUpdate(ok: bool, reloaded: Option<seq<Object>>) returns (sent: Option<Object>, target: Value)
      modifies this
      ensures sent == old(edited)
      ensures sent.Some? ==> target == Get(sent.value, "_id")
      ensures var done := old(edited).Some? && ok;
              && events == (if done && reloaded.Some? then reloaded.value else old(events))
              && modalOpen == (old(modalOpen) && !done)
              && selected == (if done then None else old(selected))
              && edited == (if done then None else old(edited))
      ensures !loading
    {
      loading := true;
      sent := edited;
      target := if edited.Some? then Get(edited.value, "_id") else Undefined;
      if edited.Some? && ok {
        FetchEvents(reloaded);
        CloseModal();
      }
      loading := false;
    }
  }
}
