/**
 * The list transforms the screens apply to their collections: pruning and
 * replacing rows by `_id`, and editing, appending and removing nested
 * sub-items ("offerings") by position.
 */
module Rows {
  import opened Js

  function IdOf(row: Object): Value {
    Get(row, "_id")
  }

  /** `rows.filter(row => row._id !== id)` */
  function RemoveById(rows: seq<Object>, id: Value): (r: seq<Object>)
    ensures |r| <= |rows|
  {
    if rows == [] then []
    else (if IdOf(rows[0]) != id then [rows[0]] else []) + RemoveById(rows[1..], id)
  }

  /** The rows kept are exactly the rows whose `_id` differs from `id`. */
  lemma {:induction false} RemoveByIdMembers(rows: seq<Object>, id: Value)
    ensures forall x :: x in RemoveById(rows, id) <==> x in rows && IdOf(x) != id
  {
    if rows != [] {
      RemoveByIdMembers(rows[1..], id);
      assert rows == [rows[0]] + rows[1..];
    }
  }

  /** One step of the filter. */
  lemma RemoveByIdCons(x: Object, rest: seq<Object>, id: Value)
    ensures RemoveById([x] + rest, id) == (if IdOf(x) != id then [x] else []) + RemoveById(rest, id)
  {
    assert ([x] + rest)[0] == x && ([x] + rest)[1..] == rest;
  }

  lemma AppendAssoc<T>(a: seq<T>, b: seq<T>, c: seq<T>)
    ensures a + (b + c) == (a + b) + c
  {
  }

  /** Filtering the parts of a list one after the other is filtering the whole; with one-row lists this fixes the order. */
  lemma {:induction false} RemoveByIdAppend(a: seq<Object>, b: seq<Object>, id: Value)
    ensures RemoveById(a + b, id) == RemoveById(a, id) + RemoveById(b, id)
  {
    if a != [] {
      var head := if IdOf(a[0]) != id then [a[0]] else [];
      assert a + b == [a[0]] + (a[1..] + b);
      RemoveByIdCons(a[0], a[1..] + b, id);
      RemoveByIdCons(a[0], a[1..], id);
      assert a == [a[0]] + a[1..];
      RemoveByIdAppend(a[1..], b, id);
      AppendAssoc(head, RemoveById(a[1..], id), RemoveById(b, id));
    } else {
      assert a + b == b;
    }
  }

  /** A list without a row of that id is left exactly as it was. */
  lemma {:induction false} RemoveByIdAbsent(rows: seq<Object>, id: Value)
    requires forall i :: 0 <= i < |rows| ==> IdOf(rows[i]) != id
    ensures RemoveById(rows, id) == rows
  {
    if rows != [] {
      assert forall i :: 0 <= i < |rows| - 1 ==> rows[1..][i] == rows[i + 1];
      RemoveByIdAbsent(rows[1..], id);
    }
  }

  /** The number of rows whose `_id` is `id`. */
  function CountId(rows: seq<Object>, id: Value): nat {
    if rows == [] then 0 else (if IdOf(rows[0]) == id then 1 else 0) + CountId(rows[1..], id)
  }

  /** Exactly as many rows are dropped as carry that `_id`. */
  lemma {:induction false} RemoveByIdCount(rows: seq<Object>, id: Value)
    ensures |RemoveById(rows, id)| == |rows| - CountId(rows, id)
  {
    if rows != [] {
      RemoveByIdCount(rows[1..], id);
    }
  }

  /** `rows.map(row => row._id === updated._id ? updated : row)` */
  function ReplaceById(rows: seq<Object>, updated: Object): seq<Object> {
    seq(|rows|, i requires 0 <= i < |rows| => if IdOf(rows[i]) == IdOf(updated) then updated else rows[i])
  }

  /** Replacing never changes the id column. */
  lemma ReplaceByIdKeepsIds(rows: seq<Object>, updated: Object)
    ensures forall i :: 0 <= i < |rows| ==> IdOf(ReplaceById(rows, updated)[i]) == IdOf(rows[i])
  {
  }

  /** A record whose id is not in the list changes nothing. */
  lemma ReplaceByIdAbsent(rows: seq<Object>, updated: Object)
    requires forall i :: 0 <= i < |rows| ==> IdOf(rows[i]) != IdOf(updated)
    ensures ReplaceById(rows, updated) == rows
  {
  }

  /** Replacing twice is replacing once. */
  lemma ReplaceByIdIdempotent(rows: seq<Object>, updated: Object)
    ensures ReplaceById(ReplaceById(rows, updated), updated) == ReplaceById(rows, updated)
  {
  }

  /** `items.map((it, i) => i === index ? {...it, [name]: value} : it)` */
  function SetFieldAt(items: seq<Object>, index: int, name: string, value: Value): seq<Object> {
    seq(|items|, i requires 0 <= i < |items| => if i == index then Js.Set(items[i], name, value) else items[i])
  }

  /** The map touches element `index` only, and only its key `name`; an index out of range changes nothing. */
  lemma SetFieldAtSpec(items: seq<Object>, index: int, name: string, value: Value)
    ensures SetFieldAt(items, index, name, value) ==
            if 0 <= index < |items| then items[index := Js.Set(items[index], name, value)] else items
  {
  }

  /** `items.filter((_, i) => i !== index)` */
  function RemoveAt<T>(items: seq<T>, index: int): seq<T>
    decreases |items|
  {
    if items == [] then []
    else (if index == 0 then [] else [items[0]]) + RemoveAt(items[1..], index - 1)
  }

  /** The filter deletes exactly position `index` and keeps the order of the rest; out of range it changes nothing. */
  lemma {:induction false} RemoveAtSpec<T>(items: seq<T>, index: int)
    ensures RemoveAt(items, index) ==
            if 0 <= index < |items| then items[..index] + items[index + 1..] else items
    decreases |items|
  {
    if items != [] {
      RemoveAtSpec(items[1..], index - 1);
      if 0 < index < |items| {
        assert items[1..][..index - 1] == items[1..index];
        assert items[1..][index..] == items[index + 1..];
        assert [items[0]] + items[1..index] == items[..index];
      }
    }
  }
}
