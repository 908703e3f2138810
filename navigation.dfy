/**
 * The navigation settings screen: a list of navigation items whose
 * visibility flag is toggled locally and then written back one item at a time.
 */
module Navigation {
  import opened Js
  import opened Rows

  /** `{...item, isActive: !item.isActive}` */
  function Flip(item: Object): Object {
    Set(item, "isActive", Bool(!Truthy(Get(item, "isActive"))))
  }

  /** The map in handleCheckboxChange: flip every item whose `_id` is `id`. */
  function Toggle(items: seq<Object>, id: Value): seq<Object> {
    seq(|items|, i requires 0 <= i < |items| => if IdOf(items[i]) == id then Flip(items[i]) else items[i])
  }

  /**
   * On a matching item the flag becomes the negation of its truthiness and
   * every other property keeps its value; other items are untouched.
   */
  lemma ToggleEffect(items: seq<Object>, id: Value, i: nat, k: string)
    requires i < |items|
    ensures IdOf(items[i]) == id ==> Get(Toggle(items, id)[i], "isActive") == Bool(!Truthy(Get(items[i], "isActive")))
    ensures k != "isActive" ==> Get(Toggle(items, id)[i], k) == Get(items[i], k)
    ensures IdOf(items[i]) != id ==> Toggle(items, id)[i] == items[i]
  {
  }

  /** Flipping a boolean flag twice gives back the original item. */
  lemma FlipTwice(x: Object)
    requires Get(x, "isActive").Bool?
    ensures Flip(Flip(x)) == x
  {
    var b := Get(x, "isActive").b;
    SetSet(x, "isActive", Bool(!b), Bool(b));
    SetSame(x, "isActive");
  }

  /** Toggling twice undoes the first toggle, as long as each matched flag is a boolean. */
  lemma ToggleTwice(items: seq<Object>, id: Value)
    requires forall i :: 0 <= i < |items| && IdOf(items[i]) == id ==> Get(items[i], "isActive").Bool?
    ensures Toggle(Toggle(items, id), id) == items
  {
    var once := Toggle(items, id);
    forall i | 0 <= i < |items| ensures Toggle(once, id)[i] == items[i] {
      var x := items[i];
      if IdOf(x) == id {
        assert once[i] == Flip(x) && IdOf(Flip(x)) == id;
        FlipTwice(x);
      } else {
        assert once[i] == x;
      }
    }
  }

  /** Toggling an id that no item carries changes nothing. */
  lemma ToggleAbsent(items: seq<Object>, id: Value)
    requires forall i :: 0 <= i < |items| ==> IdOf(items[i]) != id
    ensures Toggle(items, id) == items
  {
  }

  /** A PUT to `/navigation/<id>` with a JSON body. */
  datatype Request = Put(id: Value, body: Object)

  /** The requests handleUpdate issues: one per item, in list order, carrying only that item's flag. */
  function UpdateRequests(items: seq<Object>): (rs: seq<Request>)
    ensures |rs| == |items|
    ensures forall i :: 0 <= i < |items| ==>
              rs[i].id == IdOf(items[i]) && Keys(rs[i].body) == ["isActive"] && Get(rs[i].body, "isActive") == Get(items[i], "isActive")
  {
    seq(|items|, i requires 0 <= i < |items| => Put(IdOf(items[i]), [("isActive", Get(items[i], "isActive"))]))
  }

  class NavigationSettings {
    var items: seq<Object>

    constructor ()
      ensures items == []
    {
      items := [];
    }

    /** The fetch on mount: a parsed list replaces the items; a failed fetch leaves them. */
    method Load(result: Option<seq<Object>>)
      modifies this
      ensures items == if result.Some? then result.value else old(items)
    {
      if result.Some? {
        items := result.value;
      }
    }

    method HandleCheckboxChange(id: Value)
      modifies this
      ensures items == Toggle(old(items), id)
    {
      items := Toggle(items, id);
    }

    /** The bodies sent by handleUpdate; the items themselves do not change. */
    method HandleUpdate() returns (rs: seq<Request>)
      ensures rs == UpdateRequests(items)
    {
      rs := UpdateRequests(items);
    }
  }
}
