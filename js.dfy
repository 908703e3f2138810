/**
 * The JavaScript values the admin screens manipulate: plain objects kept in
 * insertion order, the spread-and-assign update `{...o, [k]: v}`, truthiness,
 * the DOM input events the change handlers read, and multipart bodies.
 */
module Js {

  datatype Option<+T> = None | Some(value: T)

  /** Strings the browser computes that this model does not reproduce. */
  datatype HostOp = JsonStringify | LocaleDateString | ObjectUrl | StringOf

  datatype Value =
    | Undefined
    | Null
    | Bool(b: bool)
    | Str(s: string)
    | File(name: string)
    | Arr(items: seq<Value>)
    | Obj(fields: seq<(string, Value)>)
    | HostString(op: HostOp, arg: Value)

  /** A plain object: its own enumerable properties in insertion order. */
  type Object = seq<(string, Value)>

  /** A multipart body: the appended (name, value) entries in order. */
  type FormData = seq<(string, Value)>

  /** JavaScript truthiness. The host strings are never empty. */
  predicate Truthy(v: Value) {
    match v
    case Undefined => false
    case Null => false
    case Bool(b) => b
    case Str(s) => s != ""
    case _ => true
  }

  /** `a || b` */
  function Or(a: Value, b: Value): (r: Value)
    ensures Truthy(a) ==> r == a
    ensures !Truthy(a) ==> r == b
  {
    if Truthy(a) then a else b
  }

  /** The properties `{...v}` copies: an object's own, nothing for anything else. */
  function Fields(v: Value): Object {
    if v.Obj? then v.fields else []
  }

  function Keys(o: Object): (ks: seq<string>)
    ensures |ks| == |o|
    ensures forall i :: 0 <= i < |o| ==> ks[i] == o[i].0
  {
    if o == [] then [] else [o[0].0] + Keys(o[1..])
  }

  predicate Distinct(ks: seq<string>) {
    forall i, j :: 0 <= i < j < |ks| ==> ks[i] != ks[j]
  }

  /** Every object the browser builds has pairwise different keys. */
  predicate DistinctKeys(o: Object) {
    Distinct(Keys(o))
  }

  /** `k in o` */
  predicate Has(o: Object, k: string) {
    o != [] && (o[0].0 == k || Has(o[1..], k))
  }

  lemma {:induction false} HasKeys(o: Object, k: string)
    ensures Has(o, k) <==> k in Keys(o)
  {
    if o != [] {
      assert Keys(o) == [o[0].0] + Keys(o[1..]);
      HasKeys(o[1..], k);
    }
  }

  /** Property read `o[k]`: the value under `k`, or undefined when `k` is absent. */
  function Get(o: Object, k: string): (r: Value)
    ensures !Has(o, k) ==> r == Undefined
  {
    if o == [] then Undefined
    else if o[0].0 == k then o[0].1
    else Get(o[1..], k)
  }

  /**
   * `{...o, [k]: v}`: an existing key keeps its position and takes the new
   * value; a new key goes last. Nothing else changes.
   */
  function Set(o: Object, k: string, v: Value): (r: Object)
    ensures Get(r, k) == v
    ensures forall k' :: k' != k ==> Get(r, k') == Get(o, k')
    ensures Keys(r) == if Has(o, k) then Keys(o) else Keys(o) + [k]
    ensures forall k' :: Has(r, k') <==> Has(o, k') || k' == k
  {
    if o == [] then [(k, v)]
    else if o[0].0 == k then
      var r := [(k, v)] + o[1..];
      assert r[1..] == o[1..];
      r
    else
      var rest := Set(o[1..], k, v);
      var r := [o[0]] + rest;
      assert r[1..] == rest;
      r
  }

  /** A body that appends `o[k]` under `k` for each `k` of `ks`, in that order. */
  function Pick(o: Object, ks: seq<string>): FormData {
    seq(|ks|, i requires 0 <= i < |ks| => (ks[i], Get(o, ks[i])))
  }

  /** Each appended name reads back the object's value. */
  lemma PickGet(o: Object, ks: seq<string>)
    requires Distinct(ks)
    ensures Keys(Pick(o, ks)) == ks
    ensures forall i :: 0 <= i < |ks| ==> Get(Pick(o, ks), ks[i]) == Get(o, ks[i])
  {
    var vs := seq(|ks|, i requires 0 <= i < |ks| => Get(o, ks[i]));
    assert Pick(o, ks) == Zip(ks, vs);
    ZipGet(ks, vs);
  }

  /** Picking an object's own keys, in its own order, gives back the object. */
  lemma PickAll(o: Object)
    requires DistinctKeys(o)
    ensures Pick(o, Keys(o)) == o
  {
    forall i | 0 <= i < |o| ensures Pick(o, Keys(o))[i] == o[i] {
      GetAt(o, i);
    }
  }

  /** A key outside `ks` has no effect on the body. */
  lemma PickIgnores(o: Object, ks: seq<string>, k: string, v: Value)
    requires k !in ks
    ensures Pick(Set(o, k, v), ks) == Pick(o, ks)
  {
  }

  /** `Object.keys(o)` walked in order, appending each key with its value. */
  function Entries(o: Object): FormData {
    Pick(o, Keys(o))
  }

  /** Reading another key through an update; a step the solver finds slowly when both keys are literals. */
  lemma GetSetOther(o: Object, k: string, v: Value, k': string)
    requires k' != k
    ensures Get(Set(o, k, v), k') == Get(o, k')
  {
  }

  /** The update keeps keys pairwise different. */
  lemma SetDistinct(o: Object, k: string, v: Value)
    requires DistinctKeys(o)
    ensures DistinctKeys(Set(o, k, v))
  {
    HasKeys(o, k);
    var ks := Keys(o);
    if !Has(o, k) {
      assert Keys(Set(o, k, v)) == ks + [k];
      forall i, j | 0 <= i < j < |ks| + 1 ensures (ks + [k])[i] != (ks + [k])[j] {
        if j == |ks| {
          assert (ks + [k])[i] == ks[i];
        }
      }
    }
  }

  /** An object literal whose keys, in order, are `ks`, with the values `vs`. */
  function Zip(ks: seq<string>, vs: seq<Value>): (o: Object)
    requires |ks| == |vs|
    ensures Keys(o) == ks
    ensures forall i :: 0 <= i < |ks| ==> o[i] == (ks[i], vs[i])
  {
    seq(|ks|, i requires 0 <= i < |ks| => (ks[i], vs[i]))
  }

  lemma {:induction false} GetAt(o: Object, i: nat)
    requires DistinctKeys(o) && i < |o|
    ensures Get(o, o[i].0) == o[i].1
  {
    if i > 0 {
      assert Keys(o)[0] != Keys(o)[i];
      assert Keys(o[1..]) == Keys(o)[1..];
      GetAt(o[1..], i - 1);
    }
  }

  /** In a literal with distinct keys, each key reads back its own value. */
  lemma ZipGet(ks: seq<string>, vs: seq<Value>)
    requires |ks| == |vs| && Distinct(ks)
    ensures forall i :: 0 <= i < |ks| ==> Get(Zip(ks, vs), ks[i]) == vs[i]
  {
    forall i | 0 <= i < |ks| ensures Get(Zip(ks, vs), ks[i]) == vs[i] {
      GetAt(Zip(ks, vs), i);
    }
  }

  /** Assigning a key the value it already has changes nothing. */
  lemma {:induction false} SetSame(o: Object, k: string)
    requires Has(o, k)
    ensures Set(o, k, Get(o, k)) == o
  {
    if o[0].0 != k {
      SetSame(o[1..], k);
    }
  }

  /** A second assignment to the same key overrides the first. */
  lemma {:induction false} SetSet(o: Object, k: string, v: Value, w: Value)
    ensures Set(Set(o, k, v), k, w) == Set(o, k, w)
  {
    if o != [] && o[0].0 != k {
      SetSet(o[1..], k, v, w);
    }
  }

  /** The `target` of a change event, as the handlers destructure it. */
  datatype Target = Target(name: string, value: string, inputType: string, checked: bool, files: seq<string>)

  /** `files[0]`: the first chosen file, or undefined when none was chosen. */
  function FirstFile(files: seq<string>): (r: Value)
    ensures Truthy(r) <==> |files| > 0
  {
    if |files| > 0 then File(files[0]) else Undefined
  }

  /** The raw `value` of the input. */
  function TextOf(t: Target): Value {
    Str(t.value)
  }

  /** `type === 'file' ? files[0] : value` */
  function FileOrText(t: Target): Value {
    if t.inputType == "file" then FirstFile(t.files) else Str(t.value)
  }

  /** `type === 'checkbox' ? checked : value` */
  function CheckedOrText(t: Target): Value {
    if t.inputType == "checkbox" then Bool(t.checked) else Str(t.value)
  }

  /** `type === 'file' ? files[0] : type === 'checkbox' ? checked : value` */
  function FileCheckedOrText(t: Target): Value {
    if t.inputType == "file" then FirstFile(t.files)
    else if t.inputType == "checkbox" then Bool(t.checked)
    else Str(t.value)
  }

  /** `s.split('T')[0]`: the part of `s` before its first 'T'. */
  function BeforeT(s: string): (r: string)
    ensures r <= s
    ensures 'T' !in r
    ensures |r| < |s| ==> s[|r|] == 'T'
  {
    if s == [] || s[0] == 'T' then [] else [s[0]] + BeforeT(s[1..])
  }

  /** A text without a 'T' is kept whole: the value a date input writes back. */
  lemma {:induction false} BeforeTPlain(s: string)
    requires 'T' !in s
    ensures BeforeT(s) == s
  {
  }

  /** An ISO timestamp `date + "T" + time` yields its date part. */
  lemma {:induction false} BeforeTIso(date: string, time: string)
    requires 'T' !in date
    ensures BeforeT(date + "T" + time) == date
  {
    var s := date + "T" + time;
    if date != [] {
      assert date[0] in date;
      assert s[1..] == date[1..] + "T" + time;
      BeforeTIso(date[1..], time);
    }
  }
}
