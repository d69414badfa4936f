/** JavaScript values as they come out of `JSON.parse`, plus `undefined`
    (what reading a missing property yields). Numbers are integers here. */
module JsValue {
  import opened Wrappers

  datatype Value =
    | Undefined
    | Null
    | Bool(b: bool)
    | Num(n: int)
    | Str(s: string)
    | Arr(items: seq<Value>)
    | Obj(fields: seq<(string, Value)>)

  /** JavaScript truthiness: `undefined`, `null`, `false`, `0` and `""` are falsy. */
  predicate Truthy(v: Value) {
    match v
    case Undefined => false
    case Null => false
    case Bool(b) => b
    case Num(n) => n != 0
    case Str(s) => s != ""
    case Arr(_) => true
    case Obj(_) => true
  }

  /** `a || b`: the first operand when it is truthy, else the second. */
  function Or(a: Value, b: Value): (r: Value)
    ensures Truthy(a) ==> r == a
    ensures !Truthy(a) ==> r == b
    ensures Truthy(r) <==> Truthy(a) || Truthy(b)
  {
    if Truthy(a) then a else b
  }

  /** The value of the last field named `key` (`JSON.parse` keeps the last
      duplicate), or `undefined`. */
  function Field(fields: seq<(string, Value)>, key: string): Value {
    if fields == [] then Undefined
    else if fields[|fields| - 1].0 == key then fields[|fields| - 1].1
    else Field(fields[..|fields| - 1], key)
  }

  /** A lookup finds a field of that name, and a name no field has reads as
      `undefined`. */
  lemma {:induction false} FieldFound(fields: seq<(string, Value)>, key: string)
    ensures Field(fields, key) != Undefined ==> exists i :: 0 <= i < |fields| && fields[i] == (key, Field(fields, key))
    ensures (forall i :: 0 <= i < |fields| ==> fields[i].0 != key) ==> Field(fields, key) == Undefined
    decreases |fields|
  {
    if fields != [] && fields[|fields| - 1].0 != key {
      var init := fields[..|fields| - 1];
      FieldFound(init, key);
      if Field(fields, key) != Undefined {
        var i :| 0 <= i < |init| && init[i] == (key, Field(init, key));
        assert fields[i] == init[i];
      }
    }
  }

  /** Appending a field under another name does not change a lookup. */
  lemma FieldAppendOther(fields: seq<(string, Value)>, extra: (string, Value), key: string)
    requires extra.0 != key
    ensures Field(fields + [extra], key) == Field(fields, key)
  {
    assert (fields + [extra])[..|fields|] == fields;
  }

  /** The last field named `key` is the one read. */
  lemma {:induction false} FieldAt(fields: seq<(string, Value)>, key: string, k: nat)
    requires k < |fields| && fields[k].0 == key
    requires forall j :: k < j < |fields| ==> fields[j].0 != key
    ensures Field(fields, key) == fields[k].1
    decreases |fields|
  {
    if k < |fields| - 1 {
      var init := fields[..|fields| - 1];
      FieldAt(init, key, k);
    }
  }

  const TypeError := "TypeError"

  predicate Nullish(v: Value) {
    v == Null || v == Undefined
  }

  /** Property read `v.key` on a value that is not `null` or `undefined`: an
      object's field, and `undefined` on every other value. JavaScript also
      finds inherited methods here (a string's `link`, for one); the value
      model has no functions, so those reads are `undefined` as well. */
  function Prop(v: Value, key: string): (r: Value)
    requires !Nullish(v)
    ensures !v.Obj? ==> r == Undefined
  {
    if v.Obj? then Field(v.fields, key) else Undefined
  }

  /** Property read `v.key`, which throws on `null` and `undefined`. */
  function Get(v: Value, key: string): (r: Result<Value>)
    ensures r.Failure? <==> Nullish(v)
    ensures r.Success? ==> r.value == Prop(v, key)
  {
    if Nullish(v) then Failure(TypeError) else Success(Prop(v, key))
  }

  /** The values a `for ... of` loop visits: the elements of an array or the
      code points of a string. Anything else is not iterable and throws. */
  function Iterate(v: Value): (r: Result<seq<Value>>)
    ensures v.Arr? ==> r == Success(v.items)
    ensures v.Str? ==> r.Success? && |r.value| == |v.s|
    ensures !v.Arr? && !v.Str? ==> r.Failure?
  {
    match v
    case Arr(items) => Success(items)
    case Str(s) => Success(seq(|s|, i requires 0 <= i < |s| => Str([s[i]])))
    case _ => Failure(TypeError)
  }
}
