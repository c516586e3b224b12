/** JSON values as the platform stores them, with the two Python operations the
    step semantics rest on: `dict.get` and `==`. */
module Json {

  datatype Option<+T> = None | Some(value: T)

  datatype Value =
    | Null
    | Bool(b: bool)
    | Num(n: real)
    | Str(s: string)
    | Arr(items: seq<Value>)
    | Obj(fields: Object)

  type Object = map<string, Value>

  /** `o.get(k)`: a missing key reads as null. */
  function Get(o: Object, k: string): Value {
    if k in o then o[k] else Null
  }

  /** Python compares booleans as the numbers 0 and 1, at every depth. */
  function Canonical(v: Value): Value {
    match v
    case Bool(b) => Num(if b then 1.0 else 0.0)
    case Arr(items) => Arr(seq(|items|, i requires 0 <= i < |items| => Canonical(items[i])))
    case Obj(fields) => Obj(map k | k in fields :: Canonical(fields[k]))
    case _ => v
  }

  predicate PyEqual(a: Value, b: Value) {
    Canonical(a) == Canonical(b)
  }

  /** The two numbers that Python takes booleans for. */
  predicate IsNumber(v: Value, n: real) {
    v == Num(n) || (n == 1.0 && v == Bool(true)) || (n == 0.0 && v == Bool(false))
  }

  /** Python's `==` on JSON values: null and texts equal only themselves, numbers equal numbers
      and the booleans 1 and 0, arrays and objects are compared entry by entry. */
  lemma PyEqualMeans(a: Value, b: Value)
    ensures a.Null? ==> (PyEqual(a, b) <==> b.Null?)
    ensures a.Str? ==> (PyEqual(a, b) <==> b == a)
    ensures forall n | IsNumber(a, n) :: PyEqual(a, b) <==> IsNumber(b, n)
    ensures a.Arr? ==>
              (PyEqual(a, b) <==>
                && b.Arr? && |b.items| == |a.items|
                && forall i | 0 <= i < |a.items| :: PyEqual(a.items[i], b.items[i]))
    ensures a.Obj? ==>
              (PyEqual(a, b) <==>
                && b.Obj? && b.fields.Keys == a.fields.Keys
                && forall k | k in a.fields && k in b.fields :: PyEqual(a.fields[k], b.fields[k]))
  {
    if a.Arr? && b.Arr? {
      ArraysEqual(a.items, b.items);
    }
    if a.Obj? && b.Obj? {
      ObjectsEqual(a.fields, b.fields);
    }
  }

  lemma ArraysEqual(a: seq<Value>, b: seq<Value>)
    ensures PyEqual(Arr(a), Arr(b)) <==>
              |b| == |a| && forall i | 0 <= i < |a| :: PyEqual(a[i], b[i])
  {
    var x, y := Canonical(Arr(a)).items, Canonical(Arr(b)).items;
    assert |x| == |a| && |y| == |b|;
    assert forall i | 0 <= i < |a| :: x[i] == Canonical(a[i]);
    assert forall i | 0 <= i < |b| :: y[i] == Canonical(b[i]);
    if |b| == |a| && forall i | 0 <= i < |a| :: PyEqual(a[i], b[i]) {
      assert x == y;
    }
  }

  lemma ObjectsEqual(a: Object, b: Object)
    ensures PyEqual(Obj(a), Obj(b)) <==>
              b.Keys == a.Keys && forall k | k in a && k in b :: PyEqual(a[k], b[k])
  {
    var x, y := Canonical(Obj(a)).fields, Canonical(Obj(b)).fields;
    assert x.Keys == a.Keys && y.Keys == b.Keys;
    assert forall k | k in a :: x[k] == Canonical(a[k]);
    assert forall k | k in b :: y[k] == Canonical(b[k]);
    if b.Keys == a.Keys && forall k | k in a && k in b :: PyEqual(a[k], b[k]) {
      assert x == y;
    }
  }
}
