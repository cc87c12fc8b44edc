/** Decoded JSON values and the equality Python's `==` gives them. */
module PythonJson {
  import opened Wrappers

  datatype Json =
    | Null
    | Bool(truth: bool)
    | Int(whole: int)
    | Float(number: real)
    | Str(text: string)
    | Arr(items: seq<Json>)
    | Obj(fields: map<string, Json>)

  /** Booleans count as the numbers 0 and 1. */
  function Number(a: Json): Option<real> {
    match a
    case Bool(truth) => Some(if truth then 1.0 else 0.0)
    case Int(i) => Some(i as real)
    case Float(x) => Some(x)
    case _ => None
  }

  /** Python's `a == b`: numbers compare by value across their types, at any depth. */
  predicate PyEq(a: Json, b: Json) {
    if Number(a).Some? && Number(b).Some? then Number(a) == Number(b)
    else
      match (a, b)
      case (Arr(xs), Arr(ys)) => |xs| == |ys| && forall i :: 0 <= i < |xs| ==> PyEq(xs[i], ys[i])
      case (Obj(xs), Obj(ys)) => xs.Keys == ys.Keys && forall k :: k in xs ==> PyEq(xs[k], ys[k])
      case _ => a == b
  }

  lemma {:induction false} PyEqIsReflexive(a: Json)
    ensures PyEq(a, a)
  {
    match a
    case Arr(xs) =>
      forall i | 0 <= i < |xs| ensures PyEq(xs[i], xs[i]) {
        PyEqIsReflexive(xs[i]);
      }
    case Obj(xs) =>
      forall k | k in xs ensures PyEq(xs[k], xs[k]) {
        PyEqIsReflexive(xs[k]);
      }
    case _ =>
  }

  lemma {:induction false} PyEqIsSymmetric(a: Json, b: Json)
    requires PyEq(a, b)
    ensures PyEq(b, a)
  {
    match (a, b)
    case (Arr(xs), Arr(ys)) =>
      forall i | 0 <= i < |xs| ensures PyEq(ys[i], xs[i]) {
        PyEqIsSymmetric(xs[i], ys[i]);
      }
    case (Obj(xs), Obj(ys)) =>
      forall k | k in xs ensures PyEq(ys[k], xs[k]) {
        PyEqIsSymmetric(xs[k], ys[k]);
      }
    case _ =>
  }

  lemma {:induction false} PyEqIsTransitive(a: Json, b: Json, c: Json)
    requires PyEq(a, b) && PyEq(b, c)
    ensures PyEq(a, c)
  {
    match (a, b, c)
    case (Arr(xs), Arr(ys), Arr(zs)) =>
      forall i | 0 <= i < |xs| ensures PyEq(xs[i], zs[i]) {
        PyEqIsTransitive(xs[i], ys[i], zs[i]);
      }
    case (Obj(xs), Obj(ys), Obj(zs)) =>
      forall k | k in xs ensures PyEq(xs[k], zs[k]) {
        PyEqIsTransitive(xs[k], ys[k], zs[k]);
      }
    case _ =>
  }

  /** Whole numbers, text, lists and objects only: no boolean or float anywhere inside. */
  predicate IsPlain(a: Json) {
    match a
    case Bool(_) => false
    case Float(_) => false
    case Arr(xs) => forall i :: 0 <= i < |xs| ==> IsPlain(xs[i])
    case Obj(xs) => forall k :: k in xs ==> IsPlain(xs[k])
    case _ => true
  }

  /** Between plain values Python's equality is identity. */
  lemma {:induction false} PlainEqualityIsExact(a: Json, b: Json)
    requires IsPlain(a) && IsPlain(b)
    ensures PyEq(a, b) <==> a == b
  {
    match (a, b)
    case (Arr(xs), Arr(ys)) =>
      if |xs| == |ys| {
        forall i | 0 <= i < |xs| ensures PyEq(xs[i], ys[i]) <==> xs[i] == ys[i] {
          PlainEqualityIsExact(xs[i], ys[i]);
        }
      }
    case (Obj(xs), Obj(ys)) =>
      if xs.Keys == ys.Keys {
        forall k | k in xs ensures PyEq(xs[k], ys[k]) <==> xs[k] == ys[k] {
          PlainEqualityIsExact(xs[k], ys[k]);
        }
      }
    case _ =>
  }
}
