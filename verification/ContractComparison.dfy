/** When two accepted responses compare equal. */
module ContractComparison {
  import opened Wrappers
  import opened PythonJson
  import opened ContractMatch
  import opened ContractRoundTrip

  ghost predicate IsWellFormed(p: Pattern)
    decreases p
  {
    match p
    case Object(fields, _) =>
      HasDistinctKeys(fields) && forall i :: 0 <= i < |fields| ==> IsWellFormed(fields[i].pattern)
    case Array(items) => forall i :: 0 <= i < |items| ==> IsWellFormed(items[i])
    case _ => true
  }

  predicate Identical(a: Json, b: Json) {
    a == b
  }

  /** The values are the same, in the given sense, at every expected position that is not captured. */
  ghost predicate Agree(p: Pattern, a: Json, b: Json, same: (Json, Json) -> bool)
    decreases p
  {
    match p
    case EqualsCapture(_) => true
    case Capture(_, _) => true
    case Object(fields, _) => a.Obj? && b.Obj? && FieldsAgree(fields, a.fields, b.fields, same)
    case Array(items) =>
      a.Arr? && b.Arr? && |a.items| == |b.items| == |items| && ItemsAgree(items, a.items, b.items, same)
    case _ => same(a, b)
  }

  ghost predicate FieldsAgree(fields: seq<Field>, a: map<string, Json>, b: map<string, Json>,
                              same: (Json, Json) -> bool)
    decreases fields
  {
    forall i :: 0 <= i < |fields| ==>
      fields[i].key in a && fields[i].key in b && Agree(fields[i].pattern, a[fields[i].key], b[fields[i].key], same)
  }

  ghost predicate ItemsAgree(items: seq<Pattern>, a: seq<Json>, b: seq<Json>, same: (Json, Json) -> bool)
    requires |a| == |b| == |items|
    decreases items
  {
    forall i :: 0 <= i < |items| ==> Agree(items[i], a[i], b[i], same)
  }

  lemma SplitAgreement(fields: seq<Field>, a: map<string, Json>, b: map<string, Json>, same: (Json, Json) -> bool)
    requires fields != [] && fields[0].key in a && fields[0].key in b
    ensures FieldsAgree(fields, a, b, same) <==>
            && Agree(fields[0].pattern, a[fields[0].key], b[fields[0].key], same)
            && FieldsAgree(fields[1..], a, b, same)
  {
    assert forall i :: 1 <= i < |fields| ==> fields[i] == fields[1..][i - 1];
    assert forall i :: 0 <= i < |fields| - 1 ==> fields[1..][i] == fields[i + 1];
  }

  lemma SplitItemAgreement(items: seq<Pattern>, a: seq<Json>, b: seq<Json>, same: (Json, Json) -> bool)
    requires items != [] && |a| == |b| == |items|
    ensures ItemsAgree(items, a, b, same) <==>
            Agree(items[0], a[0], b[0], same) && ItemsAgree(items[1..], a[1..], b[1..], same)
  {
    assert forall i :: 1 <= i < |items| ==>
      items[i] == items[1..][i - 1] && a[i] == a[1..][i - 1] && b[i] == b[1..][i - 1];
    assert forall i :: 0 <= i < |items| - 1 ==>
      items[1..][i] == items[i + 1] && a[1..][i] == a[i + 1] && b[1..][i] == b[i + 1];
  }

  // ---------- the form of a value ----------

  /** The comparison form depends on the value alone, whatever has been captured before. */
  lemma {:induction false} FormIgnoresCaptures(lib: Library, value: Json, p: Pattern, c: Bindings, d: Bindings)
    requires Match(lib, value, p, c).result.Ok? && Match(lib, value, p, d).result.Ok?
    ensures Match(lib, value, p, c).result == Match(lib, value, p, d).result
    decreases p
  {
    match p
    case Jwt(header, claims) =>
      var decoded := DecodeJwt(lib, value).value;
      OptionalFormIgnoresCaptures(lib, decoded.0, header, c, d);
      OptionalFormIgnoresCaptures(lib, decoded.1, claims, MatchOptional(lib, decoded.0, header, c).captures,
                                  MatchOptional(lib, decoded.0, header, d).captures);
    case Object(fields, _) =>
      FieldFormsIgnoreCaptures(lib, value.fields, fields, c, d);
    case Array(items) =>
      ItemFormsIgnoreCaptures(lib, value.items, items, c, d);
    case _ =>
  }

  lemma {:induction false} OptionalFormIgnoresCaptures(lib: Library, value: Json, p: Option<Pattern>, c: Bindings,
                                                       d: Bindings)
    requires MatchOptional(lib, value, p, c).result.Ok? && MatchOptional(lib, value, p, d).result.Ok?
    ensures MatchOptional(lib, value, p, c).result == MatchOptional(lib, value, p, d).result
    decreases p
  {
    if p.Some? {
      FormIgnoresCaptures(lib, value, p.value, c, d);
    }
  }

  lemma {:induction false} FieldFormsIgnoreCaptures(lib: Library, value: map<string, Json>, fields: seq<Field>,
                                                    c: Bindings, d: Bindings)
    requires FieldKeys(fields) <= value.Keys
    requires MatchFields(lib, value, fields, c).result.Ok? && MatchFields(lib, value, fields, d).result.Ok?
    ensures MatchFields(lib, value, fields, c).result == MatchFields(lib, value, fields, d).result
    decreases fields
  {
    if fields != [] {
      SplitKeys(value, fields);
      var head := value[fields[0].key];
      FormIgnoresCaptures(lib, head, fields[0].pattern, c, d);
      FieldFormsIgnoreCaptures(lib, value, fields[1..], Match(lib, head, fields[0].pattern, c).captures,
                               Match(lib, head, fields[0].pattern, d).captures);
    }
  }

  lemma {:induction false} ItemFormsIgnoreCaptures(lib: Library, value: seq<Json>, items: seq<Pattern>, c: Bindings,
                                                   d: Bindings)
    requires |value| == |items|
    requires MatchItems(lib, value, items, c).result.Ok? && MatchItems(lib, value, items, d).result.Ok?
    ensures MatchItems(lib, value, items, c).result == MatchItems(lib, value, items, d).result
    decreases items
  {
    if items != [] {
      FormIgnoresCaptures(lib, value[0], items[0], c, d);
      ItemFormsIgnoreCaptures(lib, value[1..], items[1..], Match(lib, value[0], items[0], c).captures,
                              Match(lib, value[0], items[0], d).captures);
    }
  }

  // ---------- equal forms ----------

  /** Two values accepted for one pattern have forms that Python calls equal exactly when Python calls the values
      equal at every expected position that is not captured. */
  lemma {:induction false} EqualFormsMeanAgreement(lib: Library, p: Pattern, a: Json, b: Json, c: Bindings, d: Bindings)
    requires IsWellFormed(p)
    requires Match(lib, a, p, c).result.Ok? && Match(lib, b, p, d).result.Ok?
    ensures PyEq(Match(lib, a, p, c).result.value, Match(lib, b, p, d).result.value) <==> Agree(p, a, b, PyEq)
    decreases p
  {
    match p
    case Jwt(header, claims) =>
      EqualTokenForms(lib, p, a, b, c, d);
    case Object(fields, _) =>
      EqualFieldForms(lib, fields, a.fields, b.fields, c, d);
    case Array(items) =>
      EqualItemForms(lib, items, a.items, b.items, c, d);
    case _ =>
  }

  lemma EqualTokenForms(lib: Library, p: Pattern, a: Json, b: Json, c: Bindings, d: Bindings)
    requires p.Jwt?
    requires Match(lib, a, p, c).result.Ok? && Match(lib, b, p, d).result.Ok?
    ensures PyEq(Match(lib, a, p, c).result.value, Match(lib, b, p, d).result.value) <==> PyEq(a, b)
  {
    var x, y := Match(lib, a, p, c).result.value, Match(lib, b, p, d).result.value;
    FormHoldsToken(lib, p, a, c);
    FormHoldsToken(lib, p, b, d);
    if a == b {
      FormIgnoresCaptures(lib, a, p, c, d);
      PyEqIsReflexive(x);
    } else {
      assert !PyEq(x.fields["token"], y.fields["token"]);
    }
  }

  lemma FormHoldsToken(lib: Library, p: Pattern, value: Json, c: Bindings)
    requires p.Jwt? && Match(lib, value, p, c).result.Ok?
    ensures value.Str?
    ensures var form := Match(lib, value, p, c).result.value;
            form.Obj? && "token" in form.fields && form.fields["token"] == value
  {
  }

  lemma {:induction false} EqualFieldForms(lib: Library, fields: seq<Field>, a: map<string, Json>, b: map<string, Json>,
                                           c: Bindings, d: Bindings)
    requires FieldKeys(fields) <= a.Keys && FieldKeys(fields) <= b.Keys && HasDistinctKeys(fields)
    requires forall i :: 0 <= i < |fields| ==> IsWellFormed(fields[i].pattern)
    requires MatchFields(lib, a, fields, c).result.Ok? && MatchFields(lib, b, fields, d).result.Ok?
    ensures PyEq(Obj(MatchFields(lib, a, fields, c).result.value), Obj(MatchFields(lib, b, fields, d).result.value))
            <==> FieldsAgree(fields, a, b, PyEq)
    decreases fields
  {
    if fields != [] {
      var key, pattern, tail := fields[0].key, fields[0].pattern, fields[1..];
      SplitKeys(a, fields);
      SplitKeys(b, fields);
      var x, y := Match(lib, a[key], pattern, c), Match(lib, b[key], pattern, d);
      EqualFormsMeanAgreement(lib, pattern, a[key], b[key], c, d);
      SplitForm(lib, fields, a, c);
      SplitForm(lib, fields, b, d);
      EqualFieldForms(lib, tail, a, b, x.captures, y.captures);
      PutComparesBoth(key, x.result.value, y.result.value, MatchFields(lib, a, tail, x.captures).result.value,
                      MatchFields(lib, b, tail, y.captures).result.value);
      SplitAgreement(fields, a, b, PyEq);
    }
  }

  lemma SplitForm(lib: Library, fields: seq<Field>, value: map<string, Json>, c: Bindings)
    requires fields != [] && FieldKeys(fields) <= value.Keys && HasDistinctKeys(fields)
    requires MatchFields(lib, value, fields, c).result.Ok?
    ensures fields[0].key in value && FieldKeys(fields[1..]) <= value.Keys
    ensures var head := Match(lib, value[fields[0].key], fields[0].pattern, c);
            && head.result.Ok?
            && var rest := MatchFields(lib, value, fields[1..], head.captures);
            && rest.result.Ok? && fields[0].key !in rest.result.value
            && MatchFields(lib, value, fields, c).result
               == Ok(map[fields[0].key := head.result.value] + rest.result.value)
  {
    SplitKeys(value, fields);
    FormKeys(lib, value, fields[1..], Match(lib, value[fields[0].key], fields[0].pattern, c).captures);
  }

  lemma PutComparesBoth(key: string, x: Json, y: Json, xs: map<string, Json>, ys: map<string, Json>)
    requires key !in xs && key !in ys
    ensures PyEq(Obj(map[key := x] + xs), Obj(map[key := y] + ys)) <==> PyEq(x, y) && PyEq(Obj(xs), Obj(ys))
  {
    var u, v := map[key := x] + xs, map[key := y] + ys;
    Puts(key, x, xs, u);
    Puts(key, y, ys, v);
    if SameFields(u, v) {
      RestIsSame(key, xs, ys, u, v);
    }
    if PyEq(x, y) && SameFields(xs, ys) {
      WholeIsSame(key, xs, ys, u, v);
    }
  }

  /** Python's equality of dictionaries. */
  predicate SameFields(xs: map<string, Json>, ys: map<string, Json>) {
    PyEq(Obj(xs), Obj(ys))
  }

  /** `whole` is `rest` and one more field. */
  ghost predicate IsPut(key: string, rest: map<string, Json>, whole: map<string, Json>) {
    key !in rest && key in whole && whole - {key} == rest
  }

  lemma Puts(key: string, x: Json, rest: map<string, Json>, whole: map<string, Json>)
    requires key !in rest && whole == map[key := x] + rest
    ensures IsPut(key, rest, whole) && whole[key] == x
  {
  }

  lemma RestIsSame(key: string, xs: map<string, Json>, ys: map<string, Json>, u: map<string, Json>,
                   v: map<string, Json>)
    requires IsPut(key, xs, u) && IsPut(key, ys, v) && SameFields(u, v)
    ensures SameFields(xs, ys)
  {
    assert xs.Keys == u.Keys - {key} && ys.Keys == v.Keys - {key};
    forall k | k in xs ensures PyEq(xs[k], ys[k]) {
      assert PyEq(u[k], v[k]);
    }
  }

  lemma WholeIsSame(key: string, xs: map<string, Json>, ys: map<string, Json>, u: map<string, Json>,
                    v: map<string, Json>)
    requires IsPut(key, xs, u) && IsPut(key, ys, v) && SameFields(xs, ys) && PyEq(u[key], v[key])
    ensures SameFields(u, v)
  {
    assert u.Keys == {key} + xs.Keys && v.Keys == {key} + ys.Keys;
    forall k | k in u ensures PyEq(u[k], v[k]) {
      if k != key {
        assert xs[k] == u[k] && ys[k] == v[k] && PyEq(xs[k], ys[k]);
      }
    }
  }

  lemma {:induction false} EqualItemForms(lib: Library, items: seq<Pattern>, a: seq<Json>, b: seq<Json>, c: Bindings,
                                          d: Bindings)
    requires |a| == |b| == |items|
    requires forall i :: 0 <= i < |items| ==> IsWellFormed(items[i])
    requires MatchItems(lib, a, items, c).result.Ok? && MatchItems(lib, b, items, d).result.Ok?
    ensures PyEq(Arr(MatchItems(lib, a, items, c).result.value), Arr(MatchItems(lib, b, items, d).result.value))
            <==> ItemsAgree(items, a, b, PyEq)
    decreases items
  {
    if items != [] {
      var x, y := Match(lib, a[0], items[0], c), Match(lib, b[0], items[0], d);
      EqualFormsMeanAgreement(lib, items[0], a[0], b[0], c, d);
      EqualItemForms(lib, items[1..], a[1..], b[1..], x.captures, y.captures);
      AppendComparesBoth(x.result.value, y.result.value, MatchItems(lib, a[1..], items[1..], x.captures).result.value,
                         MatchItems(lib, b[1..], items[1..], y.captures).result.value);
      SplitItemAgreement(items, a, b, PyEq);
    }
  }

  lemma AppendComparesBoth(x: Json, y: Json, xs: seq<Json>, ys: seq<Json>)
    ensures PyEq(Arr([x] + xs), Arr([y] + ys)) <==> PyEq(x, y) && PyEq(Arr(xs), Arr(ys))
  {
    var u, v := [x] + xs, [y] + ys;
    assert u[1..] == xs && v[1..] == ys;
    if PyEq(Arr(u), Arr(v)) {
      TailIsSame(u, v);
    }
    if PyEq(x, y) && PyEq(Arr(xs), Arr(ys)) {
      WholeListIsSame(u, v);
    }
  }

  lemma TailIsSame(u: seq<Json>, v: seq<Json>)
    requires u != [] && PyEq(Arr(u), Arr(v))
    ensures v != [] && PyEq(u[0], v[0]) && PyEq(Arr(u[1..]), Arr(v[1..]))
  {
    forall i | 0 <= i < |u| - 1 ensures PyEq(u[1..][i], v[1..][i]) {
      assert PyEq(u[i + 1], v[i + 1]);
    }
  }

  lemma WholeListIsSame(u: seq<Json>, v: seq<Json>)
    requires u != [] && v != [] && PyEq(u[0], v[0]) && PyEq(Arr(u[1..]), Arr(v[1..]))
    ensures PyEq(Arr(u), Arr(v))
  {
    forall i | 1 <= i < |u| ensures PyEq(u[i], v[i]) {
      assert PyEq(u[1..][i - 1], v[1..][i - 1]);
    }
  }

  // ---------- when comparison is exact ----------

  /** Between plain values agreement up to Python's equality is agreement. */
  lemma {:induction false} PlainAgreementIsExact(p: Pattern, a: Json, b: Json)
    requires IsPlain(a) && IsPlain(b)
    ensures Agree(p, a, b, PyEq) <==> Agree(p, a, b, Identical)
    decreases p
  {
    PlainEqualityIsExact(a, b);
    match p
    case Object(fields, _) =>
      if a.Obj? && b.Obj? {
        forall i | 0 <= i < |fields| && fields[i].key in a.fields && fields[i].key in b.fields
          ensures Agree(fields[i].pattern, a.fields[fields[i].key], b.fields[fields[i].key], PyEq)
                  <==> Agree(fields[i].pattern, a.fields[fields[i].key], b.fields[fields[i].key], Identical)
        {
          PlainAgreementIsExact(fields[i].pattern, a.fields[fields[i].key], b.fields[fields[i].key]);
        }
      }
    case Array(items) =>
      if a.Arr? && b.Arr? && |a.items| == |b.items| == |items| {
        forall i | 0 <= i < |items|
          ensures Agree(items[i], a.items[i], b.items[i], PyEq) <==> Agree(items[i], a.items[i], b.items[i], Identical)
        {
          PlainAgreementIsExact(items[i], a.items[i], b.items[i]);
        }
      }
    case _ =>
  }

  /** No position that is not captured is compared as `any` or as a timestamp, the formats that numbers pass. */
  ghost predicate ComparesExactly(p: Pattern)
    decreases p
  {
    match p
    case HasFormat(format) => !format.Any? && !format.Timestamp?
    case Object(fields, _) => forall i :: 0 <= i < |fields| ==> ComparesExactly(fields[i].pattern)
    case Array(items) => forall i :: 0 <= i < |items| ==> ComparesExactly(items[i])
    case _ => true
  }

  lemma {:induction false} ExactAgreement(lib: Library, p: Pattern, a: Json, b: Json, c: Bindings, d: Bindings)
    requires ComparesExactly(p)
    requires Match(lib, a, p, c).result.Ok? && Match(lib, b, p, d).result.Ok?
    requires Agree(p, a, b, PyEq)
    ensures Agree(p, a, b, Identical)
    decreases p
  {
    match p
    case Object(fields, _) =>
      ExactFieldAgreement(lib, fields, a.fields, b.fields, c, d);
    case Array(items) =>
      ExactItemAgreement(lib, items, a.items, b.items, c, d);
    case _ =>
  }

  lemma {:induction false} ExactFieldAgreement(lib: Library, fields: seq<Field>, a: map<string, Json>,
                                               b: map<string, Json>, c: Bindings, d: Bindings)
    requires FieldKeys(fields) <= a.Keys && FieldKeys(fields) <= b.Keys
    requires forall i :: 0 <= i < |fields| ==> ComparesExactly(fields[i].pattern)
    requires MatchFields(lib, a, fields, c).result.Ok? && MatchFields(lib, b, fields, d).result.Ok?
    requires FieldsAgree(fields, a, b, PyEq)
    ensures FieldsAgree(fields, a, b, Identical)
    decreases fields
  {
    if fields != [] {
      var key, pattern := fields[0].key, fields[0].pattern;
      SplitKeys(a, fields);
      SplitKeys(b, fields);
      SplitAgreement(fields, a, b, PyEq);
      ExactAgreement(lib, pattern, a[key], b[key], c, d);
      ExactFieldAgreement(lib, fields[1..], a, b, Match(lib, a[key], pattern, c).captures,
                          Match(lib, b[key], pattern, d).captures);
      SplitAgreement(fields, a, b, Identical);
    }
  }

  lemma {:induction false} ExactItemAgreement(lib: Library, items: seq<Pattern>, a: seq<Json>, b: seq<Json>,
                                              c: Bindings, d: Bindings)
    requires |a| == |b| == |items|
    requires forall i :: 0 <= i < |items| ==> ComparesExactly(items[i])
    requires MatchItems(lib, a, items, c).result.Ok? && MatchItems(lib, b, items, d).result.Ok?
    requires ItemsAgree(items, a, b, PyEq)
    ensures ItemsAgree(items, a, b, Identical)
    decreases items
  {
    if items != [] {
      SplitItemAgreement(items, a, b, PyEq);
      ExactAgreement(lib, items[0], a[0], b[0], c, d);
      ExactItemAgreement(lib, items[1..], a[1..], b[1..], Match(lib, a[0], items[0], c).captures,
                         Match(lib, b[0], items[0], d).captures);
      SplitItemAgreement(items, a, b, Identical);
    }
  }

  /** `value` with the number `w` at every position that is compared as `any` or as a timestamp. */
  function Renumber(p: Pattern, value: Json, w: Json): Json
    decreases p
  {
    match p
    case HasFormat(format) => if format.Any? || format.Timestamp? then w else value
    case Object(fields, _) => if value.Obj? then Obj(RenumberFields(fields, value.fields, w)) else value
    case Array(items) =>
      if value.Arr? && |value.items| == |items| then Arr(RenumberItems(items, value.items, w)) else value
    case _ => value
  }

  function RenumberFields(fields: seq<Field>, value: map<string, Json>, w: Json): (r: map<string, Json>)
    ensures r.Keys == value.Keys
    decreases fields
  {
    if fields == [] then value
    else
      var rest := RenumberFields(fields[1..], value, w);
      if fields[0].key in value then rest[fields[0].key := Renumber(fields[0].pattern, value[fields[0].key], w)]
      else rest
  }

  function RenumberItems(items: seq<Pattern>, value: seq<Json>, w: Json): (r: seq<Json>)
    requires |value| == |items|
    ensures |r| == |items|
    decreases items
  {
    if items == [] then [] else [Renumber(items[0], value[0], w)] + RenumberItems(items[1..], value[1..], w)
  }

  lemma {:induction false} RenumberFieldsAt(fields: seq<Field>, value: map<string, Json>, w: Json, i: nat)
    requires HasDistinctKeys(fields) && i < |fields| && fields[i].key in value
    ensures RenumberFields(fields, value, w)[fields[i].key] == Renumber(fields[i].pattern, value[fields[i].key], w)
    decreases fields
  {
    if i > 0 {
      assert fields[1..][i - 1] == fields[i];
      RenumberFieldsAt(fields[1..], value, w, i - 1);
    }
  }

  /** The same run as far as success and captures go. */
  ghost predicate RunsAlike<T>(run: Run<T>, other: Run<T>) {
    run.result.Ok? && other.result.Ok? && run.captures == other.captures
  }

  lemma {:induction false} RenumberedIsAccepted(lib: Library, value: Json, p: Pattern, c: Bindings, w: Json)
    requires IsWellFormed(p) && (w.Int? || w.Float?)
    requires Match(lib, value, p, c).result.Ok?
    ensures RunsAlike(Match(lib, Renumber(p, value, w), p, c), Match(lib, value, p, c))
    decreases p
  {
    match p
    case Object(fields, _) =>
      var numbered := RenumberFields(fields, value.fields, w);
      forall i | 0 <= i < |fields|
        ensures fields[i].key in value.fields
        ensures numbered[fields[i].key] == Renumber(fields[i].pattern, value.fields[fields[i].key], w)
      {
        assert fields[i].key in FieldKeys(fields);
        RenumberFieldsAt(fields, value.fields, w, i);
      }
      RenumberedFieldsAreAccepted(lib, value.fields, numbered, fields, c, w);
    case Array(items) =>
      RenumberedItemsAreAccepted(lib, value.items, items, c, w);
    case _ =>
  }

  lemma {:induction false} RenumberedFieldsAreAccepted(lib: Library, value: map<string, Json>,
                                                       numbered: map<string, Json>, fields: seq<Field>, c: Bindings,
                                                       w: Json)
    requires FieldKeys(fields) <= value.Keys == numbered.Keys && (w.Int? || w.Float?)
    requires forall i :: 0 <= i < |fields| ==> IsWellFormed(fields[i].pattern)
    requires forall i :: 0 <= i < |fields| ==>
      fields[i].key in value && numbered[fields[i].key] == Renumber(fields[i].pattern, value[fields[i].key], w)
    requires MatchFields(lib, value, fields, c).result.Ok?
    ensures RunsAlike(MatchFields(lib, numbered, fields, c), MatchFields(lib, value, fields, c))
    decreases fields
  {
    if fields != [] {
      SplitKeys(value, fields);
      assert forall i :: 0 <= i < |fields| - 1 ==> fields[1..][i] == fields[i + 1];
      var head := value[fields[0].key];
      RenumberedIsAccepted(lib, head, fields[0].pattern, c, w);
      RenumberedFieldsAreAccepted(lib, value, numbered, fields[1..], Match(lib, head, fields[0].pattern, c).captures,
                                  w);
    }
  }

  lemma {:induction false} RenumberedItemsAreAccepted(lib: Library, value: seq<Json>, items: seq<Pattern>, c: Bindings,
                                                      w: Json)
    requires |value| == |items| && (w.Int? || w.Float?)
    requires forall i :: 0 <= i < |items| ==> IsWellFormed(items[i])
    requires MatchItems(lib, value, items, c).result.Ok?
    ensures RunsAlike(MatchItems(lib, RenumberItems(items, value, w), items, c), MatchItems(lib, value, items, c))
    decreases items
  {
    if items != [] {
      RenumberedIsAccepted(lib, value[0], items[0], c, w);
      RenumberedItemsAreAccepted(lib, value[1..], items[1..], Match(lib, value[0], items[0], c).captures, w);
      assert RenumberItems(items, value, w)[1..] == RenumberItems(items[1..], value[1..], w);
    }
  }

  /** Two numbers Python calls equal give values that agree up to its equality; they agree exactly only where no
      number is put. */
  lemma {:induction false} RenumberedValuesAgree(p: Pattern, value: Json, v: Json, w: Json)
    requires IsWellFormed(p) && Agree(p, value, value, PyEq) && PyEq(v, w) && v != w
    ensures Agree(p, Renumber(p, value, v), Renumber(p, value, w), PyEq)
    ensures Agree(p, Renumber(p, value, v), Renumber(p, value, w), Identical) ==> ComparesExactly(p)
    decreases p
  {
    match p
    case Object(fields, _) =>
      forall i | 0 <= i < |fields|
        ensures RenumberedFieldAgrees(fields[i], value.fields, RenumberFields(fields, value.fields, v),
                                      RenumberFields(fields, value.fields, w))
      {
        RenumberFieldsAt(fields, value.fields, v, i);
        RenumberFieldsAt(fields, value.fields, w, i);
        RenumberedValuesAgree(fields[i].pattern, value.fields[fields[i].key], v, w);
      }
      RenumberedFieldsAgree(fields, value.fields, RenumberFields(fields, value.fields, v),
                            RenumberFields(fields, value.fields, w));
    case Array(items) =>
      forall i | 0 <= i < |items|
        ensures RenumberedItemAgrees(items[i], RenumberItems(items, value.items, v)[i],
                                     RenumberItems(items, value.items, w)[i])
      {
        RenumberItemsAt(items, value.items, v, i);
        RenumberItemsAt(items, value.items, w, i);
        RenumberedValuesAgree(items[i], value.items[i], v, w);
      }
      RenumberedItemsAgree(items, RenumberItems(items, value.items, v), RenumberItems(items, value.items, w));
    case _ =>
  }

  ghost predicate RenumberedItemAgrees(p: Pattern, a: Json, b: Json) {
    Agree(p, a, b, PyEq) && (Agree(p, a, b, Identical) ==> ComparesExactly(p))
  }

  ghost predicate RenumberedFieldAgrees(field: Field, value: map<string, Json>, a: map<string, Json>,
                                        b: map<string, Json>)
    requires a.Keys == b.Keys == value.Keys
  {
    field.key in value && RenumberedItemAgrees(field.pattern, a[field.key], b[field.key])
  }

  lemma RenumberedFieldsAgree(fields: seq<Field>, value: map<string, Json>, a: map<string, Json>, b: map<string, Json>)
    requires a.Keys == b.Keys == value.Keys
    requires forall i :: 0 <= i < |fields| ==> RenumberedFieldAgrees(fields[i], value, a, b)
    ensures FieldsAgree(fields, a, b, PyEq)
    ensures FieldsAgree(fields, a, b, Identical) ==>
              forall i :: 0 <= i < |fields| ==> ComparesExactly(fields[i].pattern)
  {
    if FieldsAgree(fields, a, b, Identical) {
      forall i | 0 <= i < |fields| ensures ComparesExactly(fields[i].pattern) {
        assert RenumberedFieldAgrees(fields[i], value, a, b);
      }
    }
  }

  lemma RenumberedItemsAgree(items: seq<Pattern>, a: seq<Json>, b: seq<Json>)
    requires |a| == |b| == |items|
    requires forall i :: 0 <= i < |items| ==> RenumberedItemAgrees(items[i], a[i], b[i])
    ensures ItemsAgree(items, a, b, PyEq)
    ensures ItemsAgree(items, a, b, Identical) ==> forall i :: 0 <= i < |items| ==> ComparesExactly(items[i])
  {
    if ItemsAgree(items, a, b, Identical) {
      forall i | 0 <= i < |items| ensures ComparesExactly(items[i]) {
        assert RenumberedItemAgrees(items[i], a[i], b[i]);
      }
    }
  }

  lemma {:induction false} RenumberItemsAt(items: seq<Pattern>, value: seq<Json>, w: Json, i: nat)
    requires |value| == |items| && i < |items|
    ensures RenumberItems(items, value, w)[i] == Renumber(items[i], value[i], w)
    decreases items
  {
    if i > 0 {
      RenumberItemsAt(items[1..], value[1..], w, i - 1);
    }
  }

  /** No two accepted values that differ at a position that is not captured have forms Python calls equal. */
  ghost predicate NeverEquatesDifferent(lib: Library, p: Pattern) {
    forall a, b, c, d ::
      Match(lib, a, p, c).result.Ok? && Match(lib, b, p, d).result.Ok?
      && PyEq(Match(lib, a, p, c).result.value, Match(lib, b, p, d).result.value)
      ==> Agree(p, a, b, Identical)
  }

  lemma NeverEquates(lib: Library, p: Pattern)
    requires IsWellFormed(p) && ComparesExactly(p)
    ensures NeverEquatesDifferent(lib, p)
  {
    forall a, b, c, d | Match(lib, a, p, c).result.Ok? && Match(lib, b, p, d).result.Ok?
                        && PyEq(Match(lib, a, p, c).result.value, Match(lib, b, p, d).result.value)
      ensures Agree(p, a, b, Identical)
    {
      EqualFormsMeanAgreement(lib, p, a, b, c, d);
      ExactAgreement(lib, p, a, b, c, d);
    }
  }

  /** A pattern that accepts something never makes different values equivalent exactly when it compares no position
      as `any` or as a timestamp, captured positions aside. */
  lemma PatternsThatCompareExactly(lib: Library, p: Pattern, value: Json, c: Bindings)
    requires IsWellFormed(p) && Match(lib, value, p, c).result.Ok?
    ensures NeverEquatesDifferent(lib, p) <==> ComparesExactly(p)
  {
    if ComparesExactly(p) {
      NeverEquates(lib, p);
    }
    if NeverEquatesDifferent(lib, p) {
      var a, b := Renumber(p, value, Int(1)), Renumber(p, value, Float(1.0));
      RenumberedFormsAreEqual(lib, p, value, c, Int(1), Float(1.0));
      assert Agree(p, a, b, Identical);
    }
  }

  lemma RenumberedFormsAreEqual(lib: Library, p: Pattern, value: Json, c: Bindings, v: Json, w: Json)
    requires IsWellFormed(p) && Match(lib, value, p, c).result.Ok?
    requires (v.Int? || v.Float?) && (w.Int? || w.Float?) && PyEq(v, w) && v != w
    ensures var a, b := Renumber(p, value, v), Renumber(p, value, w);
            && Match(lib, a, p, c).result.Ok? && Match(lib, b, p, c).result.Ok?
            && PyEq(Match(lib, a, p, c).result.value, Match(lib, b, p, c).result.value)
            && (Agree(p, a, b, Identical) ==> ComparesExactly(p))
  {
    PyEqIsReflexive(Match(lib, value, p, c).result.value);
    EqualFormsMeanAgreement(lib, p, value, value, c, c);
    RenumberedIsAccepted(lib, value, p, c, v);
    RenumberedIsAccepted(lib, value, p, c, w);
    RenumberedValuesAgree(p, value, v, w);
    EqualFormsMeanAgreement(lib, p, Renumber(p, value, v), Renumber(p, value, w), c, c);
  }

  /** Two such pairs: 1 and true for `any`, a whole and a fractional number of seconds for a timestamp. */
  lemma MixedNumbersCompareEqual(lib: Library, c: Bindings)
    ensures EquatesDifferent(lib, HasFormat(Any), Int(1), Bool(true), c)
    ensures EquatesDifferent(lib, HasFormat(Timestamp), Int(1700000000), Float(1700000000.0), c)
  {
  }

  ghost predicate EquatesDifferent(lib: Library, p: Pattern, a: Json, b: Json, c: Bindings) {
    var x, y := Match(lib, a, p, c), Match(lib, b, p, c);
    x.result.Ok? && y.result.Ok? && PyEq(x.result.value, y.result.value) && !Agree(p, a, b, Identical)
  }

  // ---------- responses ----------

  ghost predicate IsOptionalWellFormed(p: Option<Pattern>) {
    p.Some? ==> IsWellFormed(p.value)
  }

  ghost predicate IsExpectationWellFormed(wanted: Expectation) {
    IsOptionalWellFormed(HeaderPattern(wanted.headers)) && IsOptionalWellFormed(BodyPattern(wanted))
  }

  ghost predicate OptionalAgree(p: Option<Pattern>, a: Json, b: Json, same: (Json, Json) -> bool) {
    p.Some? ==> Agree(p.value, a, b, same)
  }

  /** The responses are the same at every expected header and at every expected position of the body. */
  ghost predicate ResponsesAgree(wanted: Expectation, a: Response, b: Response, same: (Json, Json) -> bool) {
    && OptionalAgree(HeaderPattern(wanted.headers), HeaderValue(a.headers), HeaderValue(b.headers), same)
    && OptionalAgree(BodyPattern(wanted), a.body, b.body, same)
  }

  function OptionalEntry(key: string, value: Option<Json>): map<string, Json> {
    if value.Some? then map[key := value.value] else map[]
  }

  /** The dictionary that is compared. */
  function ResponseJson(form: ResponseForm): Json {
    Obj(OptionalEntry("status", Some(Int(form.status))) + OptionalEntry("headers", form.headers)
        + OptionalEntry("json", form.json) + OptionalEntry("body", form.body))
  }

  predicate OptionalEq(a: Option<Json>, b: Option<Json>) {
    a.Some? == b.Some? && (a.Some? ==> PyEq(a.value, b.value))
  }

  lemma EqualResponseJson(x: ResponseForm, y: ResponseForm)
    ensures PyEq(ResponseJson(x), ResponseJson(y)) <==>
            && x.status == y.status && OptionalEq(x.headers, y.headers)
            && OptionalEq(x.json, y.json) && OptionalEq(x.body, y.body)
  {
    var u, v := ResponseJson(x).fields, ResponseJson(y).fields;
    EntriesOf(x);
    EntriesOf(y);
    FourLookupsDecide(u, v);
  }

  lemma FourLookupsDecide(u: map<string, Json>, v: map<string, Json>)
    requires u.Keys + v.Keys <= {"status", "headers", "json", "body"}
    ensures PyEq(Obj(u), Obj(v)) <==>
            && OptionalEq(Lookup(u, "status"), Lookup(v, "status"))
            && OptionalEq(Lookup(u, "headers"), Lookup(v, "headers"))
            && OptionalEq(Lookup(u, "json"), Lookup(v, "json"))
            && OptionalEq(Lookup(u, "body"), Lookup(v, "body"))
  {
    LookupsDecide(u, v);
    forall k | k !in {"status", "headers", "json", "body"} ensures OptionalEq(Lookup(u, k), Lookup(v, k)) {
      assert k !in u && k !in v;
    }
  }

  lemma LookupsDecide(u: map<string, Json>, v: map<string, Json>)
    ensures PyEq(Obj(u), Obj(v)) <==> forall k :: OptionalEq(Lookup(u, k), Lookup(v, k))
  {
    if forall k :: OptionalEq(Lookup(u, k), Lookup(v, k)) {
      forall k ensures k in u <==> k in v {
        assert OptionalEq(Lookup(u, k), Lookup(v, k));
      }
      forall k | k in u ensures PyEq(u[k], v[k]) {
        assert OptionalEq(Lookup(u, k), Lookup(v, k));
      }
    }
  }

  lemma EntriesOf(form: ResponseForm)
    ensures var u := ResponseJson(form).fields;
            && Lookup(u, "status") == Some(Int(form.status)) && Lookup(u, "headers") == form.headers
            && Lookup(u, "json") == form.json && Lookup(u, "body") == form.body
            && u.Keys <= {"status", "headers", "json", "body"}
  {
  }

  /** Two accepted responses compare equal exactly when Python calls them equal at every expected header and at every
      expected position of the body, captured positions aside. */
  lemma EqualResponsesMeanAgreement(lib: Library, wanted: Expectation, a: Response, b: Response, c: Bindings,
                                    d: Bindings)
    requires Normalize(lib, a, wanted, c).result.Ok? && Normalize(lib, b, wanted, d).result.Ok?
    requires IsExpectationWellFormed(wanted)
    ensures PyEq(ResponseJson(Normalize(lib, a, wanted, c).result.value),
                 ResponseJson(Normalize(lib, b, wanted, d).result.value))
            <==> ResponsesAgree(wanted, a, b, PyEq)
  {
    var headers, body := HeaderPattern(wanted.headers), BodyPattern(wanted);
    EqualOptionalForms(lib, headers, HeaderValue(a.headers), HeaderValue(b.headers), c, d);
    EqualOptionalForms(lib, body, a.body, b.body, MatchOptional(lib, HeaderValue(a.headers), headers, c).captures,
                       MatchOptional(lib, HeaderValue(b.headers), headers, d).captures);
    EqualResponseJson(Normalize(lib, a, wanted, c).result.value, Normalize(lib, b, wanted, d).result.value);
  }

  lemma EqualOptionalForms(lib: Library, p: Option<Pattern>, a: Json, b: Json, c: Bindings, d: Bindings)
    requires IsOptionalWellFormed(p)
    requires MatchOptional(lib, a, p, c).result.Ok? && MatchOptional(lib, b, p, d).result.Ok?
    ensures OptionalEq(MatchOptional(lib, a, p, c).result.value, MatchOptional(lib, b, p, d).result.value)
            <==> OptionalAgree(p, a, b, PyEq)
  {
    if p.Some? {
      EqualFormsMeanAgreement(lib, p.value, a, b, c, d);
    }
  }

  /** For plain bodies the responses then agree exactly; headers are text anyway. */
  lemma PlainResponsesCompareExactly(lib: Library, wanted: Expectation, a: Response, b: Response, c: Bindings,
                                     d: Bindings)
    requires Normalize(lib, a, wanted, c).result.Ok? && Normalize(lib, b, wanted, d).result.Ok?
    requires IsExpectationWellFormed(wanted) && IsPlain(a.body) && IsPlain(b.body)
    ensures PyEq(ResponseJson(Normalize(lib, a, wanted, c).result.value),
                 ResponseJson(Normalize(lib, b, wanted, d).result.value))
            <==> ResponsesAgree(wanted, a, b, Identical)
  {
    EqualResponsesMeanAgreement(lib, wanted, a, b, c, d);
    PlainOptionalAgreementIsExact(HeaderPattern(wanted.headers), HeaderValue(a.headers), HeaderValue(b.headers));
    PlainOptionalAgreementIsExact(BodyPattern(wanted), a.body, b.body);
  }

  lemma PlainOptionalAgreementIsExact(p: Option<Pattern>, a: Json, b: Json)
    requires IsPlain(a) && IsPlain(b)
    ensures OptionalAgree(p, a, b, PyEq) <==> OptionalAgree(p, a, b, Identical)
  {
    if p.Some? {
      PlainAgreementIsExact(p.value, a, b);
    }
  }

  // ---------- scenarios ----------

  /** The list of comparison dictionaries of a scenario. */
  function ScenarioJson(forms: seq<ResponseForm>): (r: Json)
    ensures r.Arr? && |r.items| == |forms|
  {
    Arr(seq(|forms|, i requires 0 <= i < |forms| => ResponseJson(forms[i])))
  }

  lemma SplitScenario(x: ResponseForm, y: ResponseForm, xs: seq<ResponseForm>, ys: seq<ResponseForm>)
    ensures PyEq(ScenarioJson([x] + xs), ScenarioJson([y] + ys))
            <==> PyEq(ResponseJson(x), ResponseJson(y)) && PyEq(ScenarioJson(xs), ScenarioJson(ys))
  {
    assert ScenarioJson([x] + xs).items == [ResponseJson(x)] + ScenarioJson(xs).items;
    assert ScenarioJson([y] + ys).items == [ResponseJson(y)] + ScenarioJson(ys).items;
    AppendComparesBoth(ResponseJson(x), ResponseJson(y), ScenarioJson(xs).items, ScenarioJson(ys).items);
  }

  ghost predicate ScenariosAgree(wanted: seq<Expectation>, a: seq<Response>, b: seq<Response>,
                                 same: (Json, Json) -> bool)
    requires |a| == |b| == |wanted|
  {
    forall i :: 0 <= i < |wanted| ==> ResponsesAgree(wanted[i], a[i], b[i], same)
  }

  lemma SplitScenarioAgreement(wanted: seq<Expectation>, a: seq<Response>, b: seq<Response>,
                               same: (Json, Json) -> bool)
    requires wanted != [] && |a| == |b| == |wanted|
    ensures ScenariosAgree(wanted, a, b, same) <==>
            && ResponsesAgree(wanted[0], a[0], b[0], same)
            && ScenariosAgree(wanted[1..], a[1..], b[1..], same)
  {
    assert forall i :: 1 <= i < |wanted| ==>
      wanted[i] == wanted[1..][i - 1] && a[i] == a[1..][i - 1] && b[i] == b[1..][i - 1];
    assert forall i :: 0 <= i < |wanted| - 1 ==>
      wanted[1..][i] == wanted[i + 1] && a[1..][i] == a[i + 1] && b[1..][i] == b[i + 1];
  }

  /** Two runtimes that both pass a scenario are reported equivalent exactly when they agree at every step. */
  lemma {:induction false} EqualScenariosMeanAgreement(lib: Library, wanted: seq<Expectation>, a: seq<Response>,
                                                       b: seq<Response>, c: Bindings, d: Bindings)
    requires |a| == |b| == |wanted| && forall i :: 0 <= i < |wanted| ==> IsExpectationWellFormed(wanted[i])
    requires NormalizeAll(lib, a, wanted, c).result.Ok? && NormalizeAll(lib, b, wanted, d).result.Ok?
    ensures PyEq(ScenarioJson(NormalizeAll(lib, a, wanted, c).result.value),
                 ScenarioJson(NormalizeAll(lib, b, wanted, d).result.value))
            <==> ScenariosAgree(wanted, a, b, PyEq)
    decreases wanted
  {
    if wanted != [] {
      var x, y := Normalize(lib, a[0], wanted[0], c), Normalize(lib, b[0], wanted[0], d);
      EqualResponsesMeanAgreement(lib, wanted[0], a[0], b[0], c, d);
      EqualScenariosMeanAgreement(lib, wanted[1..], a[1..], b[1..], x.captures, y.captures);
      SplitScenario(x.result.value, y.result.value,
                    NormalizeAll(lib, a[1..], wanted[1..], x.captures).result.value,
                    NormalizeAll(lib, b[1..], wanted[1..], y.captures).result.value);
      SplitScenarioAgreement(wanted, a, b, PyEq);
    }
  }
}
