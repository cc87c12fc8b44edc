/** What the comparison form of a response keeps of it. */
module ContractRoundTrip {
  import opened Wrappers
  import opened PythonJson
  import opened ContractMatch
  import opened ContractMeaning

  ghost predicate HasDistinctKeys(fields: seq<Field>) {
    forall i, j :: 0 <= i < j < |fields| ==> fields[i].key != fields[j].key
  }

  /** No object allows extra fields, and none names a field twice. */
  ghost predicate IsExact(p: Pattern)
    decreases p
  {
    match p
    case Object(fields, allowExtra) =>
      && !allowExtra && HasDistinctKeys(fields)
      && forall i :: 0 <= i < |fields| ==> IsExact(fields[i].pattern)
    case Array(items) => forall i :: 0 <= i < |items| ==> IsExact(items[i])
    case _ => true
  }

  /** Puts the captured values back into a comparison form. */
  function Rebuild(p: Pattern, form: Json, e: Bindings): Json
    decreases p
  {
    match p
    case EqualsCapture(name) => if name in e then e[name] else Null
    case Capture(name, _) => if name in e then e[name] else Null
    case Jwt(_, _) => if form.Obj? && "token" in form.fields then form.fields["token"] else Null
    case Object(fields, _) => if form.Obj? then Obj(RebuildFields(fields, form.fields, e)) else Null
    case Array(items) => if form.Arr? && |form.items| == |items| then Arr(RebuildItems(items, form.items, e)) else Null
    case _ => form
  }

  function RebuildFields(fields: seq<Field>, forms: map<string, Json>, e: Bindings): map<string, Json>
    decreases fields
  {
    if fields == [] then map[]
    else
      var form := if fields[0].key in forms then forms[fields[0].key] else Null;
      map[fields[0].key := Rebuild(fields[0].pattern, form, e)] + RebuildFields(fields[1..], forms, e)
  }

  function RebuildItems(items: seq<Pattern>, forms: seq<Json>, e: Bindings): (r: seq<Json>)
    requires |forms| == |items|
    ensures |r| == |items|
    decreases items
  {
    if items == [] then [] else [Rebuild(items[0], forms[0], e)] + RebuildItems(items[1..], forms[1..], e)
  }

  /** At each captured position `e` has the very value, not just an equal one. */
  ghost predicate CapturesAreIdentical(value: Json, p: Pattern, e: Bindings)
    decreases p
  {
    match p
    case EqualsCapture(name) => name in e && value == e[name]
    case Capture(name, _) => name in e && value == e[name]
    case Object(fields, _) =>
      value.Obj? && forall i :: 0 <= i < |fields| ==>
        fields[i].key in value.fields && CapturesAreIdentical(value.fields[fields[i].key], fields[i].pattern, e)
    case Array(items) =>
      && value.Arr? && |value.items| == |items|
      && forall i :: 0 <= i < |items| ==> CapturesAreIdentical(value.items[i], items[i], e)
    case _ => true
  }

  /** The rebuilt value equals the original, and is the original when the captures are identical. */
  ghost predicate Restores(rebuilt: Json, value: Json, identical: bool) {
    PyEq(rebuilt, value) && (rebuilt == value <==> identical)
  }

  /** Matching then substituting captures is a round trip: rebuilding with the final captures, or any extension of
      them, gives a value equal to the original, and gives the original itself exactly when every captured position
      holds the very value its name has. */
  lemma {:induction false} RebuildUndoesMatch(lib: Library, value: Json, p: Pattern, c: Bindings, e: Bindings)
    requires IsExact(p)
    requires Match(lib, value, p, c).result.Ok? && Extends(e, Match(lib, value, p, c).captures)
    ensures Restores(Rebuild(p, Match(lib, value, p, c).result.value, e), value, CapturesAreIdentical(value, p, e))
    decreases p
  {
    var run := Match(lib, value, p, c);
    PyEqIsReflexive(value);
    match p
    case EqualsCapture(name) =>
      NameRestores(value, name, c, e);
    case Capture(name, check) =>
      NameRestores(value, name, run.captures, e);
    case Object(fields, allowExtra) =>
      RebuildUndoesObject(lib, value, p, c, e);
    case Array(items) =>
      RebuildUndoesArray(lib, value, p, c, e);
    case _ =>
  }

  lemma RebuildUndoesObject(lib: Library, value: Json, p: Pattern, c: Bindings, e: Bindings)
    requires IsExact(p) && p.Object?
    requires Match(lib, value, p, c).result.Ok? && Extends(e, Match(lib, value, p, c).captures)
    ensures Restores(Rebuild(p, Match(lib, value, p, c).result.value, e), value, CapturesAreIdentical(value, p, e))
    decreases p.fields, 1
  {
    var forms := Match(lib, value, p, c).result.value.fields;
    RebuildUndoesFields(lib, value.fields, p.fields, c, e, forms);
    assert RebuildFields(p.fields, forms, e).Keys == value.fields.Keys;
    FieldsRestored(value, p.fields, p.allowExtra, RebuildFields(p.fields, forms, e), e);
  }

  lemma RebuildUndoesArray(lib: Library, value: Json, p: Pattern, c: Bindings, e: Bindings)
    requires IsExact(p) && p.Array?
    requires Match(lib, value, p, c).result.Ok? && Extends(e, Match(lib, value, p, c).captures)
    ensures Restores(Rebuild(p, Match(lib, value, p, c).result.value, e), value, CapturesAreIdentical(value, p, e))
    decreases p.items, 1
  {
    RebuildUndoesItems(lib, value.items, p.items, c, e);
    var rebuilt := RebuildItems(p.items, MatchItems(lib, value.items, p.items, c).result.value, e);
    ItemsRestored(value, p.items, rebuilt, e);
  }

  lemma ItemsRestored(value: Json, items: seq<Pattern>, rebuilt: seq<Json>, e: Bindings)
    requires value.Arr? && |rebuilt| == |value.items| == |items|
    requires forall i :: 0 <= i < |items| ==>
      Restores(rebuilt[i], value.items[i], CapturesAreIdentical(value.items[i], items[i], e))
    ensures Restores(Arr(rebuilt), value, CapturesAreIdentical(value, Array(items), e))
  {
    assert forall i :: 0 <= i < |items| ==> PyEq(rebuilt[i], value.items[i]);
    if CapturesAreIdentical(value, Array(items), e) {
      assert rebuilt == value.items;
    }
  }

  lemma NameRestores(value: Json, name: string, c: Bindings, e: Bindings)
    requires name in c && PyEq(value, c[name]) && Extends(e, c)
    ensures name in e && Restores(e[name], value, value == e[name])
  {
    PyEqThrough(value, name, c, e);
    PyEqIsSymmetric(value, e[name]);
  }

  lemma FieldsRestored(value: Json, fields: seq<Field>, allowExtra: bool, rebuilt: map<string, Json>, e: Bindings)
    requires value.Obj? && rebuilt.Keys == value.fields.Keys == FieldKeys(fields)
    requires forall i :: 0 <= i < |fields| ==>
      Restores(rebuilt[fields[i].key], value.fields[fields[i].key],
               CapturesAreIdentical(value.fields[fields[i].key], fields[i].pattern, e))
    ensures Restores(Obj(rebuilt), value, CapturesAreIdentical(value, Object(fields, allowExtra), e))
  {
    forall k | k in rebuilt ensures PyEq(rebuilt[k], value.fields[k]) {
      assert k in FieldKeys(fields);
      var i :| 0 <= i < |fields| && fields[i].key == k;
      assert Restores(rebuilt[k], value.fields[k], CapturesAreIdentical(value.fields[k], fields[i].pattern, e));
    }
    if CapturesAreIdentical(value, Object(fields, allowExtra), e) {
      IdenticalFieldsRestored(value, fields, allowExtra, rebuilt, e);
    }
  }

  lemma IdenticalFieldsRestored(value: Json, fields: seq<Field>, allowExtra: bool, rebuilt: map<string, Json>,
                                e: Bindings)
    requires value.Obj? && rebuilt.Keys == value.fields.Keys == FieldKeys(fields)
    requires forall i :: 0 <= i < |fields| ==>
      Restores(rebuilt[fields[i].key], value.fields[fields[i].key],
               CapturesAreIdentical(value.fields[fields[i].key], fields[i].pattern, e))
    requires CapturesAreIdentical(value, Object(fields, allowExtra), e)
    ensures rebuilt == value.fields
  {
    forall k | k in rebuilt ensures rebuilt[k] == value.fields[k] {
      assert k in FieldKeys(fields);
      var i :| 0 <= i < |fields| && fields[i].key == k;
      assert CapturesAreIdentical(value.fields[k], fields[i].pattern, e);
    }
  }

  lemma {:induction false} RebuildUndoesFields(lib: Library, value: map<string, Json>, fields: seq<Field>, c: Bindings,
                                               e: Bindings, forms: map<string, Json>)
    requires FieldKeys(fields) <= value.Keys && HasDistinctKeys(fields)
    requires forall i :: 0 <= i < |fields| ==> IsExact(fields[i].pattern)
    requires MatchFields(lib, value, fields, c).result.Ok? && Extends(e, MatchFields(lib, value, fields, c).captures)
    requires Includes(forms, MatchFields(lib, value, fields, c).result.value)
    ensures RebuildFields(fields, forms, e).Keys == FieldKeys(fields)
    ensures forall i :: 0 <= i < |fields| ==>
      Restores(RebuildFields(fields, forms, e)[fields[i].key], value[fields[i].key],
               CapturesAreIdentical(value[fields[i].key], fields[i].pattern, e))
    decreases fields, 0
  {
    if fields != [] {
      var key, tail := fields[0].key, fields[1..];
      SplitKeys(value, fields);
      var head := Match(lib, value[key], fields[0].pattern, c);
      var rest := MatchFields(lib, value, tail, head.captures);
      FieldsOnlyGrow(lib, value, tail, head.captures);
      ExtendsIsTransitive(e, rest.captures, head.captures);
      FormKeys(lib, value, tail, head.captures);
      RebuildUndoesMatch(lib, value[key], fields[0].pattern, c, e);
      RebuildUndoesFields(lib, value, tail, head.captures, e, forms);
      assert forms[key] == head.result.value;
      var rebuilt := RebuildFields(fields, forms, e);
      forall i | 1 <= i < |fields|
        ensures Restores(rebuilt[fields[i].key], value[fields[i].key],
                         CapturesAreIdentical(value[fields[i].key], fields[i].pattern, e))
      {
        assert fields[i] == tail[i - 1];
        assert rebuilt[fields[i].key] == RebuildFields(tail, forms, e)[tail[i - 1].key];
      }
    }
  }

  ghost predicate Includes(whole: map<string, Json>, part: map<string, Json>) {
    forall k :: k in part ==> k in whole && whole[k] == part[k]
  }

  lemma SplitKeys(value: map<string, Json>, fields: seq<Field>)
    requires fields != [] && FieldKeys(fields) <= value.Keys
    ensures fields[0].key in value && FieldKeys(fields[1..]) <= value.Keys
    ensures FieldKeys(fields) == {fields[0].key} + FieldKeys(fields[1..])
    ensures HasDistinctKeys(fields) ==> HasDistinctKeys(fields[1..]) && fields[0].key !in FieldKeys(fields[1..])
  {
    assert fields[0].key in FieldKeys(fields);
    assert forall i :: 1 <= i < |fields| ==> fields[i] == fields[1..][i - 1];
    forall k | k in FieldKeys(fields) ensures k in {fields[0].key} + FieldKeys(fields[1..]) {
      var i :| 0 <= i < |fields| && fields[i].key == k;
      assert i > 0 ==> fields[1..][i - 1].key == k;
    }
  }

  lemma {:induction false} FormKeys(lib: Library, value: map<string, Json>, fields: seq<Field>, c: Bindings)
    requires FieldKeys(fields) <= value.Keys
    requires MatchFields(lib, value, fields, c).result.Ok?
    ensures MatchFields(lib, value, fields, c).result.value.Keys == FieldKeys(fields)
    decreases fields
  {
    if fields != [] {
      SplitKeys(value, fields);
      FormKeys(lib, value, fields[1..], Match(lib, value[fields[0].key], fields[0].pattern, c).captures);
    }
  }

  lemma {:induction false} RebuildUndoesItems(lib: Library, value: seq<Json>, items: seq<Pattern>, c: Bindings,
                                              e: Bindings)
    requires |value| == |items|
    requires forall i :: 0 <= i < |items| ==> IsExact(items[i])
    requires MatchItems(lib, value, items, c).result.Ok? && Extends(e, MatchItems(lib, value, items, c).captures)
    ensures |MatchItems(lib, value, items, c).result.value| == |items|
    ensures var rebuilt := RebuildItems(items, MatchItems(lib, value, items, c).result.value, e);
            forall i :: 0 <= i < |items| ==>
              Restores(rebuilt[i], value[i], CapturesAreIdentical(value[i], items[i], e))
    decreases items, 0
  {
    if items != [] {
      var head := Match(lib, value[0], items[0], c);
      var rest := MatchItems(lib, value[1..], items[1..], head.captures);
      ItemsOnlyGrow(lib, value[1..], items[1..], head.captures);
      ExtendsIsTransitive(e, rest.captures, head.captures);
      RebuildUndoesMatch(lib, value[0], items[0], c, e);
      RebuildUndoesItems(lib, value[1..], items[1..], head.captures, e);
      var forms := MatchItems(lib, value, items, c).result.value;
      assert forms[1..] == rest.result.value;
      var rebuilt := RebuildItems(items, forms, e);
      forall i | 1 <= i < |items|
        ensures Restores(rebuilt[i], value[i], CapturesAreIdentical(value[i], items[i], e))
      {
        assert rebuilt[i] == RebuildItems(items[1..], forms[1..], e)[i - 1];
        assert items[i] == items[1..][i - 1] && value[i] == value[1..][i - 1];
      }
    }
  }

  // ---------- when the round trip is exact ----------

  ghost predicate AllPlain(e: Bindings) {
    forall name :: name in e ==> IsPlain(e[name])
  }

  lemma {:induction false} PlainCapturesAreIdentical(lib: Library, value: Json, p: Pattern, e: Bindings)
    requires Satisfies(lib, value, p, e) && IsPlain(value) && AllPlain(e)
    ensures CapturesAreIdentical(value, p, e)
    decreases p
  {
    match p
    case EqualsCapture(name) =>
      PlainEqualityIsExact(value, e[name]);
    case Capture(name, _) =>
      PlainEqualityIsExact(value, e[name]);
    case Object(fields, _) =>
      forall i | 0 <= i < |fields|
        ensures fields[i].key in value.fields
        ensures CapturesAreIdentical(value.fields[fields[i].key], fields[i].pattern, e)
      {
        PlainCapturesAreIdentical(lib, value.fields[fields[i].key], fields[i].pattern, e);
      }
    case Array(items) =>
      forall i | 0 <= i < |items| ensures CapturesAreIdentical(value.items[i], items[i], e) {
        PlainCapturesAreIdentical(lib, value.items[i], items[i], e);
      }
    case _ =>
  }

  /** Without booleans and floats the rebuilt value is the original. */
  lemma PlainRoundTripIsExact(lib: Library, value: Json, p: Pattern, c: Bindings, e: Bindings)
    requires IsExact(p) && IsPlain(value) && AllPlain(e)
    requires Match(lib, value, p, c).result.Ok? && Extends(e, Match(lib, value, p, c).captures)
    ensures Rebuild(p, Match(lib, value, p, c).result.value, e) == value
  {
    MatchIsSound(lib, value, p, c, e);
    PlainCapturesAreIdentical(lib, value, p, e);
    RebuildUndoesMatch(lib, value, p, c, e);
  }

  /** Tokens decode to plain values only. */
  ghost predicate DecodesPlain(lib: Library) {
    forall text :: lib.decodeSegment(text).Some? ==> IsPlain(lib.decodeSegment(text).value)
  }

  /** Plain inputs leave plain captures. */
  lemma {:induction false} CapturesStayPlain(lib: Library, value: Json, p: Pattern, c: Bindings)
    requires DecodesPlain(lib) && IsPlain(value) && AllPlain(c)
    ensures AllPlain(Match(lib, value, p, c).captures)
    decreases p
  {
    match p
    case Capture(name, check) =>
      OptionalCapturesStayPlain(lib, value, check, c);
    case Jwt(header, claims) =>
      var decoded := DecodeJwt(lib, value);
      if decoded.Ok? {
        OptionalCapturesStayPlain(lib, decoded.value.0, header, c);
        OptionalCapturesStayPlain(lib, decoded.value.1, claims,
                                  MatchOptional(lib, decoded.value.0, header, c).captures);
      }
    case Object(fields, allowExtra) =>
      if ShapeError(value, fields, allowExtra).None? {
        FieldCapturesStayPlain(lib, value.fields, fields, c);
      }
    case Array(items) =>
      if value.Arr? && |value.items| == |items| {
        ItemCapturesStayPlain(lib, value.items, items, c);
      }
    case _ =>
  }

  lemma {:induction false} OptionalCapturesStayPlain(lib: Library, value: Json, p: Option<Pattern>, c: Bindings)
    requires DecodesPlain(lib) && IsPlain(value) && AllPlain(c)
    ensures AllPlain(MatchOptional(lib, value, p, c).captures)
    decreases p
  {
    if p.Some? {
      CapturesStayPlain(lib, value, p.value, c);
    }
  }

  lemma {:induction false} FieldCapturesStayPlain(lib: Library, value: map<string, Json>, fields: seq<Field>,
                                                  c: Bindings)
    requires FieldKeys(fields) <= value.Keys
    requires DecodesPlain(lib) && AllPlain(value) && AllPlain(c)
    ensures AllPlain(MatchFields(lib, value, fields, c).captures)
    decreases fields
  {
    if fields != [] {
      SplitKeys(value, fields);
      CapturesStayPlain(lib, value[fields[0].key], fields[0].pattern, c);
      FieldCapturesStayPlain(lib, value, fields[1..],
                             Match(lib, value[fields[0].key], fields[0].pattern, c).captures);
    }
  }

  lemma {:induction false} ItemCapturesStayPlain(lib: Library, value: seq<Json>, items: seq<Pattern>, c: Bindings)
    requires |value| == |items|
    requires DecodesPlain(lib) && (forall i :: 0 <= i < |value| ==> IsPlain(value[i])) && AllPlain(c)
    ensures AllPlain(MatchItems(lib, value, items, c).captures)
    decreases items
  {
    if items != [] {
      CapturesStayPlain(lib, value[0], items[0], c);
      ItemCapturesStayPlain(lib, value[1..], items[1..], Match(lib, value[0], items[0], c).captures);
    }
  }

  /** A condition on the inputs alone: a plain value, plain captures and plain token contents come back
      exactly from the final captures. */
  lemma PlainInputsAreRestored(lib: Library, value: Json, p: Pattern, c: Bindings)
    requires IsExact(p) && DecodesPlain(lib) && IsPlain(value) && AllPlain(c)
    requires Match(lib, value, p, c).result.Ok?
    ensures var run := Match(lib, value, p, c); Rebuild(p, run.result.value, run.captures) == value
  {
    CapturesStayPlain(lib, value, p, c);
    ExtendsIsReflexive(Match(lib, value, p, c).captures);
    PlainRoundTripIsExact(lib, value, p, c, Match(lib, value, p, c).captures);
  }

  /** With a boolean it need not be: `true` passes for a captured 1, and comes back as 1. */
  lemma MixedNumbersAreNotRestored(lib: Library)
    ensures var value, p := Arr([Int(1), Bool(true)]), Array([Capture("a", None), EqualsCapture("a")]);
            var run := Match(lib, value, p, map[]);
            && IsExact(p) && run.result.Ok?
            && Rebuild(p, run.result.value, run.captures) == Arr([Int(1), Int(1)]) != value
  {
    var first, second := Capture("a", None), EqualsCapture("a");
    var c: Bindings := map["a" := Int(1)];
    assert Match(lib, Int(1), first, map[]) == Run(Ok(Placeholder("a")), c);
    assert Match(lib, Bool(true), second, c) == Run(Ok(Placeholder("a")), c);
    MatchPair(lib, [Int(1), Bool(true)], [first, second], map[]);
    RebuildPair([first, second], [Placeholder("a"), Placeholder("a")], c);
  }

  lemma MatchPair(lib: Library, value: seq<Json>, items: seq<Pattern>, c: Bindings)
    requires |value| == |items| == 2
    requires Match(lib, value[0], items[0], c).result.Ok?
    requires Match(lib, value[1], items[1], Match(lib, value[0], items[0], c).captures).result.Ok?
    ensures var x := Match(lib, value[0], items[0], c);
            var y := Match(lib, value[1], items[1], x.captures);
            MatchItems(lib, value, items, c) == Run(Ok([x.result.value, y.result.value]), y.captures)
  {
    var x := Match(lib, value[0], items[0], c);
    var y := Match(lib, value[1], items[1], x.captures);
    assert value[1..][1..] == [] && items[1..][1..] == [];
    assert [y.result.value] + [] == [y.result.value];
    assert MatchItems(lib, value[1..], items[1..], x.captures) == Run(Ok([y.result.value]), y.captures);
    assert [x.result.value] + [y.result.value] == [x.result.value, y.result.value];
  }

  lemma RebuildPair(items: seq<Pattern>, forms: seq<Json>, e: Bindings)
    requires |items| == |forms| == 2
    ensures RebuildItems(items, forms, e) == [Rebuild(items[0], forms[0], e), Rebuild(items[1], forms[1], e)]
  {
    assert RebuildItems(items[1..], forms[1..], e) == [Rebuild(items[1], forms[1], e)];
  }

  // ---------- the condition from the inputs alone ----------

  function Lookup(c: Bindings, name: string): Option<Json> {
    if name in c then Some(c[name]) else None
  }

  /** The later of two values, when there is one. */
  function Later(last: Option<Json>, earlier: Option<Json>): Option<Json> {
    if last.Some? then last else earlier
  }

  /** What stands at the last position of `value` where `p` captures `name`. */
  function LastCaptured(lib: Library, value: Json, p: Pattern, name: string): Option<Json>
    decreases p
  {
    match p
    case Capture(n, check) => if n == name then Some(value) else OptionalLastCaptured(lib, value, check, name)
    case Jwt(header, claims) =>
      var decoded := DecodeJwt(lib, value);
      if decoded.Err? then None
      else Later(OptionalLastCaptured(lib, decoded.value.1, claims, name),
                 OptionalLastCaptured(lib, decoded.value.0, header, name))
    case Object(fields, _) => if value.Obj? then FieldsLastCaptured(lib, value.fields, fields, name) else None
    case Array(items) =>
      if value.Arr? && |value.items| == |items| then ItemsLastCaptured(lib, value.items, items, name) else None
    case _ => None
  }

  function OptionalLastCaptured(lib: Library, value: Json, p: Option<Pattern>, name: string): Option<Json>
    decreases p
  {
    if p.None? then None else LastCaptured(lib, value, p.value, name)
  }

  function FieldsLastCaptured(lib: Library, value: map<string, Json>, fields: seq<Field>, name: string): Option<Json>
    decreases fields
  {
    if fields == [] then None
    else
      var head := if fields[0].key in value then LastCaptured(lib, value[fields[0].key], fields[0].pattern, name)
                  else None;
      Later(FieldsLastCaptured(lib, value, fields[1..], name), head)
  }

  function ItemsLastCaptured(lib: Library, value: seq<Json>, items: seq<Pattern>, name: string): Option<Json>
    requires |value| == |items|
    decreases items
  {
    if items == [] then None
    else Later(ItemsLastCaptured(lib, value[1..], items[1..], name), LastCaptured(lib, value[0], items[0], name))
  }

  /** What each name stands for in the end: its last captured value, or else the one it had. */
  function FinalBindings(lib: Library, value: Json, p: Pattern, c: Bindings): Bindings {
    map name | name in c.Keys + Names(p) && Later(LastCaptured(lib, value, p, name), Lookup(c, name)).Some? ::
      Later(LastCaptured(lib, value, p, name), Lookup(c, name)).value
  }

  lemma {:induction false} LastCaptureStays(lib: Library, value: Json, p: Pattern, c: Bindings, name: string)
    requires Match(lib, value, p, c).result.Ok?
    ensures Lookup(Match(lib, value, p, c).captures, name)
            == Later(LastCaptured(lib, value, p, name), Lookup(c, name))
    decreases p, 1
  {
    match p
    case Capture(_, check) =>
      OptionalLastCaptureStays(lib, value, check, c, name);
    case Jwt(_, _) =>
      TokenLastCaptureStays(lib, value, p, c, name);
    case Object(fields, _) =>
      FieldsLastCaptureStays(lib, value.fields, fields, c, name);
    case Array(items) =>
      ItemsLastCaptureStays(lib, value.items, items, c, name);
    case _ =>
  }

  lemma TokenLastCaptureStays(lib: Library, value: Json, p: Pattern, c: Bindings, name: string)
    requires p.Jwt? && Match(lib, value, p, c).result.Ok?
    ensures Lookup(Match(lib, value, p, c).captures, name)
            == Later(LastCaptured(lib, value, p, name), Lookup(c, name))
    decreases p, 0
  {
    var decoded := DecodeJwt(lib, value).value;
    OptionalLastCaptureStays(lib, decoded.0, p.header, c, name);
    OptionalLastCaptureStays(lib, decoded.1, p.claims, MatchOptional(lib, decoded.0, p.header, c).captures, name);
  }

  lemma {:induction false} OptionalLastCaptureStays(lib: Library, value: Json, p: Option<Pattern>, c: Bindings,
                                                    name: string)
    requires MatchOptional(lib, value, p, c).result.Ok?
    ensures Lookup(MatchOptional(lib, value, p, c).captures, name)
            == Later(OptionalLastCaptured(lib, value, p, name), Lookup(c, name))
    decreases p
  {
    if p.Some? {
      LastCaptureStays(lib, value, p.value, c, name);
    }
  }

  lemma {:induction false} FieldsLastCaptureStays(lib: Library, value: map<string, Json>, fields: seq<Field>,
                                                  c: Bindings, name: string)
    requires FieldKeys(fields) <= value.Keys
    requires MatchFields(lib, value, fields, c).result.Ok?
    ensures Lookup(MatchFields(lib, value, fields, c).captures, name)
            == Later(FieldsLastCaptured(lib, value, fields, name), Lookup(c, name))
    decreases fields
  {
    if fields != [] {
      SplitKeys(value, fields);
      var head := value[fields[0].key];
      LastCaptureStays(lib, head, fields[0].pattern, c, name);
      FieldsLastCaptureStays(lib, value, fields[1..], Match(lib, head, fields[0].pattern, c).captures, name);
    }
  }

  lemma {:induction false} ItemsLastCaptureStays(lib: Library, value: seq<Json>, items: seq<Pattern>, c: Bindings,
                                                 name: string)
    requires |value| == |items|
    requires MatchItems(lib, value, items, c).result.Ok?
    ensures Lookup(MatchItems(lib, value, items, c).captures, name)
            == Later(ItemsLastCaptured(lib, value, items, name), Lookup(c, name))
    decreases items
  {
    if items != [] {
      LastCaptureStays(lib, value[0], items[0], c, name);
      ItemsLastCaptureStays(lib, value[1..], items[1..], Match(lib, value[0], items[0], c).captures, name);
    }
  }

  /** A successful match leaves exactly these captures. */
  lemma CapturesAreFinalBindings(lib: Library, value: Json, p: Pattern, c: Bindings)
    requires Match(lib, value, p, c).result.Ok?
    ensures Match(lib, value, p, c).captures == FinalBindings(lib, value, p, c)
  {
    var left, bindings := Match(lib, value, p, c).captures, FinalBindings(lib, value, p, c);
    MatchBindsNames(lib, value, p, c);
    forall name ensures Lookup(left, name) == Lookup(bindings, name) {
      LastCaptureStays(lib, value, p, c, name);
    }
    EqualLookups(left, bindings);
  }

  lemma EqualLookups(c: Bindings, d: Bindings)
    requires forall name :: Lookup(c, name) == Lookup(d, name)
    ensures c == d
  {
    forall name ensures name in c <==> name in d {
      assert Lookup(c, name) == Lookup(d, name);
    }
    forall name | name in c ensures c[name] == d[name] {
      assert Lookup(c, name) == Lookup(d, name);
    }
  }

  /** The round trip of an accepted value gives the value itself exactly when every captured position holds the very
      value of the last position captured under its name, or of the earlier capture where there is none. */
  lemma RoundTripIsExactExactlyWhen(lib: Library, value: Json, p: Pattern, c: Bindings)
    requires IsExact(p) && Match(lib, value, p, c).result.Ok?
    ensures var run := Match(lib, value, p, c);
            Rebuild(p, run.result.value, run.captures) == value
            <==> CapturesAreIdentical(value, p, FinalBindings(lib, value, p, c))
  {
    var run := Match(lib, value, p, c);
    CapturesAreFinalBindings(lib, value, p, c);
    ExtendsIsReflexive(run.captures);
    RebuildUndoesMatch(lib, value, p, c, run.captures);
  }
}
