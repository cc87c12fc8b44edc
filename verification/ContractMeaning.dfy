/** What a successful match means, read off the pattern without any order of visits. */
module ContractMeaning {
  import opened Wrappers
  import opened PythonJson
  import opened ContractMatch

  /** `value` has the shape of `p`, every name standing for the one value `e` gives it. */
  ghost predicate Satisfies(lib: Library, value: Json, p: Pattern, e: Bindings)
    decreases p
  {
    match p
    case EqualsCapture(name) => name in e && PyEq(value, e[name])
    case Capture(name, check) => name in e && PyEq(value, e[name]) && SatisfiesOptional(lib, value, check, e)
    case HasFormat(format) => FormatHolds(lib, format, value)
    case Jwt(header, claims) =>
      && DecodeJwt(lib, value).Ok?
      && SatisfiesOptional(lib, DecodeJwt(lib, value).value.0, header, e)
      && SatisfiesOptional(lib, DecodeJwt(lib, value).value.1, claims, e)
    case Object(fields, allowExtra) =>
      && value.Obj?
      && FieldKeys(fields) <= value.fields.Keys
      && (allowExtra || value.fields.Keys <= FieldKeys(fields))
      && FieldsSatisfy(lib, value.fields, fields, e)
    case Array(items) => value.Arr? && |value.items| == |items| && ItemsSatisfy(lib, value.items, items, e)
    case Literal(expected) => value == expected
  }

  ghost predicate SatisfiesOptional(lib: Library, value: Json, p: Option<Pattern>, e: Bindings)
    decreases p
  {
    p.Some? ==> Satisfies(lib, value, p.value, e)
  }

  ghost predicate FieldsSatisfy(lib: Library, value: map<string, Json>, fields: seq<Field>, e: Bindings)
    decreases fields
  {
    forall i :: 0 <= i < |fields| ==>
      fields[i].key in value && Satisfies(lib, value[fields[i].key], fields[i].pattern, e)
  }

  ghost predicate ItemsSatisfy(lib: Library, value: seq<Json>, items: seq<Pattern>, e: Bindings)
    requires |value| == |items|
    decreases items
  {
    forall i :: 0 <= i < |items| ==> Satisfies(lib, value[i], items[i], e)
  }

  /** The names a pattern binds. */
  function Names(p: Pattern): set<string>
    decreases p
  {
    match p
    case Capture(name, check) => OptionalNames(check) + {name}
    case Jwt(header, claims) => OptionalNames(header) + OptionalNames(claims)
    case Object(fields, _) => FieldNames(fields)
    case Array(items) => ItemNames(items)
    case _ => {}
  }

  function OptionalNames(p: Option<Pattern>): set<string>
    decreases p
  {
    if p.None? then {} else Names(p.value)
  }

  function FieldNames(fields: seq<Field>): set<string>
    decreases fields
  {
    if fields == [] then {} else Names(fields[0].pattern) + FieldNames(fields[1..])
  }

  function ItemNames(items: seq<Pattern>): set<string>
    decreases items
  {
    if items == [] then {} else Names(items[0]) + ItemNames(items[1..])
  }

  /** Every name is captured before it is compared with, `known` being captured already. */
  predicate IsScoped(p: Pattern, known: set<string>)
    decreases p
  {
    match p
    case EqualsCapture(name) => name in known
    case Capture(name, check) => IsOptionalScoped(check, known)
    case Jwt(header, claims) =>
      IsOptionalScoped(header, known) && IsOptionalScoped(claims, known + OptionalNames(header))
    case Object(fields, _) => AreFieldsScoped(fields, known)
    case Array(items) => AreItemsScoped(items, known)
    case _ => true
  }

  predicate IsOptionalScoped(p: Option<Pattern>, known: set<string>)
    decreases p
  {
    p.Some? ==> IsScoped(p.value, known)
  }

  predicate AreFieldsScoped(fields: seq<Field>, known: set<string>)
    decreases fields
  {
    fields != [] ==>
      IsScoped(fields[0].pattern, known) && AreFieldsScoped(fields[1..], known + Names(fields[0].pattern))
  }

  predicate AreItemsScoped(items: seq<Pattern>, known: set<string>)
    decreases items
  {
    items != [] ==> IsScoped(items[0], known) && AreItemsScoped(items[1..], known + Names(items[0]))
  }

  // ---------- a successful match is scoped and binds exactly the pattern's names ----------

  ghost predicate Binds<T>(run: Run<T>, c: Bindings, scoped: bool, names: set<string>) {
    run.result.Ok? ==> scoped && run.captures.Keys == c.Keys + names
  }

  lemma {:induction false} MatchBindsNames(lib: Library, value: Json, p: Pattern, c: Bindings)
    ensures Binds(Match(lib, value, p, c), c, IsScoped(p, c.Keys), Names(p))
    decreases p
  {
    match p
    case Capture(name, check) =>
      OptionalBindsNames(lib, value, check, c);
    case Jwt(header, claims) =>
      var decoded := DecodeJwt(lib, value);
      if decoded.Ok? {
        OptionalBindsNames(lib, decoded.value.0, header, c);
        OptionalBindsNames(lib, decoded.value.1, claims, MatchOptional(lib, decoded.value.0, header, c).captures);
      }
    case Object(fields, allowExtra) =>
      if ShapeError(value, fields, allowExtra).None? {
        FieldsBindNames(lib, value.fields, fields, c);
      }
    case Array(items) =>
      if value.Arr? && |value.items| == |items| {
        ItemsBindNames(lib, value.items, items, c);
      }
    case _ =>
  }

  lemma {:induction false} OptionalBindsNames(lib: Library, value: Json, p: Option<Pattern>, c: Bindings)
    ensures Binds(MatchOptional(lib, value, p, c), c, IsOptionalScoped(p, c.Keys), OptionalNames(p))
    decreases p
  {
    if p.Some? {
      MatchBindsNames(lib, value, p.value, c);
    }
  }

  lemma {:induction false} FieldsBindNames(lib: Library, value: map<string, Json>, fields: seq<Field>, c: Bindings)
    requires FieldKeys(fields) <= value.Keys
    ensures Binds(MatchFields(lib, value, fields, c), c, AreFieldsScoped(fields, c.Keys), FieldNames(fields))
    decreases fields
  {
    if fields != [] {
      FirstField(value, fields);
      MatchBindsNames(lib, value[fields[0].key], fields[0].pattern, c);
      FieldsBindNames(lib, value, fields[1..], Match(lib, value[fields[0].key], fields[0].pattern, c).captures);
    }
  }

  lemma {:induction false} ItemsBindNames(lib: Library, value: seq<Json>, items: seq<Pattern>, c: Bindings)
    requires |value| == |items|
    ensures Binds(MatchItems(lib, value, items, c), c, AreItemsScoped(items, c.Keys), ItemNames(items))
    decreases items
  {
    if items != [] {
      MatchBindsNames(lib, value[0], items[0], c);
      ItemsBindNames(lib, value[1..], items[1..], Match(lib, value[0], items[0], c).captures);
    }
  }

  lemma FirstField(value: map<string, Json>, fields: seq<Field>)
    requires fields != [] && FieldKeys(fields) <= value.Keys
    ensures fields[0].key in value && FieldKeys(fields[1..]) <= value.Keys
  {
    assert fields[0].key in FieldKeys(fields);
    assert FieldKeys(fields[1..]) <= FieldKeys(fields);
  }

  // ---------- soundness ----------

  lemma PyEqThrough(value: Json, name: string, c: Bindings, e: Bindings)
    requires name in c && PyEq(value, c[name]) && Extends(e, c)
    ensures name in e && PyEq(value, e[name])
  {
    PyEqIsTransitive(value, c[name], e[name]);
  }

  /** After a successful match the value satisfies the pattern under the final captures and any extension of them. */
  lemma {:induction false} MatchIsSound(lib: Library, value: Json, p: Pattern, c: Bindings, e: Bindings)
    requires Match(lib, value, p, c).result.Ok? && Extends(e, Match(lib, value, p, c).captures)
    ensures Satisfies(lib, value, p, e)
    decreases p
  {
    match p
    case EqualsCapture(name) =>
      PyEqThrough(value, name, c, e);
    case Capture(name, check) =>
      var checked := MatchOptional(lib, value, check, c);
      BindExtends(name, value, checked);
      ExtendsIsTransitive(e, Bind(name, value, checked).captures, checked.captures);
      PyEqIsReflexive(value);
      PyEqThrough(value, name, Bind(name, value, checked).captures, e);
      OptionalIsSound(lib, value, check, c, e);
    case Jwt(header, claims) =>
      var decoded := DecodeJwt(lib, value).value;
      var first := MatchOptional(lib, decoded.0, header, c);
      OptionalOnlyGrows(lib, decoded.1, claims, first.captures);
      ExtendsIsTransitive(e, MatchOptional(lib, decoded.1, claims, first.captures).captures, first.captures);
      OptionalIsSound(lib, decoded.0, header, c, e);
      OptionalIsSound(lib, decoded.1, claims, first.captures, e);
    case Object(fields, allowExtra) =>
      FieldsAreSound(lib, value.fields, fields, c, e);
    case Array(items) =>
      ItemsAreSound(lib, value.items, items, c, e);
    case _ =>
  }

  lemma BindExtends(name: string, value: Json, checked: Run<Option<Json>>)
    ensures Extends(Bind(name, value, checked).captures, checked.captures)
  {
    ExtendsIsReflexive(checked.captures);
    BindOnlyGrows(name, value, checked, checked.captures);
  }

  lemma {:induction false} OptionalIsSound(lib: Library, value: Json, p: Option<Pattern>, c: Bindings, e: Bindings)
    requires MatchOptional(lib, value, p, c).result.Ok? && Extends(e, MatchOptional(lib, value, p, c).captures)
    ensures SatisfiesOptional(lib, value, p, e)
    decreases p
  {
    if p.Some? {
      MatchIsSound(lib, value, p.value, c, e);
    }
  }

  lemma {:induction false} FieldsAreSound(lib: Library, value: map<string, Json>, fields: seq<Field>, c: Bindings,
                                          e: Bindings)
    requires FieldKeys(fields) <= value.Keys
    requires MatchFields(lib, value, fields, c).result.Ok? && Extends(e, MatchFields(lib, value, fields, c).captures)
    ensures FieldsSatisfy(lib, value, fields, e)
    decreases fields
  {
    if fields != [] {
      FirstField(value, fields);
      var head := Match(lib, value[fields[0].key], fields[0].pattern, c);
      FieldsOnlyGrow(lib, value, fields[1..], head.captures);
      ExtendsIsTransitive(e, MatchFields(lib, value, fields[1..], head.captures).captures, head.captures);
      MatchIsSound(lib, value[fields[0].key], fields[0].pattern, c, e);
      FieldsAreSound(lib, value, fields[1..], head.captures, e);
      assert forall i :: 1 <= i < |fields| ==> fields[i] == fields[1..][i - 1];
    }
  }

  lemma {:induction false} ItemsAreSound(lib: Library, value: seq<Json>, items: seq<Pattern>, c: Bindings, e: Bindings)
    requires |value| == |items|
    requires MatchItems(lib, value, items, c).result.Ok? && Extends(e, MatchItems(lib, value, items, c).captures)
    ensures ItemsSatisfy(lib, value, items, e)
    decreases items
  {
    if items != [] {
      var head := Match(lib, value[0], items[0], c);
      ItemsOnlyGrow(lib, value[1..], items[1..], head.captures);
      ExtendsIsTransitive(e, MatchItems(lib, value[1..], items[1..], head.captures).captures, head.captures);
      MatchIsSound(lib, value[0], items[0], c, e);
      ItemsAreSound(lib, value[1..], items[1..], head.captures, e);
      assert forall i :: 1 <= i < |items| ==> items[i] == items[1..][i - 1] && value[i] == value[1..][i - 1];
    }
  }

  // ---------- completeness ----------

  /** The run succeeds and `e` still extends what is captured. */
  ghost predicate Fits<T>(run: Run<T>, e: Bindings) {
    run.result.Ok? && Extends(e, run.captures)
  }

  lemma {:induction false} MatchIsComplete(lib: Library, value: Json, p: Pattern, c: Bindings, e: Bindings)
    requires Satisfies(lib, value, p, e) && Extends(e, c) && IsScoped(p, c.Keys)
    ensures Fits(Match(lib, value, p, c), e)
    decreases p
  {
    match p
    case EqualsCapture(name) =>
      PyEqIsSymmetric(c[name], e[name]);
      PyEqIsTransitive(value, e[name], c[name]);
    case Capture(name, check) =>
      OptionalIsComplete(lib, value, check, c, e);
      BindFits(name, value, MatchOptional(lib, value, check, c), e);
    case Jwt(header, claims) =>
      var decoded := DecodeJwt(lib, value).value;
      var first := MatchOptional(lib, decoded.0, header, c);
      OptionalIsComplete(lib, decoded.0, header, c, e);
      OptionalBindsNames(lib, decoded.0, header, c);
      OptionalIsComplete(lib, decoded.1, claims, first.captures, e);
    case Object(fields, allowExtra) =>
      FieldsAreComplete(lib, value.fields, fields, c, e);
    case Array(items) =>
      ItemsAreComplete(lib, value.items, items, c, e);
    case _ =>
  }

  lemma BindFits(name: string, value: Json, checked: Run<Option<Json>>, e: Bindings)
    requires Fits(checked, e) && name in e && PyEq(value, e[name])
    ensures Fits(Bind(name, value, checked), e)
  {
    if name in checked.captures {
      PyEqIsSymmetric(value, e[name]);
      PyEqIsTransitive(checked.captures[name], e[name], value);
    }
  }

  lemma {:induction false} OptionalIsComplete(lib: Library, value: Json, p: Option<Pattern>, c: Bindings, e: Bindings)
    requires SatisfiesOptional(lib, value, p, e) && Extends(e, c) && IsOptionalScoped(p, c.Keys)
    ensures Fits(MatchOptional(lib, value, p, c), e)
    decreases p
  {
    if p.Some? {
      MatchIsComplete(lib, value, p.value, c, e);
    }
  }

  lemma {:induction false} FieldsAreComplete(lib: Library, value: map<string, Json>, fields: seq<Field>, c: Bindings,
                                             e: Bindings)
    requires FieldKeys(fields) <= value.Keys
    requires FieldsSatisfy(lib, value, fields, e) && Extends(e, c) && AreFieldsScoped(fields, c.Keys)
    ensures Fits(MatchFields(lib, value, fields, c), e)
    decreases fields
  {
    if fields != [] {
      FirstField(value, fields);
      MatchIsComplete(lib, value[fields[0].key], fields[0].pattern, c, e);
      MatchBindsNames(lib, value[fields[0].key], fields[0].pattern, c);
      assert FieldsSatisfy(lib, value, fields[1..], e);
      FieldsAreComplete(lib, value, fields[1..], Match(lib, value[fields[0].key], fields[0].pattern, c).captures, e);
    }
  }

  lemma {:induction false} ItemsAreComplete(lib: Library, value: seq<Json>, items: seq<Pattern>, c: Bindings,
                                            e: Bindings)
    requires |value| == |items|
    requires ItemsSatisfy(lib, value, items, e) && Extends(e, c) && AreItemsScoped(items, c.Keys)
    ensures Fits(MatchItems(lib, value, items, c), e)
    decreases items
  {
    if items != [] {
      MatchIsComplete(lib, value[0], items[0], c, e);
      MatchBindsNames(lib, value[0], items[0], c);
      assert ItemsSatisfy(lib, value[1..], items[1..], e);
      ItemsAreComplete(lib, value[1..], items[1..], Match(lib, value[0], items[0], c).captures, e);
    }
  }

  /** A match succeeds exactly when the pattern captures before it compares and one assignment of values to
      names, in keeping with the captures so far, makes the value satisfy the pattern. */
  lemma MatchSucceedsExactlyWhenSatisfiable(lib: Library, value: Json, p: Pattern, c: Bindings)
    ensures Match(lib, value, p, c).result.Ok? <==>
            IsScoped(p, c.Keys) && exists e :: Extends(e, c) && Satisfies(lib, value, p, e)
  {
    var run := Match(lib, value, p, c);
    if run.result.Ok? {
      MatchBindsNames(lib, value, p, c);
      CapturesOnlyGrow(lib, value, p, c);
      ExtendsIsReflexive(run.captures);
      MatchIsSound(lib, value, p, c, run.captures);
    }
    if e :| IsScoped(p, c.Keys) && Extends(e, c) && Satisfies(lib, value, p, e) {
      MatchIsComplete(lib, value, p, c, e);
    }
  }
}
