/** The contract matcher: patterns with captures, matched against decoded responses. */
module ContractMatch {
  import opened Wrappers
  import opened PythonJson

  datatype Format = Any | NonEmptyString | Uuid | Timestamp | Url | Unknown(name: string)

  /** One expected field. */
  datatype Field = Field(key: string, pattern: Pattern)

  /** A parsed expectation. An object lists its expected fields in key order, the order they are visited in;
      a literal is a scalar. */
  datatype Pattern =
    | EqualsCapture(name: string)
    | Capture(name: string, check: Option<Pattern>)
    | HasFormat(format: Format)
    | Jwt(header: Option<Pattern>, claims: Option<Pattern>)
    | Object(fields: seq<Field>, allowExtra: bool)
    | Array(items: seq<Pattern>)
    | Literal(value: Json)

  /** What the standard library decides: identifiers, dates, URLs and base64url-encoded JSON. */
  datatype Library = Library(
    isUuid: string -> bool,
    isTimestamp: string -> bool,
    isHttpUrl: string -> bool,
    decodeSegment: string -> Option<Json>)

  type Bindings = map<string, Json>

  datatype Response = Response(status: int, headers: map<string, string>, body: Json)

  /** What a response should look like; a JSON expectation takes the place of one for the plain body. */
  datatype Expectation =
    Expectation(status: int, headers: Option<seq<Field>>, json: Option<Pattern>, body: Option<Pattern>)

  datatype ResponseForm = ResponseForm(status: int, headers: Option<Json>, json: Option<Json>, body: Option<Json>)

  datatype Failure =
    | WrongStatus(expectedStatus: int, actualStatus: int)
    | UndefinedCapture(name: string)
    | DifferentValue(name: string)
    | ChangedCapture(name: string)
    | WrongFormat(format: Format)
    | NotCompactJwt
    | BadSegment
    | NotObject
    | MissingFields(keys: set<string>)
    | UnexpectedFields(keys: set<string>)
    | NotArray
    | WrongLength(expectedItems: nat, actualItems: nat)
    | WrongLiteral(expected: Json, actual: Json)

  /** How a match ended and the captures it left behind, which stay even when it fails. */
  datatype Run<T> = Run(result: Result<T, Failure>, captures: Bindings)

  predicate FormatHolds(lib: Library, format: Format, value: Json) {
    match format
    case Any => true
    case NonEmptyString => value.Str? && value.text != ""
    case Uuid => value.Str? && lib.isUuid(value.text)
    case Timestamp => value.Int? || value.Float? || (value.Str? && lib.isTimestamp(value.text))
    case Url => value.Str? && lib.isHttpUrl(value.text)
    case Unknown(_) => false
  }

  function Split(s: string): (parts: seq<string>)
    ensures |parts| > 0
  {
    if s == "" then [""]
    else
      var rest := Split(s[1..]);
      if s[0] == '.' then [""] + rest else [[s[0]] + rest[0]] + rest[1..]
  }

  /** The decoded header and claims of a compact token; its signature is not looked at. */
  function DecodeJwt(lib: Library, value: Json): Result<(Json, Json), Failure> {
    if !value.Str? || |Split(value.text)| != 3 then Err(NotCompactJwt)
    else
      var header, claims := lib.decodeSegment(Split(value.text)[0]), lib.decodeSegment(Split(value.text)[1]);
      if header.None? || claims.None? then Err(BadSegment) else Ok((header.value, claims.value))
  }

  function Placeholder(name: string): Json {
    Str("<capture:" + name + ">")
  }

  function JwtForm(token: Json, header: Option<Json>, claims: Option<Json>): Json {
    Obj((if claims.Some? then map["claims" := claims.value] else map[])
        + (if header.Some? then map["header" := header.value] else map[])
        + map["token" := token])
  }

  function FieldKeys(fields: seq<Field>): set<string> {
    set i | 0 <= i < |fields| :: fields[i].key
  }

  /** Checks the shape of an object before any field is visited. */
  function ShapeError(value: Json, fields: seq<Field>, allowExtra: bool): Option<Failure> {
    if !value.Obj? then Some(NotObject)
    else if !(FieldKeys(fields) <= value.fields.Keys) then Some(MissingFields(FieldKeys(fields) - value.fields.Keys))
    else if !allowExtra && !(value.fields.Keys <= FieldKeys(fields)) then
      Some(UnexpectedFields(value.fields.Keys - FieldKeys(fields)))
    else None
  }

  function Match(lib: Library, value: Json, p: Pattern, c: Bindings): Run<Json>
    decreases p
  {
    match p
    case EqualsCapture(name) =>
      if name !in c then Run(Err(UndefinedCapture(name)), c)
      else if !PyEq(value, c[name]) then Run(Err(DifferentValue(name)), c)
      else Run(Ok(Placeholder(name)), c)
    case Capture(name, check) =>
      Bind(name, value, MatchOptional(lib, value, check, c))
    case HasFormat(format) =>
      if FormatHolds(lib, format, value) then Run(Ok(value), c) else Run(Err(WrongFormat(format)), c)
    case Jwt(header, claims) =>
      var decoded := DecodeJwt(lib, value);
      if decoded.Err? then Run(Err(decoded.error), c)
      else
        var first := MatchOptional(lib, decoded.value.0, header, c);
        if first.result.Err? then Run(Err(first.result.error), first.captures)
        else
          FinishJwt(value, first.result.value, MatchOptional(lib, decoded.value.1, claims, first.captures))
    case Object(fields, allowExtra) =>
      var error := ShapeError(value, fields, allowExtra);
      if error.Some? then Run(Err(error.value), c)
      else
        var run := MatchFields(lib, value.fields, fields, c);
        if run.result.Err? then Run(Err(run.result.error), run.captures)
        else Run(Ok(Obj(run.result.value)), run.captures)
    case Array(items) =>
      if !value.Arr? then Run(Err(NotArray), c)
      else if |value.items| != |items| then Run(Err(WrongLength(|items|, |value.items|)), c)
      else
        var run := MatchItems(lib, value.items, items, c);
        if run.result.Err? then Run(Err(run.result.error), run.captures)
        else Run(Ok(Arr(run.result.value)), run.captures)
    case Literal(expected) =>
      if value == expected then Run(Ok(value), c) else Run(Err(WrongLiteral(expected, value)), c)
  }

  /** Binds a name to a value that passed its check, unless the name holds a different value. */
  function Bind(name: string, value: Json, checked: Run<Option<Json>>): Run<Json> {
    if checked.result.Err? then Run(Err(checked.result.error), checked.captures)
    else if name in checked.captures && !PyEq(checked.captures[name], value) then
      Run(Err(ChangedCapture(name)), checked.captures)
    else Run(Ok(Placeholder(name)), checked.captures[name := value])
  }

  function FinishJwt(token: Json, header: Option<Json>, claims: Run<Option<Json>>): Run<Json> {
    if claims.result.Err? then Run(Err(claims.result.error), claims.captures)
    else Run(Ok(JwtForm(token, header, claims.result.value)), claims.captures)
  }

  function MatchOptional(lib: Library, value: Json, p: Option<Pattern>, c: Bindings): Run<Option<Json>>
    decreases p
  {
    if p.None? then Run(Ok(None), c)
    else
      var run := Match(lib, value, p.value, c);
      if run.result.Err? then Run(Err(run.result.error), run.captures)
      else Run(Ok(Some(run.result.value)), run.captures)
  }

  function MatchFields(lib: Library, value: map<string, Json>, fields: seq<Field>, c: Bindings): Run<map<string, Json>>
    requires FieldKeys(fields) <= value.Keys
    decreases fields
  {
    if fields == [] then Run(Ok(map[]), c)
    else
      assert fields[0].key in FieldKeys(fields) && FieldKeys(fields[1..]) <= FieldKeys(fields);
      var head := Match(lib, value[fields[0].key], fields[0].pattern, c);
      if head.result.Err? then Run(Err(head.result.error), head.captures)
      else PutField(fields[0].key, head.result.value, MatchFields(lib, value, fields[1..], head.captures))
  }

  function PutField(key: string, form: Json, rest: Run<map<string, Json>>): Run<map<string, Json>> {
    if rest.result.Err? then rest else Run(Ok(map[key := form] + rest.result.value), rest.captures)
  }

  function MatchItems(lib: Library, value: seq<Json>, items: seq<Pattern>, c: Bindings): Run<seq<Json>>
    requires |value| == |items|
    decreases items
  {
    if items == [] then Run(Ok([]), c)
    else
      var head := Match(lib, value[0], items[0], c);
      if head.result.Err? then Run(Err(head.result.error), head.captures)
      else PutItem(head.result.value, MatchItems(lib, value[1..], items[1..], head.captures))
  }

  function PutItem<T>(form: T, rest: Run<seq<T>>): Run<seq<T>> {
    if rest.result.Err? then rest else Run(Ok([form] + rest.result.value), rest.captures)
  }

  function HeaderValue(headers: map<string, string>): Json {
    Obj(map name | name in headers :: Str(headers[name]))
  }

  /** Headers nobody asked about are ignored. */
  function HeaderPattern(headers: Option<seq<Field>>): Option<Pattern> {
    if headers.None? then None else Some(Object(headers.value, true))
  }

  function BodyPattern(wanted: Expectation): Option<Pattern> {
    if wanted.json.Some? then wanted.json else wanted.body
  }

  function Normalize(lib: Library, response: Response, wanted: Expectation, c: Bindings): Run<ResponseForm> {
    if response.status != wanted.status then Run(Err(WrongStatus(wanted.status, response.status)), c)
    else
      var headers := MatchOptional(lib, HeaderValue(response.headers), HeaderPattern(wanted.headers), c);
      if headers.result.Err? then Run(Err(headers.result.error), headers.captures)
      else
        var body := MatchOptional(lib, response.body, BodyPattern(wanted), headers.captures);
        if body.result.Err? then Run(Err(body.result.error), body.captures)
        else if wanted.json.Some? then
          Run(Ok(ResponseForm(response.status, headers.result.value, body.result.value, None)), body.captures)
        else Run(Ok(ResponseForm(response.status, headers.result.value, None, body.result.value)), body.captures)
  }

  /** The responses of a scenario, step by step over one set of captures. */
  function NormalizeAll(lib: Library, responses: seq<Response>, wanted: seq<Expectation>, c: Bindings)
    : Run<seq<ResponseForm>>
    requires |responses| == |wanted|
  {
    if wanted == [] then Run(Ok([]), c)
    else
      var head := Normalize(lib, responses[0], wanted[0], c);
      if head.result.Err? then Run(Err(head.result.error), head.captures)
      else PutItem(head.result.value, NormalizeAll(lib, responses[1..], wanted[1..], head.captures))
  }

  // ---------- the matcher, which updates its captures in place ----------

  function PutFields(done: map<string, Json>, rest: Run<map<string, Json>>): Run<map<string, Json>> {
    if rest.result.Err? then rest else Run(Ok(done + rest.result.value), rest.captures)
  }

  lemma NextField(lib: Library, value: map<string, Json>, fields: seq<Field>, i: nat, c: Bindings,
                  done: map<string, Json>)
    requires FieldKeys(fields) <= value.Keys && i < |fields|
    ensures FieldKeys(fields[i..]) <= value.Keys && FieldKeys(fields[i + 1..]) <= value.Keys
    ensures fields[i].key in value
    ensures var head := Match(lib, value[fields[i].key], fields[i].pattern, c);
            PutFields(done, MatchFields(lib, value, fields[i..], c))
            == if head.result.Err? then Run(Err(head.result.error), head.captures)
               else PutFields(done + map[fields[i].key := head.result.value],
                              MatchFields(lib, value, fields[i + 1..], head.captures))
  {
    assert fields[i].key in FieldKeys(fields);
    assert FieldKeys(fields[i..]) <= FieldKeys(fields) && FieldKeys(fields[i + 1..]) <= FieldKeys(fields);
    assert fields[i..][0] == fields[i] && fields[i..][1..] == fields[i + 1..];
    var head := Match(lib, value[fields[i].key], fields[i].pattern, c);
    var rest := MatchFields(lib, value, fields[i + 1..], head.captures);
    if head.result.Ok? && rest.result.Ok? {
      var entry := map[fields[i].key := head.result.value];
      assert done + (entry + rest.result.value) == (done + entry) + rest.result.value;
    }
  }

  lemma NoMoreFields(lib: Library, value: map<string, Json>, fields: seq<Field>, c: Bindings, done: map<string, Json>)
    ensures FieldKeys(fields[|fields|..]) == {}
    ensures PutFields(done, MatchFields(lib, value, fields[|fields|..], c)) == Run(Ok(done), c)
  {
    assert done + map[] == done;
  }

  function PutItems<T>(done: seq<T>, rest: Run<seq<T>>): Run<seq<T>> {
    if rest.result.Err? then rest else Run(Ok(done + rest.result.value), rest.captures)
  }

  lemma NextItem(lib: Library, value: seq<Json>, items: seq<Pattern>, i: nat, c: Bindings, done: seq<Json>)
    requires |value| == |items| && i < |items|
    ensures var head := Match(lib, value[i], items[i], c);
            PutItems(done, MatchItems(lib, value[i..], items[i..], c))
            == if head.result.Err? then Run(Err(head.result.error), head.captures)
               else PutItems(done + [head.result.value],
                             MatchItems(lib, value[i + 1..], items[i + 1..], head.captures))
  {
    assert value[i..][1..] == value[i + 1..] && items[i..][1..] == items[i + 1..];
    var head := Match(lib, value[i], items[i], c);
    var rest := MatchItems(lib, value[i + 1..], items[i + 1..], head.captures);
    if head.result.Ok? && rest.result.Ok? {
      assert done + ([head.result.value] + rest.result.value) == (done + [head.result.value]) + rest.result.value;
    }
  }

  lemma NoMoreItems(lib: Library, value: seq<Json>, items: seq<Pattern>, c: Bindings, done: seq<Json>)
    requires |value| == |items|
    ensures PutItems(done, MatchItems(lib, value[|items|..], items[|items|..], c)) == Run(Ok(done), c)
  {
    assert done + [] == done;
  }

  lemma NextStep(lib: Library, responses: seq<Response>, wanted: seq<Expectation>, i: nat, c: Bindings,
                 done: seq<ResponseForm>)
    requires |responses| == |wanted| && i < |wanted|
    ensures var head := Normalize(lib, responses[i], wanted[i], c);
            PutItems(done, NormalizeAll(lib, responses[i..], wanted[i..], c))
            == if head.result.Err? then Run(Err(head.result.error), head.captures)
               else PutItems(done + [head.result.value],
                             NormalizeAll(lib, responses[i + 1..], wanted[i + 1..], head.captures))
  {
    assert responses[i..][1..] == responses[i + 1..] && wanted[i..][1..] == wanted[i + 1..];
    var head := Normalize(lib, responses[i], wanted[i], c);
    var rest := NormalizeAll(lib, responses[i + 1..], wanted[i + 1..], head.captures);
    if head.result.Ok? && rest.result.Ok? {
      assert done + ([head.result.value] + rest.result.value) == (done + [head.result.value]) + rest.result.value;
    }
  }

  class Captures {
    var bindings: Bindings

    constructor ()
      ensures bindings == map[]
    {
      bindings := map[];
    }

    method Apply(lib: Library, value: Json, p: Pattern) returns (result: Result<Json, Failure>)
      modifies this
      ensures Run(result, bindings) == Match(lib, value, p, old(bindings))
      decreases p
    {
      match p
      case EqualsCapture(name) =>
        if name !in bindings {
          return Err(UndefinedCapture(name));
        }
        if !PyEq(value, bindings[name]) {
          return Err(DifferentValue(name));
        }
        return Ok(Placeholder(name));
      case Capture(name, check) =>
        var checked := ApplyOptional(lib, value, check);
        if checked.Err? {
          return Err(checked.error);
        }
        if name in bindings && !PyEq(bindings[name], value) {
          return Err(ChangedCapture(name));
        }
        bindings := bindings[name := value];
        return Ok(Placeholder(name));
      case HasFormat(format) =>
        return if FormatHolds(lib, format, value) then Ok(value) else Err(WrongFormat(format));
      case Jwt(header, claims) =>
        var decoded := DecodeJwt(lib, value);
        if decoded.Err? {
          return Err(decoded.error);
        }
        var first := ApplyOptional(lib, decoded.value.0, header);
        if first.Err? {
          return Err(first.error);
        }
        var second := ApplyOptional(lib, decoded.value.1, claims);
        if second.Err? {
          return Err(second.error);
        }
        return Ok(JwtForm(value, first.value, second.value));
      case Object(fields, allowExtra) =>
        var error := ShapeError(value, fields, allowExtra);
        if error.Some? {
          return Err(error.value);
        }
        var forms := ApplyFields(lib, value.fields, fields);
        return if forms.Err? then Err(forms.error) else Ok(Obj(forms.value));
      case Array(items) =>
        if !value.Arr? {
          return Err(NotArray);
        }
        if |value.items| != |items| {
          return Err(WrongLength(|items|, |value.items|));
        }
        var forms := ApplyItems(lib, value.items, items);
        return if forms.Err? then Err(forms.error) else Ok(Arr(forms.value));
      case Literal(expected) =>
        return if value == expected then Ok(value) else Err(WrongLiteral(expected, value));
    }

    method NormalizeResponse(lib: Library, response: Response, wanted: Expectation)
      returns (result: Result<ResponseForm, Failure>)
      modifies this
      ensures Run(result, bindings) == Normalize(lib, response, wanted, old(bindings))
    {
      if response.status != wanted.status {
        return Err(WrongStatus(wanted.status, response.status));
      }
      var form := ResponseForm(response.status, None, None, None);
      if wanted.headers.Some? {
        var headers := Apply(lib, HeaderValue(response.headers), Object(wanted.headers.value, true));
        if headers.Err? {
          return Err(headers.error);
        }
        form := form.(headers := Some(headers.value));
      }
      if wanted.json.Some? {
        var json := Apply(lib, response.body, wanted.json.value);
        if json.Err? {
          return Err(json.error);
        }
        form := form.(json := Some(json.value));
      } else if wanted.body.Some? {
        var body := Apply(lib, response.body, wanted.body.value);
        if body.Err? {
          return Err(body.error);
        }
        form := form.(body := Some(body.value));
      }
      return Ok(form);
    }

    method NormalizeSteps(lib: Library, responses: seq<Response>, wanted: seq<Expectation>)
      returns (result: Result<seq<ResponseForm>, Failure>)
      requires |responses| == |wanted|
      modifies this
      ensures Run(result, bindings) == NormalizeAll(lib, responses, wanted, old(bindings))
    {
      var forms: seq<ResponseForm> := [];
      ghost var all := NormalizeAll(lib, responses, wanted, bindings);
      assert responses[0..] == responses && wanted[0..] == wanted;
      assert all == PutItems(forms, all) by {
        if all.result.Ok? {
          assert [] + all.result.value == all.result.value;
        }
      }
      for i := 0 to |wanted|
        invariant all == PutItems(forms, NormalizeAll(lib, responses[i..], wanted[i..], bindings))
      {
        NextStep(lib, responses, wanted, i, bindings, forms);
        var form := NormalizeResponse(lib, responses[i], wanted[i]);
        if form.Err? {
          return Err(form.error);
        }
        forms := forms + [form.value];
      }
      assert forms + [] == forms;
      return Ok(forms);
    }

    method ApplyOptional(lib: Library, value: Json, p: Option<Pattern>) returns (result: Result<Option<Json>, Failure>)
      modifies this
      ensures Run(result, bindings) == MatchOptional(lib, value, p, old(bindings))
      decreases p
    {
      if p.None? {
        return Ok(None);
      }
      var form := Apply(lib, value, p.value);
      return if form.Err? then Err(form.error) else Ok(Some(form.value));
    }

    method ApplyFields(lib: Library, value: map<string, Json>, fields: seq<Field>)
      returns (result: Result<map<string, Json>, Failure>)
      requires FieldKeys(fields) <= value.Keys
      modifies this
      ensures Run(result, bindings) == MatchFields(lib, value, fields, old(bindings))
      decreases fields
    {
      var forms: map<string, Json> := map[];
      ghost var all := MatchFields(lib, value, fields, bindings);
      assert fields[0..] == fields;
      assert all == PutFields(forms, all) by {
        if all.result.Ok? {
          assert map[] + all.result.value == all.result.value;
        }
      }
      for i := 0 to |fields|
        invariant FieldKeys(fields[i..]) <= value.Keys
        invariant all == PutFields(forms, MatchFields(lib, value, fields[i..], bindings))
      {
        NextField(lib, value, fields, i, bindings, forms);
        var form := Apply(lib, value[fields[i].key], fields[i].pattern);
        if form.Err? {
          return Err(form.error);
        }
        forms := forms + map[fields[i].key := form.value];
      }
      NoMoreFields(lib, value, fields, bindings, forms);
      return Ok(forms);
    }

    method ApplyItems(lib: Library, value: seq<Json>, items: seq<Pattern>) returns (result: Result<seq<Json>, Failure>)
      requires |value| == |items|
      modifies this
      ensures Run(result, bindings) == MatchItems(lib, value, items, old(bindings))
      decreases items
    {
      var forms: seq<Json> := [];
      ghost var all := MatchItems(lib, value, items, bindings);
      assert value[0..] == value && items[0..] == items;
      assert all == PutItems(forms, all) by {
        if all.result.Ok? {
          assert [] + all.result.value == all.result.value;
        }
      }
      for i := 0 to |items|
        invariant all == PutItems(forms, MatchItems(lib, value[i..], items[i..], bindings))
      {
        NextItem(lib, value, items, i, bindings, forms);
        var form := Apply(lib, value[i], items[i]);
        if form.Err? {
          return Err(form.error);
        }
        forms := forms + [form.value];
      }
      NoMoreItems(lib, value, items, bindings, forms);
      return Ok(forms);
    }
  }

  // ---------- captures only grow ----------

  /** `e` knows every name of `c`, with a value equal to the one `c` has. */
  ghost predicate Extends(e: Bindings, c: Bindings) {
    forall name :: name in c ==> name in e && PyEq(c[name], e[name])
  }

  lemma ExtendsIsReflexive(c: Bindings)
    ensures Extends(c, c)
  {
    forall name | name in c ensures PyEq(c[name], c[name]) {
      PyEqIsReflexive(c[name]);
    }
  }

  lemma ExtendsIsTransitive(a: Bindings, b: Bindings, c: Bindings)
    requires Extends(a, b) && Extends(b, c)
    ensures Extends(a, c)
  {
    forall name | name in c ensures name in a && PyEq(c[name], a[name]) {
      PyEqIsTransitive(c[name], b[name], a[name]);
    }
  }

  /** A run forgets no capture and rebinds none to a different value, whether it succeeds or fails. */
  lemma {:induction false} CapturesOnlyGrow(lib: Library, value: Json, p: Pattern, c: Bindings)
    ensures Extends(Match(lib, value, p, c).captures, c)
    decreases p
  {
    ExtendsIsReflexive(c);
    match p
    case Capture(name, check) =>
      OptionalOnlyGrows(lib, value, check, c);
      BindOnlyGrows(name, value, MatchOptional(lib, value, check, c), c);
    case Jwt(header, claims) =>
      var decoded := DecodeJwt(lib, value);
      if decoded.Ok? {
        var first := MatchOptional(lib, decoded.value.0, header, c);
        OptionalOnlyGrows(lib, decoded.value.0, header, c);
        OptionalOnlyGrows(lib, decoded.value.1, claims, first.captures);
        ExtendsIsTransitive(MatchOptional(lib, decoded.value.1, claims, first.captures).captures, first.captures, c);
      }
    case Object(fields, allowExtra) =>
      if ShapeError(value, fields, allowExtra).None? {
        FieldsOnlyGrow(lib, value.fields, fields, c);
      }
    case Array(items) =>
      if value.Arr? && |value.items| == |items| {
        ItemsOnlyGrow(lib, value.items, items, c);
      }
    case _ =>
  }

  lemma BindOnlyGrows(name: string, value: Json, checked: Run<Option<Json>>, c: Bindings)
    requires Extends(checked.captures, c)
    ensures Extends(Bind(name, value, checked).captures, c)
  {
    ExtendsIsReflexive(checked.captures);
    ExtendsIsTransitive(Bind(name, value, checked).captures, checked.captures, c);
  }

  lemma {:induction false} OptionalOnlyGrows(lib: Library, value: Json, p: Option<Pattern>, c: Bindings)
    ensures Extends(MatchOptional(lib, value, p, c).captures, c)
    decreases p
  {
    ExtendsIsReflexive(c);
    if p.Some? {
      CapturesOnlyGrow(lib, value, p.value, c);
    }
  }

  lemma {:induction false} FieldsOnlyGrow(lib: Library, value: map<string, Json>, fields: seq<Field>, c: Bindings)
    requires FieldKeys(fields) <= value.Keys
    ensures Extends(MatchFields(lib, value, fields, c).captures, c)
    decreases fields
  {
    ExtendsIsReflexive(c);
    if fields != [] {
      assert fields[0].key in FieldKeys(fields) && FieldKeys(fields[1..]) <= FieldKeys(fields);
      var head := Match(lib, value[fields[0].key], fields[0].pattern, c);
      CapturesOnlyGrow(lib, value[fields[0].key], fields[0].pattern, c);
      FieldsOnlyGrow(lib, value, fields[1..], head.captures);
      ExtendsIsTransitive(MatchFields(lib, value, fields[1..], head.captures).captures, head.captures, c);
    }
  }

  lemma {:induction false} ItemsOnlyGrow(lib: Library, value: seq<Json>, items: seq<Pattern>, c: Bindings)
    requires |value| == |items|
    ensures Extends(MatchItems(lib, value, items, c).captures, c)
    decreases items
  {
    ExtendsIsReflexive(c);
    if items != [] {
      var head := Match(lib, value[0], items[0], c);
      CapturesOnlyGrow(lib, value[0], items[0], c);
      ItemsOnlyGrow(lib, value[1..], items[1..], head.captures);
      ExtendsIsTransitive(MatchItems(lib, value[1..], items[1..], head.captures).captures, head.captures, c);
    }
  }
}
