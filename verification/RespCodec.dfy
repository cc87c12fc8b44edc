/** The fixture adapter's Redis wire format: command encoding and reply decoding. */
module RespCodec {
  import opened Wrappers

  type Byte = b: int | 0 <= b < 256
  type Bytes = seq<Byte>

  const LF: Byte := 10
  const CRLF: Bytes := [13, 10]
  const PLUS: Byte := 43
  const MINUS: Byte := 45
  const COLON: Byte := 58
  const DOLLAR: Byte := 36
  const STAR: Byte := 42
  const UNDERSCORE: Byte := 95
  const ZERO: Byte := 48

  datatype Reply = Nil | Simple(text: Bytes) | Integer(value: int) | Bulk(data: Bytes) | Multi(items: seq<Reply>)

  datatype Failure =
    | Closed
    | MalformedLine
    | ServerError(message: Bytes)
    | BadInteger
    | BadLength
    | MalformedBulk
    | UnsupportedMarker(marker: Byte)

  /** How reading ended and the bytes left on the stream. */
  datatype Parse<T> = Parse(result: Result<T, Failure>, rest: Bytes)

  // ---------- numbers ----------

  predicate IsDigit(b: Byte) {
    ZERO <= b < ZERO + 10
  }

  /** The decimal digits of a number, without a leading zero. */
  function Digits(n: nat): (s: Bytes)
    ensures s != [] && forall i :: 0 <= i < |s| ==> IsDigit(s[i])
  {
    if n < 10 then [ZERO + n] else Digits(n / 10) + [ZERO + n % 10]
  }

  function Decimal(v: int): Bytes {
    if v < 0 then [MINUS] + Digits(-v) else Digits(v)
  }

  predicate IsSpace(b: Byte) {
    b == 32 || 9 <= b <= 13
  }

  function Strip(s: Bytes): Bytes
    decreases |s|
  {
    if s == [] then []
    else if IsSpace(s[0]) then Strip(s[1..])
    else if IsSpace(s[|s| - 1]) then Strip(s[..|s| - 1])
    else s
  }

  /** Digits, with single underscores allowed between them. */
  function Magnitude(s: Bytes): Option<nat>
    decreases |s|
  {
    if s == [] || !IsDigit(s[|s| - 1]) then None
    else
      var digit, front := s[|s| - 1] - ZERO, s[..|s| - 1];
      if front == [] then Some(digit)
      else
        var head := Magnitude(if front[|front| - 1] == UNDERSCORE then front[..|front| - 1] else front);
        if head.None? then None else Some(10 * head.value + digit)
  }

  /** Python's `int` of a byte string. */
  function ParseInt(payload: Bytes): Option<int> {
    var s := Strip(payload);
    if s != [] && (s[0] == MINUS || s[0] == PLUS) then
      var m := Magnitude(s[1..]);
      if m.None? then None else Some(if s[0] == MINUS then -(m.value as int) else m.value)
    else
      var m := Magnitude(s);
      if m.None? then None else Some(m.value)
  }

  lemma {:induction false} MagnitudeOfDigits(n: nat)
    ensures Magnitude(Digits(n)) == Some(n)
  {
    if n >= 10 {
      MagnitudeOfDigits(n / 10);
      assert Digits(n)[..|Digits(n)| - 1] == Digits(n / 10);
    }
  }

  lemma NothingToStrip(s: Bytes)
    requires s != [] && !IsSpace(s[0]) && !IsSpace(s[|s| - 1])
    ensures Strip(s) == s
  {
  }

  lemma ParseIntOfDecimal(v: int)
    ensures ParseInt(Decimal(v)) == Some(v)
  {
    var s := Decimal(v);
    NothingToStrip(s);
    if v < 0 {
      MagnitudeOfDigits(-v);
      assert s[1..] == Digits(-v);
    } else {
      MagnitudeOfDigits(v);
      assert IsDigit(s[0]);
    }
  }

  lemma DecimalHasNoNewline(v: int)
    ensures LF !in Decimal(v)
  {
  }

  // ---------- lines ----------

  /** Up to and including the first newline, or everything when there is none. */
  function Line(s: Bytes): (line: Bytes)
    ensures line <= s
  {
    if s == [] then [] else if s[0] == LF then [LF] else [s[0]] + Line(s[1..])
  }

  predicate IsTerminated(line: Bytes) {
    |line| >= 2 && line[|line| - 2..] == CRLF
  }

  lemma {:induction false} LineOfText(text: Bytes, tail: Bytes)
    requires LF !in text
    ensures Line(text + CRLF + tail) == text + CRLF
  {
    if text == [] {
      assert Line((CRLF + tail)[1..]) == [LF];
      assert [] + CRLF + tail == CRLF + tail;
      assert Line(CRLF + tail) == CRLF;
    } else {
      LineOfText(text[1..], tail);
      assert (text + CRLF + tail)[1..] == text[1..] + CRLF + tail;
    }
  }

  lemma {:induction false} LineIsStable(s: Bytes, t: Bytes)
    requires Line(s) != [] && Line(s)[|Line(s)| - 1] == LF
    ensures Line(s + t) == Line(s)
  {
    if s[0] != LF {
      LineIsStable(s[1..], t);
      assert (s + t)[1..] == s[1..] + t;
    }
  }

  // ---------- decoding ----------

  /** What follows a bulk header: that many bytes and a line end. */
  function DecodeBulk(length: int, s: Bytes): Parse<Reply> {
    if length == -1 then Parse(Ok(Nil), s)
    else if length < 0 then Parse(Err(BadLength), s)
    else
      var value, after := Take(s, length), Drop(s, length);
      Parse(if Take(after, 2) != CRLF then Err(MalformedBulk) else Ok(Bulk(value)), Drop(after, 2))
  }

  /** A read of `n` bytes returns fewer at the end of the stream. */
  function Take(s: Bytes, n: nat): Bytes {
    if n <= |s| then s[..n] else s
  }

  function Drop(s: Bytes, n: nat): Bytes {
    if n <= |s| then s[n..] else []
  }

  function Decode(s: Bytes): (r: Parse<Reply>)
    ensures |r.rest| <= |s| && (r.result.Ok? ==> |r.rest| < |s|)
    decreases |s|, 0
  {
    if s == [] then Parse(Err(Closed), [])
    else
      var line, after := Line(s[1..]), s[1..][|Line(s[1..])|..];
      if !IsTerminated(line) then Parse(Err(MalformedLine), after) else DecodeLine(s[0], line[..|line| - 2], after)
  }

  /** The reply that a marker and the rest of its line introduce. */
  function DecodeLine(marker: Byte, payload: Bytes, after: Bytes): (r: Parse<Reply>)
    ensures |r.rest| <= |after|
    decreases |after|, 2
  {
    if marker == PLUS then Parse(Ok(Simple(payload)), after)
    else if marker == MINUS then Parse(Err(ServerError(payload)), after)
    else if marker == COLON then
      Parse(if ParseInt(payload).None? then Err(BadInteger) else Ok(Integer(ParseInt(payload).value)), after)
    else if marker == DOLLAR then
      if ParseInt(payload).None? then Parse(Err(BadInteger), after) else DecodeBulk(ParseInt(payload).value, after)
    else if marker == STAR then
      if ParseInt(payload).None? then Parse(Err(BadInteger), after)
      else if ParseInt(payload).value == -1 then Parse(Ok(Nil), after)
      else AsMulti(DecodeMany(ParseInt(payload).value, after))
    else Parse(Err(UnsupportedMarker(marker)), after)
  }

  function AsMulti(many: Parse<seq<Reply>>): Parse<Reply> {
    Parse(if many.result.Err? then Err(many.result.error) else Ok(Multi(many.result.value)), many.rest)
  }

  function DecodeMany(n: int, s: Bytes): (r: Parse<seq<Reply>>)
    ensures |r.rest| <= |s|
    decreases |s|, 1
  {
    if n <= 0 then Parse(Ok([]), s)
    else
      var head := Decode(s);
      if head.result.Err? then Parse(Err(head.result.error), head.rest)
      else Push(head.result.value, DecodeMany(n - 1, head.rest))
  }

  function Push(first: Reply, more: Parse<seq<Reply>>): Parse<seq<Reply>> {
    if more.result.Err? then more else Parse(Ok([first] + more.result.value), more.rest)
  }

  function Prepend(done: seq<Reply>, more: Parse<seq<Reply>>): Parse<seq<Reply>> {
    if more.result.Err? then more else Parse(Ok(done + more.result.value), more.rest)
  }

  lemma PrependNothing(more: Parse<seq<Reply>>)
    ensures Prepend([], more) == more
  {
    if more.result.Ok? {
      assert [] + more.result.value == more.result.value;
    }
  }

  lemma PrependNext(done: seq<Reply>, n: int, s: Bytes)
    requires n > 0
    ensures Prepend(done, DecodeMany(n, s))
            == if Decode(s).result.Err? then Parse(Err(Decode(s).result.error), Decode(s).rest)
               else Prepend(done + [Decode(s).result.value], DecodeMany(n - 1, Decode(s).rest))
  {
    if Decode(s).result.Ok? {
      var first, more := Decode(s).result.value, DecodeMany(n - 1, Decode(s).rest);
      if more.result.Ok? {
        assert done + ([first] + more.result.value) == (done + [first]) + more.result.value;
      }
    }
  }

  // ---------- encoding ----------

  function SerializeAll(items: seq<Reply>): Bytes
    decreases items
  {
    if items == [] then [] else Serialize(items[0]) + SerializeAll(items[1..])
  }

  /** The protocol's own form of a reply. */
  function Serialize(reply: Reply): Bytes
    decreases reply
  {
    match reply
    case Nil => [DOLLAR] + (Decimal(-1) + CRLF)
    case Simple(text) => [PLUS] + (text + CRLF)
    case Integer(v) => [COLON] + (Decimal(v) + CRLF)
    case Bulk(data) => [DOLLAR] + (Decimal(|data|) + CRLF) + (data + CRLF)
    case Multi(items) => [STAR] + (Decimal(|items|) + CRLF) + SerializeAll(items)
  }

  /** Simple text is one line; everything else may hold any bytes. */
  predicate IsSendable(reply: Reply)
    decreases reply
  {
    match reply
    case Simple(text) => LF !in text
    case Multi(items) => forall i :: 0 <= i < |items| ==> IsSendable(items[i])
    case _ => true
  }

  function Bulks(parts: seq<Bytes>): seq<Reply> {
    seq(|parts|, i requires 0 <= i < |parts| => Bulk(parts[i]))
  }

  function Join(chunks: seq<Bytes>): Bytes {
    if chunks == [] then [] else Join(chunks[..|chunks| - 1]) + chunks[|chunks| - 1]
  }

  method Encode(parts: seq<Bytes>) returns (bytes: Bytes)
    ensures bytes == Serialize(Multi(Bulks(parts)))
  {
    var encoded: seq<Bytes> := [[STAR] + (Decimal(|parts|) + CRLF)];
    for i := 0 to |parts|
      invariant Join(encoded) + SerializeAll(Bulks(parts)[i..]) == Serialize(Multi(Bulks(parts)))
    {
      ghost var rest := SerializeAll(Bulks(parts)[i + 1..]);
      assert Bulks(parts)[i..][1..] == Bulks(parts)[i + 1..];
      var header := [DOLLAR] + (Decimal(|parts[i]|) + CRLF);
      JoinThree(encoded, header, parts[i], CRLF);
      Reassociate(Join(encoded), header, parts[i], CRLF, rest);
      encoded := encoded + [header, parts[i], CRLF];
    }
    assert Bulks(parts)[|parts|..] == [];
    return Join(encoded);
  }

  lemma JoinOne(chunks: seq<Bytes>, a: Bytes)
    ensures Join(chunks + [a]) == Join(chunks) + a
  {
    assert (chunks + [a])[..|chunks|] == chunks;
  }

  lemma JoinThree(chunks: seq<Bytes>, a: Bytes, b: Bytes, c: Bytes)
    ensures Join(chunks + [a, b, c]) == ((Join(chunks) + a) + b) + c
  {
    JoinOne(chunks, a);
    JoinOne(chunks + [a], b);
    JoinOne(chunks + [a] + [b], c);
    assert chunks + [a, b, c] == chunks + [a] + [b] + [c];
  }

  lemma Reassociate(done: Bytes, a: Bytes, b: Bytes, c: Bytes, rest: Bytes)
    ensures (((done + a) + b) + c) + rest == done + ((a + (b + c)) + rest)
  {
  }

  // ---------- the decoder, which reads its stream in place ----------

  class Stream {
    const content: Bytes
    var position: nat

    ghost predicate Valid()
      reads this
    {
      position <= |content|
    }

    /** The bytes not read yet. */
    ghost function Rest(): Bytes
      reads this
      requires Valid()
    {
      content[position..]
    }

    constructor (content: Bytes)
      ensures Valid() && Rest() == content
    {
      this.content := content;
      position := 0;
    }

    method Read(n: nat) returns (data: Bytes)
      requires Valid()
      modifies this
      ensures Valid() && data == Take(old(Rest()), n) && Rest() == Drop(old(Rest()), n)
    {
      var end := if position + n <= |content| then position + n else |content|;
      data := content[position..end];
      position := end;
    }

    method ReadLine() returns (line: Bytes)
      requires Valid()
      modifies this
      ensures Valid() && line == Line(old(Rest())) && Rest() == old(Rest())[|line|..]
    {
      line := Line(content[position..]);
      position := position + |line|;
    }

    method ReadBulk(length: int) returns (result: Result<Reply, Failure>)
      requires Valid()
      modifies this
      ensures Valid() && Parse(result, Rest()) == DecodeBulk(length, old(Rest()))
    {
      if length == -1 {
        return Ok(Nil);
      }
      if length < 0 {
        return Err(BadLength);
      }
      var value := Read(length);
      var end := Read(2);
      return if end != CRLF then Err(MalformedBulk) else Ok(Bulk(value));
    }

    method ReadReply() returns (result: Result<Reply, Failure>)
      requires Valid()
      modifies this
      ensures Valid() && Parse(result, Rest()) == Decode(old(Rest()))
      decreases |Rest()|, 0
    {
      var marker := Read(1);
      if marker == [] {
        return Err(Closed);
      }
      var line := ReadLine();
      if !IsTerminated(line) {
        return Err(MalformedLine);
      }
      result := ReadPayload(marker[0], line[..|line| - 2]);
    }

    /** The reply that a marker and the rest of its line introduce. */
    method ReadPayload(marker: Byte, payload: Bytes) returns (result: Result<Reply, Failure>)
      requires Valid()
      modifies this
      ensures Valid() && Parse(result, Rest()) == DecodeLine(marker, payload, old(Rest()))
      decreases |Rest()|, 2
    {
      if marker == PLUS {
        return Ok(Simple(payload));
      }
      if marker == MINUS {
        return Err(ServerError(payload));
      }
      if marker == COLON {
        var value := ParseInt(payload);
        return if value.None? then Err(BadInteger) else Ok(Integer(value.value));
      }
      if marker == DOLLAR {
        var length := ParseInt(payload);
        if length.None? {
          return Err(BadInteger);
        }
        result := ReadBulk(length.value);
        return;
      }
      if marker == STAR {
        var length := ParseInt(payload);
        if length.None? {
          return Err(BadInteger);
        }
        if length.value == -1 {
          return Ok(Nil);
        }
        var items := ReadMany(length.value);
        return if items.Err? then Err(items.error) else Ok(Multi(items.value));
      }
      return Err(UnsupportedMarker(marker));
    }

    method ReadMany(length: int) returns (result: Result<seq<Reply>, Failure>)
      requires Valid()
      modifies this
      ensures Valid() && Parse(result, Rest()) == DecodeMany(length, old(Rest()))
      decreases |Rest()|, 1
    {
      var items: seq<Reply> := [];
      ghost var all := DecodeMany(length, Rest());
      PrependNothing(all);
      var i := 0;
      while i < length
        invariant Valid() && |Rest()| <= |old(Rest())|
        invariant all == Prepend(items, DecodeMany(length - i, Rest()))
      {
        PrependNext(items, length - i, Rest());
        var item := ReadReply();
        if item.Err? {
          return Err(item.error);
        }
        items := items + [item.value];
        i := i + 1;
      }
      assert items + [] == items;
      return Ok(items);
    }
  }

  // ---------- framing ----------

  lemma DecodeAfterLine(marker: Byte, line: Bytes, after: Bytes)
    requires IsTerminated(line) && Line(line + after) == line
    ensures Decode([marker] + (line + after)) == DecodeLine(marker, line[..|line| - 2], after)
  {
    assert ([marker] + (line + after))[1..] == line + after;
    assert (line + after)[|line|..] == after;
  }

  lemma SplitAtLine(s: Bytes, t: Bytes)
    requires s != [] && IsTerminated(Line(s[1..]))
    ensures var line, after := Line(s[1..]), s[1..][|Line(s[1..])|..];
            && s == [s[0]] + (line + after) && s + t == [s[0]] + (line + (after + t))
            && Line(line + after) == Line(line + (after + t)) == line
  {
    var line, after := Line(s[1..]), s[1..][|Line(s[1..])|..];
    LineIsStable(s[1..], t);
    assert s[1..] == line + after;
    Associates(line, after, t);
    Associates([s[0]], line + after, t);
  }

  /** Bytes that arrive later change neither a decoded reply nor where it ended. */
  lemma {:induction false} DecodeIsStable(s: Bytes, t: Bytes)
    requires Decode(s).result.Ok?
    ensures Decode(s + t) == Parse(Decode(s).result, Decode(s).rest + t)
    decreases |s|, 0
  {
    var line, after := Line(s[1..]), s[1..][|Line(s[1..])|..];
    SplitAtLine(s, t);
    DecodeAfterLine(s[0], line, after);
    DecodeAfterLine(s[0], line, after + t);
    DecodeLineIsStable(s[0], line[..|line| - 2], after, t);
  }

  lemma {:induction false} DecodeLineIsStable(marker: Byte, payload: Bytes, after: Bytes, t: Bytes)
    requires DecodeLine(marker, payload, after).result.Ok?
    ensures DecodeLine(marker, payload, after + t)
            == Parse(DecodeLine(marker, payload, after).result, DecodeLine(marker, payload, after).rest + t)
    decreases |after|, 2
  {
    if marker == DOLLAR {
      DecodeBulkIsStable(ParseInt(payload).value, after, t);
    } else if marker == STAR && ParseInt(payload).value != -1 {
      DecodeManyIsStable(ParseInt(payload).value, after, t);
    }
  }

  lemma DecodeBulkIsStable(length: int, s: Bytes, t: Bytes)
    requires DecodeBulk(length, s).result.Ok?
    ensures DecodeBulk(length, s + t) == Parse(DecodeBulk(length, s).result, DecodeBulk(length, s).rest + t)
  {
    if length >= 0 {
      assert length + 2 <= |s|;
      assert (s + t)[..length] == s[..length];
      assert (s + t)[length..] == s[length..] + t;
      assert (s[length..] + t)[..2] == s[length..][..2];
      assert (s[length..] + t)[2..] == s[length..][2..] + t;
    }
  }

  lemma {:induction false} DecodeManyIsStable(n: int, s: Bytes, t: Bytes)
    requires DecodeMany(n, s).result.Ok?
    ensures DecodeMany(n, s + t) == Parse(DecodeMany(n, s).result, DecodeMany(n, s).rest + t)
    decreases |s|, 1
  {
    if n > 0 {
      DecodeIsStable(s, t);
      DecodeManyIsStable(n - 1, Decode(s).rest, t);
    }
  }

  /** A message is incomplete as long as bytes of it are missing. */
  lemma PrefixIsRejected(prefix: Bytes, missing: Bytes)
    requires missing != []
    requires Decode(prefix + missing).result.Ok? ==> Decode(prefix + missing).rest == []
    ensures Decode(prefix).result.Err?
  {
    if Decode(prefix).result.Ok? {
      DecodeIsStable(prefix, missing);
    }
  }

  // ---------- round trip ----------

  lemma DecodeOfLine(marker: Byte, payload: Bytes, tail: Bytes)
    requires LF !in payload
    ensures Decode([marker] + (payload + CRLF) + tail) == DecodeLine(marker, payload, tail)
  {
    var line := payload + CRLF;
    LineOfText(payload, tail);
    DecodeAfterLine(marker, line, tail);
    Associates([marker], line, tail);
    assert line[..|line| - 2] == payload;
  }

  lemma DecodeOfNumber(marker: Byte, v: int, more: Bytes, tail: Bytes)
    ensures ParseInt(Decimal(v)) == Some(v)
    ensures Decode([marker] + (Decimal(v) + CRLF) + more + tail) == DecodeLine(marker, Decimal(v), more + tail)
  {
    ParseIntOfDecimal(v);
    DecimalHasNoNewline(v);
    DecodeOfLine(marker, Decimal(v), more + tail);
    Associates([marker] + (Decimal(v) + CRLF), more, tail);
  }

  lemma Associates(a: Bytes, b: Bytes, c: Bytes)
    ensures a + b + c == a + (b + c)
  {
  }

  /** Decoding undoes encoding: the reply comes back whole and the bytes after it are left alone. */
  lemma {:induction false} DecodeUndoesSerialize(reply: Reply, tail: Bytes)
    requires IsSendable(reply)
    ensures Decode(Serialize(reply) + tail) == Parse(Ok(reply), tail)
    decreases reply
  {
    match reply
    case Multi(items) =>
      DecodeManyUndoesSerializeAll(items, tail);
      DecodeOfMulti(items, SerializeAll(items), tail);
    case _ =>
      DecodeUndoesSerializeOfScalar(reply, tail);
  }

  lemma DecodeOfMulti(items: seq<Reply>, body: Bytes, tail: Bytes)
    requires DecodeMany(|items|, body + tail) == Parse(Ok(items), tail)
    ensures Decode([STAR] + (Decimal(|items|) + CRLF) + body + tail) == Parse(Ok(Multi(items)), tail)
  {
    DecodeOfNumber(STAR, |items|, body, tail);
  }

  lemma DecodeUndoesSerializeOfScalar(reply: Reply, tail: Bytes)
    requires !reply.Multi? && IsSendable(reply)
    ensures Decode(Serialize(reply) + tail) == Parse(Ok(reply), tail)
  {
    assert [] + tail == tail;
    match reply
    case Simple(text) =>
      DecodeOfLine(PLUS, text, tail);
    case Nil =>
      DecodeOfNumber(DOLLAR, -1, [], tail);
      assert Serialize(reply) + [] == Serialize(reply);
    case Integer(v) =>
      DecodeOfNumber(COLON, v, [], tail);
      assert Serialize(reply) + [] == Serialize(reply);
    case Bulk(data) =>
      DecodeOfNumber(DOLLAR, |data|, data + CRLF, tail);
      DecodeBulkOf(data, tail);
  }

  lemma DecodeBulkOf(data: Bytes, tail: Bytes)
    ensures DecodeBulk(|data|, data + CRLF + tail) == Parse(Ok(Bulk(data)), tail)
  {
    var s := data + CRLF + tail;
    assert s[..|data|] == data;
    assert s[|data|..] == CRLF + tail;
    assert (CRLF + tail)[..2] == CRLF && (CRLF + tail)[2..] == tail;
  }

  lemma DecodeManyStep(n: nat, s: Bytes, first: Reply, more: Bytes)
    requires n > 0 && Decode(s) == Parse(Ok(first), more)
    ensures DecodeMany(n, s) == Push(first, DecodeMany(n - 1, more))
  {
  }

  lemma {:induction false} DecodeManyUndoesSerializeAll(items: seq<Reply>, tail: Bytes)
    requires forall i :: 0 <= i < |items| ==> IsSendable(items[i])
    ensures DecodeMany(|items|, SerializeAll(items) + tail) == Parse(Ok(items), tail)
    decreases items
  {
    if items == [] {
      assert SerializeAll(items) + tail == tail;
    } else {
      var more := SerializeAll(items[1..]) + tail;
      assert SerializeAll(items) + tail == Serialize(items[0]) + more;
      DecodeUndoesSerialize(items[0], more);
      DecodeManyUndoesSerializeAll(items[1..], tail);
      DecodeManyStep(|items|, Serialize(items[0]) + more, items[0], more);
      assert [items[0]] + items[1..] == items;
    }
  }

  /** A command of any byte strings decodes to those strings, whatever follows it, and no strict prefix of
      it decodes. */
  lemma CommandsAreFramed(parts: seq<Bytes>, tail: Bytes)
    ensures var command := Serialize(Multi(Bulks(parts)));
            && Decode(command + tail) == Parse(Ok(Multi(Bulks(parts))), tail)
            && forall k :: 0 <= k < |command| ==> Decode(command[..k]).result.Err?
  {
    var reply := Multi(Bulks(parts));
    var command := Serialize(reply);
    DecodeUndoesSerialize(reply, tail);
    DecodeUndoesSerialize(reply, []);
    assert command + [] == command;
    forall k | 0 <= k < |command| ensures Decode(command[..k]).result.Err? {
      assert command[..k] + command[k..] == command;
      PrefixIsRejected(command[..k], command[k..]);
    }
  }
}
