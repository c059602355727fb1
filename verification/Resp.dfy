/**
 Reading and writing arrays of strings in the Redis serialization protocol (RESP2).

 Models CLIProxyAPI/internal/api/redis_queue_protocol.go and encodeRESPArray of
 CLIProxyAPI/internal/home/certificate.go.  A byte is a char, so a length is a number of bytes.
 */
module Resp {
  import opened Wrappers
  import Decimal

  const MAX_INT: int := 0x7FFF_FFFF_FFFF_FFFF

  datatype Error = UnexpectedEnd | Protocol

  /** What a read gives, and what it leaves in the stream. */
  datatype Read<T> = Read(result: Result<T, Error>, rest: string)

  // ---- numbers ------------------------------------------------------------------

  predicate IsDigit(c: char) {
    '0' <= c <= '9'
  }

  function NumberOf(text: string): nat
    requires forall c | c in text :: IsDigit(c)
  {
    if text == "" then 0
    else
      var last := text[|text| - 1];
      assert last in text && IsDigit(last);
      10 * NumberOf(text[..|text| - 1]) + (last - '0') as int
  }

  /** strconv.Atoi: an optional sign, decimal digits, and the range of a 64-bit integer. */
  function Atoi(text: string): Option<int> {
    var signed := text != "" && (text[0] == '+' || text[0] == '-');
    var digits := if signed then text[1..] else text;
    if digits == "" || exists i | 0 <= i < |digits| :: !IsDigit(digits[i]) then None
    else
      var size: int := NumberOf(digits);
      var n := if signed && text[0] == '-' then -size else size;
      if -MAX_INT - 1 <= n <= MAX_INT then Some(n) else None
  }

  lemma TextIsDigits(n: nat)
    ensures Decimal.Text(n) != "" && forall c | c in Decimal.Text(n) :: IsDigit(c)
  {
    var ds := Decimal.Digits(n);
    assert forall i | 0 <= i < |ds| :: IsDigit('0' + ds[i] as char);
  }

  lemma {:induction false} NumberOfText(n: nat)
    ensures (forall c | c in Decimal.Text(n) :: IsDigit(c)) && NumberOf(Decimal.Text(n)) == n
  {
    TextIsDigits(n);
    var text := Decimal.Text(n);
    if n < 10 {
      assert text[..0] == "" && NumberOf(text[..0]) == 0;
    } else {
      NumberOfText(n / 10);
      assert text[..|text| - 1] == Decimal.Text(n / 10);
    }
  }

  lemma AtoiOfText(n: nat)
    requires n <= MAX_INT
    ensures Atoi(Decimal.Text(n)) == Some(n)
  {
    TextIsDigits(n);
    NumberOfText(n);
    assert Decimal.Text(n)[0] in Decimal.Text(n);
  }

  // ---- reading ------------------------------------------------------------------

  function LineEnd(s: string): (i: nat)
    ensures i <= |s| && (i < |s| ==> s[i] == '\n') && forall j | 0 <= j < i :: s[j] != '\n'
  {
    if s == "" || s[0] == '\n' then 0 else 1 + LineEnd(s[1..])
  }

  function WithoutReturn(line: string): string {
    if line != "" && line[|line| - 1] == '\r' then line[..|line| - 1] else line
  }

  function ReadLine(s: string): Read<string> {
    var i := LineEnd(s);
    if i == |s| then Read(Err(UnexpectedEnd), "") else Read(Ok(WithoutReturn(s[..i])), s[i + 1..])
  }

  /** A length, and as many bytes; a negative length is an absent string. */
  function ReadBulk(s: string): Read<string> {
    var line := ReadLine(s);
    if line.result.Err? then line
    else
      match Atoi(line.result.value)
      case None => Read(Err(Protocol), line.rest)
      case Some(length) =>
        if length < 0 then Read(Ok(""), line.rest)
        else if |line.rest| < length + 2 then Read(Err(UnexpectedEnd), "")
        else if line.rest[length] != '\r' || line.rest[length + 1] != '\n' then Read(Err(Protocol), line.rest[length + 2..])
        else Read(Ok(line.rest[..length]), line.rest[length + 2..])
  }

  function ReadString(s: string): Read<string> {
    if s == "" then Read(Err(UnexpectedEnd), "")
    else if s[0] == '$' then ReadBulk(s[1..])
    else if s[0] == '+' || s[0] == ':' then ReadLine(s[1..])
    else Read(Err(Protocol), s[1..])
  }

  function ReadStrings(s: string, count: nat): Read<seq<string>> {
    if count == 0 then Read(Ok([]), s)
    else
      var first := ReadString(s);
      if first.result.Err? then Read(Err(first.result.error), first.rest)
      else
        Prepend([first.result.value], ReadStrings(first.rest, count - 1))
  }

  function Prepend(args: seq<string>, more: Read<seq<string>>): Read<seq<string>> {
    if more.result.Err? then more else Read(Ok(args + more.result.value), more.rest)
  }

  lemma PrependTwice(a: seq<string>, b: seq<string>, more: Read<seq<string>>)
    ensures Prepend(a, Prepend(b, more)) == Prepend(a + b, more) && Prepend([], more) == more
  {
    if more.result.Ok? {
      assert a + (b + more.result.value) == a + b + more.result.value;
      assert [] + more.result.value == more.result.value;
    }
  }

  function ReadArray(s: string): Read<seq<string>> {
    if s == "" then Read(Err(UnexpectedEnd), "")
    else if s[0] != '*' then Read(Err(Protocol), s[1..])
    else
      var line := ReadLine(s[1..]);
      if line.result.Err? then Read(Err(line.result.error), line.rest)
      else
        match Atoi(line.result.value)
        case None => Read(Err(Protocol), line.rest)
        case Some(count) => if count < 0 then Read(Err(Protocol), line.rest) else ReadStrings(line.rest, count)
  }

  /** The buffered reader, consumed from the front. */
  class Reader {
    var rest: string

    constructor (s: string)
      ensures rest == s
    {
      rest := s;
    }

    method NextByte() returns (b: Option<char>)
      modifies this
      ensures if old(rest) == "" then b == None && rest == "" else b == Some(old(rest)[0]) && rest == old(rest)[1..]
    {
      if rest == "" { return None; }
      b, rest := Some(rest[0]), rest[1..];
    }

    method NextLine() returns (r: Result<string, Error>)
      modifies this
      ensures Read(r, rest) == ReadLine(old(rest))
    {
      var i := 0;
      while i < |rest| && rest[i] != '\n'
        invariant i <= LineEnd(rest)
      {
        i := i + 1;
      }
      if i == |rest| {
        rest := "";
        return Err(UnexpectedEnd);
      }
      r, rest := Ok(WithoutReturn(rest[..i])), rest[i + 1..];
    }

    method NextBulk() returns (r: Result<string, Error>)
      modifies this
      ensures Read(r, rest) == ReadBulk(old(rest))
    {
      r := NextLine();
      if r.Err? { return; }
      var length := Atoi(r.value);
      if length.None? { return Err(Protocol); }
      if length.value < 0 { return Ok(""); }
      if |rest| < length.value + 2 {
        rest := "";
        return Err(UnexpectedEnd);
      }
      var buf := rest[..length.value + 2];
      rest := rest[length.value + 2..];
      if buf[length.value] != '\r' || buf[length.value + 1] != '\n' { return Err(Protocol); }
      assert buf[..length.value] == old(ReadLine(rest).rest)[..length.value];
      return Ok(buf[..length.value]);
    }

    method NextString() returns (r: Result<string, Error>)
      modifies this
      ensures Read(r, rest) == ReadString(old(rest))
    {
      var prefix := NextByte();
      if prefix.None? { return Err(UnexpectedEnd); }
      if prefix.value == '$' {
        r := NextBulk();
      } else if prefix.value == '+' || prefix.value == ':' {
        r := NextLine();
      } else {
        r := Err(Protocol);
      }
    }

    method NextArray() returns (r: Result<seq<string>, Error>)
      modifies this
      ensures Read(r, rest) == ReadArray(old(rest))
    {
      var prefix := NextByte();
      if prefix.None? { return Err(UnexpectedEnd); }
      if prefix.value != '*' { return Err(Protocol); }
      var line := NextLine();
      if line.Err? { return Err(line.error); }
      var count := Atoi(line.value);
      if count.None? || count.value < 0 { return Err(Protocol); }
      r := NextStrings(count.value);
    }

    method NextStrings(count: nat) returns (r: Result<seq<string>, Error>)
      modifies this
      ensures Read(r, rest) == ReadStrings(old(rest), count)
    {
      var args: seq<string> := [];
      PrependTwice([], [], ReadStrings(rest, count));
      for i := 0 to count
        invariant ReadStrings(old(rest), count) == Prepend(args, ReadStrings(rest, count - i))
      {
        var s := NextString();
        if s.Err? { return Err(s.error); }
        PrependTwice(args, [s.value], ReadStrings(rest, count - i - 1));
        args := args + [s.value];
      }
      assert args + [] == args;
      return Ok(args);
    }
  }

  // ---- writing ------------------------------------------------------------------

  function Concat(parts: seq<string>): string {
    if parts == [] then "" else parts[0] + Concat(parts[1..])
  }

  function BulkHeader(n: nat): string {
    "$" + Decimal.Text(n) + "\r\n"
  }

  /** A bulk string, or the absent one. */
  function EncodeBulk(item: Option<string>): string {
    match item
    case None => "$-1\r\n"
    case Some(payload) => Concat([BulkHeader(|payload|), payload, "\r\n"])
  }

  lemma PayloadEncoded(payload: string)
    ensures EncodeBulk(Some(payload)) == BulkHeader(|payload|) + (payload + "\r\n")
  {
    var parts := [BulkHeader(|payload|), payload, "\r\n"];
    assert parts[1..] == [payload, "\r\n"] && parts[1..][1..] == ["\r\n"] && parts[1..][1..][1..] == [];
    assert Concat(["\r\n"]) == "\r\n" + "";
    assert Concat([payload, "\r\n"]) == payload + Concat(["\r\n"]);
    assert Concat(parts) == parts[0] + Concat(parts[1..]);
  }

  function Bulks(items: seq<Option<string>>): (r: seq<string>)
    ensures |r| == |items| && forall i | 0 <= i < |r| :: r[i] == EncodeBulk(items[i])
  {
    seq(|items|, i requires 0 <= i < |items| => EncodeBulk(items[i]))
  }

  function EncodeBulks(items: seq<Option<string>>): string {
    Concat(Bulks(items))
  }

  function EncodeItems(items: seq<Option<string>>): string {
    "*" + Decimal.Text(|items|) + "\r\n" + EncodeBulks(items)
  }

  function Present(args: seq<string>): (r: seq<Option<string>>)
    ensures |r| == |args| && forall i | 0 <= i < |r| :: r[i] == Some(args[i])
  {
    seq(|args|, i requires 0 <= i < |args| => Some(args[i]))
  }

  function EncodeArray(args: seq<string>): string {
    EncodeItems(Present(args))
  }

  lemma {:induction false} ConcatAppend(parts: seq<string>, last: string)
    ensures Concat(parts + [last]) == Concat(parts) + last
  {
    if parts == [] {
      assert Concat([last]) == last + "";
    } else {
      ConcatAppend(parts[1..], last);
      assert (parts + [last])[1..] == parts[1..] + [last];
      Regroup(parts[0], Concat(parts[1..]), last);
    }
  }

  lemma Regroup(a: string, b: string, c: string)
    ensures (a + b) + c == a + (b + c)
  {
  }

  lemma Pieces(a: string, b: string, c: string, d: string)
    ensures a + b + c + d == a + (b + (c + d))
  {
  }

  /** encodeRESPArray fills its buffer piece by piece. */
  method WriteArray(args: seq<string>) returns (buf: string)
    ensures buf == EncodeArray(args)
  {
    ghost var parts := Bulks(Present(args));
    buf := "*" + Decimal.Text(|args|) + "\r\n";
    ghost var header := buf;
    for i := 0 to |args|
      invariant buf == header + Concat(parts[..i])
    {
      assert parts[..i + 1] == parts[..i] + [parts[i]];
      ConcatAppend(parts[..i], parts[i]);
      Regroup(header, Concat(parts[..i]), parts[i]);
      PayloadEncoded(args[i]);
      Pieces(buf, BulkHeader(|args[i]|), args[i], "\r\n");
      buf := buf + BulkHeader(|args[i]|) + args[i] + "\r\n";
    }
    assert parts[..|args|] == parts;
  }

  /** The writer the queue server answers on. */
  class Writer {
    var written: string

    constructor ()
      ensures written == ""
    {
      written := "";
    }

    method WriteBulk(item: Option<string>)
      modifies this
      ensures written == old(written) + EncodeBulk(item)
    {
      if item.None? {
        written := written + "$-1\r\n";
      } else {
        PayloadEncoded(item.value);
        Pieces(written, BulkHeader(|item.value|), item.value, "\r\n");
        written := written + BulkHeader(|item.value|);
        written := written + item.value;
        written := written + "\r\n";
      }
    }

    method WriteItems(items: seq<Option<string>>)
      modifies this
      ensures written == old(written) + EncodeItems(items)
    {
      written := written + ("*" + Decimal.Text(|items|) + "\r\n");
      WriteBulks(items);
      Regroup(old(written), "*" + Decimal.Text(|items|) + "\r\n", EncodeBulks(items));
    }

    method WriteBulks(items: seq<Option<string>>)
      modifies this
      ensures written == old(written) + EncodeBulks(items)
    {
      ghost var parts := Bulks(items);
      for i := 0 to |items|
        invariant written == old(written) + Concat(parts[..i])
      {
        WriteNext(old(written), parts, i, items[i]);
      }
      assert parts[..|items|] == parts;
    }

    method WriteNext(ghost start: string, ghost parts: seq<string>, ghost i: nat, item: Option<string>)
      requires i < |parts| && parts[i] == EncodeBulk(item) && written == start + Concat(parts[..i])
      modifies this
      ensures written == start + Concat(parts[..i + 1])
    {
      assert parts[..i + 1] == parts[..i] + [parts[i]];
      ConcatAppend(parts[..i], parts[i]);
      Regroup(start, Concat(parts[..i]), parts[i]);
      WriteBulk(item);
    }
  }
}
