/**
 What is written is read back, whatever bytes it holds, and half of it is never read as a whole.
 */
module RespRoundTrip {
  import opened Wrappers
  import opened Resp

  /** A length Go can hold in an int. */
  predicate Sized(items: seq<Option<string>>) {
    |items| <= MAX_INT && forall i | 0 <= i < |items| && items[i].Some? :: |items[i].value| <= MAX_INT
  }

  /** An absent string reads as the empty one. */
  function Values(items: seq<Option<string>>): seq<string> {
    seq(|items|, i requires 0 <= i < |items| => items[i].GetOr(""))
  }

  lemma LineEndAt(s: string, i: nat)
    requires i < |s| && s[i] == '\n' && forall j | 0 <= j < i :: s[j] != '\n'
    ensures LineEnd(s) == i
  {
  }

  /** A line without a newline is read as it was written, and no more. */
  lemma LineRoundTrip(line: string, tail: string)
    requires '\n' !in line
    ensures ReadLine(line + "\r\n" + tail) == Read(Ok(line), tail)
  {
    var s := line + "\r\n" + tail;
    LineEndAt(s, |line| + 1);
    assert s[..|line| + 1] == line + "\r";
    assert s[|line| + 2..] == tail;
    assert (line + "\r")[..|line|] == line;
  }

  lemma HeaderRoundTrip(n: nat, tail: string)
    requires n <= MAX_INT
    ensures ReadLine(Decimal.Text(n) + "\r\n" + tail) == Read(Ok(Decimal.Text(n)), tail)
    ensures Atoi(Decimal.Text(n)) == Some(n)
  {
    TextIsDigits(n);
    AtoiOfText(n);
    assert !IsDigit('\n');
    LineRoundTrip(Decimal.Text(n), tail);
  }

  lemma PayloadRoundTrip(payload: string, tail: string)
    requires |payload| <= MAX_INT
    ensures ReadBulk(Decimal.Text(|payload|) + "\r\n" + (payload + "\r\n" + tail)) == Read(Ok(payload), tail)
  {
    var after := payload + "\r\n" + tail;
    HeaderRoundTrip(|payload|, after);
    assert after[|payload|] == '\r' && after[|payload| + 1] == '\n';
    assert after[..|payload|] == payload && after[|payload| + 2..] == tail;
  }

  lemma AbsentRoundTrip(tail: string)
    ensures ReadBulk("-1" + "\r\n" + tail) == Read(Ok(""), tail)
  {
    LineRoundTrip("-1", tail);
    MinusOne();
  }

  lemma AfterDollar(s: string, t: string)
    requires s == "$" + t
    ensures ReadString(s) == ReadBulk(t)
  {
    assert s[1..] == t;
  }

  lemma Dollar(n: nat, t: string)
    ensures BulkHeader(n) + t == "$" + (Decimal.Text(n) + "\r\n" + t)
  {
  }

  lemma BulkRoundTrip(item: Option<string>, tail: string)
    requires item.Some? ==> |item.value| <= MAX_INT
    ensures ReadString(EncodeBulk(item) + tail) == Read(Ok(item.GetOr("")), tail)
  {
    var s := EncodeBulk(item) + tail;
    if item.None? {
      AbsentRoundTrip(tail);
      AfterDollar(s, "-1" + "\r\n" + tail);
    } else {
      PayloadEncoded(item.value);
      PayloadRoundTrip(item.value, tail);
      Regroup(BulkHeader(|item.value|), item.value + "\r\n", tail);
      Dollar(|item.value|, item.value + "\r\n" + tail);
      AfterDollar(s, Decimal.Text(|item.value|) + "\r\n" + (item.value + "\r\n" + tail));
    }
  }

  lemma MinusOne()
    ensures Atoi("-1") == Some(-1)
  {
    assert "-1"[1..] == "1";
    assert "1"[..0] == "" && NumberOf("1"[..0]) == 0 && NumberOf("1") == 1;
  }

  lemma BulksSplit(items: seq<Option<string>>)
    requires items != []
    ensures EncodeBulks(items) == EncodeBulk(items[0]) + EncodeBulks(items[1..])
  {
    assert Bulks(items)[1..] == Bulks(items[1..]);
  }

  /** One string and then the others. */
  lemma StringsStep(first: string, others: string, tail: string, value: string, count: nat)
    requires count > 0 && ReadString(first + (others + tail)) == Read(Ok(value), others + tail)
    ensures ReadStrings(first + others + tail, count) == Prepend([value], ReadStrings(others + tail, count - 1))
  {
    Regroup(first, others, tail);
  }

  lemma {:induction false} StringsRoundTrip(items: seq<Option<string>>, tail: string)
    requires Sized(items)
    ensures ReadStrings(EncodeBulks(items) + tail, |items|) == Read(Ok(Values(items)), tail)
  {
    if items == [] {
      assert Bulks(items) == [] && Values(items) == [] && "" + tail == tail;
    } else {
      BulkRoundTrip(items[0], EncodeBulks(items[1..]) + tail);
      StringsRoundTrip(items[1..], tail);
      BulksSplit(items);
      ValuesSplit(items);
      StringsStep(EncodeBulk(items[0]), EncodeBulks(items[1..]), tail, items[0].GetOr(""), |items|);
    }
  }

  lemma ValuesSplit(items: seq<Option<string>>)
    requires items != []
    ensures Values(items) == [items[0].GetOr("")] + Values(items[1..])
  {
  }

  /** Main result: an array reads back as written, and the bytes behind it stay in the stream. */
  lemma ItemsRoundTrip(items: seq<Option<string>>, tail: string)
    requires Sized(items)
    ensures ReadArray(EncodeItems(items) + tail) == Read(Ok(Values(items)), tail)
  {
    var s := EncodeItems(items) + tail;
    var after := EncodeBulks(items) + tail;
    assert s[1..] == Decimal.Text(|items|) + "\r\n" + after;
    HeaderRoundTrip(|items|, after);
    StringsRoundTrip(items, tail);
  }

  // ---- streams of arrays ---------------------------------------------------------------

  function EncodeAll(arrays: seq<seq<string>>): string {
    if arrays == [] then "" else EncodeArray(arrays[0]) + EncodeAll(arrays[1..])
  }

  /** Reads so many arrays one after the other. */
  function ReadAll(s: string, count: nat): Read<seq<seq<string>>>
    decreases count
  {
    if count == 0 then Read(Ok([]), s)
    else
      var first := ReadArray(s);
      if first.result.Err? then Read(Err(first.result.error), first.rest)
      else
        var others := ReadAll(first.rest, count - 1);
        if others.result.Err? then others else Read(Ok([first.result.value] + others.result.value), others.rest)
  }

  /** Main result: any number of requests in a row read back in order, and what follows is untouched. */
  lemma {:induction false} StreamRoundTrip(arrays: seq<seq<string>>, tail: string)
    requires forall i | 0 <= i < |arrays| :: Sized(Present(arrays[i]))
    ensures ReadAll(EncodeAll(arrays) + tail, |arrays|) == Read(Ok(arrays), tail)
  {
    if arrays == [] {
      assert "" + tail == tail;
    } else {
      var others := EncodeAll(arrays[1..]);
      Regroup(EncodeArray(arrays[0]), others, tail);
      ItemsRoundTrip(Present(arrays[0]), others + tail);
      assert Values(Present(arrays[0])) == arrays[0];
      StreamRoundTrip(arrays[1..], tail);
      assert [arrays[0]] + arrays[1..] == arrays;
    }
  }

  /** Different requests never look the same. */
  lemma EncodingInjective(a: seq<string>, b: seq<string>)
    requires Sized(Present(a)) && Sized(Present(b)) && EncodeArray(a) == EncodeArray(b)
    ensures a == b
  {
    assert EncodeArray(a) + "" == EncodeArray(a) && EncodeArray(b) + "" == EncodeArray(b);
    ItemsRoundTrip(Present(a), "");
    ItemsRoundTrip(Present(b), "");
    assert Values(Present(a)) == a && Values(Present(b)) == b;
  }

  // ---- truncated streams -------------------------------------------------------------

  /** The start of a stream: everything up to some byte before its end. */
  ghost predicate Cut(p: string, whole: string) {
    p < whole
  }

  lemma CutOfSum(p: string, a: string, b: string)
    requires Cut(p, a + b)
    ensures Cut(p, a) || (a <= p && p == a + p[|a|..] && Cut(p[|a|..], b))
  {
    if |p| < |a| {
      assert p == (a + b)[..|p|] == a[..|p|];
    } else {
      assert p[..|a|] == (a + b)[..|p|][..|a|] == a;
      assert p[|a|..] == b[..|p| - |a|];
    }
  }

  lemma LineCut(line: string, p: string)
    requires '\n' !in line && Cut(p, line + "\r\n")
    ensures ReadLine(p) == Read(Err(UnexpectedEnd), "")
  {
    assert forall i | 0 <= i < |p| :: p[i] == (line + "\r\n")[i];
  }

  lemma BulkCut(item: Option<string>, p: string)
    requires (item.Some? ==> |item.value| <= MAX_INT) && Cut(p, EncodeBulk(item))
    ensures ReadString(p).result == Err(UnexpectedEnd)
  {
    if p != "" {
      var q := p[1..];
      if item.None? {
        assert EncodeBulk(item)[1..] == "-1" + "\r\n";
        assert Cut(q, "-1" + "\r\n");
        LineCut("-1", q);
      } else {
        PayloadEncoded(item.value);
        Dollar(|item.value|, item.value + "\r\n");
        assert EncodeBulk(item)[1..] == Decimal.Text(|item.value|) + "\r\n" + (item.value + "\r\n");
        PayloadCut(item.value, q);
      }
    }
  }

  lemma PayloadCut(payload: string, q: string)
    requires |payload| <= MAX_INT && Cut(q, Decimal.Text(|payload|) + "\r\n" + (payload + "\r\n"))
    ensures ReadBulk(q).result == Err(UnexpectedEnd)
  {
    var header, body := Decimal.Text(|payload|) + "\r\n", payload + "\r\n";
    CutOfSum(q, header, body);
    if Cut(q, header) { HeaderCut(|payload|, q); } else { HeaderRoundTrip(|payload|, q[|header|..]); }
  }

  lemma {:induction false} StringsCut(items: seq<Option<string>>, p: string)
    requires Sized(items) && Cut(p, EncodeBulks(items))
    ensures ReadStrings(p, |items|).result == Err(UnexpectedEnd)
  {
    if items != [] {
      var first, others := EncodeBulk(items[0]), EncodeBulks(items[1..]);
      BulksSplit(items);
      CutOfSum(p, first, others);
      if Cut(p, first) {
        BulkCut(items[0], p);
      } else {
        BulkRoundTrip(items[0], p[|first|..]);
        StringsCut(items[1..], p[|first|..]);
      }
    }
  }

  lemma HeaderCut(n: nat, p: string)
    requires n <= MAX_INT && Cut(p, Decimal.Text(n) + "\r\n")
    ensures ReadLine(p) == Read(Err(UnexpectedEnd), "")
  {
    TextIsDigits(n);
    assert !IsDigit('\n');
    LineCut(Decimal.Text(n), p);
  }

  /** Main result: a request that has not arrived completely is never taken for one that has. */
  lemma TruncatedNeverRead(items: seq<Option<string>>, p: string)
    requires Sized(items) && Cut(p, EncodeItems(items))
    ensures ReadArray(p).result == Err(UnexpectedEnd)
  {
    if p != "" {
      var q, header, body := p[1..], Decimal.Text(|items|) + "\r\n", EncodeBulks(items);
      assert EncodeItems(items)[1..] == header + body;
      assert Cut(q, header + body);
      CutOfSum(q, header, body);
      if Cut(q, header) {
        HeaderCut(|items|, q);
      } else {
        HeaderRoundTrip(|items|, q[|header|..]);
        StringsCut(items, q[|header|..]);
      }
    }
  }

  /** A simple string is read back exactly if it has no newline in it. */
  lemma SimpleRoundTrip(value: string, tail: string)
    ensures ReadString("+" + value + "\r\n" + tail) == Read(Ok(value), tail) <==> '\n' !in value
  {
    var s := "+" + value + "\r\n" + tail;
    assert s[1..] == value + "\r\n" + tail;
    if '\n' !in value {
      LineRoundTrip(value, tail);
    } else {
      var i := LineEnd(value);
      assert i < |value| by {
        var j :| 0 <= j < |value| && value[j] == '\n';
      }
      LineEndAt(s[1..], i);
      assert |s[1..][i + 1..]| > |tail|;
    }
  }
}
