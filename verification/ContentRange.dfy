/** The check of a partial response against the request (`OpenRange`, `validateContentRange` and
    `parseContentRangeTotal` in internal/adapter/http/adapter.go). Text is a sequence of code points; the helpers are
    Go's strings and strconv functions on it. */
module ContentRange {
  import opened Basics
  import opened Chunks

  const TWO_TO_63 := 0x8000_0000_0000_0000

  // ----- decimal numbers

  predicate IsDigit(c: char) {
    '0' <= c <= '9'
  }

  function DigitOf(d: nat): (c: char)
    requires d < 10
    ensures IsDigit(c)
  {
    '0' + d as char
  }

  /** fmt's %d for a number that is not negative. */
  function Printed(n: nat): (text: string)
    ensures text != ""
  {
    if n < 10 then [DigitOf(n)] else Printed(n / 10) + [DigitOf(n % 10)]
  }

  predicate AllDigits(text: string) {
    forall c :: c in text ==> IsDigit(c)
  }

  function Value(text: string): nat
    requires AllDigits(text)
  {
    if text == "" then 0
    else
      var last := text[|text| - 1];
      assert last in text;
      Value(text[..|text| - 1]) * 10 + (last as int - '0' as int)
  }

  /** strconv.ParseInt(text, 10, 64): an optional sign and at least one digit, within int64. */
  function ParseInt(text: string): Option<int> {
    var negative := text != "" && text[0] == '-';
    var digits := if text != "" && (text[0] == '-' || text[0] == '+') then text[1..] else text;
    if digits == "" || !AllDigits(digits) then None
    else
      var v: int := Value(digits);
      if negative then (if v > TWO_TO_63 then None else Some(-v))
      else if v >= TWO_TO_63 then None else Some(v)
  }

  lemma {:induction false} PrintedDigits(n: nat)
    ensures AllDigits(Printed(n)) && Value(Printed(n)) == n
  {
    if n >= 10 {
      PrintedDigits(n / 10);
      var text := Printed(n);
      assert text[..|text| - 1] == Printed(n / 10);
      assert forall c :: c in text ==> c in Printed(n / 10) || c == DigitOf(n % 10);
    } else {
      assert Printed(n)[..0] == "";
    }
  }

  lemma ParsePrinted(n: nat)
    ensures ParseInt(Printed(n)) == if n < TWO_TO_63 then Some(n) else None
  {
    PrintedDigits(n);
    assert Printed(n)[0] in Printed(n);
  }

  // ----- splitting and trimming

  /** The index of the first c in text, or its length. */
  function FirstIndex(text: string, c: char): (k: nat)
    ensures k <= |text|
    ensures forall i :: 0 <= i < k ==> text[i] != c
    ensures k < |text| ==> text[k] == c
  {
    if text == "" || text[0] == c then 0 else 1 + FirstIndex(text[1..], c)
  }

  /** strings.SplitN(text, c, 2). */
  function SplitInTwo(text: string, c: char): seq<string> {
    var k := FirstIndex(text, c);
    if k == |text| then [text] else [text[..k], text[k + 1..]]
  }

  /** strings.Split(text, c). */
  function SplitAll(text: string, c: char): (parts: seq<string>)
    ensures parts != []
    decreases |text|
  {
    var k := FirstIndex(text, c);
    if k == |text| then [text] else [text[..k]] + SplitAll(text[k + 1..], c)
  }

  /** unicode.IsSpace. */
  predicate IsSpace(c: char) {
    c in {'\t', '\n', '\U{b}', '\U{c}', '\r', ' ', '\U{85}', '\U{A0}', '\U{1680}', '\U{2028}', '\U{2029}', '\U{202f}', '\U{205f}', '\U{3000}'}
    || '\U{2000}' <= c <= '\U{200a}'
  }

  function TrimLeft(text: string): string {
    if text != "" && IsSpace(text[0]) then TrimLeft(text[1..]) else text
  }

  function TrimRight(text: string): string {
    if text != "" && IsSpace(text[|text| - 1]) then TrimRight(text[..|text| - 1]) else text
  }

  /** strings.TrimSpace. */
  function TrimSpace(text: string): string {
    TrimRight(TrimLeft(text))
  }

  /** strings.TrimPrefix. */
  function TrimPrefix(text: string, prefix: string): string {
    if prefix <= text then text[|prefix|..] else text
  }

  lemma DigitsNotTrimmed(text: string)
    requires AllDigits(text)
    ensures TrimSpace(text) == text
  {
    if text != "" {
      assert text[0] in text && text[|text| - 1] in text;
    }
  }

  lemma {:induction false} FirstIndexIs(before: string, c: char, after: string)
    requires c !in before
    ensures FirstIndex(before + [c] + after, c) == |before|
  {
    var text := before + [c] + after;
    assert text[|before|] == c;
    assert forall i :: 0 <= i < |before| ==> text[i] == before[i] && before[i] in before;
  }

  // ----- the check

  function ValidateContentRange(header: string, start: int, end: int): bool {
    header != "" &&
    (var parts := SplitInTwo(TrimPrefix(header, "bytes "), '/');
    |parts| == 2 &&
    (var range := SplitInTwo(parts[0], '-');
    |range| == 2 &&
    (var first, last := ParseInt(TrimSpace(range[0])), ParseInt(TrimSpace(range[1]));
    first.Some? && last.Some? && first.value == start && last.value == end)))
  }

  function ParseContentRangeTotal(header: string): Option<int> {
    var parts := SplitAll(header, '/');
    if header == "" || |parts| != 2 then None
    else
      match ParseInt(TrimSpace(parts[1]))
      case None => None
      case Some(total) => if total <= 0 then None else Some(total)
  }

  /** The header field of a 206 response for the bytes first to last (section 14.4 of RFC 9110). */
  function RangeText(first: nat, last: nat, total: string): string {
    "bytes " + Span(first, last) + "/" + total
  }

  function Span(first: nat, last: nat): string {
    Printed(first) + "-" + Printed(last)
  }

  lemma SplitAt(before: string, c: char, after: string)
    requires c !in before
    ensures SplitInTwo(before + [c] + after, c) == [before, after]
  {
    var text := before + [c] + after;
    FirstIndexIs(before, c, after);
    assert text[..|before|] == before && text[|before| + 1..] == after;
  }

  lemma SpanParts(first: nat, last: nat, total: string)
    ensures SplitInTwo(TrimPrefix(RangeText(first, last, total), "bytes "), '/') == [Span(first, last), total]
    ensures SplitInTwo(Span(first, last), '-') == [Printed(first), Printed(last)]
  {
    PrintedDigits(first);
    SlashFree(first, last);
    hide Printed, SplitInTwo;
    var rest := Span(first, last) + ['/'] + total;
    assert RangeText(first, last, total) == "bytes " + rest;
    assert TrimPrefix("bytes " + rest, "bytes ") == rest;
    SplitAt(Span(first, last), '/', total);
    SplitAt(Printed(first), '-', Printed(last));
  }

  lemma SlashFree(first: nat, last: nat)
    ensures '/' !in Span(first, last)
  {
    PrintedDigits(first);
    PrintedDigits(last);
  }

  /** The check inverts printing: the header of any range is accepted for a requested range within int64 exactly when
      the two are the same, whatever text stands for the total. */
  lemma AcceptsExactlyItsRange(first: nat, last: nat, total: string, start: int, end: int)
    requires start < TWO_TO_63 && end < TWO_TO_63
    ensures ValidateContentRange(RangeText(first, last, total), start, end) <==> first == start && last == end
  {
    SpanParts(first, last, total);
    PrintedDigits(first);
    PrintedDigits(last);
    DigitsNotTrimmed(Printed(first));
    DigitsNotTrimmed(Printed(last));
    ParsePrinted(first);
    ParsePrinted(last);
  }

  /** The total is read back from any printed positive int64; "*" and anything else that is not a number is refused. */
  lemma TotalReadBack(first: nat, last: nat, total: nat)
    ensures ParseContentRangeTotal(RangeText(first, last, Printed(total))) ==
            if 0 < total < TWO_TO_63 then Some(total) else None
    ensures ParseContentRangeTotal(RangeText(first, last, "*")) == None
  {
    PrintedDigits(total);
    DigitsNotTrimmed(Printed(total));
    ParsePrinted(total);
    assert '/' !in Printed(total);
    SplitHeader(first, last, Printed(total));
    SplitHeader(first, last, "*");
  }

  lemma SplitHeader(first: nat, last: nat, total: string)
    requires '/' !in total
    ensures SplitAll(RangeText(first, last, total), '/') == ["bytes " + Span(first, last), total]
  {
    var before, header := "bytes " + Span(first, last), RangeText(first, last, total);
    SlashFree(first, last);
    FirstIndexIs(before, '/', total);
    assert header == before + ['/'] + total;
    assert header[..|before|] == before && header[|before| + 1..] == total;
    NotFound(total, '/');
  }

  lemma NotFound(text: string, c: char)
    requires c !in text
    ensures FirstIndex(text, c) == |text|
  {
  }

  /** A response that carries another chunk of the same plan is never taken for the requested one. */
  lemma OnlyTheChunkAskedFor(size: nat, splitSize: int, i: nat, j: nat, total: string)
    requires splitSize >= 1 && size + splitSize - 1 <= MAX_INT64
    requires i < ChunkCount(size, splitSize) && j < ChunkCount(size, splitSize)
    ensures var asked, sent := PlanOf(size, splitSize)[i], PlanOf(size, splitSize)[j];
            && sent.length > 0
            && var text := RangeText(sent.start, sent.start + sent.length - 1, total);
               ValidateContentRange(text, asked.start, asked.start + asked.length - 1) <==> i == j
  {
    var asked, sent := PlanOf(size, splitSize)[i], PlanOf(size, splitSize)[j];
    PlannedChunk(size, splitSize, i);
    PlannedChunk(size, splitSize, j);
    PlanFitsInt64(size, splitSize, i);
    EveryByteInOneChunk(size, splitSize, sent.start, i);
    EveryByteInOneChunk(size, splitSize, sent.start, j);
    hide PlanOf, ChunkCount, ValidateContentRange, RangeText;
    AcceptsExactlyItsRange(sent.start, sent.start + sent.length - 1, total, asked.start, asked.start + asked.length - 1);
  }

  // ----- any header

  /** The text without an optional leading "bytes ". */
  predicate Less(header: string, body: string) {
    if "bytes " <= header then header == "bytes " + body else header == body
  }

  /** The texts a, b and t of a header that reads "a-b/t". */
  predicate Reads(header: string, a: string, b: string, t: string) {
    Less(header, a + "-" + b + "/" + t) && '-' !in a && '/' !in a && '/' !in b
  }

  lemma LessIsTrimmed(header: string, body: string)
    ensures Less(header, body) <==> TrimPrefix(header, "bytes ") == body
  {
    if "bytes " <= header { assert header == "bytes " + header[|"bytes "|..]; }
  }

  /** Splitting in two, both ways. */
  lemma SplitParts(text: string, c: char)
    ensures var parts := SplitInTwo(text, c);
            && (|parts| == 2 <==> c in text)
            && (|parts| == 2 ==> c !in parts[0] && text == parts[0] + [c] + parts[1])
  {
    var k := FirstIndex(text, c);
    if k < |text| { assert text == text[..k] + [c] + text[k + 1..]; }
  }

  lemma ReadsParts(header: string, a: string, b: string, t: string)
    requires Reads(header, a, b, t)
    ensures header != "" && SplitInTwo(TrimPrefix(header, "bytes "), '/') == [a + "-" + b, t]
    ensures SplitInTwo(a + "-" + b, '-') == [a, b]
  {
    LessIsTrimmed(header, a + "-" + b + "/" + t);
    assert a + "-" + b + "/" + t == (a + "-" + b) + ['/'] + t;
    SplitAt(a + "-" + b, '/', t);
    assert a + "-" + b == a + ['-'] + b;
    SplitAt(a, '-', b);
  }

  /** What the check accepts, for every header: two numbers separated by the first "-" before the first "/", and they are
      the requested ones. */
  lemma AcceptedExactly(header: string, start: int, end: int)
    ensures ValidateContentRange(header, start, end) <==>
            exists a, b, t :: Reads(header, a, b, t) && ParseInt(TrimSpace(a)) == Some(start) && ParseInt(TrimSpace(b)) == Some(end)
  {
    var body := TrimPrefix(header, "bytes ");
    hide TrimPrefix, SplitInTwo, ParseInt, TrimSpace, Less;
    if ValidateContentRange(header, start, end) {
      var parts := SplitInTwo(body, '/');
      SplitParts(body, '/');
      var range := SplitInTwo(parts[0], '-');
      SplitParts(parts[0], '-');
      assert body == range[0] + "-" + range[1] + "/" + parts[1];
      LessIsTrimmed(header, body);
      assert Reads(header, range[0], range[1], parts[1]);
    }
    if a, b, t :| Reads(header, a, b, t) && ParseInt(TrimSpace(a)) == Some(start) && ParseInt(TrimSpace(b)) == Some(end) {
      ReadsParts(header, a, b, t);
    }
  }

  lemma DashFirst(header: string, a: string, b: string, t: string)
    requires Reads(header, a, b, t)
    ensures SplitInTwo(TrimPrefix(header, "bytes "), '/') != [] && '-' in SplitInTwo(TrimPrefix(header, "bytes "), '/')[0]
  {
    ReadsParts(header, a, b, t);
    assert (a + "-" + b)[|a|] == '-';
  }

  /** A response without the field, one that says the range cannot be satisfied, and one without "-" or "/" are refused
      for every range. */
  lemma RefusedHeaders(header: string, total: string, start: int, end: int)
    ensures !ValidateContentRange("", start, end)
    ensures !ValidateContentRange("bytes */" + total, start, end)
    ensures '-' !in header || '/' !in header ==> !ValidateContentRange(header, start, end)
  {
    AcceptedExactly("", start, end);
    AcceptedExactly("bytes */" + total, start, end);
    AcceptedExactly(header, start, end);
    hide ParseInt, TrimSpace, ValidateContentRange;
    var starred := "bytes */" + total;
    assert TrimPrefix(starred, "bytes ") == "*" + ['/'] + total;
    SplitAt("*", '/', total);
    forall a, b, t | Reads(starred, a, b, t) ensures '-' in SplitInTwo(TrimPrefix(starred, "bytes "), '/')[0] {
      DashFirst(starred, a, b, t);
    }
    forall a, b, t | Reads(header, a, b, t) ensures '-' in header && '/' in header {
      var body := a + "-" + b + "/" + t;
      assert body[|a|] == '-' && body[|a| + 1 + |b|] == '/';
      assert header == body || (header == "bytes " + body && header[|"bytes "| + |a|] == '-' && header[|"bytes "| + |a| + 1 + |b|] == '/');
    }
  }

  /** The text is a decimal number with an optional sign, and v is what it says. */
  predicate Denotes(text: string, digits: string, v: int) {
    && digits != "" && AllDigits(digits)
    && (if text == "-" + digits then v == 0 - (Value(digits) as int)
        else (text == digits || text == "+" + digits) && v == Value(digits))
  }

  lemma Unsigned(text: string, digits: string, v: int)
    requires Denotes(text, digits, v)
    ensures text != "" && (text[0] == '-' <==> text == "-" + digits)
    ensures digits == if text[0] == '-' || text[0] == '+' then text[1..] else text
  {
    assert digits[0] in digits;
  }

  /** Read are numbers within int64, and nothing else. */
  lemma ParsedExactly(text: string, v: int)
    ensures ParseInt(text) == Some(v) <==> -TWO_TO_63 <= v < TWO_TO_63 && exists digits :: Denotes(text, digits, v)
  {
    if ParseInt(text) == Some(v) {
      var digits := if text[0] == '-' || text[0] == '+' then text[1..] else text;
      assert text == digits || text == "+" + digits || text == "-" + digits;
      assert digits[0] in digits;
      assert Denotes(text, digits, v);
    }
    if digits :| Denotes(text, digits, v) { Unsigned(text, digits, v); }
  }

  predicate AllSpace(text: string) {
    forall c :: c in text ==> IsSpace(c)
  }

  lemma {:induction false} LeftTrimmed(text: string) returns (left: string)
    ensures AllSpace(left) && text == left + TrimLeft(text)
    ensures TrimLeft(text) != "" ==> !IsSpace(TrimLeft(text)[0])
  {
    if text != "" && IsSpace(text[0]) {
      var rest := LeftTrimmed(text[1..]);
      left := [text[0]] + rest;
    } else {
      left := "";
    }
  }

  lemma {:induction false} RightTrimmed(text: string) returns (right: string)
    ensures AllSpace(right) && text == TrimRight(text) + right
    ensures TrimRight(text) != "" ==> !IsSpace(TrimRight(text)[|TrimRight(text)| - 1])
  {
    if text != "" && IsSpace(text[|text| - 1]) {
      var rest := RightTrimmed(text[..|text| - 1]);
      right := rest + [text[|text| - 1]];
      assert text == text[..|text| - 1] + [text[|text| - 1]];
    } else {
      right := "";
    }
  }

  /** Trimming takes white space, and only that, from both ends. */
  lemma TrimmedExactly(text: string) returns (left: string, right: string)
    ensures AllSpace(left) && AllSpace(right) && text == left + TrimSpace(text) + right
    ensures TrimSpace(text) != "" ==> !IsSpace(TrimSpace(text)[0]) && !IsSpace(TrimSpace(text)[|TrimSpace(text)| - 1])
  {
    left := LeftTrimmed(text);
    right := RightTrimmed(TrimLeft(text));
    hide TrimLeft, TrimRight;
    assert TrimSpace(text) != "" ==> TrimSpace(text)[0] == TrimLeft(text)[0];
  }

  /** Header x/y, and y a number. */
  predicate TotalOf(header: string, x: string, y: string, v: int) {
    header == x + "/" + y && '/' !in x && '/' !in y && ParseInt(TrimSpace(y)) == Some(v)
  }

  lemma TotalParts(header: string, x: string, y: string, v: int)
    requires TotalOf(header, x, y, v)
    ensures FirstIndex(header, '/') == |x| < |header| && header[..|x|] == x && header[|x| + 1..] == y
  {
    FirstIndexIs(x, '/', y);
    assert header == x + ['/'] + y;
  }

  /** The total is read off every header with one "/" and a positive int64 behind it, and off no other. */
  lemma TotalExactly(header: string, v: int)
    ensures ParseContentRangeTotal(header) == Some(v) <==> v > 0 && exists x, y :: TotalOf(header, x, y, v)
  {
    hide ParseInt, TrimSpace;
    var k := FirstIndex(header, '/');
    if k < |header| { OneSlash(header); }
    if ParseContentRangeTotal(header) == Some(v) {
      assert header == header[..k] + "/" + header[k + 1..];
      assert TotalOf(header, header[..k], header[k + 1..], v);
    }
    if x, y :| TotalOf(header, x, y, v) { TotalParts(header, x, y, v); }
  }

  lemma OneSlash(header: string)
    requires FirstIndex(header, '/') < |header|
    ensures var k := FirstIndex(header, '/');
            && SplitAll(header, '/') == [header[..k]] + SplitAll(header[k + 1..], '/')
            && (|SplitAll(header, '/')| == 2 <==> '/' !in header[k + 1..])
            && ('/' !in header[k + 1..] ==> SplitAll(header, '/') == [header[..k], header[k + 1..]])
  {
    var rest := header[FirstIndex(header, '/') + 1..];
    if '/' !in rest { NotFound(rest, '/'); }
  }
}
