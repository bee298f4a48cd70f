/** The standard library's string operations that the program relies on. */
module Texts {
  import opened Prelude

  // ---------------------------------------------------------------- trimming

  /** Unicode's White_Space property. */
  predicate IsWhitespace(c: char) {
    var n := c as int;
    9 <= n <= 13 || n == 0x20 || n == 0x85 || n == 0xA0 || n == 0x1680 || 0x2000 <= n <= 0x200A
    || n == 0x2028 || n == 0x2029 || n == 0x202F || n == 0x205F || n == 0x3000
  }

  function TrimStart(s: string): string {
    if s != [] && IsWhitespace(s[0]) then TrimStart(s[1..]) else s
  }

  function TrimEnd(s: string): string {
    if s != [] && IsWhitespace(s[|s| - 1]) then TrimEnd(s[..|s| - 1]) else s
  }

  function Trim(s: string): string {
    TrimEnd(TrimStart(s))
  }

  predicate Trimmed(s: string) {
    s == [] || (!IsWhitespace(s[0]) && !IsWhitespace(s[|s| - 1]))
  }

  lemma {:induction false} TrimStartIsSuffix(s: string)
    ensures |TrimStart(s)| <= |s| && TrimStart(s) == s[|s| - |TrimStart(s)|..]
    ensures TrimStart(s) != [] ==> !IsWhitespace(TrimStart(s)[0])
    ensures s != [] && !IsWhitespace(s[|s| - 1]) ==> TrimStart(s) != []
    decreases |s|
  {
    if s != [] && IsWhitespace(s[0]) {
      TrimStartIsSuffix(s[1..]);
      var k := |TrimStart(s[1..])|;
      assert s[1..][|s[1..]| - k..] == s[|s| - k..];
    }
  }

  lemma {:induction false} TrimEndIsPrefix(s: string)
    ensures TrimEnd(s) <= s
    ensures TrimEnd(s) != [] ==> !IsWhitespace(TrimEnd(s)[|TrimEnd(s)| - 1])
    decreases |s|
  {
    if s != [] && IsWhitespace(s[|s| - 1]) {
      TrimEndIsPrefix(s[..|s| - 1]);
    }
  }

  /** Trimming leaves a trimmed text, and leaves a trimmed text alone. */
  lemma TrimIsTrimmed(s: string)
    ensures Trimmed(Trim(s))
    ensures Trimmed(s) <==> Trim(s) == s
  {
    TrimStartIsSuffix(s);
    TrimEndIsPrefix(TrimStart(s));
  }

  predicate Blank(s: string) {
    forall k | 0 <= k < |s| :: IsWhitespace(s[k])
  }

  lemma {:induction false} TrimStartBlank(a: string, s: string)
    requires Blank(a)
    ensures TrimStart(a + s) == TrimStart(s)
  {
    if a == [] {
      assert a + s == s;
    } else {
      assert (a + s)[1..] == a[1..] + s;
      TrimStartBlank(a[1..], s);
    }
  }

  lemma {:induction false} TrimEndBlank(s: string, b: string)
    requires Blank(b)
    ensures TrimEnd(s + b) == TrimEnd(s)
  {
    if b == [] {
      assert s + b == s;
    } else {
      assert (s + b)[..|s + b| - 1] == s + b[..|b| - 1];
      TrimEndBlank(s, b[..|b| - 1]);
    }
  }

  /** Text between blanks, without blanks at its own ends, is what trimming leaves. */
  lemma TrimTyped(a: string, text: string, b: string)
    requires Blank(a) && Blank(b) && Trimmed(text)
    ensures Trim(a + text + b) == text
  {
    assert a + text + b == a + (text + b);
    TrimStartBlank(a, text + b);
    if text == [] {
      assert text + b == b + [];
      TrimStartBlank(b, []);
    } else {
      assert TrimStart(text + b) == text + b;
      TrimEndBlank(text, b);
    }
  }

  lemma {:induction false} TrimEndCuts(s: string) returns (b: string)
    ensures s == TrimEnd(s) + b && Blank(b)
  {
    b := [];
    if s != [] && IsWhitespace(s[|s| - 1]) {
      var n := |s| - 1;
      b := TrimEndCuts(s[..n]);
      b := b + [s[n]];
      assert s == s[..n] + [s[n]];
    }
  }

  lemma {:induction false} TrimStartCuts(s: string) returns (a: string)
    ensures s == a + TrimStart(s) && Blank(a)
  {
    a := [];
    if s != [] && IsWhitespace(s[0]) {
      a := TrimStartCuts(s[1..]);
      a := [s[0]] + a;
      assert s == [s[0]] + s[1..];
    }
  }

  /** Trimming cuts off blanks only, on both sides. */
  lemma TrimCuts(s: string) returns (a: string, b: string)
    ensures s == a + Trim(s) + b && Blank(a) && Blank(b) && Trimmed(Trim(s))
  {
    hide TrimStart, TrimEnd, Trimmed, IsWhitespace;
    a := TrimStartCuts(s);
    b := TrimEndCuts(TrimStart(s));
    TrimIsTrimmed(s);
    assert a + (Trim(s) + b) == a + Trim(s) + b;
  }

  /** Blanks around a text make no difference. */
  lemma TrimAround(a: string, s: string, b: string)
    requires Blank(a) && Blank(b)
    ensures Trim(a + s + b) == Trim(s)
  {
    hide TrimStart, TrimEnd, Trim, IsWhitespace, Trimmed;
    var x, y := TrimCuts(s);
    assert a + s + b == (a + x) + Trim(s) + (y + b);
    TrimTyped(a + x, Trim(s), y + b);
  }

  // ---------------------------------------------------------------- splitting

  function IndexOf(s: string, c: char): (i: nat)
    ensures i <= |s| && c !in s[..i] && (i < |s| ==> s[i] == c)
  {
    if s == [] || s[0] == c then 0
    else
      var i := 1 + IndexOf(s[1..], c);
      assert s[..i] == [s[0]] + s[1..][..i - 1];
      i
  }

  /** The pieces between the separators; text without one is a single piece. */
  function Split(s: string, c: char): (parts: seq<string>)
    ensures parts != []
  {
    var i := IndexOf(s, c);
    if i == |s| then [s] else [s[..i]] + Split(s[i + 1..], c)
  }

  function Join(parts: seq<string>, c: char): string
    requires parts != []
  {
    if |parts| == 1 then parts[0] else parts[0] + [c] + Join(parts[1..], c)
  }

  predicate Free(parts: seq<string>, c: char) {
    forall k | 0 <= k < |parts| :: c !in parts[k]
  }

  lemma IndexIs(s: string, c: char, i: nat)
    requires i <= |s| && c !in s[..i] && (i < |s| ==> s[i] == c)
    ensures IndexOf(s, c) == i
  {
  }

  lemma JoinHead(parts: seq<string>, c: char)
    requires parts != []
    ensures var s, n := Join(parts, c), |parts[0]|;
            && n <= |s| && s[..n] == parts[0] && (|parts| == 1 ==> s == parts[0])
            && (|parts| > 1 ==> n < |s| && s[n] == c && s[n + 1..] == Join(parts[1..], c))
  {
  }

  lemma CountAround(head: string, c: char, tail: string)
    requires c !in head
    ensures multiset(head + [c] + tail)[c] == 1 + multiset(tail)[c]
  {
    hide *;
    assert multiset(head + [c] + tail) == multiset(head) + multiset{c} + multiset(tail);
    CountAbsent(head, c);
  }

  lemma CountAbsent(s: string, c: char)
    requires c !in s
    ensures multiset(s)[c] == 0
  {
    hide *;
    assert c !in multiset(s);
  }

  lemma Around(s: string, i: nat)
    requires i < |s|
    ensures s == s[..i] + [s[i]] + s[i + 1..]
  {
    hide *;
  }

  /** There is one piece more than there are separators. */
  lemma {:induction false} SplitCount(s: string, c: char)
    ensures |Split(s, c)| == 1 + multiset(s)[c]
    decreases |s|
  {
    hide IndexOf;
    var i := IndexOf(s, c);
    if i < |s| {
      SplitCount(s[i + 1..], c);
      CountAround(s[..i], c, s[i + 1..]);
      Around(s, i);
    } else {
      assert s[..i] == s;
      CountAbsent(s, c);
    }
  }

  /** Splitting undoes joining for pieces that hold no separator. */
  lemma {:induction false} SplitFree(parts: seq<string>, c: char)
    requires parts != [] && Free(parts, c)
    ensures Split(Join(parts, c), c) == parts
  {
    hide Join;
    JoinHead(parts, c);
    IndexIs(Join(parts, c), c, |parts[0]|);
    if |parts| > 1 {
      SplitFree(parts[1..], c);
    }
  }

  lemma SplitPrepended(w: char, s: string, c: char)
    ensures Split([w] + s, c) == Before(w, Split(s, c), c)
  {
    var whole := [w] + s;
    assert whole[1..] == s;
    if w != c {
      var i := IndexOf(s, c);
      assert IndexOf(whole, c) == 1 + i && whole[..1 + i] == [w] + s[..i] && whole[1 + i..] == s[i..];
      if i < |s| {
        assert whole[i + 2..] == s[i + 1..];
      }
    }
  }

  /** The pieces with one more character behind them. */
  function Behind(parts: seq<string>, w: char, c: char): seq<string>
    requires parts != []
  {
    var n := |parts| - 1;
    if w == c then parts + [[]] else parts[..n] + [parts[n] + [w]]
  }

  /** The pieces with one more character in front of them. */
  function Before(w: char, parts: seq<string>, c: char): seq<string>
    requires parts != []
  {
    if w == c then [[]] + parts else [[w] + parts[0]] + parts[1..]
  }

  lemma BothEnds(v: char, parts: seq<string>, w: char, c: char)
    requires parts != []
    ensures Before(v, Behind(parts, w, c), c) == Behind(Before(v, parts, c), w, c)
  {
    var n := |parts| - 1;
    if n == 0 {
      BothEndsOfOne(v, parts[0], w, c);
      assert parts == [parts[0]];
    } else if w == c {
      assert (parts + [[]])[1..] == parts[1..] + [[]];
    } else {
      assert (parts[..n] + [parts[n] + [w]])[1..] == parts[1..n] + [parts[n] + [w]];
      assert v != c ==> ([[v] + parts[0]] + parts[1..])[..n] == [[v] + parts[0]] + parts[1..n];
      assert v == c ==> ([[]] + parts)[..n + 1] == [[]] + parts[..n];
    }
  }

  lemma BothEndsOfOne(v: char, part: string, w: char, c: char)
    ensures Before(v, Behind([part], w, c), c) == Behind(Before(v, [part], c), w, c)
  {
    assert [v] + (part + [w]) == [v] + part + [w];
  }

  lemma {:induction false} SplitAppended(s: string, w: char, c: char)
    ensures Split(s + [w], c) == Behind(Split(s, c), w, c)
    decreases |s|
  {
    hide Split, Behind, Before;
    if s == [] {
      SplitOne(w, c);
      assert s + [w] == [w];
    } else {
      assert s == [s[0]] + s[1..] && s + [w] == [s[0]] + (s[1..] + [w]);
      SplitAppended(s[1..], w, c);
      SplitPrepended(s[0], s[1..], c);
      SplitPrepended(s[0], s[1..] + [w], c);
      BothEnds(s[0], Split(s[1..], c), w, c);
    }
  }

  lemma SplitOne(w: char, c: char)
    ensures Split([w], c) == Behind(Split([], c), w, c)
  {
    SplitPrepended(w, [], c);
    assert Split([], c) == [[]] && [w] + [] == [w] && [] + [w] == [w];
  }

  /** A joined text begins with its first piece and ends with its last, or with a separator. */
  lemma {:induction false} JoinEnds(parts: seq<string>, c: char)
    requires parts != []
    ensures var s, first, last := Join(parts, c), parts[0], parts[|parts| - 1];
            && (s == [] <==> |parts| == 1 && first == [])
            && (s != [] ==> s[0] == if first == [] then c else first[0])
            && (s != [] ==> s[|s| - 1] == if last == [] then c else last[|last| - 1])
  {
    if |parts| > 1 {
      JoinEnds(parts[1..], c);
    }
  }

  lemma {:induction false} JoinFree(parts: seq<string>, c: char, d: char)
    requires parts != [] && c != d && Free(parts, d)
    ensures d !in Join(parts, c)
  {
    if |parts| > 1 {
      JoinFree(parts[1..], c, d);
    }
  }

  // ---------------------------------------------------------------- lines

  function WithoutReturn(line: string): string {
    if line != [] && line[|line| - 1] == '\r' then line[..|line| - 1] else line
  }

  /** Lines end with a newline, which a carriage return may precede; the last may end with the text. */
  function Lines(s: string): seq<string> {
    var i := IndexOf(s, '\n');
    if s == [] then [] else if i == |s| then [s] else [WithoutReturn(s[..i])] + Lines(s[i + 1..])
  }

  /** What holds of lines that reading the joined text gives back. */
  predicate Plain(lines: seq<string>) {
    && Free(lines, '\n')
    && (forall k | 0 <= k < |lines| - 1 :: WithoutReturn(lines[k]) == lines[k])
    && (lines != [] ==> lines[|lines| - 1] != [])
  }

  lemma {:induction false} LinesJoin(lines: seq<string>)
    requires lines != [] && Plain(lines)
    ensures Lines(Join(lines, '\n')) == lines
  {
    hide Join;
    JoinHead(lines, '\n');
    IndexIs(Join(lines, '\n'), '\n', |lines[0]|);
    if |lines| > 1 {
      LinesJoin(lines[1..]);
    }
  }

  // ---------------------------------------------------------------- integers

  const I64_MIN := -0x8000_0000_0000_0000
  const I64_MAX := 0x7FFF_FFFF_FFFF_FFFF

  predicate IsDigit(c: char) {
    '0' <= c <= '9'
  }

  predicate AllDigits(s: string) {
    forall k | 0 <= k < |s| :: IsDigit(s[k])
  }

  function DigitsValue(s: string): nat
    requires AllDigits(s)
  {
    if s == [] then 0 else 10 * DigitsValue(s[..|s| - 1]) + (s[|s| - 1] - '0') as int
  }

  /** A sign is optional, digits are not; numbers outside 64 bits are errors. */
  function ParseI64(s: string): Option<int> {
    var body := if s != [] && s[0] in "+-" then s[1..] else s;
    if body == [] || !AllDigits(body) then None
    else
      var magnitude: int := DigitsValue(body);
      var n := if s[0] == '-' then -magnitude else magnitude;
      if I64_MIN <= n <= I64_MAX then Some(n) else None
  }

  function Digits(n: nat): (s: string)
    ensures s != [] && AllDigits(s) && DigitsValue(s) == n
  {
    var last := [(n % 10) as char + '0'];
    if n < 10 then last
    else
      var s := Digits(n / 10) + last;
      assert s[..|s| - 1] == Digits(n / 10);
      s
  }

  function PrintInt(n: int): string {
    if n < 0 then "-" + Digits(-n) else Digits(n)
  }

  /** A printed number is read back exactly when it fits. */
  lemma ParsePrinted(n: int)
    ensures ParseI64(PrintInt(n)) == if I64_MIN <= n <= I64_MAX then Some(n) else None
  {
    hide Digits, DigitsValue;
    if n < 0 {
      assert PrintInt(n)[1..] == Digits(-n);
    } else {
      assert IsDigit(Digits(n)[0]);
    }
  }

  /** The texts that stand for a whole number: a sign if wanted, zeros if wanted, and its digits. */
  ghost predicate IsNumeral(s: string, n: int) {
    exists sign, zeros: nat :: SignFits(sign, n) && s == sign + Zeros(zeros) + Digits(if n < 0 then -n else n)
  }

  predicate SignFits(sign: string, n: int) {
    (sign == "-" && n <= 0) || (sign == "+" && n >= 0) || (sign == "" && n >= 0)
  }

  function Zeros(n: nat): string {
    seq(n, _ => '0')
  }

  lemma {:induction false} LeadingZeros(zeros: nat, s: string)
    requires AllDigits(s)
    ensures AllDigits(Zeros(zeros) + s) && DigitsValue(Zeros(zeros) + s) == DigitsValue(s)
    decreases |s|, zeros
  {
    if s != [] {
      var n := |s| - 1;
      LeadingZeros(zeros, s[..n]);
      assert (Zeros(zeros) + s)[..zeros + n] == Zeros(zeros) + s[..n];
    } else if zeros > 0 {
      LeadingZeros(zeros - 1, []);
      assert (Zeros(zeros) + [])[..zeros - 1] == Zeros(zeros - 1) + [];
    }
  }

  lemma ValueOfLast(s: string)
    requires s != [] && AllDigits(s)
    ensures
      var n := |s| - 1;
      AllDigits(s[..n]) && IsDigit(s[n]) && DigitsValue(s) == 10 * DigitsValue(s[..n]) + (s[n] - '0') as int
  {
  }

  /** Every text of digits is the digits of its value behind zeros. */
  lemma {:induction false} DigitsAreCanonical(s: string) returns (zeros: nat)
    requires s != [] && AllDigits(s)
    ensures s == Zeros(zeros) + Digits(DigitsValue(s))
  {
    hide Digits, DigitsValue, AllDigits, IsDigit;
    var n := |s| - 1;
    ValueOfLast(s);
    var v := DigitsValue(s[..n]);
    LastDigit(v, s[n]);
    assert s == s[..n] + [s[n]];
    if n == 0 {
      zeros := 0;
      NoDigits(s[..n]);
      assert Zeros(0) + [s[n]] == s;
    } else {
      zeros := DigitsAreCanonical(s[..n]);
      if v == 0 {
        ZeroDigit();
        assert s[..n] == Zeros(zeros) + "0" == Zeros(zeros + 1);
        zeros := zeros + 1;
      } else {
        assert s == Zeros(zeros) + (Digits(v) + [s[n]]);
      }
    }
  }

  lemma NoDigits(s: string)
    requires s == [] && AllDigits(s)
    ensures DigitsValue(s) == 0
  {
  }

  lemma ZeroDigit()
    ensures Digits(0) == "0"
  {
  }

  lemma LastDigit(v: nat, d: char)
    requires IsDigit(d)
    ensures Digits(10 * v + (d - '0') as int) == (if v == 0 then [] else Digits(v)) + [d]
  {
    var low := (d - '0') as int;
    var n := 10 * v + low;
    assert n / 10 == v && n % 10 == low && low as char + '0' == d;
    if n < 10 {
      assert v == 0;
    } else {
      assert Digits(n) == Digits(v) + [d];
    }
  }

  /** A text is read as a number exactly when it stands for it and it fits. */
  lemma ReadsExactly(s: string, n: int)
    ensures ParseI64(s) == Some(n) <==> IsNumeral(s, n) && I64_MIN <= n <= I64_MAX
  {
    hide Digits, DigitsValue;
    if ParseI64(s) == Some(n) {
      var signed := s != [] && s[0] in "+-";
      var sign, body := if signed then s[..1] else "", if signed then s[1..] else s;
      var zeros := DigitsAreCanonical(body);
      assert s == sign + Zeros(zeros) + Digits(DigitsValue(body));
      assert SignFits(sign, n);
    }
    if IsNumeral(s, n) && I64_MIN <= n <= I64_MAX {
      NumeralIsRead(s, n);
    }
  }

  lemma NumeralIsRead(s: string, n: int)
    requires IsNumeral(s, n) && I64_MIN <= n <= I64_MAX
    ensures ParseI64(s) == Some(n)
  {
    hide Digits, DigitsValue;
    var magnitude: nat := if n < 0 then -n else n;
    var sign, zeros: nat :| SignFits(sign, n) && s == sign + Zeros(zeros) + Digits(magnitude);
    var body := Zeros(zeros) + Digits(magnitude);
    LeadingZeros(zeros, Digits(magnitude));
    assert s == sign + body && IsDigit(body[0]);
    if sign == "" {
      assert s == body;
    } else {
      assert s[0] == sign[0] && s[1..] == body;
    }
  }

  /** The text is this number, with nothing but blanks around it, and the number fits. */
  ghost predicate Reads(text: string, n: int) {
    && I64_MIN <= n <= I64_MAX
    && exists a, s, b :: Blank(a) && Blank(b) && IsNumeral(s, n) && text == a + s + b
  }

  lemma NumeralIsTrimmed(s: string, n: int)
    requires IsNumeral(s, n)
    ensures Trimmed(s)
  {
    var magnitude: nat := if n < 0 then -n else n;
    var sign, zeros: nat :| SignFits(sign, n) && s == sign + Zeros(zeros) + Digits(magnitude);
    var digits := Digits(magnitude);
    assert s[|s| - 1] == digits[|digits| - 1] && IsDigit(s[|s| - 1]);
    assert s[0] == if sign != "" then sign[0] else if zeros > 0 then '0' else digits[0];
  }

  lemma ReadsTrimmed(text: string, n: int)
    ensures Reads(text, n) <==> ParseI64(Trim(text)) == Some(n)
  {
    hide IsNumeral, Trim, ParseI64, Trimmed, Blank;
    ReadsExactly(Trim(text), n);
    if Reads(text, n) {
      var a, s, b :| Blank(a) && Blank(b) && IsNumeral(s, n) && text == a + s + b;
      NumeralIsTrimmed(s, n);
      TrimTyped(a, s, b);
    }
    var a, b := TrimCuts(text);
  }
}
