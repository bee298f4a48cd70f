/** The tokenizer that colours one line of pretty-printed JSON, without the colours. */
module JsonLexer {
  import opened Prelude
  import opened Texts

  datatype Kind = Key | Text | Number | Literal | Punctuation

  datatype Span = Span(text: string, kind: Kind)

  predicate IsNumberChar(c: char) {
    IsDigit(c) || c in ".eE+-"
  }

  predicate NumberStarts(line: string, i: nat)
    requires i < |line|
  {
    IsDigit(line[i]) || (line[i] == '-' && i + 1 < |line| && IsDigit(line[i + 1]))
  }

  predicate HasAt(line: string, i: nat, word: string) {
    i + |word| <= |line| && line[i..i + |word|] == word
  }

  function LiteralAt(line: string, i: nat): Option<string> {
    if HasAt(line, i, "true") then Some("true")
    else if HasAt(line, i, "false") then Some("false")
    else if HasAt(line, i, "null") then Some("null")
    else None
  }

  predicate TokenStarts(line: string, i: nat)
    requires i < |line|
  {
    line[i] == '"' || NumberStarts(line, i) || LiteralAt(line, i).Some?
  }

  // ---------------------------------------------------------------- what a lexing is

  /** The backslashes directly before `j` in a string that opens at `start`. */
  function Backslashes(line: string, start: nat, j: nat): nat
    requires start < j <= |line|
  {
    if j - 1 > start && line[j - 1] == '\\' then 1 + Backslashes(line, start, j - 1) else 0
  }

  /** A quote that closes the string: the backslashes before it pair off. */
  predicate Closes(line: string, start: nat, j: nat)
    requires start < j < |line|
  {
    line[j] == '"' && Backslashes(line, start, j) % 2 == 0
  }

  /** A string ends behind its first closing quote, or with the line when it has none. */
  predicate StringEndsAt(line: string, start: nat, e: nat)
    requires start < e <= |line|
  {
    && (forall j | start < j < e - 1 :: !Closes(line, start, j))
    && ((start < e - 1 && Closes(line, start, e - 1))
        || (e == |line| && (start < e - 1 ==> !Closes(line, start, e - 1))))
  }

  /** The first position from `e` on that holds no space. */
  function AfterSpaces(line: string, e: nat): nat
    decreases |line| - e
  {
    if e < |line| && line[e] == ' ' then AfterSpaces(line, e + 1) else e
  }

  predicate ColonFollows(line: string, e: nat) {
    AfterSpaces(line, e) < |line| && line[AfterSpaces(line, e)] == ':'
  }

  predicate NumberEndsAt(line: string, start: nat, e: nat)
    requires start < e <= |line|
  {
    (forall k | start < k < e :: IsNumberChar(line[k])) && (e < |line| ==> !IsNumberChar(line[e]))
  }

  predicate PunctuationEndsAt(line: string, start: nat, e: nat)
    requires start < e <= |line|
  {
    (forall k | start < k < e :: !TokenStarts(line, k)) && (e < |line| ==> TokenStarts(line, e))
  }

  /** `span` is the token, or the run without tokens, that begins at `o`. */
  predicate SpanAt(line: string, o: nat, span: Span) {
    && span.text != [] && HasAt(line, o, span.text)
    && var e := o + |span.text|;
       if line[o] == '"' then
         StringEndsAt(line, o, e) && span.kind == if ColonFollows(line, e) then Key else Text
       else if NumberStarts(line, o) then
         NumberEndsAt(line, o, e) && span.kind == Number
       else if LiteralAt(line, o).Some? then
         span == Span(LiteralAt(line, o).value, Literal)
       else
         PunctuationEndsAt(line, o, e) && span.kind == Punctuation
  }

  function Joined(spans: seq<Span>): string {
    if spans == [] then [] else Joined(spans[..|spans| - 1]) + spans[|spans| - 1].text
  }

  /** The spans begin where the ones before them end, and each is what the line has there. */
  predicate Lexes(line: string, spans: seq<Span>) {
    forall k | 0 <= k < |spans| :: SpanAt(line, |Joined(spans[..k])|, spans[k])
  }

  // ---------------------------------------------------------------- the lexer

  lemma SpanAppended(line: string, spans: seq<Span>, span: Span)
    requires Lexes(line, spans) && Joined(spans) <= line && SpanAt(line, |Joined(spans)|, span)
    ensures Lexes(line, spans + [span]) && Joined(spans + [span]) == Joined(spans) + span.text <= line
  {
    hide SpanAt, Joined;
    var longer := spans + [span];
    assert forall k | 0 <= k <= |spans| :: longer[..k] == spans[..k];
    assert longer[..|spans|] == spans;
    JoinedAppended(spans, span);
    assert span.text == line[|Joined(spans)|..|Joined(spans)| + |span.text|] by {
      SpanIsThere(line, |Joined(spans)|, span);
    }
    SpanIsThere(line, |Joined(spans)|, span);
  }

  lemma JoinedAppended(spans: seq<Span>, span: Span)
    ensures Joined(spans + [span]) == Joined(spans) + span.text
  {
    assert (spans + [span])[..|spans|] == spans;
  }

  lemma SpanIsThere(line: string, o: nat, span: Span)
    requires SpanAt(line, o, span)
    ensures o + |span.text| <= |line| && span.text == line[o..o + |span.text|] && |span.text| > 0
  {
  }

  /** The end of the string that opens at `start`; a backslash at the end of the line skips past it. */
  method ScanString(line: string, start: nat) returns (i: nat)
    requires start < |line| && line[start] == '"'
    ensures start < i <= |line| + 1
    ensures StringEndsAt(line, start, if i < |line| then i else |line|)
  {
    i := start + 1;
    while i < |line|
      invariant start < i <= |line| + 1
      invariant i <= |line| ==> Backslashes(line, start, i) % 2 == 0
      invariant forall j | start < j < i && j < |line| :: !Closes(line, start, j)
    {
      if line[i] == '\\' {
        assert i + 1 <= |line| ==> Backslashes(line, start, i + 1) == 1 + Backslashes(line, start, i);
        i := i + 2;
      } else if line[i] == '"' {
        i := i + 1;
        break;
      } else {
        i := i + 1;
      }
    }
  }

  /** Whether a colon comes after the spaces from `e` on. */
  method LooksLikeKey(line: string, e: nat) returns (key: bool)
    ensures key == ColonFollows(line, e)
  {
    var j := e;
    while j < |line| && line[j] == ' '
      invariant AfterSpaces(line, j) == AfterSpaces(line, e)
    {
      j := j + 1;
    }
    key := j < |line| && line[j] == ':';
  }

  /** The number, or the run without tokens, that begins at `start`. */
  method ScanRun(line: string, start: nat, number: bool) returns (i: nat)
    requires start < |line|
    ensures start < i <= |line|
    ensures number ==> NumberEndsAt(line, start, i)
    ensures !number ==> PunctuationEndsAt(line, start, i)
  {
    i := start + 1;
    if number {
      while i < |line| && IsNumberChar(line[i])
        invariant start < i <= |line| && forall k | start < k < i :: IsNumberChar(line[k])
      {
        i := i + 1;
      }
    } else {
      while i < |line| && !TokenStarts(line, i)
        invariant start < i <= |line| && forall k | start < k < i :: !TokenStarts(line, k)
      {
        i := i + 1;
      }
    }
  }

  method NextSpan(line: string, start: nat) returns (span: Span)
    requires start < |line|
    ensures SpanAt(line, start, span)
  {
    hide StringEndsAt, NumberEndsAt, PunctuationEndsAt, ColonFollows;
    if line[start] == '"' {
      var i := ScanString(line, start);
      var e := if i < |line| then i else |line|;
      var key := LooksLikeKey(line, i);
      PastTheEnd(line, i, e);
      span := Span(line[start..e], if key then Key else Text);
    } else if NumberStarts(line, start) {
      var i := ScanRun(line, start, true);
      span := Span(line[start..i], Number);
    } else if LiteralAt(line, start).Some? {
      span := Span(LiteralAt(line, start).value, Literal);
    } else {
      var i := ScanRun(line, start, false);
      span := Span(line[start..i], Punctuation);
    }
  }

  lemma PastTheEnd(line: string, i: nat, e: nat)
    requires e == if i < |line| then i else |line|
    ensures ColonFollows(line, i) == ColonFollows(line, e)
  {
  }

  /** The spans of a line are lexed from left to right and together they are the line. */
  method HighlightJson(line: string) returns (spans: seq<Span>)
    ensures Lexes(line, spans) && Joined(spans) == line
  {
    hide SpanAt;
    spans := [];
    var i := 0;
    while i < |line|
      invariant i <= |line| && |Joined(spans)| == i && Joined(spans) <= line
      invariant Lexes(line, spans)
    {
      hide Lexes, Joined;
      var span := NextSpan(line, i);
      SpanIsThere(line, i, span);
      SpanAppended(line, spans, span);
      spans := spans + [span];
      i := i + |span.text|;
    }
  }

  // ---------------------------------------------------------------- what a lexing gives

  lemma StringEndUnique(line: string, start: nat, a: nat, b: nat)
    requires start < a <= |line| && start < b <= |line| && StringEndsAt(line, start, a) && StringEndsAt(line, start, b)
    ensures a == b
  {
  }

  lemma SpanUnique(line: string, o: nat, a: Span, b: Span)
    requires SpanAt(line, o, a) && SpanAt(line, o, b)
    ensures a == b
  {
    var ea, eb := o + |a.text|, o + |b.text|;
    if line[o] == '"' {
      StringEndUnique(line, o, ea, eb);
    }
  }

  lemma LexedAt(line: string, spans: seq<Span>, k: nat)
    requires Lexes(line, spans) && k < |spans|
    ensures SpanAt(line, |Joined(spans[..k])|, spans[k])
  {
    hide SpanAt, Joined;
  }

  lemma {:induction false} SamePrefix(line: string, a: seq<Span>, b: seq<Span>, k: nat)
    requires Lexes(line, a) && Lexes(line, b) && k <= |a| && k <= |b|
    ensures a[..k] == b[..k]
  {
    hide Lexes, SpanAt, Joined;
    if k > 0 {
      SamePrefix(line, a, b, k - 1);
      LexedAt(line, a, k - 1);
      LexedAt(line, b, k - 1);
      SpanUnique(line, |Joined(a[..k - 1])|, a[k - 1], b[k - 1]);
      assert a[..k] == a[..k - 1] + [a[k - 1]] && b[..k] == b[..k - 1] + [b[k - 1]];
    }
  }

  lemma NoLonger(line: string, a: seq<Span>, b: seq<Span>)
    requires Lexes(line, a) && Joined(a) == line && Lexes(line, b)
    ensures |b| <= |a|
  {
    hide Lexes, SpanAt, Joined;
    if |a| < |b| {
      SamePrefix(line, a, b, |a|);
      assert a[..|a|] == a;
      LexedAt(line, b, |a|);
      SpanIsThere(line, |line|, b[|a|]);
      assert false;
    }
  }

  /** A line has one lexing, so the contract of the lexer leaves it no choice. */
  lemma LexingUnique(line: string, a: seq<Span>, b: seq<Span>)
    requires Lexes(line, a) && Joined(a) == line && Lexes(line, b) && Joined(b) == line
    ensures a == b
  {
    hide Lexes, SpanAt, Joined;
    NoLonger(line, a, b);
    NoLonger(line, b, a);
    SamePrefix(line, a, b, |a|);
    assert a[..|a|] == a && b[..|b|] == b;
  }

  /** A span holds the line's own characters, and no position of a punctuation span starts a token. */
  lemma PunctuationHasNoToken(line: string, spans: seq<Span>, k: nat, j: nat)
    requires Lexes(line, spans) && k < |spans| && j < |spans[k].text|
    ensures var i := |Joined(spans[..k])| + j;
            && i < |line| && line[i] == spans[k].text[j]
            && (spans[k].kind == Punctuation ==> !TokenStarts(line, i))
  {
    hide Lexes, Joined;
    var o := |Joined(spans[..k])|;
    LexedAt(line, spans, k);
    assert line[o..o + |spans[k].text|][j] == line[o + j];
  }

  // ---------------------------------------------------------------- JSON's own tokens (sections 6 and 7 of RFC 8259)

  predicate JsonInteger(s: string) {
    s != [] && AllDigits(s) && (|s| > 1 ==> s[0] != '0')
  }

  predicate JsonFraction(s: string) {
    s == [] || (|s| > 1 && s[0] == '.' && AllDigits(s[1..]))
  }

  predicate JsonExponent(s: string) {
    s == [] ||
    (s[0] in "eE" &&
     var digits := if |s| > 1 && s[1] in "+-" then s[2..] else s[1..];
     digits != [] && AllDigits(digits))
  }

  ghost predicate JsonNumber(s: string) {
    exists minus, integer, fraction, exponent ::
      && minus in ["", "-"] && JsonInteger(integer) && JsonFraction(fraction) && JsonExponent(exponent)
      && s == minus + integer + fraction + exponent
  }

  predicate NumberChars(s: string) {
    forall k | 0 <= k < |s| :: IsNumberChar(s[k])
  }

  lemma JsonNumberChars(s: string)
    requires JsonNumber(s)
    ensures s != [] && NumberChars(s) && (IsDigit(s[0]) || (s[0] == '-' && |s| > 1 && IsDigit(s[1])))
  {
    hide JsonExponent;
    var minus, integer, fraction, exponent :|
      && minus in ["", "-"] && JsonInteger(integer) && JsonFraction(fraction) && JsonExponent(exponent)
      && s == minus + integer + fraction + exponent;
    FractionChars(fraction);
    ExponentChars(exponent);
    assert s[|minus|] == integer[0];
    hide JsonFraction, JsonInteger, IsNumberChar;
  }

  lemma FractionChars(s: string)
    requires JsonFraction(s)
    ensures NumberChars(s)
  {
    if s != [] {
      assert forall k | 1 <= k < |s| :: s[k] == s[1..][k - 1];
    }
  }

  lemma ExponentChars(s: string)
    requires JsonExponent(s)
    ensures NumberChars(s)
  {
    if s != [] {
      var signed := |s| > 1 && s[1] in "+-";
      var digits := if signed then s[2..] else s[1..];
      assert forall k | (if signed then 2 else 1) <= k < |s| :: s[k] == digits[k - if signed then 2 else 1];
    }
  }

  lemma NumberCharIs(c: char)
    ensures IsNumberChar(c) <==> c in "0123456789.eE+-"
  {
    assert IsDigit(c) <==> c in "0123456789";
  }

  /** A JSON number is one span, whatever comes behind it that could not be a part of a number. */
  lemma NumberIsOneSpan(pre: string, number: string, post: string)
    requires JsonNumber(number) && (post == [] || post[0] !in "0123456789.eE+-")
    ensures SpanAt(pre + number + post, |pre|, Span(number, Number))
  {
    hide JsonNumber, IsNumberChar, StringEndsAt, PunctuationEndsAt, ColonFollows, LiteralAt;
    JsonNumberChars(number);
    var line, o, e := pre + number + post, |pre|, |pre| + |number|;
    assert forall k | o <= k < e :: line[k] == number[k - o];
    assert line[o..e] == number;
    if post != [] {
      assert line[e] == post[0];
      NumberCharIs(post[0]);
    }
  }

  /** A JSON keyword is one span, whatever surrounds it. */
  lemma KeywordIsOneSpan(pre: string, word: string, post: string)
    requires word in ["true", "false", "null"]
    ensures SpanAt(pre + word + post, |pre|, Span(word, Literal))
  {
    var line, o := pre + word + post, |pre|;
    assert line[o..o + |word|] == word && line[o] == word[0];
    if word != "true" {
      NoOtherWord(line, o, word, "true");
    }
    if word == "null" {
      NoOtherWord(line, o, word, "false");
    }
  }

  lemma FirstOfWord(line: string, o: nat, word: string)
    requires word != [] && HasAt(line, o, word)
    ensures line[o] == word[0]
  {
    assert line[o..o + |word|][0] == line[o];
  }

  lemma NoOtherWord(line: string, o: nat, word: string, other: string)
    requires word != [] && other != [] && word[0] != other[0] && HasAt(line, o, word)
    ensures !HasAt(line, o, other)
  {
    hide HasAt;
    FirstOfWord(line, o, word);
    if HasAt(line, o, other) {
      FirstOfWord(line, o, other);
    }
  }

  /** The inside of a JSON string: a backslash never stands alone, and a quote only behind one. */
  predicate JsonStringBody(s: string)
    decreases |s|
  {
    if s == [] then true
    else if s[0] == '\\' then |s| >= 2 && JsonStringBody(s[2..])
    else s[0] != '"' && JsonStringBody(s[1..])
  }

  lemma {:induction false} BodyDoesNotClose(line: string, start: nat, p: nat, e: nat)
    requires start < p <= e <= |line| && JsonStringBody(line[p..e]) && Backslashes(line, start, p) % 2 == 0
    ensures forall j | p <= j < e :: !Closes(line, start, j)
    ensures Backslashes(line, start, e) % 2 == 0
    decreases e - p
  {
    if p < e {
      assert line[p..e][0] == line[p];
      if line[p] == '\\' {
        assert line[p..e][2..] == line[p + 2..e];
        assert Backslashes(line, start, p + 1) == 1 + Backslashes(line, start, p);
        BodyDoesNotClose(line, start, p + 2, e);
      } else {
        assert line[p..e][1..] == line[p + 1..e];
        BodyDoesNotClose(line, start, p + 1, e);
      }
    }
  }

  /** A JSON string is one span, a key exactly when a colon comes behind it and any spaces. */
  lemma StringIsOneSpan(pre: string, body: string, spaces: string, post: string)
    requires JsonStringBody(body) && forall k | 0 <= k < |spaces| :: spaces[k] == ' '
    requires post == [] || post[0] != ' '
    ensures
      var text := "\"" + body + "\"";
      SpanAt(pre + text + spaces + post, |pre|, Span(text, if post != [] && post[0] == ':' then Key else Text))
  {
    hide Closes, JsonStringBody, Backslashes, StringEndsAt, AfterSpaces;
    var text := "\"" + body + "\"";
    var line, o, e := pre + text + spaces + post, |pre|, |pre| + |text|;
    assert line[o..e] == text && line[o] == '"';
    StringBodyEnds(pre, body, spaces + post);
    assert line == pre + text + (spaces + post);
    assert forall k | e <= k < e + |spaces| :: line[k] == ' ';
    assert post != [] ==> line[e + |spaces|] == post[0];
    SpacesSkipped(line, e, |spaces|);
  }

  lemma StringBodyEnds(pre: string, body: string, rest: string)
    requires JsonStringBody(body)
    ensures
      var text := "\"" + body + "\"";
      StringEndsAt(pre + text + rest, |pre|, |pre| + |text|)
  {
    hide Closes, JsonStringBody, Backslashes;
    var line, o := pre + ("\"" + body + "\"") + rest, |pre|;
    var close := o + 1 + |body|;
    assert line[close] == '"' && line[o + 1..close] == body;
    OpensEven(line, o);
    BodyDoesNotClose(line, o, o + 1, close);
    ClosesHere(line, o, close);
  }

  lemma OpensEven(line: string, start: nat)
    requires start < |line|
    ensures Backslashes(line, start, start + 1) == 0
  {
  }

  lemma ClosesHere(line: string, start: nat, j: nat)
    requires start < j < |line| && line[j] == '"' && Backslashes(line, start, j) % 2 == 0
    ensures Closes(line, start, j)
  {
  }

  lemma {:induction false} SpacesSkipped(line: string, e: nat, n: nat)
    requires e + n <= |line| && (forall k | e <= k < e + n :: line[k] == ' ')
    requires e + n < |line| ==> line[e + n] != ' '
    ensures AfterSpaces(line, e) == e + n
    decreases n
  {
    if n > 0 {
      SpacesSkipped(line, e + 1, n - 1);
    }
  }
}
