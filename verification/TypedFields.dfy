/** What was typed into a form and what is sent for it, said without the code that reads it. */
module TypedFields {
  import opened Prelude
  import opened Texts
  import opened JsonPaths
  import opened Composer
  import opened Payloads

  // ---------------------------------------------------------------- text between blanks

  /** The value holds this text, and besides it only blanks around it. */
  ghost predicate Typed(value: string, text: string) {
    exists a, b :: Blank(a) && Blank(b) && Trimmed(text) && value == a + text + b
  }

  /** Every value holds one text, and it is what trimming leaves. */
  lemma TypedIsTrim(value: string, text: string)
    ensures Typed(value, text) <==> Trim(value) == text
  {
    hide Trim, Trimmed, Blank;
    if Typed(value, text) {
      var a, b :| Blank(a) && Blank(b) && Trimmed(text) && value == a + text + b;
      TrimTyped(a, text, b);
    }
    var a, b := TrimCuts(value);
  }

  // ---------------------------------------------------------------- lines and cells

  lemma {:induction false} NonBlankConcat(a: seq<string>, b: seq<string>)
    ensures NonBlank(a + b) == NonBlank(a) + NonBlank(b)
    decreases |b|
  {
    if b == [] {
      assert a + b == a;
    } else {
      assert (a + b)[..|a + b| - 1] == a + b[..|b| - 1];
      NonBlankConcat(a, b[..|b| - 1]);
    }
  }

  /** Leaving out blank lines keeps exactly the others, in their order. */
  lemma {:induction false} NonBlankKeeps(lines: seq<string>) returns (order: seq<nat>)
    ensures |NonBlank(lines)| == |order|
    ensures forall k | 0 <= k < |order| :: order[k] < |lines| && NonBlank(lines)[k] == lines[order[k]] != []
    ensures forall k, m | 0 <= k < m < |order| :: order[k] < order[m]
    ensures forall i | 0 <= i < |lines| && lines[i] != [] :: i in order
  {
    order := [];
    if lines != [] {
      var n := |lines| - 1;
      order := NonBlankKeeps(lines[..n]);
      if lines[n] != [] {
        order := order + [n];
      }
    }
  }

  /** The texts between the line breaks of a value that are not blank. */
  function Entries(value: string): seq<string> {
    NonBlank(Trims(Split(value, '\n')))
  }

  lemma TrimsConcat(a: seq<string>, b: seq<string>)
    ensures Trims(a + b) == Trims(a) + Trims(b)
  {
  }

  lemma {:induction false} LinesAreEntries(s: string)
    ensures NonBlank(Trims(Lines(s))) == Entries(s)
    decreases |s|
  {
    hide Trim, NonBlank, IndexOf;
    var i := IndexOf(s, '\n');
    if s == [] {
      BlankLine();
      assert Trims([]) == [] && Split(s, '\n') == [[]];
    } else if i < |s| {
      LinesAreEntries(s[i + 1..]);
      ReturnIsBlank(s[..i]);
      TrimsConcat([s[..i]], Split(s[i + 1..], '\n'));
      TrimsConcat([WithoutReturn(s[..i])], Lines(s[i + 1..]));
      assert Trims([s[..i]]) == [Trim(s[..i])] == Trims([WithoutReturn(s[..i])]);
      NonBlankConcat([Trim(s[..i])], Trims(Split(s[i + 1..], '\n')));
      NonBlankConcat([Trim(s[..i])], Trims(Lines(s[i + 1..])));
    }
  }

  lemma BlankLine()
    ensures NonBlank([]) == [] && Trims([[]]) == [[]] && NonBlank([[]]) == []
  {
    assert [""][..0] == [];
  }

  lemma ReturnIsBlank(line: string)
    ensures Trim(WithoutReturn(line)) == Trim(line)
  {
    hide Trim;
    if line != [] && line[|line| - 1] == '\r' {
      var n := |line| - 1;
      TrimAround([], line[..n], "\r");
      assert line == [] + line[..n] + "\r";
    }
  }

  lemma FrontBlank(w: char, parts: seq<string>, c: char)
    requires parts != [] && IsWhitespace(w)
    ensures NonBlank(Trims(Before(w, parts, c))) == NonBlank(Trims(parts))
    ensures w != c ==> Trims(Before(w, parts, c)) == Trims(parts)
  {
    hide Trim, NonBlank, IsWhitespace;
    if w == c {
      TrimsConcat([[]], parts);
      BlankLine();
      NonBlankConcat([[]], Trims(parts));
    } else {
      TrimAround([w], parts[0], []);
      assert [w] + parts[0] + [] == [w] + parts[0];
      assert Trims(Before(w, parts, c)) == Trims(parts);
    }
  }

  lemma EndBlank(parts: seq<string>, w: char, c: char)
    requires parts != [] && IsWhitespace(w)
    ensures NonBlank(Trims(Behind(parts, w, c))) == NonBlank(Trims(parts))
    ensures w != c ==> Trims(Behind(parts, w, c)) == Trims(parts)
  {
    hide Trim, NonBlank, IsWhitespace;
    if w == c {
      TrimsConcat(parts, [[]]);
      BlankLine();
      NonBlankConcat(Trims(parts), [[]]);
    } else {
      var n := |parts| - 1;
      TrimAround([], parts[n], [w]);
      assert [] + parts[n] + [w] == parts[n] + [w];
      assert Trims(Behind(parts, w, c)) == Trims(parts);
    }
  }

  lemma {:induction false} BlanksInFront(a: string, s: string, c: char)
    requires Blank(a)
    ensures NonBlank(Trims(Split(a + s, c))) == NonBlank(Trims(Split(s, c)))
    ensures !IsWhitespace(c) ==> Trims(Split(a + s, c)) == Trims(Split(s, c))
  {
    hide Trims, NonBlank, IsWhitespace, Split;
    if a == [] {
      assert a + s == s;
    } else {
      BlanksInFront(a[1..], s, c);
      assert a + s == [a[0]] + (a[1..] + s);
      SplitPrepended(a[0], a[1..] + s, c);
      FrontBlank(a[0], Split(a[1..] + s, c), c);
    }
  }

  lemma {:induction false} BlanksBehind(s: string, b: string, c: char)
    requires Blank(b)
    ensures NonBlank(Trims(Split(s + b, c))) == NonBlank(Trims(Split(s, c)))
    ensures !IsWhitespace(c) ==> Trims(Split(s + b, c)) == Trims(Split(s, c))
  {
    hide Trims, NonBlank, IsWhitespace, Split;
    if b == [] {
      assert s + b == s;
    } else {
      var n := |b| - 1;
      BlanksBehind(s, b[..n], c);
      assert s + b == (s + b[..n]) + [b[n]];
      SplitAppended(s + b[..n], b[n], c);
      EndBlank(Split(s + b[..n], c), b[n], c);
    }
  }

  lemma TrimmedFirst(s: string, c: char)
    ensures NonBlank(Trims(Split(Trim(s), c))) == NonBlank(Trims(Split(s, c)))
    ensures !IsWhitespace(c) ==> Trims(Split(Trim(s), c)) == Trims(Split(s, c))
  {
    hide Trim, Trims, NonBlank, IsWhitespace, Split, Blank;
    var a, b := TrimCuts(s);
    BlanksBehind(a + Trim(s), b, c);
    BlanksInFront(a, Trim(s), c);
  }

  /** A list or table reads the entries of its value: neither blanks around the whole, nor carriage returns, nor
   *  blank lines make a difference. */
  lemma ContentIsEntries(field: Field)
    ensures Content(field) == Entries(field.value)
  {
    hide Trim, Trims, NonBlank, Split, Lines;
    LinesAreEntries(Trim(field.value));
    TrimmedFirst(field.value, '\n');
  }

  /** Lines as they were typed, with blanks around each and blank lines between them. */
  lemma EntriesTyped(raw: seq<string>, texts: seq<string>)
    requires |raw| == |texts| > 0 && Free(raw, '\n')
    requires forall k | 0 <= k < |raw| :: Typed(raw[k], texts[k])
    ensures Entries(Join(raw, '\n')) == NonBlank(texts)
  {
    hide Trim, Split, Join, NonBlank, Typed;
    SplitFree(raw, '\n');
    forall k | 0 <= k < |raw|
      ensures Trim(raw[k]) == texts[k]
    {
      TypedIsTrim(raw[k], texts[k]);
    }
    assert Trims(raw) == texts;
  }

  /** The cells of a line as they were typed, with blanks around each. */
  lemma CellsTyped(line: string, raw: seq<string>, texts: seq<string>)
    requires |raw| == |texts| > 0 && Free(raw, ',') && Typed(Join(raw, ','), line)
    requires forall k | 0 <= k < |raw| :: Typed(raw[k], texts[k])
    ensures Cells(line) == texts
  {
    hide Trim, Split, Join, Typed, IsWhitespace;
    SplitFree(raw, ',');
    TypedIsTrim(Join(raw, ','), line);
    TrimmedFirst(Join(raw, ','), ',');
    CommaIsNoBlank();
    forall k | 0 <= k < |raw|
      ensures Trim(raw[k]) == texts[k]
    {
      TypedIsTrim(raw[k], texts[k]);
    }
    assert Trims(raw) == texts;
  }

  lemma CommaIsNoBlank()
    ensures !IsWhitespace(',')
  {
  }

  // ---------------------------------------------------------------- what a field means

  /** A required field was left blank, or an optional one, in the kinds that insist on a value. */
  ghost predicate LeftBlank(field: Field, r: Result<Option<Value>, FieldError>) {
    if field.optional then r == Success(None) else r == Failure(Required(field.title))
  }

  /** The value sent for a list or table: nothing when it is optional and has no entries. */
  predicate SentItems(field: Field, items: seq<Value>, r: Result<Option<Value>, FieldError>) {
    if items == [] && field.optional then r == Success(None) else r == Success(Some(Arr(items)))
  }

  predicate Listed(items: seq<Value>, entries: seq<string>) {
    |items| == |entries| && forall k | 0 <= k < |items| :: items[k] == Str(entries[k])
  }

  /** One record for each entry, which holds its cells under the columns and nothing else. */
  predicate Table(items: seq<Value>, columns: seq<string>, entries: seq<string>) {
    && |items| == |entries|
    && forall k | 0 <= k < |items| :: ReadsAs(items[k], columns, Trims(Split(entries[k], ',')))
  }

  /** The text stands for this number, and the number fits. */
  ghost predicate InRange(text: string, n: int) {
    I64_MIN <= n <= I64_MAX && IsNumeral(text, n)
  }

  /** What a field with this text typed into it means. */
  ghost predicate Means(field: Field, text: string, r: Result<Option<Value>, FieldError>) {
    match field.kind
    case Text | Picker => if text == "" then LeftBlank(field, r) else r == Success(Some(Str(text)))
    case Toggle => r == Success(Some(Value.Bool(text == "true")))
    case Select =>
      (match text
       case "" => LeftBlank(field, r)
       case "null" => r == Success(Some(Null))
       case "clear" => r == Success(Some(Null))
       case "true" => r == Success(Some(Value.Bool(true)))
       case "false" => r == Success(Some(Value.Bool(false)))
       case _ => r == Success(Some(Str(text))))
    case Int =>
      if text == "" then LeftBlank(field, r)
      else if exists n :: InRange(text, n) then exists n :: InRange(text, n) && r == Success(Some(Num(n)))
      else r == Failure(NotWhole(field.title))
    case List => exists items :: Listed(items, Entries(field.value)) && SentItems(field, items, r)
    case Rows(columns) =>
      var entries := Entries(field.value);
      if exists k | 0 <= k < |entries| :: multiset(entries[k])[','] + 1 != |columns|
      then r == Failure(RowWidth(field.title, columns))
      else Distinct(columns) ==> exists items :: Table(items, columns, entries) && SentItems(field, items, r)
  }

  lemma RowsMean(field: Field, text: string)
    requires field.kind.Rows?
    ensures Means(field, text, FieldValue(field))
  {
    hide Trim, Trims, Split, Record, Lines, Entries;
    var columns, entries := field.kind.columns, Content(field);
    ContentIsEntries(field);
    RowsAccepted(field);
    RecordsExactly(columns, entries);
    if FieldValue(field).Success? && Distinct(columns) {
      var items := Records(columns, entries).value;
      forall k | 0 <= k < |items|
        ensures ReadsAs(items[k], columns, Cells(entries[k]))
      {
        RecordMeans(columns, Cells(entries[k]));
      }
      assert Table(items, columns, entries);
    }
  }

  /** Every field is sent as what it means. */
  lemma FieldMeans(field: Field, text: string)
    requires Typed(field.value, text)
    ensures Means(field, text, FieldValue(field))
  {
    hide Typed, Trim, Entries, Lines, Trims, NonBlank, IsNumeral, ParseI64;
    TypedIsTrim(field.value, text);
    match field.kind
    case Rows(_) => RowsMean(field, text);
    case List =>
      ContentIsEntries(field);
      assert Listed(Strings(Content(field)), Entries(field.value));
    case Int =>
      forall n: int
        ensures ParseI64(text) == Some(n) <==> InRange(text, n)
      {
        ReadsExactly(text, n);
      }
      assert ParseI64(text).Some? ==> InRange(text, ParseI64(text).value);
    case _ =>
  }

  lemma OneNumber(text: string, m: int, n: int)
    requires IsNumeral(text, m) && IsNumeral(text, n) && I64_MIN <= m <= I64_MAX && I64_MIN <= n <= I64_MAX
    ensures m == n
  {
    hide IsNumeral, ParseI64;
    ReadsExactly(text, m);
    ReadsExactly(text, n);
  }

  lemma OneTable(a: seq<Value>, b: seq<Value>, columns: seq<string>, entries: seq<string>)
    requires Table(a, columns, entries) && Table(b, columns, entries)
    ensures a == b
  {
    hide Trims, Split;
    forall k | 0 <= k < |a|
      ensures a[k] == b[k]
    {
      OneRecord(a[k], b[k], columns, Trims(Split(entries[k], ',')));
    }
  }

  lemma OneRecord(a: Value, b: Value, columns: seq<string>, row: seq<string>)
    requires ReadsAs(a, columns, row) && ReadsAs(b, columns, row)
    ensures a == b
  {
    forall c | c in a.members.Keys
      ensures c in b.members.Keys && a.members[c] == b.members[c]
    {
      var j :| 0 <= j < |columns| && columns[j] == c;
    }
    assert a.members == b.members;
  }

  /** A field with distinct columns, if it has any, means one thing only, so it is sent as nothing else. */
  lemma MeansExactly(field: Field, text: string, r: Result<Option<Value>, FieldError>)
    requires Typed(field.value, text) && (field.kind.Rows? ==> Distinct(field.kind.columns))
    ensures Means(field, text, r) <==> r == FieldValue(field)
  {
    hide Typed, FieldValue, Entries, IsNumeral, Table, Distinct;
    FieldMeans(field, text);
    if Means(field, text, r) {
      match field.kind
      case Int =>
        forall m: int, n: int | InRange(text, m) && InRange(text, n)
          ensures m == n
        {
          OneNumber(text, m, n);
        }
      case List =>
        forall a: seq<Value>, b: seq<Value> | Listed(a, Entries(field.value)) && Listed(b, Entries(field.value))
          ensures a == b
        {
        }
      case Rows(columns) =>
        var entries := Entries(field.value);
        forall a: seq<Value>, b: seq<Value> | Table(a, columns, entries) && Table(b, columns, entries)
          ensures a == b
        {
          OneTable(a, b, columns, entries);
        }
      case _ =>
    }
  }

  // ---------------------------------------------------------------- the payload of what was typed

  /** With separate keys, a form is sent exactly when every field means a value or is left out, and then the payload
   *  holds, at the path that a field's key spells out, what was typed into it means. */
  lemma PayloadMeans(actionType: string, fields: seq<Field>, i: nat, path: Path, text: string,
                     r: Result<Option<Value>, FieldError>)
    requires Separate(fields) && i < |fields| && fields[i].key == Join(path, '.') && Free(path, '.')
    requires fields[i].kind.Rows? ==> Distinct(fields[i].kind.columns)
    requires Typed(fields[i].value, text) && Means(fields[i], text, r)
    ensures AllValid(fields) ==> r.Success?
    ensures r.Success? ==> Lookup(Payload(actionType, fields), path) == r.value
  {
    hide Typed, Means, FieldValue, Split, Join, Lookup, Payload, Separate;
    MeansExactly(fields[i], text, r);
    SplitFree(path, '.');
    assert KeyPath(fields[i]) == path;
    PayloadExactly(actionType, fields, path);
  }

  /** In particular a text or a picked id is sent as it was typed, without the blanks around it. */
  lemma TextIsSent(actionType: string, fields: seq<Field>, i: nat, path: Path, a: string, text: string, b: string)
    requires Separate(fields) && i < |fields| && fields[i].key == Join(path, '.') && Free(path, '.')
    requires fields[i].kind.Text? || fields[i].kind.Picker?
    requires Blank(a) && Blank(b) && Trimmed(text) && text != [] && fields[i].value == a + text + b
    ensures FieldValue(fields[i]) == Success(Some(Str(text)))
    ensures Lookup(Payload(actionType, fields), path) == Some(Str(text))
  {
    hide FieldValue, Split, Join, Lookup, Payload, Separate, Trimmed, Blank;
    assert Typed(fields[i].value, text);
    FieldMeans(fields[i], text);
    PayloadMeans(actionType, fields, i, path, text, Success(Some(Str(text))));
  }
}
