/** The scanner for libpq keyword/value connection strings (section 34.1.1.1 of the PostgreSQL documentation). */
module Conninfo {
  import opened Foundations

  /** The code point ranges for which Python's str.isspace holds. */
  const SPACES: seq<(int, int)> :=
    [(9, 13), (28, 32), (133, 133), (160, 160), (5760, 5760), (8192, 8202), (8232, 8233), (8239, 8239), (8287, 8287), (12288, 12288)]

  predicate InRanges(n: int, ranges: seq<(int, int)>) {
    ranges != [] && (ranges[0].0 <= n <= ranges[0].1 || InRanges(n, ranges[1..]))
  }

  predicate IsSpace(c: char) { InRanges(c as int, SPACES) }

  lemma {:induction false} OutsideRanges(n: int, ranges: seq<(int, int)>)
    requires forall r :: r in ranges ==> n < r.0 || r.1 < n
    ensures !InRanges(n, ranges)
    decreases |ranges|
  {
    if ranges != [] { OutsideRanges(n, ranges[1..]); }
  }

  lemma SignsAreNotSpaces()
    ensures !IsSpace('=') && !IsSpace('\'') && !IsSpace('\\')
  {
    OutsideRanges('=' as int, SPACES);
    OutsideRanges('\'' as int, SPACES);
    OutsideRanges('\\' as int, SPACES);
  }

  datatype Error = ExpectedEquals | UnterminatedQuote
  datatype Result = Ok(params: map<string, string>) | Err(error: Error)

  // ----- what the scanner computes, on the text still to be read -----

  function DropSpaces(s: string): (r: string)
    ensures |r| <= |s| && (r != "" ==> !IsSpace(r[0]))
  {
    if s != "" && IsSpace(s[0]) then DropSpaces(s[1..]) else s
  }

  function Joined(c: char, rest: (string, string)): (string, string) { ([c] + rest.0, rest.1) }

  /** What ends a keyword. */
  predicate EndsKeyword(s: string) { s == "" || IsSpace(s[0]) || s[0] == '=' }

  /** A keyword runs up to a space or '='. */
  function Keyword(s: string): (string, string) {
    if EndsKeyword(s) then ("", s) else Joined(s[0], Keyword(s[1..]))
  }

  function Prefixed(c: char, rest: Option<(string, string)>): Option<(string, string)> {
    if rest.None? then None else Some(([c] + rest.value.0, rest.value.1))
  }

  /** After the opening quote: up to the closing one, a backslash taking the next character as it is. */
  function Quoted(s: string): Option<(string, string)> {
    if s == "" then None
    else if s[0] == '\'' then Some(("", s[1..]))
    else if s[0] == '\\' && |s| > 1 then Prefixed(s[1], Quoted(s[2..]))
    else Prefixed(s[0], Quoted(s[1..]))
  }

  /** Without a quote: up to a space; a backslash that ends the text stands for itself. */
  function Bare(s: string): (string, string) {
    if s == "" || IsSpace(s[0]) then ("", s)
    else if s[0] == '\\' && |s| > 1 then Joined(s[1], Bare(s[2..]))
    else Joined(s[0], Bare(s[1..]))
  }

  function Value(s: string): Option<(string, string)> {
    if s != "" && s[0] == '\'' then Quoted(s[1..]) else Some(Bare(s))
  }

  function Store(params: map<string, string>, keyword: string, value: string): map<string, string> {
    if keyword == "" then params else params[keyword := value]
  }

  lemma KeywordShrinks(s: string)
    ensures |Keyword(s).1| <= |s|
  {
  }

  lemma QuotedShrinks(s: string)
    ensures Quoted(s).Some? ==> |Quoted(s).value.1| < |s|
  {
  }

  lemma ValueShrinks(s: string)
    ensures Value(s).Some? ==> |Value(s).value.1| <= |s|
  {
    if s != "" { QuotedShrinks(s[1..]); }
    BareShrinks(s);
  }

  lemma BareShrinks(s: string)
    ensures |Bare(s).1| <= |s|
  {
  }

  datatype Pair = Bad(error: Error) | Good(keyword: string, value: string, rest: string)

  /** One keyword, its '=' and its value. */
  function ReadPair(text: string): (p: Pair)
    ensures p.Good? ==> |p.rest| < |text|
  {
    var (keyword, rest) := Keyword(text);
    var equals := DropSpaces(rest);
    if equals == "" || equals[0] != '=' then Bad(ExpectedEquals)
    else
      var body := DropSpaces(equals[1..]);
      var value := Value(body);
      if value.None? then Bad(UnterminatedQuote)
      else
        KeywordShrinks(text); ValueShrinks(body);
        Good(keyword, value.value.0, value.value.1)
  }

  function Parse(s: string, params: map<string, string>): Result
    decreases |s|
  {
    var text := DropSpaces(s);
    if text == "" then Ok(params)
    else
      match ReadPair(text)
      case Bad(error) => Err(error)
      case Good(keyword, value, rest) => Parse(rest, Store(params, keyword, value))
  }

  // ----- the scanner -----

  method SkipSpaces(dsn: string, from: nat) returns (i: nat)
    requires from <= |dsn|
    ensures from <= i <= |dsn| && dsn[i..] == DropSpaces(dsn[from..])
  {
    i := from;
    while i < |dsn| && IsSpace(dsn[i])
      invariant from <= i <= |dsn| && DropSpaces(dsn[i..]) == DropSpaces(dsn[from..])
    {
      i := i + 1;
    }
  }

  lemma KeywordStep(dsn: string, from: nat, i: nat)
    requires from <= i < |dsn| && !IsSpace(dsn[i]) && dsn[i] != '='
    ensures After(dsn[from..i], Some(Keyword(dsn[i..]))) == After(dsn[from..i + 1], Some(Keyword(dsn[i + 1..])))
  {
    assert dsn[i..][1..] == dsn[i + 1..] && dsn[from..i + 1] == dsn[from..i] + [dsn[i]];
    assert Keyword(dsn[i..]) == Joined(dsn[i], Keyword(dsn[i + 1..]));
    AfterOne(dsn[from..i], dsn[i], Some(Keyword(dsn[i + 1..])));
  }

  lemma KeywordEnds(dsn: string, from: nat, i: nat)
    requires from <= i <= |dsn| && (i < |dsn| ==> IsSpace(dsn[i]) || dsn[i] == '=')
    ensures After(dsn[from..i], Some(Keyword(dsn[i..]))) == Some((dsn[from..i], dsn[i..]))
  {
    assert dsn[from..i] + "" == dsn[from..i];
  }

  method ReadKeyword(dsn: string, from: nat) returns (keyword: string, i: nat)
    requires from <= |dsn|
    ensures from <= i <= |dsn| && Keyword(dsn[from..]) == (keyword, dsn[i..])
  {
    i := from;
    AfterNone(Some(Keyword(dsn[from..])));
    assert dsn[from..from] == "";
    while i < |dsn| && !IsSpace(dsn[i]) && dsn[i] != '='
      invariant from <= i <= |dsn|
      invariant Some(Keyword(dsn[from..])) == After(dsn[from..i], Some(Keyword(dsn[i..])))
    {
      KeywordStep(dsn, from, i);
      i := i + 1;
    }
    KeywordEnds(dsn, from, i);
    keyword := dsn[from..i];
  }

  /** The character a value takes next: the one after a backslash that does not end the text. */
  function Taken(dsn: string, i: nat): nat
    requires i < |dsn|
  {
    if dsn[i] == '\\' && i + 1 < |dsn| then i + 1 else i
  }

  function After(chars: string, rest: Option<(string, string)>): Option<(string, string)> {
    if rest.None? then None else Some((chars + rest.value.0, rest.value.1))
  }

  lemma AfterOne(chars: string, c: char, rest: Option<(string, string)>)
    ensures After(chars, Prefixed(c, rest)) == After(chars + [c], rest)
  {
    if rest.Some? { assert chars + ([c] + rest.value.0) == chars + [c] + rest.value.0; }
  }

  lemma AfterNone(rest: Option<(string, string)>)
    ensures After("", rest) == rest
  {
    if rest.Some? { assert "" + rest.value.0 == rest.value.0; }
  }

  lemma QuotedStep(dsn: string, i: nat, chars: string)
    requires i < |dsn| && dsn[i] != '\''
    ensures After(chars, Quoted(dsn[i..])) == After(chars + [dsn[Taken(dsn, i)]], Quoted(dsn[Taken(dsn, i) + 1..]))
  {
    var k := Taken(dsn, i);
    assert dsn[i..][1..] == dsn[i + 1..];
    assert k == i + 1 ==> dsn[i..][2..] == dsn[k + 1..];
    assert Quoted(dsn[i..]) == Prefixed(dsn[k], Quoted(dsn[k + 1..]));
    AfterOne(chars, dsn[k], Quoted(dsn[k + 1..]));
  }

  lemma QuotedEnds(dsn: string, i: nat, chars: string)
    requires i <= |dsn| && (i < |dsn| ==> dsn[i] == '\'')
    ensures After(chars, Quoted(dsn[i..])) == if i == |dsn| then None else Some((chars, dsn[i + 1..]))
  {
    if i < |dsn| {
      assert chars + "" == chars && dsn[i..][1..] == dsn[i + 1..];
    }
  }

  lemma BareStep(dsn: string, i: nat, chars: string)
    requires i < |dsn| && !IsSpace(dsn[i])
    ensures After(chars, Some(Bare(dsn[i..]))) == After(chars + [dsn[Taken(dsn, i)]], Some(Bare(dsn[Taken(dsn, i) + 1..])))
  {
    var k := Taken(dsn, i);
    assert dsn[i..][1..] == dsn[i + 1..];
    assert k == i + 1 ==> dsn[i..][2..] == dsn[k + 1..];
    assert Bare(dsn[i..]) == Joined(dsn[k], Bare(dsn[k + 1..]));
    AfterOne(chars, dsn[k], Some(Bare(dsn[k + 1..])));
  }

  lemma BareEnds(dsn: string, i: nat, chars: string)
    requires i <= |dsn| && (i < |dsn| ==> IsSpace(dsn[i]))
    ensures After(chars, Some(Bare(dsn[i..]))) == Some((chars, dsn[i..]))
  {
    assert chars + "" == chars;
  }

  method ReadQuoted(dsn: string, from: nat) returns (value: Option<string>, i: nat)
    requires from <= |dsn|
    ensures from <= i <= |dsn|
    ensures value.None? ==> Quoted(dsn[from..]).None?
    ensures value.Some? ==> Quoted(dsn[from..]) == Some((value.value, dsn[i..]))
  {
    var chars: string := "";
    i := from;
    AfterNone(Quoted(dsn[from..]));
    while i < |dsn| && dsn[i] != '\''
      invariant from <= i <= |dsn|
      invariant Quoted(dsn[from..]) == After(chars, Quoted(dsn[i..]))
    {
      QuotedStep(dsn, i, chars);
      i := Taken(dsn, i);
      chars, i := chars + [dsn[i]], i + 1;
    }
    QuotedEnds(dsn, i, chars);
    if i >= |dsn| {
      return None, i;
    }
    return Some(chars), i + 1;
  }

  method ReadBare(dsn: string, from: nat) returns (chars: string, i: nat)
    requires from <= |dsn|
    ensures from <= i <= |dsn| && Bare(dsn[from..]) == (chars, dsn[i..])
  {
    chars, i := "", from;
    AfterNone(Some(Bare(dsn[from..])));
    while i < |dsn| && !IsSpace(dsn[i])
      invariant from <= i <= |dsn|
      invariant Some(Bare(dsn[from..])) == After(chars, Some(Bare(dsn[i..])))
    {
      BareStep(dsn, i, chars);
      i := Taken(dsn, i);
      chars, i := chars + [dsn[i]], i + 1;
    }
    BareEnds(dsn, i, chars);
  }

  method ReadValue(dsn: string, from: nat) returns (value: Option<string>, i: nat)
    requires from <= |dsn|
    ensures from <= i <= |dsn|
    ensures value.None? ==> Value(dsn[from..]).None?
    ensures value.Some? ==> Value(dsn[from..]) == Some((value.value, dsn[i..]))
  {
    if from < |dsn| && dsn[from] == '\'' {
      assert dsn[from..][1..] == dsn[from + 1..];
      value, i := ReadQuoted(dsn, from + 1);
    } else {
      var chars, end := ReadBare(dsn, from);
      value, i := Some(chars), end;
    }
  }

  method ScanPair(dsn: string, from: nat) returns (error: Option<Error>, keyword: string, value: string, i: nat)
    requires from <= |dsn|
    ensures from <= i <= |dsn|
    ensures error.None? ==> from < i && ReadPair(dsn[from..]) == Good(keyword, value, dsn[i..])
    ensures error.Some? ==> ReadPair(dsn[from..]) == Bad(error.value)
  {
    value := "";
    keyword, i := ReadKeyword(dsn, from);
    i := SkipSpaces(dsn, i);
    if i >= |dsn| || dsn[i] != '=' {
      return Some(ExpectedEquals), keyword, value, i;
    }
    assert dsn[i..][1..] == dsn[i + 1..];
    i := SkipSpaces(dsn, i + 1);
    var read, end := ReadValue(dsn, i);
    i := end;
    if read.None? {
      return Some(UnterminatedQuote), keyword, value, i;
    }
    return None, keyword, read.value, i;
  }

  /** The whole scan: it ends on every text, with the map or the error that the definition gives. */
  method ConninfoParams(dsn: string) returns (result: Result)
    ensures result == Parse(dsn, map[])
  {
    var params: map<string, string> := map[];
    var i := 0;
    assert dsn[0..] == dsn;
    while i < |dsn|
      invariant 0 <= i <= |dsn| && Parse(dsn, map[]) == Parse(dsn[i..], params)
    {
      var start := SkipSpaces(dsn, i);
      if start >= |dsn| {
        return Ok(params);
      }
      var error, keyword, value, end := ScanPair(dsn, start);
      if error.Some? {
        return Err(error.value);
      }
      i := end;
      if keyword != "" {
        params := params[keyword := value];
      }
    }
    assert dsn[i..] == "";
    return Ok(params);
  }

  // ----- the format -----

  /** A character of a value, written as it is or after a backslash. */
  datatype Glyph = Glyph(sign: char, escaped: bool)

  datatype Form = InQuotes(glyphs: seq<Glyph>) | Unquoted(glyphs: seq<Glyph>)

  /** One pair as written: spaces, the keyword, spaces, '=', spaces, the value. */
  datatype Item = Item(lead: string, keyword: string, left: string, right: string, form: Form)

  function Text(gs: seq<Glyph>): string { if gs == [] then "" else [gs[0].sign] + Text(gs[1..]) }

  function Sign(g: Glyph): string { if g.escaped then ['\\', g.sign] else [g.sign] }

  function Written(gs: seq<Glyph>): string {
    if gs == [] then "" else Sign(gs[0]) + Written(gs[1..])
  }

  function Body(f: Form): string { if f.InQuotes? then "'" + Written(f.glyphs) + "'" else Written(f.glyphs) }

  function Render(item: Item): string {
    item.lead + item.keyword + item.left + "=" + item.right + Body(item.form)
  }

  ghost predicate AllSpaces(s: string) { forall c :: c in s ==> IsSpace(c) }

  ghost predicate KeywordSigns(k: string) { forall c :: c in k ==> !IsSpace(c) && c != '=' }

  ghost predicate IsKeyword(k: string) { k != "" && KeywordSigns(k) }

  /** Between quotes, quotes and backslashes are escaped; bare, spaces and backslashes and a leading quote are, and
      there is at least one character. */
  ghost predicate LegalForm(f: Form) {
    match f
    case InQuotes(gs) => forall g :: g in gs && (g.sign == '\'' || g.sign == '\\') ==> g.escaped
    case Unquoted(gs) =>
      && gs != [] && (gs[0].sign == '\'' ==> gs[0].escaped)
      && forall g :: g in gs && (IsSpace(g.sign) || g.sign == '\\') ==> g.escaped
  }

  ghost predicate LegalItem(item: Item) {
    && AllSpaces(item.lead) && AllSpaces(item.left) && AllSpaces(item.right) && LegalForm(item.form)
    && KeywordSigns(item.keyword) && (item.keyword == "" ==> item.left == "")
  }

  /** A bare value is kept apart from what follows. */
  ghost predicate LegalItems(items: seq<Item>) {
    && (forall i :: 0 <= i < |items| ==> LegalItem(items[i]))
    && (forall i :: 0 <= i < |items| - 1 && items[i].form.Unquoted? ==> items[i + 1].lead != "")
  }

  function RenderAll(items: seq<Item>, trail: string): string {
    if items == [] then trail else Render(items[0]) + RenderAll(items[1..], trail)
  }

  /** The last pair of a keyword wins, and a pair without a keyword says nothing. */
  function LastWins(params: map<string, string>, items: seq<Item>): map<string, string>
    decreases |items|
  {
    if items == [] then params
    else if items[0].keyword == "" then LastWins(params, items[1..])
    else LastWins(params[items[0].keyword := Text(items[0].form.glyphs)], items[1..])
  }

  lemma {:induction false} SpacesDrop(pad: string, s: string)
    requires AllSpaces(pad)
    ensures DropSpaces(pad + s) == DropSpaces(s)
    decreases |pad|
  {
    if pad == "" {
      assert pad + s == s;
    } else {
      assert pad[0] in pad && (pad + s)[1..] == pad[1..] + s;
      SpacesDrop(pad[1..], s);
    }
  }

  lemma {:induction false} KeywordReads(k: string, s: string)
    requires (forall c :: c in k ==> !IsSpace(c) && c != '=') && EndsKeyword(s)
    ensures Keyword(k + s) == (k, s)
    decreases |k|
  {
    if k == "" {
      assert k + s == s;
    } else {
      assert k[0] in k && (k + s)[1..] == k[1..] + s && k == [k[0]] + k[1..];
      KeywordReads(k[1..], s);
    }
  }

  lemma QuotedHead(g: Glyph, rest: string)
    requires (g.sign == '\'' || g.sign == '\\') ==> g.escaped
    ensures Quoted(Sign(g) + rest) == Prefixed(g.sign, Quoted(rest))
  {
    var text := Sign(g) + rest;
    if g.escaped {
      assert text[2..] == rest;
    } else {
      assert text[1..] == rest;
    }
  }

  lemma BareHead(g: Glyph, rest: string)
    requires (IsSpace(g.sign) || g.sign == '\\') ==> g.escaped
    ensures Bare(Sign(g) + rest) == Joined(g.sign, Bare(rest))
  {
    SignsAreNotSpaces();
    var text := Sign(g) + rest;
    if g.escaped {
      assert text[2..] == rest;
    } else {
      assert text[1..] == rest;
    }
  }

  lemma {:induction false} QuotedReads(gs: seq<Glyph>, s: string)
    requires LegalForm(InQuotes(gs))
    ensures Quoted(Written(gs) + "'" + s) == Some((Text(gs), s))
    decreases |gs|
  {
    if gs == [] {
      assert Written(gs) + "'" + s == "'" + s;
    } else {
      var rest := Written(gs[1..]) + "'" + s;
      QuotedReads(gs[1..], s);
      assert gs[0] in gs && Written(gs) + "'" + s == Sign(gs[0]) + rest;
      QuotedHead(gs[0], rest);
    }
  }

  lemma {:induction false} BareReads(gs: seq<Glyph>, s: string)
    requires forall g :: g in gs && (IsSpace(g.sign) || g.sign == '\\') ==> g.escaped
    requires s == "" || IsSpace(s[0])
    ensures Bare(Written(gs) + s) == (Text(gs), s)
    decreases |gs|
  {
    if gs == [] {
      assert Written(gs) + s == s;
    } else {
      var rest := Written(gs[1..]) + s;
      BareReads(gs[1..], s);
      assert gs[0] in gs && Written(gs) + s == Sign(gs[0]) + rest;
      BareHead(gs[0], rest);
    }
  }

  lemma QuotedValueReads(gs: seq<Glyph>, s: string)
    requires LegalForm(InQuotes(gs))
    ensures var text := Body(InQuotes(gs)) + s; DropSpaces(text) == text && Value(text) == Some((Text(gs), s))
  {
    var inner := Written(gs) + "'" + s;
    QuotedReads(gs, s);
    SignsAreNotSpaces();
    assert Body(InQuotes(gs)) + s == ['\''] + inner;
    assert (['\''] + inner)[1..] == inner;
  }

  lemma UnquotedValueReads(gs: seq<Glyph>, s: string)
    requires LegalForm(Unquoted(gs)) && (s == "" || IsSpace(s[0]))
    ensures var text := Body(Unquoted(gs)) + s; DropSpaces(text) == text && Value(text) == Some((Text(gs), s))
  {
    BareReads(gs, s);
    SignsAreNotSpaces();
    assert gs[0] in gs;
    assert Written(gs)[0] == if gs[0].escaped then '\\' else gs[0].sign;
  }

  /** A rendered value starts with neither a space nor, if bare, a quote, and reads back. */
  lemma ValueReads(f: Form, s: string)
    requires LegalForm(f) && (f.Unquoted? ==> s == "" || IsSpace(s[0]))
    ensures DropSpaces(Body(f) + s) == Body(f) + s && Value(Body(f) + s) == Some((Text(f.glyphs), s))
  {
    match f
    case InQuotes(gs) => QuotedValueReads(gs, s);
    case Unquoted(gs) => UnquotedValueReads(gs, s);
  }

  lemma PairReads(item: Item, s: string)
    requires LegalItem(item) && (item.form.Unquoted? ==> s == "" || IsSpace(s[0]))
    ensures ReadPair(item.keyword + (item.left + ("=" + (item.right + (Body(item.form) + s))))) == Good(item.keyword, Text(item.form.glyphs), s)
  {
    var body := Body(item.form) + s;
    var equals := "=" + (item.right + body);
    SignsAreNotSpaces();
    assert equals[1..] == item.right + body;
    assert EndsKeyword(item.left + equals) by {
      if item.left != "" { assert item.left[0] in item.left; }
    }
    KeywordReads(item.keyword, item.left + equals);
    SpacesDrop(item.left, equals);
    SpacesDrop(item.right, body);
    ValueReads(item.form, s);
  }

  lemma ParseStep(s: string, text: string, keyword: string, value: string, rest: string, params: map<string, string>)
    requires DropSpaces(s) == text && text != "" && ReadPair(text) == Good(keyword, value, rest)
    ensures Parse(s, params) == Parse(rest, Store(params, keyword, value))
  {
  }

  lemma RenderSplits(item: Item, s: string)
    ensures Render(item) + s == item.lead + (item.keyword + (item.left + ("=" + (item.right + (Body(item.form) + s)))))
  {
  }

  lemma ItemReads(item: Item, s: string, params: map<string, string>)
    requires LegalItem(item) && (item.form.Unquoted? ==> s == "" || IsSpace(s[0]))
    ensures Parse(Render(item) + s, params) == Parse(s, if item.keyword == "" then params else params[item.keyword := Text(item.form.glyphs)])
  {
    var tail := item.left + ("=" + (item.right + (Body(item.form) + s)));
    RenderSplits(item, s);
    SpacesDrop(item.lead, item.keyword + tail);
    SignsAreNotSpaces();
    if item.keyword != "" { assert item.keyword[0] in item.keyword; }
    assert DropSpaces(item.keyword + tail) == item.keyword + tail;
    PairReads(item, s);
    ParseStep(Render(item) + s, item.keyword + tail, item.keyword, Text(item.form.glyphs), s, params);
  }

  /** A bare value at the end is kept apart from the text that follows. */
  ghost predicate Follows(items: seq<Item>, tail: string) {
    items != [] && items[|items| - 1].form.Unquoted? ==> tail == "" || IsSpace(tail[0])
  }

  /** Whatever follows, the pairs in front of it are read. */
  lemma {:induction false} ItemsRead(items: seq<Item>, tail: string, params: map<string, string>)
    requires LegalItems(items) && Follows(items, tail)
    ensures Parse(RenderAll(items, tail), params) == Parse(tail, LastWins(params, items))
    decreases |items|
  {
    if items != [] {
      var rest := RenderAll(items[1..], tail);
      assert items[0].form.Unquoted? ==> rest == "" || IsSpace(rest[0]) by {
        if |items| > 1 && items[1].lead != "" {
          assert items[1..][0] == items[1] && items[1].lead[0] in items[1].lead;
        }
      }
      ItemReads(items[0], rest, params);
      assert forall i :: 0 <= i < |items[1..]| ==> items[1..][i] == items[i + 1];
      ItemsRead(items[1..], tail, if items[0].keyword == "" then params else params[items[0].keyword := Text(items[0].form.glyphs)]);
    }
  }

  /** The scanner inverts the format: every legal rendering, however padded, quoted and escaped, parses to the
      last-wins map of its pairs. */
  lemma {:induction false} ParseInvertsRender(items: seq<Item>, trail: string, params: map<string, string>)
    requires LegalItems(items) && AllSpaces(trail)
    ensures Parse(RenderAll(items, trail), params) == Ok(LastWins(params, items))
  {
    if trail != "" { assert trail[0] in trail; }
    ItemsRead(items, trail, params);
    SpacesDrop(trail, "");
    assert trail + "" == trail;
  }

  lemma BadPair(k: string, left: string, rest: string)
    requires AllSpaces(left) && IsKeyword(k) && (rest == "" || (left != "" && !IsSpace(rest[0]) && rest[0] != '='))
    ensures ReadPair(k + (left + rest)) == Bad(ExpectedEquals)
  {
    if left != "" { assert left[0] in left; }
    KeywordReads(k, left + rest);
    SpacesDrop(left, rest);
  }

  lemma ParseBad(lead: string, k: string, rest: string, error: Error, params: map<string, string>)
    requires AllSpaces(lead) && IsKeyword(k) && ReadPair(k + rest) == Bad(error)
    ensures Parse(lead + (k + rest), params) == Err(error)
  {
    SpacesDrop(lead, k + rest);
    assert k[0] in k;
  }

  /** After any legal pairs, a keyword that is not followed by '=' is an error. */
  lemma MissingEqualsIsAnError(items: seq<Item>, lead: string, k: string, left: string, rest: string, params: map<string, string>)
    requires LegalItems(items) && AllSpaces(lead) && AllSpaces(left) && IsKeyword(k) && Follows(items, lead + (k + (left + rest)))
    requires rest == "" || (left != "" && !IsSpace(rest[0]) && rest[0] != '=')
    ensures Parse(RenderAll(items, lead + (k + (left + rest))), params) == Err(ExpectedEquals)
  {
    ItemsRead(items, lead + (k + (left + rest)), params);
    BadPair(k, left, rest);
    ParseBad(lead, k, left + rest, ExpectedEquals, LastWins(params, items));
  }

  lemma {:induction false} OpenQuoteReads(gs: seq<Glyph>)
    requires LegalForm(InQuotes(gs))
    ensures Quoted(Written(gs)) == None
    decreases |gs|
  {
    if gs != [] {
      OpenQuoteReads(gs[1..]);
      assert gs[0] in gs;
      QuotedHead(gs[0], Written(gs[1..]));
    }
  }

  /** And so is a quoted value that is never closed. */
  lemma OpenQuoteIsAnError(items: seq<Item>, lead: string, k: string, left: string, right: string, gs: seq<Glyph>, params: map<string, string>)
    requires LegalItems(items) && AllSpaces(lead) && AllSpaces(left) && AllSpaces(right) && IsKeyword(k) && LegalForm(InQuotes(gs))
    requires Follows(items, lead + (k + (left + ("=" + (right + ("'" + Written(gs)))))))
    ensures Parse(RenderAll(items, lead + (k + (left + ("=" + (right + ("'" + Written(gs))))))), params) == Err(UnterminatedQuote)
  {
    var rest := left + ("=" + (right + ("'" + Written(gs))));
    ItemsRead(items, lead + (k + rest), params);
    OpenPair(k, left, right, gs);
    ParseBad(lead, k, rest, UnterminatedQuote, LastWins(params, items));
  }

  lemma OpenPair(k: string, left: string, right: string, gs: seq<Glyph>)
    requires AllSpaces(left) && AllSpaces(right) && IsKeyword(k) && LegalForm(InQuotes(gs))
    ensures ReadPair(k + (left + ("=" + (right + ("'" + Written(gs)))))) == Bad(UnterminatedQuote)
  {
    var body := "'" + Written(gs);
    var equals := "=" + (right + body);
    SignsAreNotSpaces();
    assert equals[1..] == right + body && body[1..] == Written(gs);
    if left != "" { assert left[0] in left; }
    KeywordReads(k, left + equals);
    SpacesDrop(left, equals);
    SpacesDrop(right, body);
    OpenQuoteReads(gs);
  }

  /** An empty bare value is not a rendering: the next pair is read as the value. */
  lemma EmptyBareTakesNextPair(k: string, pair: string)
    requires IsKeyword(k) && pair != "" && forall c :: c in pair ==> !IsSpace(c) && c != '\\' && c != '\''
    ensures Parse(k + "= " + pair, map[]) == Ok(map[k := pair])
  {
    var gs := Plain(pair);
    var item := Item("", k, "", " ", Unquoted(gs));
    PlainReads(pair);
    assert Render(item) == k + "= " + pair;
    assert RenderAll([item], "") == Render(item);
    assert [item][1..] == [];
    ParseInvertsRender([item], "", map[]);
  }

  function Plain(s: string): seq<Glyph> { if s == "" then [] else [Glyph(s[0], false)] + Plain(s[1..]) }

  lemma {:induction false} PlainReads(s: string)
    ensures Written(Plain(s)) == s && Text(Plain(s)) == s && |Plain(s)| == |s|
    ensures forall g :: g in Plain(s) ==> g.sign in s
    decreases |s|
  {
    if s != "" {
      PlainReads(s[1..]);
      assert s == [s[0]] + s[1..];
    }
  }
}
