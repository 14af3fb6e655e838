/** Splitting source text at the commas that stand outside of quotes and brackets. */
module CommaItems {
  import opened Wrappers
  import opened Trimming

  /** Where a scan of source text stands: in code, or in a quoted string. Brackets only count. */
  datatype Scan = Code(depth: int) | Quoted(quote: char, escaped: bool, depth: int)

  const TOP := Code(0)

  predicate IsQuote(c: char) { c == '"' || c == '\'' }

  predicate Opens(c: char) { c == '(' || c == '[' || c == '{' }

  predicate Closes(c: char) { c == ')' || c == ']' || c == '}' }

  /** The scan after one more character. */
  function Step(s: Scan, c: char): Scan {
    match s
    case Quoted(quote, escaped, depth) =>
      if escaped then Quoted(quote, false, depth)
      else if c == '\\' then Quoted(quote, true, depth)
      else if c == quote then Code(depth)
      else s
    case Code(depth) =>
      if IsQuote(c) then Quoted(c, false, depth)
      else if Opens(c) then Code(depth + 1)
      else if Closes(c) then Code(depth - 1)
      else s
  }

  function Run(s: Scan, text: string): Scan
    decreases |text|
  {
    if text == [] then s else Run(Step(s, text[0]), text[1..])
  }

  /** The text has a character at every position up to its end; the one at the end is a comma. */
  function At(source: string, i: nat): char
    requires i <= |source|
  {
    if i < |source| then source[i] else ','
  }

  /** A comma at this position separates items. */
  predicate IsCut(source: string, i: nat)
    requires i <= |source|
  {
    At(source, i) == ',' && Run(TOP, source[..i]) == TOP
  }

  /** The position behind the last separating comma below `n`. */
  function StartAt(source: string, n: nat): (start: nat)
    requires n <= |source| + 1
    ensures start <= n
    ensures start > 0 ==> IsCut(source, start - 1)
    ensures forall i: nat :: start <= i < n ==> !IsCut(source, i)
  {
    if n == 0 then 0
    else if IsCut(source, n - 1) then n
    else StartAt(source, n - 1)
  }

  /** The trimmed pieces that end below `n`, without the empty ones. */
  function ItemsBelow(source: string, n: nat): seq<string>
    requires n <= |source| + 1
  {
    if n == 0 then []
    else if IsCut(source, n - 1) then
      var item := Trim(source[StartAt(source, n - 1)..n - 1]);
      if item == "" then ItemsBelow(source, n - 1) else ItemsBelow(source, n - 1) + [item]
    else ItemsBelow(source, n - 1)
  }

  function Items(source: string): seq<string> {
    ItemsBelow(source, |source| + 1)
  }

  // ---- The scanner ------------------------------------------------------------------------------------

  /** Splits the text in one pass. */
  method TopLevelCommaItems(source: string) returns (items: seq<string>)
    ensures items == Items(source)
  {
    hide Trim, Run, Step;
    items := [];
    var start: nat, depth, escaped := 0, 0, false;
    var quote: Option<char> := None;
    StartOfRun(source);
    for index := 0 to |source| + 1
      invariant index <= |source| ==> Run(TOP, source[..index]) == Standing(quote, escaped, depth)
      invariant quote.None? ==> !escaped
      invariant start == StartAt(source, index)
      invariant items == ItemsBelow(source, index)
    {
      ScanStep(source, index, quote, escaped, depth);
      var character := At(source, index);
      if quote.Some? {
        if escaped { escaped := false; }
        else if character == '\\' { escaped := true; }
        else if character == quote.value { quote := None; }
        continue;
      }
      if IsQuote(character) {
        quote := Some(character);
        continue;
      }
      if Opens(character) { depth := depth + 1; }
      else if Closes(character) { depth := depth - 1; }
      else if character == ',' && depth == 0 {
        var item := Trim(source[start..index]);
        if item != "" { items := items + [item]; }
        start := index + 1;
      }
    }
  }

  function Standing(quote: Option<char>, escaped: bool, depth: int): Scan {
    if quote.None? then Code(depth) else Quoted(quote.value, escaped, depth)
  }

  /** A step in terms of the variables of the loop. */
  function Next(quote: Option<char>, escaped: bool, depth: int, c: char): Scan {
    if quote.Some? then
      if escaped then Standing(quote, false, depth)
      else if c == '\\' then Standing(quote, true, depth)
      else if c == quote.value then Code(depth)
      else Standing(quote, false, depth)
    else if IsQuote(c) then Standing(Some(c), false, depth)
    else if Opens(c) then Code(depth + 1)
    else if Closes(c) then Code(depth - 1)
    else Code(depth)
  }

  lemma StartOfRun(source: string)
    ensures Run(TOP, source[..0]) == TOP
  {
  }

  lemma ScanStep(source: string, index: nat, quote: Option<char>, escaped: bool, depth: int)
    requires index <= |source| && Run(TOP, source[..index]) == Standing(quote, escaped, depth)
    requires quote.None? ==> !escaped
    ensures var c := At(source, index);
      IsCut(source, index) <==> quote.None? && c == ',' && depth == 0
    ensures index < |source| ==> Run(TOP, source[..index + 1]) == Next(quote, escaped, depth, source[index])
  {
    if index < |source| { RunOneMore(TOP, source, index); }
  }

  lemma {:induction false} RunConcat(s: Scan, a: string, b: string)
    ensures Run(s, a + b) == Run(Run(s, a), b)
    decreases |a|
  {
    if a == [] {
      assert a + b == b;
    } else {
      assert (a + b)[1..] == a[1..] + b;
      RunConcat(Step(s, a[0]), a[1..], b);
    }
  }

  lemma RunOneMore(s: Scan, text: string, i: nat)
    requires i < |text|
    ensures Run(s, text[..i + 1]) == Step(Run(s, text[..i]), text[i])
  {
    assert text[..i + 1] == text[..i] + [text[i]];
    RunConcat(s, text[..i], [text[i]]);
    assert Run(Run(s, text[..i]), [text[i]]) == Run(Step(Run(s, text[..i]), text[i]), []);
  }

  // ---- Closed items -----------------------------------------------------------------------------------

  /** No comma of the text separates items if the scan enters it at `s`. */
  predicate Quiet(s: Scan, text: string)
    decreases |text|
  {
    text == [] || (!(s == TOP && text[0] == ',') && Quiet(Step(s, text[0]), text[1..]))
  }

  /** Quotes are closed, brackets balanced, and no comma is at the top level. */
  predicate IsClosed(text: string) {
    Quiet(TOP, text) && Run(TOP, text) == TOP
  }

  predicate IsItem(item: string) {
    item != "" && IsTrimmed(item) && IsClosed(item)
  }

  function Join(items: seq<string>): string {
    if items == [] then ""
    else if |items| == 1 then items[0]
    else Joined(Join(items[..|items| - 1]), items[|items| - 1])
  }

  function Joined(source: string, item: string): string {
    source + ([','] + item)
  }

  lemma {:induction false} QuietConcat(s: Scan, a: string, b: string)
    ensures Quiet(s, a + b) <==> Quiet(s, a) && Quiet(Run(s, a), b)
    decreases |a|
  {
    if a == [] {
      assert a + b == b;
    } else {
      assert (a + b)[1..] == a[1..] + b;
      QuietConcat(Step(s, a[0]), a[1..], b);
    }
  }

  /** A text is quiet exactly if no position of it is a separating comma. */
  lemma {:induction false} QuietEverywhere(s: Scan, text: string)
    ensures Quiet(s, text) <==> forall i :: 0 <= i < |text| ==> !(Run(s, text[..i]) == TOP && text[i] == ',')
    decreases |text|
  {
    if text != [] {
      var rest := text[1..];
      QuietEverywhere(Step(s, text[0]), rest);
      forall i | 0 <= i < |rest|
        ensures Run(s, text[..i + 1]) == Run(Step(s, text[0]), rest[..i]) && text[i + 1] == rest[i]
      {
        assert text[..i + 1][1..] == rest[..i];
      }
      assert text[..0] == [];
      assert forall j :: 0 < j < |text| ==>
        text[j] == rest[j - 1] && Run(s, text[..j - 1 + 1]) == Run(Step(s, text[0]), rest[..j - 1]);
    }
  }

  // ---- Joining and splitting again ----------------------------------------------------------------------

  /** Text behind a comma does not change what ends at the comma. */
  lemma {:induction false} ItemsOfPrefix(source: string, more: string, n: nat)
    requires more != [] && more[0] == ',' && n <= |source| + 1
    ensures StartAt(source + more, n) == StartAt(source, n)
    ensures ItemsBelow(source + more, n) == ItemsBelow(source, n)
    decreases n
  {
    if n > 0 {
      hide Trim, Run;
      ItemsOfPrefix(source, more, n - 1);
      assert (source + more)[..n - 1] == source[..n - 1];
      var start := StartAt(source, n - 1);
      assert (source + more)[start..n - 1] == source[start..n - 1];
    }
  }

  lemma {:induction false} NoCutsBetween(source: string, a: nat, n: nat)
    requires a <= n <= |source| + 1 && forall i: nat :: a <= i < n ==> !IsCut(source, i)
    ensures StartAt(source, n) == StartAt(source, a) && ItemsBelow(source, n) == ItemsBelow(source, a)
    decreases n
  {
    if a < n {
      hide Trim, IsCut;
      NoCutsBetween(source, a, n - 1);
    }
  }

  lemma RunBehind(source: string, item: string, m: nat)
    requires Run(TOP, source) == TOP && m <= |item|
    ensures Run(TOP, Joined(source, item)[..|source| + 1 + m]) == Run(TOP, item[..m])
  {
    hide Run;
    assert Joined(source, item)[..|source| + 1 + m] == source + ([','] + item[..m]);
    RunConcat(TOP, source, [','] + item[..m]);
    CommaInCode(item[..m]);
  }

  lemma CommaInCode(text: string)
    ensures Run(TOP, [','] + text) == Run(TOP, text)
  {
    assert ([','] + text)[1..] == text;
  }

  /** The item behind the comma is one piece. */
  lemma QuietBehind(source: string, item: string)
    requires Run(TOP, source) == TOP && Quiet(TOP, item)
    ensures var all := Joined(source, item);
      && IsCut(all, |source|) && (IsCut(all, |all|) <==> Run(TOP, item) == TOP)
      && forall i: nat :: |source| < i < |all| ==> !IsCut(all, i)
    ensures Run(TOP, Joined(source, item)) == Run(TOP, item)
  {
    hide Quiet, Run;
    var all := Joined(source, item);
    var n := |source|;
    QuietEverywhere(TOP, item);
    forall i: nat | n < i < |all| ensures !IsCut(all, i) {
      RunBehind(source, item, i - n - 1);
    }
    RunBehind(source, item, |item|);
    assert item[..|item|] == item && all[..n + 1 + |item|] == all && all[..|all|] == all;
    assert source[..n] == source && all[..n] == source;
  }

  lemma LastPiece(source: string, n: nat)
    requires n <= |source| && IsCut(source, n)
    ensures var item := Trim(source[StartAt(source, n)..n]);
      ItemsBelow(source, n + 1) == if item == "" then ItemsBelow(source, n) else ItemsBelow(source, n) + [item]
    ensures StartAt(source, n + 1) == n + 1
  {
  }

  /** Text without a separating comma is one item, trimmed, if quotes and brackets are closed and something is left. */
  lemma ItemsOfPiece(piece: string)
    requires Quiet(TOP, piece)
    ensures Items(piece) == if Run(TOP, piece) == TOP && Trim(piece) != "" then [Trim(piece)] else []
  {
    hide Trim, Quiet, Run;
    QuietEverywhere(TOP, piece);
    assert piece[..|piece|] == piece == piece[0..|piece|];
    NoCutsBetween(piece, 0, |piece|);
  }

  /** The text from the last separating comma on. */
  lemma LastOfAll(source: string, start: nat)
    requires start <= |source| && StartAt(source, start) == start
    requires forall i: nat :: start <= i < |source| ==> !IsCut(source, i)
    ensures var piece := Trim(source[start..]);
      Items(source) == ItemsBelow(source, start) + if IsCut(source, |source|) && piece != "" then [piece] else []
  {
    hide Trim, IsCut, StartAt, ItemsBelow;
    NoCutsBetween(source, start, |source|);
    assert source[start..|source|] == source[start..];
    if IsCut(source, |source|) { LastPiece(source, |source|); } else { NoCutsBetween(source, start, |source| + 1); }
  }

  lemma ItemsInFront(source: string, piece: string)
    ensures ItemsBelow(Joined(source, piece), |source| + 1) == Items(source)
  {
    hide Trim, ItemsBelow, StartAt;
    ItemsOfPrefix(source, [','] + piece, |source| + 1);
  }

  /** What stands before and behind a separating comma is split independently, so empty pieces are dropped and
      change nothing else. */
  lemma ItemsOfMore(source: string, piece: string)
    requires Run(TOP, source) == TOP && Quiet(TOP, piece)
    ensures Items(Joined(source, piece)) == Items(source) + Items(piece)
    ensures Run(TOP, Joined(source, piece)) == Run(TOP, piece)
  {
    hide Trim, Quiet, Run, IsCut, StartAt, ItemsBelow, Items;
    ItemsOfPiece(piece);
    var all, n := Joined(source, piece), |source|;
    QuietBehind(source, piece);
    ItemsInFront(source, piece);
    LastPiece(all, n);
    LastOfAll(all, n + 1);
    assert all[n + 1..] == piece;
  }

  /** One more closed item behind a comma is one more item. */
  lemma OneMoreItem(source: string, item: string)
    requires Run(TOP, source) == TOP && IsItem(item)
    ensures Items(Joined(source, item)) == Items(source) + [item]
    ensures Run(TOP, Joined(source, item)) == TOP
  {
    hide Trim, IsTrimmed, Run, Items;
    ItemsOfMore(source, item);
    ItemsOfPiece(item);
    TrimmedStaysOf(item);
  }

  lemma TrimmedStaysOf(item: string)
    requires IsItem(item)
    ensures Trim(item) == item
  {
    TrimmedStays(item);
  }

  lemma SingleItem(item: string)
    requires item == "" || IsItem(item)
    ensures Items(item) == if item == "" then [] else [item]
  {
    hide Trim, Quiet, Items;
    if item != "" { TrimmedStaysOf(item); } else { TrimmedStays(""); QuietNothing(); }
    ItemsOfPiece(item);
  }

  lemma QuietNothing()
    ensures IsClosed("")
  {
  }

  /** Joining closed items with commas and splitting again gives back exactly the items. */
  lemma {:induction false} RoundTrip(items: seq<string>)
    requires forall x :: x in items ==> IsItem(x)
    ensures Items(Join(items)) == items
    ensures Run(TOP, Join(items)) == TOP
    decreases |items|
  {
    hide IsTrimmed, Quiet, Items;
    if items == [] {
      SingleItem("");
    } else if |items| == 1 {
      SingleItem(items[0]);
      assert IsItem(items[0]) && Items(items[0]) == [items[0]];
      assert Join(items) == items[0];
      assert items == [items[0]];
    } else {
      var front := items[..|items| - 1];
      RoundTrip(front);
      OneMoreItem(Join(front), items[|items| - 1]);
      assert items == front + [items[|items| - 1]];
    }
  }

  // ---- What comes out ---------------------------------------------------------------------------------

  lemma {:induction false} SpacesAtStart(s: string)
    requires Quiet(TOP, s) && Run(TOP, s) == TOP
    ensures IsClosed(TrimStart(s)) && (TrimStart(s) == "" || !IsSpace(TrimStart(s)[0]))
  {
    if s != [] && IsSpace(s[0]) { SpacesAtStart(s[1..]); }
  }

  /** A quoted string is opened by a quote. */
  lemma {:induction false} QuotesOnly(s: Scan, text: string)
    requires s.Quoted? ==> IsQuote(s.quote)
    ensures Run(s, text).Quoted? ==> IsQuote(Run(s, text).quote)
    decreases |text|
  {
    if text != [] { QuotesOnly(Step(s, text[0]), text[1..]); }
  }

  lemma {:induction false} SpacesAtEnd(s: string)
    requires IsClosed(s) && (s == "" || !IsSpace(s[0]))
    ensures IsClosed(TrimEnd(s)) && IsTrimmed(TrimEnd(s))
    decreases |s|
  {
    if s != [] && IsSpace(s[|s| - 1]) {
      var front := s[..|s| - 1];
      assert s == front + [s[|s| - 1]];
      RunOneMore(TOP, s, |s| - 1);
      QuotesOnly(TOP, front);
      assert s[..|s|] == s;
      QuietConcat(TOP, front, [s[|s| - 1]]);
      assert front[0..] == front;
      SpacesAtEnd(front);
    }
  }

  /** The text between two neighbouring cuts is closed. */
  lemma BetweenCuts(source: string, a: nat, b: nat)
    requires a <= b <= |source| && Run(TOP, source[..a]) == TOP && IsCut(source, b)
    requires forall i: nat :: a <= i < b ==> !IsCut(source, i)
    ensures IsClosed(source[a..b])
  {
    hide Quiet;
    var piece := source[a..b];
    forall m: nat | m <= |piece| ensures Run(TOP, source[..a + m]) == Run(TOP, piece[..m]) {
      assert source[..a + m] == source[..a] + piece[..m];
      RunConcat(TOP, source[..a], piece[..m]);
    }
    assert piece[..|piece|] == piece && source[..a + |piece|] == source[..b];
    QuietEverywhere(TOP, piece);
    forall m | 0 <= m < |piece| ensures !(Run(TOP, piece[..m]) == TOP && piece[m] == ',') {
      assert !IsCut(source, a + m) && source[a + m] == piece[m];
    }
  }

  lemma {:induction false} BelowAreItems(source: string, n: nat)
    requires n <= |source| + 1
    ensures forall x :: x in ItemsBelow(source, n) ==> IsItem(x)
    decreases n
  {
    if n > 0 {
      hide Trim, IsItem, Run;
      BelowAreItems(source, n - 1);
      if IsCut(source, n - 1) {
        var start := StartAt(source, n - 1);
        CodeAtStart(source, start);
        BetweenCuts(source, start, n - 1);
        ClosedTrims(source[start..n - 1]);
      }
    }
  }

  lemma CodeAtStart(source: string, start: nat)
    requires start <= |source| && (start > 0 ==> IsCut(source, start - 1))
    ensures Run(TOP, source[..start]) == TOP
  {
    if start > 0 { RunOneMore(TOP, source, start - 1); }
  }

  lemma ClosedTrims(s: string)
    requires IsClosed(s)
    ensures Trim(s) != "" ==> IsItem(Trim(s))
  {
    SpacesAtStart(s);
    SpacesAtEnd(TrimStart(s));
  }

  /** Every item that comes out is closed, so joining the items and splitting again changes nothing. */
  lemma SplittingIsStable(source: string)
    ensures forall x :: x in Items(source) ==> IsItem(x)
    ensures Items(Join(Items(source))) == Items(source)
  {
    hide IsItem;
    BelowAreItems(source, |source| + 1);
    RoundTrip(Items(source));
  }

  // ---- A grammar of closed text -----------------------------------------------------------------------

  datatype Mark = Literal(c: char) | Escape(c: char)

  /** A token of source text; a bracket may be closed by one of another kind, which is all the scan sees. */
  datatype Token =
    | Plain(c: char)
    | Comma
    | Text(quote: char, marks: seq<Mark>)
    | Group(open: char, inner: seq<Token>, close: char)

  /** Strings are quoted by `"` or `'`, and brackets are round, square or curly. */
  predicate WellFormed(t: Token) {
    match t
    case Plain(c) =>
      && c != '"' && c != '\'' && c != ',' && c != '(' && c != '[' && c != '{' && c != ')' && c != ']' && c != '}'
    case Comma => true
    case Text(quote, marks) =>
      (quote == '"' || quote == '\'') && forall m :: m in marks ==> m.Literal? ==> m.c != quote && m.c != '\\'
    case Group(open, inner, close) =>
      && (open == '(' || open == '[' || open == '{') && (close == ')' || close == ']' || close == '}')
      && AllWellFormed(inner)
  }

  predicate AllWellFormed(ts: seq<Token>) {
    ts == [] || (WellFormed(ts[0]) && AllWellFormed(ts[1..]))
  }

  function RenderMarks(marks: seq<Mark>): string {
    if marks == [] then ""
    else (if marks[0].Literal? then [marks[0].c] else ['\\', marks[0].c]) + RenderMarks(marks[1..])
  }

  function Render(t: Token): string {
    match t
    case Plain(c) => [c]
    case Comma => ","
    case Text(quote, marks) => [quote] + RenderMarks(marks) + [quote]
    case Group(open, inner, close) => [open] + RenderAll(inner) + [close]
  }

  function RenderAll(ts: seq<Token>): string {
    if ts == [] then "" else Render(ts[0]) + RenderAll(ts[1..])
  }

  predicate Silent(s: Scan, text: string, after: Scan) {
    Quiet(s, text) && Run(s, text) == after
  }

  lemma SilentConcat(s: Scan, a: string, middle: Scan, b: string, after: Scan)
    requires Silent(s, a, middle) && Silent(middle, b, after)
    ensures Silent(s, a + b, after)
  {
    QuietConcat(s, a, b);
    RunConcat(s, a, b);
  }

  lemma OneCharacter(s: Scan, c: char)
    requires s != TOP || c != ','
    ensures Silent(s, [c], Step(s, c))
  {
    assert [c][1..] == [];
  }

  lemma {:induction false} MarksAreSilent(quote: char, marks: seq<Mark>, depth: int)
    requires forall m :: m in marks ==> m.Literal? ==> m.c != quote && m.c != '\\'
    requires IsQuote(quote)
    ensures Silent(Quoted(quote, false, depth), RenderMarks(marks), Quoted(quote, false, depth))
    decreases |marks|
  {
    var s := Quoted(quote, false, depth);
    if marks != [] {
      var m := marks[0];
      var head := if m.Literal? then [m.c] else ['\\', m.c];
      assert m in marks;
      if m.Literal? {
        OneCharacter(s, m.c);
      } else {
        var escaped := Quoted(quote, true, depth);
        OneCharacter(s, '\\');
        OneCharacter(escaped, m.c);
        SilentConcat(s, ['\\'], escaped, [m.c], s);
        assert head == ['\\'] + [m.c];
      }
      MarksAreSilent(quote, marks[1..], depth);
      SilentConcat(s, head, s, RenderMarks(marks[1..]), s);
    }
  }

  /** A token leaves the scan where it was; only a comma at the top level separates. */
  lemma {:induction false} TokenIsSilent(t: Token, depth: nat)
    requires WellFormed(t) && (depth == 0 ==> !t.Comma?)
    ensures Silent(Code(depth), Render(t), Code(depth))
    decreases t
  {
    hide Silent;
    var s := Code(depth);
    match t
    case Plain(c) => OneCharacter(s, c);
    case Comma => OneCharacter(s, ',');
    case Text(quote, marks) =>
      OneCharacter(s, quote);
      MarksAreSilent(quote, marks, depth);
      var q := Quoted(quote, false, depth);
      SilentConcat(s, [quote], q, RenderMarks(marks), q);
      OneCharacter(q, quote);
      SilentConcat(s, [quote] + RenderMarks(marks), q, [quote], s);
    case Group(open, inner, close) =>
      OneCharacter(s, open);
      TokensAreSilent(inner, depth + 1);
      var deeper := Code(depth + 1);
      SilentConcat(s, [open], deeper, RenderAll(inner), deeper);
      OneCharacter(deeper, close);
      SilentConcat(s, [open] + RenderAll(inner), deeper, [close], s);
  }

  lemma {:induction false} TokensAreSilent(ts: seq<Token>, depth: nat)
    requires AllWellFormed(ts) && (depth == 0 ==> Comma !in ts)
    ensures Silent(Code(depth), RenderAll(ts), Code(depth))
    decreases ts
  {
    if ts != [] {
      TokenIsSilent(ts[0], depth);
      TokensAreSilent(ts[1..], depth);
      SilentConcat(Code(depth), Render(ts[0]), Code(depth), RenderAll(ts[1..]), Code(depth));
    }
  }

  /** Text made of quoted strings with escapes, balanced groups with anything inside, and plain
      characters survives joining and splitting. */
  lemma GrammarRoundTrip(items: seq<seq<Token>>, texts: seq<string>)
    requires |texts| == |items|
    requires forall i :: 0 <= i < |items| ==>
      AllWellFormed(items[i]) && Comma !in items[i] && texts[i] == RenderAll(items[i]) && texts[i] != "" &&
        IsTrimmed(texts[i])
    ensures Items(Join(texts)) == texts
  {
    hide AllWellFormed, IsTrimmed, Items, Quiet;
    forall x | x in texts ensures IsItem(x) {
      var i :| 0 <= i < |texts| && texts[i] == x;
      TokensAreSilent(items[i], 0);
    }
    RoundTrip(texts);
  }

  // ---- Text without quotes ------------------------------------------------------------------------------

  /** How many brackets of a text are open at its end; more closed than open ones count below zero. */
  function Excess(text: string): int {
    var m := multiset(text);
    (m['('] + m['['] + m['{']) as int - (m[')'] + m[']'] + m['}']) as int
  }

  lemma {:induction false} BracketsCount(text: string, depth: int)
    requires '"' !in text && '\'' !in text
    ensures Run(Code(depth), text) == Code(depth + Excess(text))
    decreases |text|
  {
    if text != [] {
      var c, rest := text[0], text[1..];
      assert text == [c] + rest;
      assert multiset(text) == multiset{c} + multiset(rest);
      BracketsCount(rest, depth + if Opens(c) then 1 else if Closes(c) then -1 else 0);
    }
  }

  /** Without quotes, a comma separates exactly if as many brackets were opened before it as closed. */
  lemma CutsAreBalanced(source: string, i: nat)
    requires i < |source| && '"' !in source[..i] && '\'' !in source[..i]
    ensures IsCut(source, i) <==> source[i] == ',' && Excess(source[..i]) == 0
  {
    hide Excess;
    BracketsCount(source[..i], 0);
  }
}
