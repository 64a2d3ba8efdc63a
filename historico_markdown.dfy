/** The markdown of an answer turned into Word blocks: one pass over the lines that
    recognises blank lines, bullet and numbered lists, headings, fenced code and plain
    paragraphs. The text of list items and paragraphs then goes through the inline
    segmenter of `HistoricoInline`; headings keep their text as it is. */
module HistoricoMarkdown {
  import opened Text

  /** What one pass of the loop adds to the document. */
  datatype Block =
    | Blank                               // an empty paragraph
    | BulletList(items: seq<string>)      // one "List Bullet" paragraph per item
    | NumberedList(items: seq<string>)    // one "List Number" paragraph per item
    | Heading(level: nat, text: string)   // a Word heading of that level
    | Emphasis(text: string)              // a bold 12-point paragraph, for deep headings
    | CodeBlock(code: string)             // one Courier New run
    | Paragraph(text: string)             // a paragraph with inline formatting

  // ---------------------------------------------------------------------------
  // The line patterns, on the stripped line

  /** `^[-*+]\s+`. */
  predicate IsBullet(l: string) {
    |l| >= 2 && (l[0] == '-' || l[0] == '*' || l[0] == '+') && IsSpace(l[1])
  }

  /** The number of leading ASCII digits. */
  function LeadingDigits(s: string): (d: nat)
    ensures d <= |s|
    decreases |s|
  {
    if s != [] && '0' <= s[0] <= '9' then 1 + LeadingDigits(s[1..]) else 0
  }

  /** `^\d+\.\s+`. */
  predicate IsNumbered(l: string) {
    var d := LeadingDigits(l);
    d >= 1 && d + 1 < |l| && l[d] == '.' && IsSpace(l[d + 1])
  }

  /** The number of leading '#'. */
  function LeadingHashes(s: string): (h: nat)
    ensures h <= |s|
    decreases |s|
  {
    if s != [] && s[0] == '#' then 1 + LeadingHashes(s[1..]) else 0
  }

  /** `^#+\s+`. */
  predicate IsHeading(l: string) {
    var h := LeadingHashes(l);
    h >= 1 && h < |l| && IsSpace(l[h])
  }

  /** A line opening or closing a code block. */
  predicate IsFence(l: string) {
    StartsWith(l, "```")
  }

  /** A line of the kind of list being collected. */
  predicate ListLine(l: string, numbered: bool) {
    if numbered then IsNumbered(l) else IsBullet(l)
  }

  /** The item of a list line: the line without its marker and the spaces after it. */
  function ListItem(l: string, numbered: bool): string
    requires ListLine(l, numbered)
  {
    if numbered then StripLeft(l[LeadingDigits(l) + 1..]) else StripLeft(l[1..])
  }

  /** The block of a heading line: levels 1 to 3 become Word headings 3 to 5, deeper
      ones an emphasised paragraph. */
  function HeadingBlock(l: string): Block
    requires IsHeading(l)
  {
    var h := LeadingHashes(l);
    var texto := StripLeft(l[h..]);
    if h <= 3 then Heading(h + 2, texto) else Emphasis(texto)
  }

  // ---------------------------------------------------------------------------
  // One pass of the loop

  /** Where a run of list lines starting at `i` ends: the first line that is not of
      the kind, or the end. */
  function RunEnd(lineas: seq<string>, i: nat, numbered: bool): (j: nat)
    requires i <= |lineas|
    ensures i <= j <= |lineas|
    decreases |lineas| - i
  {
    if i < |lineas| && ListLine(Strip(lineas[i]), numbered) then RunEnd(lineas, i + 1, numbered) else i
  }

  /** The run is maximal: every line in it is of the kind, the line after it is not. */
  lemma {:induction false} RunEndMaximal(lineas: seq<string>, i: nat, numbered: bool)
    requires i <= |lineas|
    ensures var j := RunEnd(lineas, i, numbered);
      (forall k :: i <= k < j ==> ListLine(Strip(lineas[k]), numbered)) &&
      (j == |lineas| || !ListLine(Strip(lineas[j]), numbered))
    decreases |lineas| - i
  {
    if i < |lineas| && ListLine(Strip(lineas[i]), numbered) {
      RunEndMaximal(lineas, i + 1, numbered);
    }
  }

  /** The items of the lines `i` to `j`. */
  function Items(lineas: seq<string>, i: nat, j: nat, numbered: bool): (items: seq<string>)
    requires i <= j <= |lineas|
    requires forall k :: i <= k < j ==> ListLine(Strip(lineas[k]), numbered)
    ensures |items| == j - i
  {
    seq(j - i, k requires 0 <= k < j - i => ListItem(Strip(lineas[i + k]), numbered))
  }

  /** Where the code opened before line `i` ends: the first fence from `i` on, or the
      end. */
  function FenceEnd(lineas: seq<string>, i: nat): (j: nat)
    requires i <= |lineas|
    ensures i <= j <= |lineas|
    decreases |lineas| - i
  {
    if i < |lineas| && !IsFence(Strip(lineas[i])) then FenceEnd(lineas, i + 1) else i
  }

  /** No line before the end of the code is a fence, and the code ends at one or at the
      end of the text. */
  lemma {:induction false} FenceEndFirst(lineas: seq<string>, i: nat)
    requires i <= |lineas|
    ensures var j := FenceEnd(lineas, i);
      (forall k :: i <= k < j ==> !IsFence(Strip(lineas[k]))) &&
      (j == |lineas| || IsFence(Strip(lineas[j])))
    decreases |lineas| - i
  {
    if i < |lineas| && !IsFence(Strip(lineas[i])) {
      FenceEndFirst(lineas, i + 1);
    }
  }

  /** The blocks one pass adds, and the line the next pass starts at. */
  function Step(lineas: seq<string>, i: nat): (r: (seq<Block>, nat))
    requires i < |lineas|
    ensures i < r.1 <= |lineas| && |r.0| <= 1
  {
    var linea := Strip(lineas[i]);
    if linea == "" then ([Blank], i + 1)
    else if IsBullet(linea) then
      var j := RunEnd(lineas, i, false);
      RunEndMaximal(lineas, i, false);
      ([BulletList(Items(lineas, i, j, false))], j)
    else if IsNumbered(linea) then
      var j := RunEnd(lineas, i, true);
      RunEndMaximal(lineas, i, true);
      ([NumberedList(Items(lineas, i, j, true))], j)
    else if IsHeading(linea) then ([HeadingBlock(linea)], i + 1)
    else if IsFence(linea) then
      var j := FenceEnd(lineas, i + 1);
      var codigo := lineas[i + 1..j];
      (if codigo == [] then [] else [CodeBlock(Join(codigo, "\n"))], if j < |lineas| then j + 1 else j)
    else ([Paragraph(linea)], i + 1)
  }

  /** The blocks of the lines from `i` on. */
  function BlocksFrom(lineas: seq<string>, i: nat): seq<Block>
    requires i <= |lineas|
    decreases |lineas| - i
  {
    if i == |lineas| then []
    else
      var (emitted, next) := Step(lineas, i);
      emitted + BlocksFrom(lineas, next)
  }

  /** The blocks from line `i`: those of one pass, then the blocks after it. */
  lemma BlocksFromUnfold(lineas: seq<string>, i: nat)
    requires i < |lineas|
    ensures BlocksFrom(lineas, i) == Step(lineas, i).0 + BlocksFrom(lineas, Step(lineas, i).1)
  {
  }

  /** The loop's invariant survives one pass. */
  lemma BlocksAfterTurn(lineas: seq<string>, i: nat, blocks: seq<Block>, emitted: seq<Block>, next: nat)
    requires i < |lineas| && (emitted, next) == Step(lineas, i)
    requires blocks + BlocksFrom(lineas, i) == BlocksFrom(lineas, 0)
    ensures (blocks + emitted) + BlocksFrom(lineas, next) == BlocksFrom(lineas, 0)
  {
    BlocksFromUnfold(lineas, i);
    assert blocks + (emitted + BlocksFrom(lineas, next)) == blocks + emitted + BlocksFrom(lineas, next);
  }

  /** The blocks of a markdown text. */
  function Blocks(texto: string): seq<Block> {
    if texto == "" then [] else BlocksFrom(Split(texto, '\n'), 0)
  }

  // ---------------------------------------------------------------------------
  // The loop of procesar_markdown_a_word

  /** The inner loop over list lines. */
  method CollectList(lineas: seq<string>, i: nat, numbered: bool) returns (items: seq<string>, j: nat)
    requires i <= |lineas|
    ensures j == RunEnd(lineas, i, numbered)
    ensures (forall k :: i <= k < j ==> ListLine(Strip(lineas[k]), numbered)) && items == Items(lineas, i, j, numbered)
  {
    items := [];
    j := i;
    while j < |lineas| && ListLine(Strip(lineas[j]), numbered)
      invariant i <= j <= |lineas|
      invariant RunEnd(lineas, j, numbered) == RunEnd(lineas, i, numbered)
      invariant forall k :: i <= k < j ==> ListLine(Strip(lineas[k]), numbered)
      invariant items == Items(lineas, i, j, numbered)
      decreases |lineas| - j
    {
      items := items + [ListItem(Strip(lineas[j]), numbered)];
      j := j + 1;
    }
    RunEndMaximal(lineas, i, numbered);
  }

  /** The inner loop over code lines. */
  method CollectCode(lineas: seq<string>, i: nat) returns (codigo: seq<string>, j: nat)
    requires i <= |lineas|
    ensures j == FenceEnd(lineas, i) && codigo == lineas[i..j]
  {
    codigo := [];
    j := i;
    while j < |lineas| && !IsFence(Strip(lineas[j]))
      invariant i <= j <= |lineas|
      invariant FenceEnd(lineas, j) == FenceEnd(lineas, i)
      invariant codigo == lineas[i..j]
      decreases |lineas| - j
    {
      codigo := codigo + [lineas[j]];
      j := j + 1;
    }
  }

  /** One pass of the loop: what it adds and where the next one starts. */
  method Turn(lineas: seq<string>, i: nat) returns (emitted: seq<Block>, next: nat)
    requires i < |lineas|
    ensures (emitted, next) == Step(lineas, i)
  {
    var linea := Strip(lineas[i]);
    if linea == "" {
      return [Blank], i + 1;
    }
    if IsBullet(linea) {
      var items;
      items, next := CollectList(lineas, i, false);
      return [BulletList(items)], next;
    } else if IsNumbered(linea) {
      var items;
      items, next := CollectList(lineas, i, true);
      return [NumberedList(items)], next;
    } else if IsHeading(linea) {
      var nivel := LeadingHashes(linea);
      var texto := StripLeft(linea[nivel..]);
      if nivel == 1 {
        emitted := [Heading(3, texto)];
      } else if nivel == 2 {
        emitted := [Heading(4, texto)];
      } else if nivel == 3 {
        emitted := [Heading(5, texto)];
      } else {
        emitted := [Emphasis(texto)];
      }
      return emitted, i + 1;
    } else if IsFence(linea) {
      var codigo;
      codigo, next := CollectCode(lineas, i + 1);
      if next < |lineas| && IsFence(Strip(lineas[next])) {
        next := next + 1;
      }
      emitted := [];
      if codigo != [] {
        emitted := [CodeBlock(Join(codigo, "\n"))];
      }
      FenceEndFirst(lineas, i + 1);
    } else {
      return [Paragraph(linea)], i + 1;
    }
  }

  /** `procesar_markdown_a_word`: the blocks added to the document. */
  method MarkdownToWord(texto: string) returns (blocks: seq<Block>)
    ensures blocks == Blocks(texto)
  {
    if texto == "" {
      return [];
    }
    var lineas := Split(texto, '\n');
    blocks := [];
    var i := 0;
    while i < |lineas|
      invariant 0 <= i <= |lineas|
      invariant blocks + BlocksFrom(lineas, i) == BlocksFrom(lineas, 0)
      decreases |lineas| - i
    {
      var emitted, next := Turn(lineas, i);
      BlocksAfterTurn(lineas, i, blocks, emitted, next);
      blocks := blocks + emitted;
      i := next;
    }
    assert blocks + [] == blocks;
  }

  // ---------------------------------------------------------------------------
  // What a pass does with each kind of line

  /** `h` hash signs. */
  function Hashes(h: nat): (s: string)
    ensures |s| == h && forall k :: 0 <= k < h ==> s[k] == '#'
  {
    seq(h, _ => '#')
  }

  lemma {:induction false} LeadingHashesOf(h: nat, rest: string)
    requires rest == [] || rest[0] != '#'
    ensures LeadingHashes(Hashes(h) + rest) == h
  {
    if h > 0 {
      LeadingHashesOf(h - 1, rest);
      assert (Hashes(h) + rest)[1..] == Hashes(h - 1) + rest;
    } else {
      assert Hashes(h) + rest == rest;
    }
  }

  lemma {:induction false} StripLeftSpaces(w: string, t: string)
    requires forall k :: 0 <= k < |w| ==> IsSpace(w[k])
    requires t == [] || !IsSpace(t[0])
    ensures StripLeft(w + t) == t
  {
    if w == [] {
      assert w + t == t;
    } else {
      StripLeftSpaces(w[1..], t);
      assert (w + t)[1..] == w[1..] + t;
    }
  }

  /** A heading line: `h` hash signs, spaces, then the title. One to three signs give a
      Word heading of level `h` + 2, four or more an emphasised paragraph; either way the
      pass consumes that line alone. */
  lemma HeadingLevels(lineas: seq<string>, i: nat, h: nat, w: string, t: string)
    requires i < |lineas| && Strip(lineas[i]) == Hashes(h) + w + t
    requires h >= 1 && |w| >= 1 && forall k :: 0 <= k < |w| ==> IsSpace(w[k])
    requires t != [] && !IsSpace(t[0])
    ensures Step(lineas, i) == ([if h <= 3 then Heading(h + 2, t) else Emphasis(t)], i + 1)
  {
    var l := Hashes(h) + w + t;
    assert Hashes(h) + w + t == Hashes(h) + (w + t);
    LeadingHashesOf(h, w + t);
    assert l[h..] == w + t;
    StripLeftSpaces(w, t);
    assert l[0] == '#';
    assert l[h] == w[0];
  }

  /** A list line opens a list that takes every following line of its kind: one item
      per line, the line without its marker, up to the first line of another kind. */
  lemma ListStep(lineas: seq<string>, i: nat, numbered: bool)
    requires i < |lineas| && ListLine(Strip(lineas[i]), numbered)
    ensures var (bs, j) := Step(lineas, i);
      |bs| == 1 && (if numbered then bs[0].NumberedList? else bs[0].BulletList?) &&
      |bs[0].items| == j - i &&
      (forall k :: i <= k < j ==> ListLine(Strip(lineas[k]), numbered) && bs[0].items[k - i] == ListItem(Strip(lineas[k]), numbered)) &&
      (j == |lineas| || !ListLine(Strip(lineas[j]), numbered))
  {
    var l := Strip(lineas[i]);
    RunEndMaximal(lineas, i, numbered);
    if numbered {
      assert '0' <= l[0] <= '9';
    }
  }

  /** No list item is empty: the stripped line ends with a character that is not a
      space, and it lies after the marker. */
  lemma ListItemFilled(x: string, numbered: bool)
    requires ListLine(Strip(x), numbered)
    ensures ListItem(Strip(x), numbered) != ""
  {
    var l := Strip(x);
    StripRightIsPrefix(StripLeft(x));
    var rest := if numbered then l[LeadingDigits(l) + 1..] else l[1..];
    assert rest[|rest| - 1] == l[|l| - 1];
    StripLeftKeeps(rest, |rest| - 1);
  }

  /** A fence opens a code block that takes the lines up to the next fence, or to the
      end: the block holds those lines as they were, and the next pass starts after the
      closing fence. With no line between, nothing is added. */
  lemma FenceStep(lineas: seq<string>, i: nat)
    requires i < |lineas| && IsFence(Strip(lineas[i]))
    ensures var (bs, next) := Step(lineas, i);
      var j := FenceEnd(lineas, i + 1);
      (forall k :: i < k < j ==> !IsFence(Strip(lineas[k]))) &&
      (j == |lineas| || IsFence(Strip(lineas[j]))) &&
      next == (if j < |lineas| then j + 1 else j) &&
      bs == (if j == i + 1 then [] else [CodeBlock(Join(lineas[i + 1..j], "\n"))])
  {
    var l := Strip(lineas[i]);
    FenceEndFirst(lineas, i + 1);
    assert l[0] == '`';
    assert LeadingDigits(l) == 0 && LeadingHashes(l) == 0;
  }

  /** The code of a block splits back into the lines it was taken from. */
  lemma CodeKeepsLines(texto: string, i: nat)
    requires var lineas := Split(texto, '\n'); i < |lineas| && IsFence(Strip(lineas[i]))
    ensures var lineas := Split(texto, '\n');
      var j := FenceEnd(lineas, i + 1);
      j > i + 1 ==> Split(Step(lineas, i).0[0].code, '\n') == lineas[i + 1..j]
  {
    FenceCodeSplits(Split(texto, '\n'), i);
  }

  /** The same, for any lines without a line break. */
  lemma FenceCodeSplits(lineas: seq<string>, i: nat)
    requires i < |lineas| && IsFence(Strip(lineas[i]))
    requires forall k :: 0 <= k < |lineas| ==> '\n' !in lineas[k]
    ensures var j := FenceEnd(lineas, i + 1);
      j > i + 1 ==> Split(Step(lineas, i).0[0].code, '\n') == lineas[i + 1..j]
  {
    var j := FenceEnd(lineas, i + 1);
    FenceStep(lineas, i);
    if j > i + 1 {
      LinesSplitBack(lineas, i + 1, j);
    }
  }

  /** Lines without a line break, joined by one, split back into those lines. */
  lemma LinesSplitBack(lineas: seq<string>, a: nat, b: nat)
    requires a < b <= |lineas|
    requires forall k :: 0 <= k < |lineas| ==> '\n' !in lineas[k]
    ensures Split(Join(lineas[a..b], "\n"), '\n') == lineas[a..b]
  {
    var codigo := lineas[a..b];
    assert forall k :: 0 <= k < |codigo| ==> codigo[k] == lineas[a + k];
    SplitJoin(codigo, '\n');
  }

  /** Each pass consumes at least one line and adds at most one block. */
  lemma {:induction false} BlocksAtMostLines(lineas: seq<string>, i: nat)
    requires i <= |lineas|
    ensures |BlocksFrom(lineas, i)| <= |lineas| - i
    decreases |lineas| - i
  {
    if i < |lineas| {
      BlocksAtMostLines(lineas, Step(lineas, i).1);
    }
  }
}
