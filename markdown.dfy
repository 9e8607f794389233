/**
  The line-oriented Markdown-to-block lexer.

  `MarkdownToBlocks` is the one-pass loop over the input lines, with the
  lexer's five variables; `MarkdownBlocks` is its specification, a left fold of
  `Step` (one loop iteration) over the lines. The lemmas below state what the
  fold does: blank input and blank lines emit nothing, the pending paragraph
  goes out before any other block, output order follows input order, fenced
  lines are kept verbatim, and, because the bullet test runs first, no line
  ever becomes a to-do block.
*/
module Markdown {
  import opened Strings
  import opened Blocks

  const Fence: string := "```"

  /** The lexer's state between two lines. */
  datatype LexState = LexState(
    blocks: seq<Block>,      // emitted so far
    paragraph: seq<string>,  // pending paragraph lines
    inCode: bool,            // inside a fenced code block
    code: seq<string>,       // lines of the open fence
    language: string)        // language tag of the open fence

  const Start := LexState([], [], false, [], "")

  /** The state invariant: a paragraph never pends inside a fence, and outside one the code buffer is reset. */
  ghost predicate Inv(st: LexState) {
    && (st.inCode ==> st.paragraph == [])
    && (!st.inCode ==> st.code == [] && st.language == "")
  }

  predicate IsDigit(c: char) { '0' <= c <= '9' }

  /** Number of leading ASCII digits. */
  function DigitRun(s: string): (n: nat)
    ensures n <= |s|
    ensures forall i :: 0 <= i < n ==> IsDigit(s[i])
    ensures n == |s| || !IsDigit(s[n])
    decreases |s|
  {
    if |s| > 0 && IsDigit(s[0]) then 1 + DigitRun(s[1..]) else 0
  }

  /** The pattern `^\d+\. `: one or more digits, a period and a space. */
  predicate IsNumberedItem(line: string) {
    var n := DigitRun(line);
    n > 0 && HasPrefix(line[n..], ". ")
  }

  /** The line with its number marker removed (the line itself when there is none). */
  function StripNumber(line: string): string {
    if IsNumberedItem(line) then line[DigitRun(line) + 2..] else line
  }

  /** A line as the lexer sees it: every trailing carriage return removed. */
  function Chomp(raw: string): string { TrimRight(raw, '\r') }

  function ChompAll(raws: seq<string>): (r: seq<string>)
    ensures |r| == |raws| && forall i :: 0 <= i < |raws| ==> r[i] == Chomp(raws[i])
  {
    seq(|raws|, i requires 0 <= i < |raws| => Chomp(raws[i]))
  }

  /** The pending paragraph as blocks: one paragraph of its lines joined with newlines, or none. */
  function Flush(paragraph: seq<string>): seq<Block> {
    if |paragraph| > 0 then [Paragraph(Join(paragraph, "\n"))] else []
  }

  /** The state after the pending paragraph has been emitted. */
  function Flushed(st: LexState): LexState {
    st.(blocks := st.blocks + Flush(st.paragraph), paragraph := [])
  }

  /** Emit `b` after the pending paragraph. */
  function Emit(st: LexState, b: Block): LexState {
    Flushed(st).(blocks := Flushed(st).blocks + [b])
  }

  /** What a line outside a fence does: start a block, close the paragraph, or continue it. */
  datatype LineKind = Opens(block: Block) | BlankLine | TextLine

  /** The priority chain of prefix tests, in the order of the code, for a line outside a fence. */
  function Classify(line: string): LineKind {
    if HasPrefix(line, "# ") then Opens(Heading1(TrimSpace(TrimPrefix(line, "# "))))
    else if HasPrefix(line, "## ") then Opens(Heading2(TrimSpace(TrimPrefix(line, "## "))))
    else if HasPrefix(line, "### ") then Opens(Heading3(TrimSpace(TrimPrefix(line, "### "))))
    else if HasPrefix(line, "- ") || HasPrefix(line, "* ") then
      Opens(BulletedListItem(TrimSpace(TrimPrefix(TrimPrefix(line, "- "), "* "))))
    else if IsNumberedItem(line) then Opens(NumberedListItem(TrimSpace(StripNumber(line))))
    else if HasPrefix(line, "> ") then Opens(Quote(TrimSpace(TrimPrefix(line, "> "))))
    else if TrimSpace(line) == "---" || TrimSpace(line) == "***" then Opens(Divider)
    else if HasPrefix(line, "- [ ] ") then Opens(ToDo(TrimSpace(TrimPrefix(line, "- [ ] ")), false))
    else if HasPrefix(line, "- [x] ") then Opens(ToDo(TrimSpace(TrimPrefix(line, "- [x] ")), true))
    else if TrimSpace(line) == "" then BlankLine
    else TextLine
  }

  /** One iteration of the loop: fence lines first, then the fence body, then the chain. */
  function Step(st: LexState, raw: string): LexState {
    var line := Chomp(raw);
    if HasPrefix(line, Fence) then
      if st.inCode then
        st.(blocks := st.blocks + (if |st.code| > 0 then [Code(Join(st.code, "\n"), st.language)] else []),
            inCode := false, code := [], language := "")
      else
        Flushed(st).(inCode := true, language := TrimSpace(TrimPrefix(line, Fence)))
    else if st.inCode then
      st.(code := st.code + [line])
    else
      match Classify(line)
      case Opens(b) => Emit(st, b)
      case BlankLine => Flushed(st)
      case TextLine => st.(paragraph := st.paragraph + [line])
  }

  /** A left fold: `f` applied to each element in order, starting from `s`. */
  function Fold<S, T>(f: (S, T) -> S, s: S, xs: seq<T>): S
    decreases |xs|
  {
    if |xs| == 0 then s else f(Fold(f, s, xs[..|xs| - 1]), xs[|xs| - 1])
  }

  /** Folding over two stretches one after the other is folding over their concatenation. */
  lemma {:induction false} FoldConcat<S, T>(f: (S, T) -> S, s: S, a: seq<T>, b: seq<T>)
    ensures Fold(f, s, a + b) == Fold(f, Fold(f, s, a), b)
    decreases |b|
  {
    if |b| == 0 {
      assert a + b == a;
    } else {
      FoldConcat(f, s, a, b[..|b| - 1]);
      assert (a + b)[..|a + b| - 1] == a + b[..|b| - 1];
    }
  }

  /** The state after the given lines, in order. */
  function Run(st: LexState, lines: seq<string>): LexState
  {
    Fold(Step, st, lines)
  }

  /** End of input: the pending paragraph is emitted; an open fence is dropped. */
  function Finish(st: LexState): seq<Block> {
    st.blocks + Flush(st.paragraph)
  }

  /** The blocks the lexer produces for a document. */
  function MarkdownBlocks(markdown: string): seq<Block> {
    if TrimSpace(markdown) == "" then [] else Finish(Run(Start, Split(markdown, '\n')))
  }

  /** The lexer as the code runs it: one pass over the lines, updating its variables. */
  method MarkdownToBlocks(markdown: string) returns (blocks: seq<Block>)
    ensures blocks == MarkdownBlocks(markdown)
  {
    if TrimSpace(markdown) == "" {
      return [];
    }
    var lines := Split(markdown, '\n');
    blocks := [];
    var currentParagraph: seq<string> := [];
    var inCodeBlock := false;
    var codeBlockContent: seq<string> := [];
    var codeLanguage := "";
    for k := 0 to |lines|
      invariant Run(Start, lines[..k]) == LexState(blocks, currentParagraph, inCodeBlock, codeBlockContent, codeLanguage)
    {
      assert lines[..k + 1][..k] == lines[..k];
      blocks, currentParagraph, inCodeBlock, codeBlockContent, codeLanguage :=
        LexLine(lines[k], blocks, currentParagraph, inCodeBlock, codeBlockContent, codeLanguage);
    }
    assert lines[..|lines|] == lines;
    blocks, currentParagraph := FlushParagraph(blocks, currentParagraph);
  }

  /** The body of the lexer's loop for one input line: the priority chain of prefix tests. */
  method LexLine(raw: string, blocks0: seq<Block>, paragraph0: seq<string>, inCode0: bool, code0: seq<string>, language0: string)
    returns (blocks: seq<Block>, currentParagraph: seq<string>, inCodeBlock: bool, codeBlockContent: seq<string>, codeLanguage: string)
    ensures LexState(blocks, currentParagraph, inCodeBlock, codeBlockContent, codeLanguage)
         == Step(LexState(blocks0, paragraph0, inCode0, code0, language0), raw)
  {
    blocks, currentParagraph, inCodeBlock, codeBlockContent, codeLanguage := blocks0, paragraph0, inCode0, code0, language0;
    var line := TrimRight(raw, '\r');
    if HasPrefix(line, Fence) {
      if inCodeBlock {
        if |codeBlockContent| > 0 {
          blocks := blocks + [Code(Join(codeBlockContent, "\n"), codeLanguage)];
        }
        inCodeBlock := false;
        codeBlockContent := [];
        codeLanguage := "";
      } else {
        blocks, currentParagraph := FlushParagraph(blocks, currentParagraph);
        inCodeBlock := true;
        codeLanguage := TrimSpace(TrimPrefix(line, Fence));
      }
    } else if inCodeBlock {
      codeBlockContent := codeBlockContent + [line];
    } else if HasPrefix(line, "# ") {
      blocks, currentParagraph := FlushParagraph(blocks, currentParagraph);
      blocks := blocks + [Heading1(TrimSpace(TrimPrefix(line, "# ")))];
    } else if HasPrefix(line, "## ") {
      blocks, currentParagraph := FlushParagraph(blocks, currentParagraph);
      blocks := blocks + [Heading2(TrimSpace(TrimPrefix(line, "## ")))];
    } else if HasPrefix(line, "### ") {
      blocks, currentParagraph := FlushParagraph(blocks, currentParagraph);
      blocks := blocks + [Heading3(TrimSpace(TrimPrefix(line, "### ")))];
    } else if HasPrefix(line, "- ") || HasPrefix(line, "* ") {
      blocks, currentParagraph := FlushParagraph(blocks, currentParagraph);
      blocks := blocks + [BulletedListItem(TrimSpace(TrimPrefix(TrimPrefix(line, "- "), "* ")))];
    } else if IsNumberedItem(line) {
      blocks, currentParagraph := FlushParagraph(blocks, currentParagraph);
      var content := StripNumber(line);
      blocks := blocks + [NumberedListItem(TrimSpace(content))];
    } else if HasPrefix(line, "> ") {
      blocks, currentParagraph := FlushParagraph(blocks, currentParagraph);
      blocks := blocks + [Quote(TrimSpace(TrimPrefix(line, "> ")))];
    } else if TrimSpace(line) == "---" || TrimSpace(line) == "***" {
      blocks, currentParagraph := FlushParagraph(blocks, currentParagraph);
      blocks := blocks + [Divider];
    } else if HasPrefix(line, "- [ ] ") {
      blocks, currentParagraph := FlushParagraph(blocks, currentParagraph);
      blocks := blocks + [ToDo(TrimSpace(TrimPrefix(line, "- [ ] ")), false)];
    } else if HasPrefix(line, "- [x] ") {
      blocks, currentParagraph := FlushParagraph(blocks, currentParagraph);
      blocks := blocks + [ToDo(TrimSpace(TrimPrefix(line, "- [x] ")), true)];
    } else if TrimSpace(line) == "" {
      blocks, currentParagraph := FlushParagraph(blocks, currentParagraph);
    } else {
      currentParagraph := currentParagraph + [line];
    }
  }

  /** The flush every block-starting branch performs: the pending lines become one paragraph block. */
  method FlushParagraph(blocks0: seq<Block>, paragraph0: seq<string>) returns (blocks: seq<Block>, currentParagraph: seq<string>)
    ensures blocks == blocks0 + Flush(paragraph0) && currentParagraph == []
  {
    blocks, currentParagraph := blocks0, paragraph0;
    if |currentParagraph| > 0 {
      blocks := blocks + [Paragraph(Join(currentParagraph, "\n"))];
      currentParagraph := [];
    }
  }

  // ---------------------------------------------------------------------------
  // Properties of the fold

  predicate NoToDo(blocks: seq<Block>) {
    forall i :: 0 <= i < |blocks| ==> !blocks[i].ToDo?
  }

  /** A line no test claims: it is added to the pending paragraph. */
  predicate PlainLine(line: string) {
    !HasPrefix(line, Fence) && Classify(line) == TextLine
  }

  lemma PrefixOfPrefix(s: string, p: string, q: string)
    ensures HasPrefix(s, p + q) ==> HasPrefix(s, p)
  {
    if HasPrefix(s, p + q) {
      assert s[..|p|] == (p + q)[..|p|];
    }
  }

  lemma RunOne(st: LexState, raw: string)
    ensures Run(st, [raw]) == Step(st, raw)
  {
    assert [raw][..0] == [];
    assert Fold(Step, st, [raw]) == Step(Fold(Step, st, []), raw);
  }

  lemma RunSnoc(st: LexState, lines: seq<string>, raw: string)
    ensures Run(st, lines + [raw]) == Step(Run(st, lines), raw)
  {
    assert (lines + [raw])[..|lines|] == lines;
  }

  /** Running two stretches of lines one after the other is running their concatenation. */
  lemma RunConcat(st: LexState, a: seq<string>, b: seq<string>)
    ensures Run(st, a + b) == Run(Run(st, a), b)
  {
    FoldConcat(Step, st, a, b);
  }

  /** Every line keeps the state invariant. */
  lemma StepKeepsInv(st: LexState, raw: string)
    requires Inv(st)
    ensures Inv(Step(st, raw))
  {
  }

  lemma {:induction false} RunKeepsInv(st: LexState, lines: seq<string>)
    requires Inv(st)
    ensures Inv(Run(st, lines))
    decreases |lines|
  {
    if |lines| > 0 {
      RunKeepsInv(st, lines[..|lines| - 1]);
      StepKeepsInv(Run(st, lines[..|lines| - 1]), lines[|lines| - 1]);
    }
  }

  /** Blocks are only ever appended: what has been emitted stays, in order, at the front. */
  lemma {:induction false} RunPreservesOrder(st: LexState, lines: seq<string>)
    ensures |st.blocks| <= |Run(st, lines).blocks|
    ensures Run(st, lines).blocks[..|st.blocks|] == st.blocks
    decreases |lines|
  {
    if |lines| > 0 {
      var mid := Run(st, lines[..|lines| - 1]);
      RunPreservesOrder(st, lines[..|lines| - 1]);
      var next := Step(mid, lines[|lines| - 1]);
      assert next.blocks[..|mid.blocks|] == mid.blocks;
      assert next.blocks[..|st.blocks|] == mid.blocks[..|st.blocks|];
    }
  }

  /**
    Outside a fence, a line either joins the pending paragraph (a plain line) or
    closes it: the paragraph is emitted, before anything else, and nothing pends afterwards.
  */
  lemma StepFlushesFirst(st: LexState, raw: string)
    requires !st.inCode
    ensures PlainLine(Chomp(raw)) ==> Step(st, raw) == st.(paragraph := st.paragraph + [Chomp(raw)])
    ensures !PlainLine(Chomp(raw)) ==>
      && Step(st, raw).paragraph == []
      && |Flushed(st).blocks| <= |Step(st, raw).blocks|
      && Step(st, raw).blocks[..|Flushed(st).blocks|] == Flushed(st).blocks
  {
  }

  /** A prefix whose first character differs from the line's is not a prefix of it. */
  lemma FirstCharDiffers(s: string, p: string)
    requires |p| > 0 && (|s| == 0 || s[0] != p[0])
    ensures !HasPrefix(s, p)
  {
    if |p| <= |s| {
      assert s[..|p|][0] == s[0] != p[0];
    }
  }

  /** None of the chain's markers starts a line of white space. */
  lemma NoMarkerOnBlank(line: string)
    requires AllSpace(line)
    ensures !HasPrefix(line, Fence) && !HasPrefix(line, "# ") && !HasPrefix(line, "## ") && !HasPrefix(line, "### ")
    ensures !HasPrefix(line, "- ") && !HasPrefix(line, "* ") && !HasPrefix(line, "> ")
    ensures !HasPrefix(line, "- [ ] ") && !HasPrefix(line, "- [x] ") && !IsNumberedItem(line)
  {
    assert line != [] ==> IsSpace(line[0]);
    FirstCharDiffers(line, Fence);
    FirstCharDiffers(line, "# ");
    FirstCharDiffers(line, "## ");
    FirstCharDiffers(line, "### ");
    FirstCharDiffers(line, "- ");
    FirstCharDiffers(line, "* ");
    FirstCharDiffers(line, "> ");
    FirstCharDiffers(line, "- [ ] ");
    FirstCharDiffers(line, "- [x] ");
    assert DigitRun(line) > 0 ==> IsDigit(line[0]);
  }

  /** A blank line (white space only) emits the pending paragraph and nothing else. */
  lemma BlankLineStep(st: LexState, raw: string)
    requires !st.inCode && AllSpace(Chomp(raw))
    ensures Step(st, raw) == Flushed(st)
  {
    NoMarkerOnBlank(Chomp(raw));
  }

  /** Any number of blank lines after a paragraph close it, and produce no block of their own. */
  lemma {:induction false} BlankLinesEmitNothing(st: LexState, lines: seq<string>)
    requires !st.inCode && |lines| > 0
    requires forall i :: 0 <= i < |lines| ==> AllSpace(Chomp(lines[i]))
    ensures Run(st, lines) == Flushed(st)
    decreases |lines|
  {
    var last := lines[|lines| - 1];
    if |lines| == 1 {
      RunOne(st, last);
      BlankLineStep(st, last);
    } else {
      BlankLinesEmitNothing(st, lines[..|lines| - 1]);
      BlankLineStep(Flushed(st), last);
    }
  }

  lemma ChompAllSnoc(lines: seq<string>, raw: string)
    ensures ChompAll(lines + [raw]) == ChompAll(lines) + [Chomp(raw)]
  {
  }

  /** Lines that each join the pending paragraph, taken one at a time, join it in order. */
  lemma {:induction false} FoldJoinsParagraph(f: (LexState, string) -> LexState, joins: string -> bool, st: LexState, lines: seq<string>)
    requires forall s: LexState, raw: string :: !s.inCode && joins(raw) ==> f(s, raw) == s.(paragraph := s.paragraph + [Chomp(raw)])
    requires !st.inCode && forall i :: 0 <= i < |lines| ==> joins(lines[i])
    ensures Fold(f, st, lines) == st.(paragraph := st.paragraph + ChompAll(lines))
    decreases |lines|
  {
    if |lines| == 0 {
      assert st.paragraph + ChompAll(lines) == st.paragraph;
    } else {
      var init := lines[..|lines| - 1];
      var last := lines[|lines| - 1];
      FoldJoinsParagraph(f, joins, st, init);
      ChompAllSnoc(init, last);
      assert lines == init + [last];
      assert st.paragraph + ChompAll(lines) == (st.paragraph + ChompAll(init)) + [Chomp(last)];
    }
  }

  /** Consecutive plain lines pile up, carriage returns removed, in one pending paragraph. */
  lemma PlainLinesAccumulate(st: LexState, lines: seq<string>)
    requires !st.inCode
    requires forall i :: 0 <= i < |lines| ==> PlainLine(Chomp(lines[i]))
    ensures Run(st, lines) == st.(paragraph := st.paragraph + ChompAll(lines))
  {
    forall s: LexState, raw: string | !s.inCode && PlainLine(Chomp(raw))
      ensures Step(s, raw) == s.(paragraph := s.paragraph + [Chomp(raw)])
    {
      StepFlushesFirst(s, raw);
    }
    FoldJoinsParagraph(Step, raw => PlainLine(Chomp(raw)), st, lines);
  }

  /** Inside a fence, lines that do not close it are kept verbatim (less trailing carriage returns). */
  lemma {:induction false} FencedLinesVerbatim(st: LexState, lines: seq<string>)
    requires st.inCode
    requires forall i :: 0 <= i < |lines| ==> !HasPrefix(Chomp(lines[i]), Fence)
    ensures Run(st, lines) == st.(code := st.code + ChompAll(lines))
    decreases |lines|
  {
    if |lines| == 0 {
      assert st.code + ChompAll(lines) == st.code;
    } else {
      var init := lines[..|lines| - 1];
      FencedLinesVerbatim(st, init);
      assert ChompAll(lines) == ChompAll(init) + [Chomp(lines[|lines| - 1])];
    }
  }

  /**
    A fenced block: the opening line closes the pending paragraph, the body becomes one
    code block tagged with the opening line's language (none for an empty body), and
    the lexer is back outside a fence with its code buffer reset.
  */
  lemma FenceEmitsCode(st: LexState, open: string, body: seq<string>, close: string)
    requires Inv(st) && !st.inCode
    requires HasPrefix(Chomp(open), Fence) && HasPrefix(Chomp(close), Fence)
    requires forall i :: 0 <= i < |body| ==> !HasPrefix(Chomp(body[i]), Fence)
    ensures var lang := TrimSpace(TrimPrefix(Chomp(open), Fence));
      Run(st, [open] + body + [close])
        == LexState(Flushed(st).blocks + (if |body| > 0 then [Code(Join(ChompAll(body), "\n"), lang)] else []),
                    [], false, [], "")
  {
    RunSnoc(st, [open] + body, close);
    RunConcat(st, [open], body);
    RunOne(st, open);
    FencedLinesVerbatim(Step(st, open), body);
    assert [] + ChompAll(body) == ChompAll(body);
  }

  /** A fence that is never closed loses its content: the open fence is dropped at the end of input. */
  lemma UnclosedFenceDropsContent(st: LexState, open: string, body: seq<string>)
    requires Inv(st) && !st.inCode
    requires HasPrefix(Chomp(open), Fence)
    requires forall i :: 0 <= i < |body| ==> !HasPrefix(Chomp(body[i]), Fence)
    ensures Finish(Run(st, [open] + body)) == Finish(st)
  {
    RunConcat(st, [open], body);
    RunOne(st, open);
    FencedLinesVerbatim(Step(st, open), body);
  }

  /** A task-list line is claimed by the bullet test first: the to-do branches are unreachable. */
  lemma TaskLineIsBullet(st: LexState, raw: string, text: string, checked: bool)
    requires !st.inCode
    requires Chomp(raw) == (if checked then "- [x] " else "- [ ] ") + text
    ensures Step(st, raw) == Emit(st, BulletedListItem(TrimSpace((if checked then "[x] " else "[ ] ") + text)))
  {
    var line := Chomp(raw);
    var mark := if checked then "[x] " else "[ ] ";
    assert line == "- " + (mark + text);
    assert line[0] == '-';
    assert line[..2] == "- ";
    FirstCharDiffers(line, Fence);
    FirstCharDiffers(line, "# ");
    FirstCharDiffers(line, "## ");
    FirstCharDiffers(line, "### ");
    assert TrimPrefix(line, "- ") == mark + text;
    FirstCharDiffers(mark + text, "* ");
  }

  /** The chain never yields a to-do block: both task markers start with the bullet marker. */
  lemma ClassifyNeverToDo(line: string)
    ensures !(Classify(line).Opens? && Classify(line).block.ToDo?)
  {
    PrefixOfPrefix(line, "- ", "[ ] ");
    PrefixOfPrefix(line, "- ", "[x] ");
  }

  lemma StepNeverToDo(st: LexState, raw: string)
    requires NoToDo(st.blocks)
    ensures NoToDo(Step(st, raw).blocks)
  {
    ClassifyNeverToDo(Chomp(raw));
  }

  lemma {:induction false} RunNeverToDo(st: LexState, lines: seq<string>)
    requires NoToDo(st.blocks)
    ensures NoToDo(Run(st, lines).blocks)
    decreases |lines|
  {
    if |lines| > 0 {
      RunNeverToDo(st, lines[..|lines| - 1]);
      StepNeverToDo(Run(st, lines[..|lines| - 1]), lines[|lines| - 1]);
    }
  }

  /** No document yields a to-do block. */
  lemma MarkdownNeverToDo(markdown: string)
    ensures NoToDo(MarkdownBlocks(markdown))
  {
    if TrimSpace(markdown) != "" {
      RunNeverToDo(Start, Split(markdown, '\n'));
    }
  }

  /** Blank input (empty or white space only) yields no blocks at all. */
  lemma BlankInputYieldsNothing(markdown: string)
    requires AllSpace(markdown)
    ensures MarkdownBlocks(markdown) == []
  {
  }

  /**
    A heading marker of one to three `#` and a space gives a heading of that level
    whose text is the rest of the line with white space trimmed.
  */
  lemma HeadingLine(st: LexState, raw: string, level: nat, text: string)
    requires !st.inCode && 1 <= level <= 3
    requires Chomp(raw) == (if level == 1 then "# " else if level == 2 then "## " else "### ") + text
    ensures Step(st, raw) == Emit(st, if level == 1 then Heading1(TrimSpace(text))
                                     else if level == 2 then Heading2(TrimSpace(text))
                                     else Heading3(TrimSpace(text)))
  {
    var line := Chomp(raw);
    FirstCharDiffers(line, Fence);
    if level == 1 {
      assert line == "# " + text;
      assert line[..2] == "# ";
    } else if level == 2 {
      assert line == "## " + text;
      assert line[..3] == "## ";
      FirstCharDiffers(line[1..], " ");
      assert !HasPrefix(line, "# ") by { assert line[1] == '#'; }
    } else {
      assert line == "### " + text;
      assert line[..4] == "### ";
      assert !HasPrefix(line, "# ") by { assert line[1] == '#'; }
      assert !HasPrefix(line, "## ") by { assert line[2] == '#'; }
    }
  }

  /** None of the chain's markers starts `#` followed by anything but a space or another `#`. */
  lemma NoMarkerOnHashWord(line: string)
    requires |line| >= 2 && line[0] == '#' && line[1] != ' ' && line[1] != '#'
    ensures !HasPrefix(line, Fence) && !HasPrefix(line, "# ") && !HasPrefix(line, "## ") && !HasPrefix(line, "### ")
    ensures !HasPrefix(line, "- ") && !HasPrefix(line, "* ") && !HasPrefix(line, "> ")
    ensures !HasPrefix(line, "- [ ] ") && !HasPrefix(line, "- [x] ") && !IsNumberedItem(line)
  {
    FirstCharDiffers(line, Fence);
    FirstCharDiffers(line[1..], " ");
    FirstCharDiffers(line[1..], "# ");
    FirstCharDiffers(line[1..], "## ");
    assert forall p :: HasPrefix(line, "#" + p) ==> HasPrefix(line[1..], p) by {
      forall p | HasPrefix(line, "#" + p) ensures HasPrefix(line[1..], p) {
        assert line[1..][..|p|] == line[..|p| + 1][1..];
      }
    }
    assert "# " == "#" + " " && "## " == "#" + "# " && "### " == "#" + "## ";
    FirstCharDiffers(line, "- ");
    FirstCharDiffers(line, "* ");
    FirstCharDiffers(line, "> ");
    FirstCharDiffers(line, "- [ ] ");
    FirstCharDiffers(line, "- [x] ");
    assert DigitRun(line) == 0;
  }

  /** A `#` with no space after it is not a heading: the line is ordinary paragraph text. */
  lemma HashWithoutSpaceIsText(st: LexState, raw: string, word: string)
    requires !st.inCode
    requires |word| > 0 && word[0] != ' ' && word[0] != '#'
    requires Chomp(raw) == "#" + word
    ensures Step(st, raw) == st.(paragraph := st.paragraph + ["#" + word])
  {
    var line := Chomp(raw);
    NoMarkerOnHashWord(line);
    TrimSpaceFirst(line);
  }

  /** A run of digits followed by something else is counted exactly. */
  lemma {:induction false} DigitRunOf(digits: string, rest: string)
    requires forall i :: 0 <= i < |digits| ==> IsDigit(digits[i])
    requires rest == [] || !IsDigit(rest[0])
    ensures DigitRun(digits + rest) == |digits|
    decreases |digits|
  {
    if |digits| > 0 {
      assert (digits + rest)[1..] == digits[1..] + rest;
      DigitRunOf(digits[1..], rest);
    } else {
      assert digits + rest == rest;
    }
  }

  /** A line of digits, a period and a space is a numbered item whose text is the rest, trimmed. */
  lemma NumberedLine(st: LexState, raw: string, digits: string, text: string)
    requires !st.inCode
    requires |digits| > 0 && forall i :: 0 <= i < |digits| ==> IsDigit(digits[i])
    requires Chomp(raw) == digits + ". " + text
    ensures Step(st, raw) == Emit(st, NumberedListItem(TrimSpace(text)))
  {
    var line := Chomp(raw);
    assert line == digits + (". " + text);
    DigitRunOf(digits, ". " + text);
    assert line[|digits|..] == ". " + text;
    assert (". " + text)[..2] == ". ";
    assert line[|digits| + 2..] == text;
    assert IsDigit(line[0]);
    FirstCharDiffers(line, Fence);
    FirstCharDiffers(line, "# ");
    FirstCharDiffers(line, "## ");
    FirstCharDiffers(line, "### ");
    FirstCharDiffers(line, "- ");
    FirstCharDiffers(line, "* ");
  }

  /** A `> ` marker gives a quote whose text is the rest of the line, trimmed. */
  lemma QuoteLine(st: LexState, raw: string, text: string)
    requires !st.inCode
    requires Chomp(raw) == "> " + text
    ensures Step(st, raw) == Emit(st, Quote(TrimSpace(text)))
  {
    var line := Chomp(raw);
    assert line[..2] == "> " && line[2..] == text;
    FirstCharDiffers(line, Fence);
    FirstCharDiffers(line, "# ");
    FirstCharDiffers(line, "## ");
    FirstCharDiffers(line, "### ");
    FirstCharDiffers(line, "- ");
    FirstCharDiffers(line, "* ");
    assert DigitRun(line) == 0;
  }

  /**
    Three dashes or three asterisks on a line of their own, with any white
    space around them, give a divider.
  */
  lemma DividerLine(st: LexState, raw: string, marker: char)
    requires !st.inCode && (marker == '-' || marker == '*')
    requires TrimSpace(Chomp(raw)) == [marker, marker, marker]
    ensures Step(st, raw) == Emit(st, Divider)
  {
    PaddedDividerUnmarked(Chomp(raw), marker);
  }

  /** A padded "---" or "***" line fails every marker test that comes before the divider test. */
  lemma PaddedDividerUnmarked(line: string, marker: char)
    requires (marker == '-' || marker == '*') && TrimSpace(line) == [marker, marker, marker]
    ensures !HasPrefix(line, Fence) && !HasPrefix(line, "# ") && !HasPrefix(line, "## ") && !HasPrefix(line, "### ")
    ensures !HasPrefix(line, "- ") && !HasPrefix(line, "* ") && !HasPrefix(line, "> ") && DigitRun(line) == 0
  {
    var a := PaddingOf(line, [marker, marker, marker]);
    assert !IsDigit(line[0]);
    FirstCharDiffers(line, Fence);
    FirstCharDiffers(line, "# ");
    FirstCharDiffers(line, "## ");
    FirstCharDiffers(line, "### ");
    FirstCharDiffers(line, "> ");
    if a > 0 {
      FirstCharDiffers(line, "- ");
      FirstCharDiffers(line, "* ");
    } else {
      assert !HasPrefix(line, "- ") && !HasPrefix(line, "* ") by { assert line[..2][1] == line[1] == marker; }
    }
  }

  /** A line that starts with a non-space character keeps that character first when trimmed. */
  lemma TrimSpaceFirst(line: string)
    requires |line| > 0 && !IsSpace(line[0])
    ensures TrimSpace(line) != [] && TrimSpace(line)[0] == line[0]
  {
    TrimSpaceBlank(line);
    var a := PaddingOf(line, TrimSpace(line));
  }

  /** A line whose trimmed form is `r`, not empty, holds `r` after `a` leading white-space characters. */
  lemma PaddingOf(line: string, r: string) returns (a: nat)
    requires TrimSpace(line) == r && r != []
    ensures a + |r| <= |line| && line[a..a + |r|] == r
    ensures a > 0 ==> IsSpace(line[0])
    ensures a == 0 ==> line[0] == r[0] && (|r| > 1 ==> line[1] == r[1])
    ensures line[0] == r[0] || IsSpace(line[0])
  {
    var left := TrimLeftSpace(line);
    a := |line| - |left|;
    TrimBothEnds(line, left, TrimRightSpace(left), a);
    if a > 0 {
      assert IsSpace(line[..a][0]);
    } else {
      assert line[0] == line[a..a + |r|][0];
      if |r| > 1 {
        assert line[1] == line[a..a + |r|][1];
      }
    }
  }

  /** How many blocks a state stands for: those emitted, a pending paragraph, an open fence. */
  function Weight(st: LexState): nat {
    |st.blocks| + (if |st.paragraph| > 0 then 1 else 0) + (if st.inCode then 1 else 0)
  }

  lemma StepWeight(st: LexState, raw: string)
    ensures Weight(Step(st, raw)) <= Weight(st) + 1
  {
  }

  lemma {:induction false} RunWeight(st: LexState, lines: seq<string>)
    ensures Weight(Run(st, lines)) <= Weight(st) + |lines|
    decreases |lines|
  {
    if |lines| > 0 {
      RunWeight(st, lines[..|lines| - 1]);
      StepWeight(Run(st, lines[..|lines| - 1]), lines[|lines| - 1]);
    }
  }

  /** Each input line gives at most one block: a document never yields more blocks than it has lines. */
  lemma BlocksAtMostLines(markdown: string)
    ensures |MarkdownBlocks(markdown)| <= |Split(markdown, '\n')|
  {
    if TrimSpace(markdown) != "" {
      RunWeight(Start, Split(markdown, '\n'));
    }
  }

  /**
    A bullet line: the text after the marker, trimmed. After a `- ` marker a
    following `* ` is removed too, since both markers are trimmed in turn.
  */
  lemma BulletLine(st: LexState, raw: string, marker: char, text: string)
    requires !st.inCode && (marker == '-' || marker == '*')
    requires Chomp(raw) == [marker, ' '] + text
    ensures Step(st, raw) == Emit(st, BulletedListItem(TrimSpace(if marker == '-' then TrimPrefix(text, "* ") else text)))
  {
    var line := Chomp(raw);
    assert line[0] == marker;
    FirstCharDiffers(line, Fence);
    BulletClassify(line, marker, text);
  }

  lemma BulletClassify(line: string, marker: char, text: string)
    requires (marker == '-' || marker == '*') && line == [marker, ' '] + text
    ensures Classify(line) == Opens(BulletedListItem(TrimSpace(if marker == '-' then TrimPrefix(text, "* ") else text)))
  {
    assert line[0] == marker && line[..2] == [marker, ' '] && line[2..] == text;
    FirstCharDiffers(line, "# ");
    FirstCharDiffers(line, "## ");
    FirstCharDiffers(line, "### ");
    if marker == '-' {
      assert TrimPrefix(line, "- ") == text;
    } else {
      FirstCharDiffers(line, "- ");
      assert TrimPrefix(line, "- ") == line;
      assert TrimPrefix(line, "* ") == text;
    }
  }

  /** A line that starts with none of the marker characters, a digit or white space is paragraph text. */
  lemma OrdinaryLineIsPlain(line: string)
    requires |line| > 0 && !IsSpace(line[0]) && !IsDigit(line[0])
    requires line[0] !in {'#', '-', '*', '>', '`'}
    ensures PlainLine(line)
  {
    FirstCharDiffers(line, Fence);
    FirstCharDiffers(line, "# ");
    FirstCharDiffers(line, "## ");
    FirstCharDiffers(line, "### ");
    FirstCharDiffers(line, "- ");
    FirstCharDiffers(line, "* ");
    FirstCharDiffers(line, "> ");
    FirstCharDiffers(line, "- [ ] ");
    FirstCharDiffers(line, "- [x] ");
    assert DigitRun(line) == 0;
    assert TrimLeftSpace(line) == line;
    assert TrimSpace(line)[0] == line[0];
  }

  lemma ChompKeeps(s: string)
    requires s == [] || s[|s| - 1] != '\r'
    ensures Chomp(s) == s
  {
  }

  lemma TrimSpaceKeeps(s: string)
    requires s == [] || (!IsSpace(s[0]) && !IsSpace(s[|s| - 1]))
    ensures TrimSpace(s) == s
  {
    assert TrimLeftSpace(s) == s;
    assert TrimRightSpace(s) == s;
  }
}
