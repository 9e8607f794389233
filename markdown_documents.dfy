/**
  Whole documents through the lexer: the blocks of a few document shapes,
  derived from the per-line lemmas of the `Markdown` module.
*/
module MarkdownDocuments {
  import opened Strings
  import opened Blocks
  import opened Markdown

  /** The blocks of a document that is not blank, from the state after its lines. */
  lemma BlocksOf(markdown: string, lines: seq<string>, last: LexState, blocks: seq<Block>)
    requires !AllSpace(markdown) && Split(markdown, '\n') == lines && Run(Start, lines) == last
    requires Finish(last) == blocks
    ensures MarkdownBlocks(markdown) == blocks
  {
    TrimSpaceBlank(markdown);
  }

  /** Two lines through the lexer, one at a time. */
  lemma RunTwo(st: LexState, l0: string, l1: string)
    ensures Run(st, [l0, l1]) == Step(Step(st, l0), l1)
  {
    RunOne(st, l0);
    RunSnoc(st, [l0], l1);
    assert [l0] + [l1] == [l0, l1];
  }

  /** Three lines through the lexer, one at a time. */
  lemma RunThree(st: LexState, l0: string, l1: string, l2: string)
    ensures Run(st, [l0, l1, l2]) == Step(Step(Step(st, l0), l1), l2)
  {
    RunOne(st, l0);
    RunSnoc(st, [l0], l1);
    RunSnoc(st, [l0, l1], l2);
    assert [l0] + [l1] == [l0, l1];
    assert [l0, l1] + [l2] == [l0, l1, l2];
  }

  /** A document of a heading line, a blank line and a line of text, split into its lines. */
  lemma HeadingThenParagraphLines(title: string, body: string)
    requires '\n' !in title && '\n' !in body
    ensures Split("# " + title + "\n\n" + body, '\n') == ["# " + title, "", body]
  {
    var h := "# " + title;
    assert '\n' !in h by {
      assert forall i :: 2 <= i < |h| ==> h[i] == title[i - 2];
    }
    assert "# " + title + "\n\n" + body == h + ['\n'] + ("" + ['\n'] + body);
    SplitAtFirst(h, '\n', "" + ['\n'] + body);
    SplitAtFirst("", '\n', body);
    SplitNoSep(body, '\n');
  }

  lemma HeadingThenParagraphRun(title: string, body: string)
    requires title == [] || title[|title| - 1] != '\r'
    requires |body| > 0 && !IsSpace(body[0]) && !IsDigit(body[0]) && body[0] !in {'#', '-', '*', '>', '`'}
    requires body[|body| - 1] != '\r'
    ensures Run(Start, ["# " + title, "", body]) == LexState([Heading1(TrimSpace(title))], [body], false, [], "")
  {
    var s1 := Emit(Start, Heading1(TrimSpace(title)));
    ChompKeeps("# " + title);
    HeadingLine(Start, "# " + title, 1, title);
    BlankLineStep(s1, "");
    ChompKeeps(body);
    OrdinaryLineIsPlain(body);
    RunThree(Start, "# " + title, "", body);
  }

  /** A heading line, a blank line and a line of text: a heading block, then a paragraph block. */
  lemma HeadingThenParagraph(title: string, body: string)
    requires '\n' !in title && '\n' !in body
    requires title == [] || title[|title| - 1] != '\r'
    requires |body| > 0 && !IsSpace(body[0]) && !IsDigit(body[0]) && body[0] !in {'#', '-', '*', '>', '`'}
    requires body[|body| - 1] != '\r'
    ensures MarkdownBlocks("# " + title + "\n\n" + body) == [Heading1(TrimSpace(title)), Paragraph(body)]
  {
    var md := "# " + title + "\n\n" + body;
    var lines := ["# " + title, "", body];
    var last := LexState([Heading1(TrimSpace(title))], [body], false, [], "");
    HeadingThenParagraphLines(title, body);
    HeadingThenParagraphRun(title, body);
    assert !AllSpace(md) by {
      assert md[0] == '#';
    }
    assert Finish(last) == [Heading1(TrimSpace(title)), Paragraph(body)] by {
      assert Join([body], "\n") == body;
    }
    BlocksOf(md, lines, last, [Heading1(TrimSpace(title)), Paragraph(body)]);
  }

  lemma DashBulletStep(st: LexState, a: string)
    requires !st.inCode && (a == [] || (a[0] != '*' && a[|a| - 1] != '\r'))
    ensures Step(st, "- " + a) == Emit(st, BulletedListItem(TrimSpace(a)))
  {
    ChompKeeps("- " + a);
    assert "- " + a == ['-', ' '] + a;
    FirstCharDiffers(a, "* ");
    BulletLine(st, "- " + a, '-', a);
  }

  lemma StarBulletStep(st: LexState, b: string)
    requires !st.inCode && (b == [] || b[|b| - 1] != '\r')
    ensures Step(st, "* " + b) == Emit(st, BulletedListItem(TrimSpace(b)))
  {
    ChompKeeps("* " + b);
    assert "* " + b == ['*', ' '] + b;
    BulletLine(st, "* " + b, '*', b);
  }

  /** Two bullet lines, one with each marker, outside a fence: two bulleted items, markers removed. */
  lemma TwoBullets(st: LexState, a: string, b: string)
    requires !st.inCode
    requires a == [] || (a[0] != '*' && a[|a| - 1] != '\r')
    requires b == [] || b[|b| - 1] != '\r'
    ensures Run(st, ["- " + a, "* " + b]) == Emit(Emit(st, BulletedListItem(TrimSpace(a))), BulletedListItem(TrimSpace(b)))
  {
    var s1 := Emit(st, BulletedListItem(TrimSpace(a)));
    var s2 := Emit(s1, BulletedListItem(TrimSpace(b)));
    assert Step(st, "- " + a) == s1 by {
      DashBulletStep(st, a);
    }
    assert Step(s1, "* " + b) == s2 by {
      StarBulletStep(s1, b);
    }
    RunTwo(st, "- " + a, "* " + b);
  }

  /** A document of two lines without line breaks, split into its lines. */
  lemma TwoBulletLines(a: string, b: string)
    requires '\n' !in a && '\n' !in b
    ensures Split("- " + a + "\n* " + b, '\n') == ["- " + a, "* " + b]
  {
    var l0, l1 := "- " + a, "* " + b;
    assert '\n' !in "- " && '\n' !in "* ";
    assert '\n' !in l0 && '\n' !in l1;
    assert "- " + a + "\n* " + b == l0 + ['\n'] + l1;
    SplitAtFirst(l0, '\n', l1);
    SplitNoSep(l1, '\n');
  }

  /** Two blocks emitted from the start state are the blocks of the document. */
  lemma FinishTwo(x: Block, y: Block)
    ensures Finish(Emit(Emit(Start, x), y)) == [x, y]
  {
    assert Emit(Start, x) == LexState([x], [], false, [], "");
  }

  /** A document of a "- " bullet line and a "* " bullet line: exactly two bulleted items, markers removed. */
  lemma TwoBulletDocument(a: string, b: string)
    requires '\n' !in a && '\n' !in b
    requires a == [] || (a[0] != '*' && a[|a| - 1] != '\r')
    requires b == [] || b[|b| - 1] != '\r'
    ensures MarkdownBlocks("- " + a + "\n* " + b) == [BulletedListItem(TrimSpace(a)), BulletedListItem(TrimSpace(b))]
  {
    var md := "- " + a + "\n* " + b;
    var lines := ["- " + a, "* " + b];
    var blocks := [BulletedListItem(TrimSpace(a)), BulletedListItem(TrimSpace(b))];
    var last := Emit(Emit(Start, blocks[0]), blocks[1]);
    assert !AllSpace(md) by {
      assert md[0] == '-';
    }
    FinishTwo(blocks[0], blocks[1]);
    TwoBullets(Start, a, b);
    TwoBulletLines(a, b);
    BlocksOf(md, lines, last, blocks);
  }
}
