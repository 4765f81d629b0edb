/** What a reader draws from the content stream: the title, then every line that
    fits, at the heights the writer meant. */
module PdfText {
  import opened Wrappers
  import opened Decimal
  import opened PdfWriter
  import opened PdfReader
  import opened PdfRoundTrip

  // ----- one token at a time -----

  /** Drawing resumed after one token. */
  function Resume(page: Option<Page>, rest: string): Option<Page> {
    if page == None then None else Draw(page.value, rest)
  }

  lemma DrawWhite(page: Page, c: char, rest: string)
    requires IsWhite(c)
    ensures Draw(page, [c] + rest) == Draw(page, rest)
  {
    assert ([c] + rest)[1..] == rest;
  }

  lemma DrawWord(page: Page, w: string, c: char, rest: string)
    requires w != "" && AllRegular(w) && IsWhite(c)
    ensures Draw(page, w + ([c] + rest)) == Resume(Execute(page, Word(w)), rest)
  {
    var s := w + ([c] + rest);
    SpanOfRegular(w, [c] + rest);
    assert s[0] == w[0];
    assert s[..|w|] == w && s[|w|..] == [c] + rest;
    assert Lex(s) == Next(Word(w), [c] + rest);
    var page' := Execute(page, Word(w));
    if page' != None { DrawWhite(page'.value, c, rest); }
  }

  lemma DrawNumber(page: Page, n: nat, c: char, rest: string)
    requires IsWhite(c)
    ensures Draw(page, Digits(n) + ([c] + rest)) == Draw(page.(operands := page.operands + [Number(n)]), rest)
  {
    ValueOfDigits(n);
    assert forall i :: 0 <= i < |Digits(n)| ==> IsDigit(Digits(n)[i]);
    DrawWord(page, Digits(n), c, rest);
  }

  lemma DrawName(page: Page, name: string, c: char, rest: string)
    requires AllRegular(name) && IsWhite(c)
    ensures Draw(page, "/" + (name + ([c] + rest)))
            == Draw(page.(operands := page.operands + [NameOperand(name)]), rest)
  {
    var s := "/" + (name + ([c] + rest));
    assert s[1..] == name + ([c] + rest);
    SpanOfRegular(name, [c] + rest);
    assert s[1..1 + |name|] == name && s[1 + |name|..] == [c] + rest;
    assert Lex(s) == Next(Name(name), [c] + rest);
    DrawWhite(page.(operands := page.operands + [NameOperand(name)]), c, rest);
  }

  lemma DrawText(page: Page, text: string, c: char, rest: string)
    requires IsWhite(c)
    ensures Draw(page, "(" + (EscapeText(text) + ")" + ([c] + rest)))
         == Draw(page.(operands := page.operands + [TextOperand(Sanitize(text))]), rest)
  {
    var s := "(" + (EscapeText(text) + ")" + ([c] + rest));
    assert s[1..] == EscapeText(text) + ")" + ([c] + rest);
    LiteralRoundTrip(text, [c] + rest);
    assert Lex(s) == Next(Text(Sanitize(text)), [c] + rest);
    DrawWhite(page.(operands := page.operands + [TextOperand(Sanitize(text))]), c, rest);
  }

  // ----- one operator at a time -----

  lemma DrawFont(page: Page, size: nat, rest: string)
    requires page.operands == []
    ensures Draw(page, FontText(size) + rest) == Draw(page.(font := "F1", size := size), rest)
  {
    hide Draw, Digits;
    var s2 := "Tf" + (['\n'] + rest);
    var s1 := Digits(size) + ([' '] + s2);
    assert FontText(size) + rest == "/" + ("F1" + ([' '] + s1));
    DrawName(page, "F1", ' ', s1);
    var p1 := page.(operands := [NameOperand("F1")]);
    assert page.operands + [NameOperand("F1")] == p1.operands;
    DrawNumber(p1, size, ' ', s2);
    var p2 := page.(operands := [NameOperand("F1"), Number(size)]);
    assert p1.operands + [Number(size)] == p2.operands;
    DrawWord(p2, "Tf", '\n', rest);
    assert page.(font := "F1", size := size, operands := []) == page.(font := "F1", size := size);
  }

  function WithOperands(page: Page, operands: seq<Operand>): Page { page.(operands := operands) }

  lemma OneAndZero()
    ensures Digits(1) == "1" && Digits(0) == "0"
  { }

  /** Six numbers and Tm set the text matrix. */
  lemma DrawMatrix(page: Page, x: nat, y: nat, rest: string)
    requires page.operands == [] && page.inText
    ensures Draw(page, "1 0 0 1 " + Digits(x) + " " + Digits(y) + " Tm\n" + rest)
         == Draw(page.(matrix := [1, 0, 0, 1, x, y]), rest)
  {
    OneAndZero();
    hide Draw, Digits;
    var s6 := "Tm" + (['\n'] + rest);
    var s5 := Digits(y) + ([' '] + s6);
    var s4 := Digits(x) + ([' '] + s5);
    var s3 := Digits(1) + ([' '] + s4);
    var s2 := Digits(0) + ([' '] + s3);
    var s1 := Digits(0) + ([' '] + s2);
    assert "1 0 0 1 " + Digits(x) + " " + Digits(y) + " Tm\n" + rest == Digits(1) + ([' '] + s1);
    FourNumbers(page, s4);
    var p4 := WithOperands(page, [Number(1), Number(0), Number(0), Number(1)]);
    DrawNumber(p4, x, ' ', s5);
    var p5 := WithOperands(page, [Number(1), Number(0), Number(0), Number(1), Number(x)]);
    assert p4.operands + [Number(x)] == p5.operands;
    DrawNumber(p5, y, ' ', s6);
    var p6 := WithOperands(page, [Number(1), Number(0), Number(0), Number(1), Number(x), Number(y)]);
    assert p5.operands + [Number(y)] == p6.operands;
    DrawWord(p6, "Tm", '\n', rest);
    NumbersOf([1, 0, 0, 1, x, y]);
    assert p6.operands == NumberOperands([1, 0, 0, 1, x, y]);
  }

  function NumberOperands(ns: seq<nat>): (operands: seq<Operand>)
    ensures |operands| == |ns| && forall i :: 0 <= i < |ns| ==> operands[i] == Number(ns[i])
  {
    seq(|ns|, i requires 0 <= i < |ns| => Number(ns[i]))
  }

  lemma {:induction false} NumbersOf(ns: seq<nat>)
    ensures Numbers(NumberOperands(ns)) == Some(ns)
  {
    if ns != [] {
      NumbersOf(ns[1..]);
      assert NumberOperands(ns)[1..] == NumberOperands(ns[1..]);
      assert ns == [ns[0]] + ns[1..];
    }
  }

  lemma FourNumbers(page: Page, rest: string)
    requires page.operands == []
    ensures Draw(page,
                 Digits(1) + ([' '] + (Digits(0) + ([' '] + (Digits(0) + ([' '] + (Digits(1) + ([' '] + rest))))))))
         == Draw(WithOperands(page, [Number(1), Number(0), Number(0), Number(1)]), rest)
  {
    hide Draw, Digits;
    DrawNumber(page, 1, ' ', Digits(0) + ([' '] + (Digits(0) + ([' '] + (Digits(1) + ([' '] + rest))))));
    assert page.operands + [Number(1)] == [Number(1)];
    DrawNumber(WithOperands(page, [Number(1)]), 0, ' ', Digits(0) + ([' '] + (Digits(1) + ([' '] + rest))));
    assert [Number(1)] + [Number(0)] == [Number(1), Number(0)];
    DrawNumber(WithOperands(page, [Number(1), Number(0)]), 0, ' ', Digits(1) + ([' '] + rest));
    assert [Number(1), Number(0)] + [Number(0)] == [Number(1), Number(0), Number(0)];
    DrawNumber(WithOperands(page, [Number(1), Number(0), Number(0)]), 1, ' ', rest);
    assert [Number(1), Number(0), Number(0)] + [Number(1)] == [Number(1), Number(0), Number(0), Number(1)];
  }

  /** One line of the page. */
  function AfterLine(page: Page, y: nat, line: string): Page {
    page.(matrix := [1, 0, 0, 1, MARGIN_LEFT, y],
          shown := page.shown + [Shown(page.font, page.size, [1, 0, 0, 1, MARGIN_LEFT, y], Sanitize(line))])
  }

  lemma DrawLine(page: Page, y: nat, line: string, rest: string)
    requires page.operands == [] && page.inText
    ensures Draw(page, LineText(y, line) + rest) == Draw(AfterLine(page, y, line), rest)
  {
    hide Draw, Digits, EscapeText;
    var s2 := "Tj" + (['\n'] + rest);
    var s1 := "(" + (EscapeText(line) + ")" + ([' '] + s2));
    assert LineText(y, line) + rest == "1 0 0 1 " + Digits(MARGIN_LEFT) + " " + Digits(y) + " Tm\n" + s1;
    DrawMatrix(page, MARGIN_LEFT, y, s1);
    var p1 := page.(matrix := [1, 0, 0, 1, MARGIN_LEFT, y]);
    DrawText(p1, line, ' ', s2);
    var p2 := WithOperands(p1, [TextOperand(Sanitize(line))]);
    assert p1.operands + [TextOperand(Sanitize(line))] == p2.operands;
    DrawWord(p2, "Tj", '\n', rest);
    assert AfterLine(page, y, line).operands == [];
  }

  // ----- the page -----

  /** The first k lines, one line height apart, from height y down. */
  function LinesShown(font: string, y: int, lines: seq<string>, k: nat): (shown: seq<Shown>)
    requires k <= |lines| && (k > 0 ==> y >= 18 * k)
    ensures |shown| == k
    ensures forall i :: 0 <= i < k ==>
              y - 18 * i > 0
              && shown[i] == Shown(font, BODY_FONT_SIZE, [1, 0, 0, 1, MARGIN_LEFT, y - 18 * i], Sanitize(lines[i]))
  {
    seq(k, i requires 0 <= i < k =>
      Shown(font, BODY_FONT_SIZE, [1, 0, 0, 1, MARGIN_LEFT, y - 18 * i], Sanitize(lines[i])))
  }

  function LineShown(font: string, y: nat, line: string): Shown {
    Shown(font, BODY_FONT_SIZE, [1, 0, 0, 1, MARGIN_LEFT, y], Sanitize(line))
  }

  lemma LinesShownFromTop(font: string, y: int, lines: seq<string>, k: nat)
    requires 0 < k <= |lines| && y >= 18 * k
    ensures LinesShown(font, y, lines, k)
         == [LineShown(font, y, lines[0])] + LinesShown(font, y - LINE_HEIGHT, lines[1..], k - 1)
  {
    hide Sanitize, LinesShown;
    var all, rest := LinesShown(font, y, lines, k), LinesShown(font, y - LINE_HEIGHT, lines[1..], k - 1);
    var parts := [LineShown(font, y, lines[0])] + rest;
    forall i | 0 <= i < k ensures all[i] == parts[i] {
      if i > 0 { assert parts[i] == rest[i - 1] && lines[1..][i - 1] == lines[i]; }
    }
  }

  lemma ShownSoFar(font: string, before: seq<Shown>, y: int, lines: seq<string>, k: nat)
    requires 0 < k <= |lines| && y >= 18 * k
    ensures (before + [LineShown(font, y, lines[0])]) + LinesShown(font, y - LINE_HEIGHT, lines[1..], k - 1)
            == before + LinesShown(font, y, lines, k)
  {
    hide Sanitize, LineShown, LinesShown;
    LinesShownFromTop(font, y, lines, k);
    var x, rest := [LineShown(font, y, lines[0])], LinesShown(font, y - LINE_HEIGHT, lines[1..], k - 1);
    assert (before + x) + rest == before + (x + rest);
  }

  lemma DrawFirstLine(page: Page, y: int, lines: seq<string>, rest: string)
    requires page.operands == [] && page.inText && lines != [] && y >= LINE_HEIGHT
    ensures Draw(page, LinesText(y, lines) + rest)
         == Draw(AfterLine(page, y, lines[0]), LinesText(y - LINE_HEIGHT, lines[1..]) + rest)
  {
    hide Draw, LineText;
    var tail := LinesText(y - LINE_HEIGHT, lines[1..]) + rest;
    assert LinesText(y, lines) + rest == LineText(y, lines[0]) + tail;
    DrawLine(page, y, lines[0], tail);
  }

  lemma NoRoom(y: int, lines: seq<string>)
    requires lines == [] || y < LINE_HEIGHT
    ensures LinesText(y, lines) == ""
  { }

  /** k lines are drawn when k fit and there is no room, or no line, for another. */
  lemma {:induction false} DrawLines(page: Page, y: int, lines: seq<string>, k: nat, rest: string) returns (page': Page)
    requires page.operands == [] && page.inText && page.size == BODY_FONT_SIZE
    requires k <= |lines| && (k > 0 ==> y >= 18 * k) && (k < |lines| ==> y - 18 * k < LINE_HEIGHT)
    ensures page'.shown == page.shown + LinesShown(page.font, y, lines, k)
    ensures page'.operands == [] && page'.inText
    ensures Draw(page, LinesText(y, lines) + rest) == Draw(page', rest)
    decreases k
  {
    hide Draw, Sanitize, LinesShown, LinesText;
    if k == 0 {
      NoRoom(y, lines);
      assert LinesText(y, lines) + rest == rest;
      assert LinesShown(page.font, y, lines, 0) == [];
      page' := page;
    } else {
      DrawFirstLine(page, y, lines, rest);
      page' := DrawLines(AfterLine(page, y, lines[0]), y - LINE_HEIGHT, lines[1..], k - 1, rest);
      ShownSoFar(page.font, page.shown, y, lines, k);
    }
  }

  /** The strings as they were meant: the title, then at most forty-one lines. */
  function Intended(doc: Document, font: string): (shown: seq<Shown>)
    ensures |shown| == 1 + Min(|doc.lines|, 41)
    ensures shown[0] == Shown(font, 18, [1, 0, 0, 1, 56, 778], Sanitize(doc.title))
    ensures forall i :: 0 <= i < Min(|doc.lines|, 41) ==>
              && 742 - 18 * i > 0
              && shown[1 + i] == Shown(font, 11, [1, 0, 0, 1, 56, 742 - 18 * i], Sanitize(doc.lines[i]))
  {
    [Shown(font, TITLE_FONT_SIZE, [1, 0, 0, 1, MARGIN_LEFT, PAGE_HEIGHT - MARGIN_TOP], Sanitize(doc.title))]
    + LinesShown(font, 742, doc.lines, Min(|doc.lines|, 41))
  }

  lemma TitleDrawn(title: string, rest: string) returns (page: Page)
    ensures page == Page(true, "F1", TITLE_FONT_SIZE, [1, 0, 0, 1, 56, 778], [],
                         [Shown("F1", TITLE_FONT_SIZE, [1, 0, 0, 1, 56, 778], Sanitize(title))])
    ensures Draw(BlankPage(), "BT\n" + TitleText(title) + rest) == Draw(page, rest)
  {
    hide Draw, LineText, FontText, Sanitize;
    var s2 := LineText(778, title) + rest;
    var s1 := FontText(TITLE_FONT_SIZE) + s2;
    assert "BT\n" + TitleText(title) + rest == "BT" + (['\n'] + s1);
    DrawWord(BlankPage(), "BT", '\n', s1);
    var p0 := Page(true, "", 0, [1, 0, 0, 1, 0, 0], [], []);
    DrawFont(p0, TITLE_FONT_SIZE, s2);
    DrawLine(p0.(font := "F1", size := TITLE_FONT_SIZE), 778, title, rest);
    page := AfterLine(p0.(font := "F1", size := TITLE_FONT_SIZE), 778, title);
  }

  lemma ContentDrawn(doc: Document)
    ensures var page := Draw(BlankPage(), ContentStream(doc));
            page.Some? && !page.value.inText && page.value.shown == Intended(doc, "F1")
  {
    hide Draw, LineText, FontText, LinesText, Sanitize, TitleText, LinesShown;
    var lines := LinesText(742, doc.lines) + "ET";
    assert ContentStream(doc) == "BT\n" + TitleText(doc.title) + (FontText(BODY_FONT_SIZE) + lines);
    var p2 := TitleDrawn(doc.title, FontText(BODY_FONT_SIZE) + lines);
    DrawFont(p2, BODY_FONT_SIZE, lines);
    var p3 := DrawLines(p2.(font := "F1", size := BODY_FONT_SIZE), 742, doc.lines, Min(|doc.lines|, 41), "ET");
    EndDrawn(p3);
  }

  lemma EndDrawn(page: Page)
    requires page.inText && page.operands == []
    ensures Draw(page, "ET") == Some(page.(inText := false))
  {
    SpanOfRegular("ET", "");
    assert "ET" + "" == "ET" && "ET"[2..] == "";
    assert Lex("ET") == Next(Word("ET"), "");
    assert Lex("") == End;
  }

  /** Strings in one font, whose name is looked up for each of them. */
  lemma {:induction false} FontsResolved(file: string, leaf: Leaf, shown: seq<Shown>, name: string, font: string)
    requires ReadFont(file, leaf, name) == Some(font) && forall i :: 0 <= i < |shown| ==> shown[i].font == name
    ensures var r := InFonts(file, leaf, shown);
            r.Some? && |r.value| == |shown| && forall i :: 0 <= i < |shown| ==> r.value[i] == shown[i].(font := font)
  {
    hide ReadFont;
    if shown != [] { FontsResolved(file, leaf, shown[1..], name, font); }
  }

  lemma LineIntended(doc: Document, font: string, k: nat)
    requires k < Min(|doc.lines|, 41)
    ensures 742 - 18 * k > 0 && |Intended(doc, font)| == 1 + Min(|doc.lines|, 41)
    ensures Intended(doc, font)[1 + k] == Shown(font, 11, [1, 0, 0, 1, 56, 742 - 18 * k], Sanitize(doc.lines[k]))
  {
    hide Sanitize, Intended;
  }

  lemma IntendedInFont(doc: Document, name: string, font: string, shown: seq<Shown>)
    requires var named := Intended(doc, name);
             |shown| == |named| && forall i :: 0 <= i < |named| ==> shown[i] == named[i].(font := font)
    ensures shown == Intended(doc, font)
  {
    hide Intended, Sanitize;
    forall i | 0 <= i < |shown| ensures shown[i] == Intended(doc, font)[i] {
      if i > 0 {
        LineIntended(doc, name, i - 1);
        LineIntended(doc, font, i - 1);
      }
    }
  }

  lemma IntendedIsInFont(doc: Document, name: string)
    ensures forall i :: 0 <= i < |Intended(doc, name)| ==> Intended(doc, name)[i].font == name
  {
    hide Intended, Sanitize;
    forall i | 0 <= i < |Intended(doc, name)| ensures Intended(doc, name)[i].font == name {
      if i > 0 { LineIntended(doc, name, i - 1); }
    }
  }

  /** From document to bytes and back: a reader that knows only the file sees one
      page of A4 size, and on it the title and the first forty-one lines, each
      character of them or a question mark, all of them in Helvetica. */
  lemma RenderedPageReadsBack(doc: Document)
    ensures ReadPage(FileText(Objects(ContentStream(doc))))
         == Some(View(1, [0, 0, 595, 842], Intended(doc, "Helvetica")))
  {
    var content := ContentStream(doc);
    var file := FileText(Objects(content));
    hide ReadContent, ReadLeaf, ReadBox, ReadFont, InFonts, FileText, Objects, Draw, Intended, ContentStream, ReadTable;
    LeafRead(content);
    ContentRoundTrip(content);
    ContentDrawn(doc);
    BoxRead(ReadLeaf(file).value, content);
    FontRead(content);
    IntendedIsInFont(doc, "F1");
    FontsResolved(file, ReadLeaf(file).value, Intended(doc, "F1"), "F1", "Helvetica");
    IntendedInFont(doc, "F1", "Helvetica", InFonts(file, ReadLeaf(file).value, Intended(doc, "F1")).value);
  }

  /** Every string starts inside the page, and no two at one height. */
  lemma EverythingIsOnThePage(doc: Document, font: string, i: nat)
    requires i < |Intended(doc, font)|
    ensures var m := Intended(doc, font)[i].matrix;
            |m| == 6 && m[..4] == [1, 0, 0, 1] && 0 < m[4] < 595 && 0 < m[5] < 842
    ensures forall j :: 0 <= j < i ==> |Intended(doc, font)[j].matrix| == 6
                                       && Intended(doc, font)[j].matrix[5] > Intended(doc, font)[i].matrix[5]
  {
    hide Intended, Sanitize;
    if i > 0 { LineIntended(doc, font, i - 1); }
    forall j | 0 <= j < i
      ensures |Intended(doc, font)[j].matrix| == 6
      ensures Intended(doc, font)[j].matrix[5] > Intended(doc, font)[i].matrix[5]
    {
      if j > 0 { LineIntended(doc, font, j - 1); }
    }
  }
}
