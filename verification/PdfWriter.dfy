/** The one-page statement writer (internal/pdf/pdf.go): builders grown step by
    step, each proved to hold a text that is a function of the document. All text
    written is ASCII, so one character is one byte. */
module PdfWriter {
  import opened Decimal

  const PAGE_WIDTH: nat := 595
  const PAGE_HEIGHT: nat := 842
  const MARGIN_LEFT: nat := 56
  const MARGIN_TOP: nat := 64
  const TITLE_FONT_SIZE: nat := 18
  const BODY_FONT_SIZE: nat := 11
  const LINE_HEIGHT: nat := 18

  datatype Document = Document(title: string, lines: seq<string>)

  // ----- what is written -----

  function EscapeChar(c: char): string {
    if c == '(' || c == ')' || c == '\\' then ['\\', c]
    else if ' ' <= c < 127 as char then [c]
    else "?"
  }

  function EscapeText(s: string): string {
    if s == "" then "" else EscapeChar(s[0]) + EscapeText(s[1..])
  }

  function FontText(size: nat): string {
    "/F1 " + Digits(size) + " Tf\n"
  }

  function TitleText(title: string): string {
    FontText(TITLE_FONT_SIZE) + LineText(PAGE_HEIGHT - MARGIN_TOP, title)
  }

  function LineText(y: nat, line: string): string {
    "1 0 0 1 " + Digits(MARGIN_LEFT) + " " + Digits(y) + " Tm\n(" + EscapeText(line) + ") Tj\n"
  }

  /** Lines top-down from height y, until the page is full. */
  function LinesText(y: int, lines: seq<string>): string {
    if lines == [] || y < LINE_HEIGHT then ""
    else LineText(y, lines[0]) + LinesText(y - LINE_HEIGHT, lines[1..])
  }

  function ContentStream(doc: Document): string {
    "BT\n" + TitleText(doc.title) + FontText(BODY_FONT_SIZE)
    + LinesText(PAGE_HEIGHT - MARGIN_TOP - 2 * LINE_HEIGHT, doc.lines) + "ET"
  }

  function ObjectText(number: nat, body: string): string {
    Digits(number) + " 0 obj\n" + body + "\nendobj\n"
  }

  /** The header and the first n objects. */
  function Layout(objects: seq<string>, n: nat): string
    requires n <= |objects|
  {
    if n == 0 then "%PDF-1.4\n" else Layout(objects, n - 1) + ObjectText(n, objects[n - 1])
  }

  function EntryText(offset: nat): string {
    Padded(offset, 10) + " 00000 n \n"
  }

  function EntriesText(offsets: seq<nat>): string {
    if offsets == [] then "" else EntriesText(offsets[..|offsets| - 1]) + EntryText(offsets[|offsets| - 1])
  }

  function Offsets(objects: seq<string>, n: nat): (offsets: seq<nat>)
    requires n <= |objects|
    ensures |offsets| == n && forall i :: 0 <= i < n ==> offsets[i] == |Layout(objects, i)|
  {
    seq(n, i requires 0 <= i < n => |Layout(objects, i)|)
  }

  /** The head of the free list. */
  const FREE_HEAD := "0000000000 65535 f \n"

  function XrefText(offsets: seq<nat>): string {
    "xref\n0 " + Digits(|offsets| + 1) + "\n" + FREE_HEAD + EntriesText(offsets)
  }

  function TrailerText(size: nat, xrefOffset: nat): string {
    "trailer\n<< /Size " + Digits(size) + " /Root 1 0 R >>\nstartxref\n" + Digits(xrefOffset) + "\n%%EOF\n"
  }

  function FileText(objects: seq<string>): string {
    var body := Layout(objects, |objects|);
    body + XrefText(Offsets(objects, |objects|)) + TrailerText(|objects| + 1, |body|)
  }

  function StreamBody(content: string): string {
    "<< /Length " + Digits(|content|) + " >>\nstream\n" + content + "\nendstream"
  }

  const CATALOG_HEAD := "<< /Type /Catalog "
  const CATALOG_PAGES := "/Pages 2 0 R >>"
  const PAGES_HEAD := "<< /Type /Pages "
  const PAGES_KIDS := "/Kids [3 0 R] /Count 1 >>"
  const PAGE_HEAD := "<< /Type /Page "
  const PAGE_PARENT := "/Parent 2 0 R "
  const PAGE_BOX := "/MediaBox [0 0 "
  const PAGE_RESOURCES := "] /Resources <<"
  const PAGE_FONTS := " /Font <<"
  const PAGE_FONT := " /F1 4 0 R "
  const PAGE_FONTS_END := ">> >> "
  const PAGE_CONTENTS := "/Contents 5 0 R >>"
  const FONT_HEAD := "<< /Type /Font "
  const FONT_SUBTYPE := "/Subtype /Type1 "
  const FONT_BASE := "/BaseFont /Helvetica >>"

  function Objects(content: string): (objects: seq<string>)
    ensures |objects| == 5
  {
    [ CATALOG_HEAD + CATALOG_PAGES,
      PAGES_HEAD + PAGES_KIDS,
      PAGE_HEAD + PAGE_PARENT + PAGE_BOX + Digits(PAGE_WIDTH) + " " + Digits(PAGE_HEIGHT)
      + PAGE_RESOURCES + PAGE_FONTS + PAGE_FONT + PAGE_FONTS_END + PAGE_CONTENTS,
      FONT_HEAD + FONT_SUBTYPE + FONT_BASE,
      StreamBody(content) ]
  }

  // ----- how it is written -----

  lemma {:induction false} EscapeTextAppend(s: string, c: char)
    ensures EscapeText(s + [c]) == EscapeText(s) + EscapeChar(c)
  {
    if s == "" {
      assert s + [c] == [c];
    } else {
      EscapeTextAppend(s[1..], c);
      assert (s + [c])[1..] == s[1..] + [c];
    }
  }

  method WriteEscaped(s: string) returns (b: string)
    ensures b == EscapeText(s)
  {
    b := "";
    for i := 0 to |s|
      invariant b == EscapeText(s[..i])
    {
      var r := s[i];
      EscapeTextAppend(s[..i], r);
      assert s[..i + 1] == s[..i] + [r];
      if r == '(' || r == ')' || r == '\\' {
        b := b + "\\";
        b := b + [r];
        assert EscapeChar(r) == "\\" + [r];
      } else if ' ' <= r < 127 as char {
        b := b + [r];
      } else {
        b := b + "?";
      }
    }
    assert s[..|s|] == s;
  }

  method BuildContentStream(doc: Document) returns (b: string)
    ensures b == ContentStream(doc)
  {
    hide EscapeText, Digits;
    var y: int := PAGE_HEIGHT - MARGIN_TOP;
    var text := WriteEscaped(doc.title);
    b := "BT\n";
    b := b + ("/F1 " + Digits(TITLE_FONT_SIZE) + " Tf\n"
              + ("1 0 0 1 " + Digits(MARGIN_LEFT) + " " + Digits(y) + " Tm\n(" + text + ") Tj\n"));
    y := y - LINE_HEIGHT * 2;
    b := b + ("/F1 " + Digits(BODY_FONT_SIZE) + " Tf\n");
    ghost var start := b;
    assert start == "BT\n" + TitleText(doc.title) + FontText(BODY_FONT_SIZE);
    ghost var all := LinesText(y, doc.lines);
    var i := 0;
    assert doc.lines[0..] == doc.lines;
    while i < |doc.lines|
      invariant 0 <= i <= |doc.lines|
      invariant b + LinesText(y, doc.lines[i..]) == start + all
    {
      if y < LINE_HEIGHT { break; }
      var line := WriteEscaped(doc.lines[i]);
      assert doc.lines[i..][1..] == doc.lines[i + 1..];
      ghost var was := b;
      b := b + ("1 0 0 1 " + Digits(MARGIN_LEFT) + " " + Digits(y) + " Tm\n(" + line + ") Tj\n");
      assert b == was + LineText(y, doc.lines[i]);
      assert (was + LineText(y, doc.lines[i])) + LinesText(y - LINE_HEIGHT, doc.lines[i + 1..])
          == was + (LineText(y, doc.lines[i]) + LinesText(y - LINE_HEIGHT, doc.lines[i + 1..]));
      y := y - LINE_HEIGHT;
      i := i + 1;
    }
    assert LinesText(y, doc.lines[i..]) == "" && b == start + all;
    b := b + "ET";
  }

  /** The objects one after the other, and where each of them starts. */
  method WriteObjects(objects: seq<string>, offsets: array<nat>) returns (out: string)
    requires offsets.Length == |objects|
    modifies offsets
    ensures out == Layout(objects, |objects|) && offsets[..] == Offsets(objects, |objects|)
  {
    hide Digits;
    out := "%PDF-1.4\n";
    for i := 0 to |objects|
      invariant out == Layout(objects, i)
      invariant offsets[..i] == Offsets(objects, i)
    {
      offsets[i] := |out|;
      out := out + (Digits(i + 1) + " 0 obj\n" + objects[i] + "\nendobj\n");
      assert offsets[..i + 1] == offsets[..i] + [|Layout(objects, i)|];
      assert Offsets(objects, i + 1) == Offsets(objects, i) + [|Layout(objects, i)|];
    }
    assert offsets[..] == offsets[..|objects|];
  }

  /** The cross-reference table, one twenty-byte line after the other. */
  method WriteXref(offsets: array<nat>) returns (out: string)
    ensures out == XrefText(offsets[..])
  {
    hide Digits, Padded, FREE_HEAD;
    out := "xref\n0 " + Digits(offsets.Length + 1) + "\n";
    out := out + FREE_HEAD;
    ghost var head := out;
    for i := 0 to offsets.Length
      invariant out == head + EntriesText(offsets[..i])
    {
      ghost var was := out;
      out := out + (Padded(offsets[i], 10) + " 00000 n \n");
      assert offsets[..i + 1][..i] == offsets[..i];
      assert EntriesText(offsets[..i + 1]) == EntriesText(offsets[..i]) + EntryText(offsets[i]);
      assert (head + EntriesText(offsets[..i])) + EntryText(offsets[i])
          == head + (EntriesText(offsets[..i]) + EntryText(offsets[i]));
    }
    assert offsets[..] == offsets[..offsets.Length];
    assert head == "xref\n0 " + Digits(|offsets[..]| + 1) + "\n" + FREE_HEAD;
  }

  method Render(doc: Document) returns (out: string)
    ensures out == FileText(Objects(ContentStream(doc)))
  {
    hide Layout, ContentStream, XrefText;
    var content := BuildContentStream(doc);
    var objects := Objects(content);
    var offsets := new nat[|objects|];
    out := WriteObjects(objects, offsets);
    var xrefOffset := |out|;
    var table := WriteXref(offsets);
    out := out + table;
    out := out + ("trailer\n<< /Size " + Digits(|objects| + 1) + " /Root 1 0 R >>\nstartxref\n"
                  + Digits(xrefOffset) + "\n%%EOF\n");
  }
}
