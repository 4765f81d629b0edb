/** A reader for simple PDF files, written from ISO 32000-1 and not from the
    writer: the file structure (sections 7.5.2, 7.5.4 and 7.5.5), the way from the
    catalogue to the first page (7.7.2, 7.7.3), its rectangle and its fonts (7.8.3,
    9.6.2), stream objects (7.3.8), literal strings (7.3.4.2), and the text
    operators of a content stream. */
module PdfReader {
  import opened Wrappers
  import opened Decimal

  // ----- file structure -----

  function Expect(s: string, prefix: string): Option<string> {
    if prefix <= s then Some(s[|prefix|..]) else None
  }

  function StartsAt(file: string, p: nat, key: string): bool
    requires p <= |file|
  {
    key <= file[p..]
  }

  /** The last place at or before p where the keyword stands. */
  function LastIndex(file: string, key: string, p: nat): (r: Option<nat>)
    requires p <= |file|
    ensures r.Some? ==> r.value <= p && StartsAt(file, r.value, key)
  {
    if StartsAt(file, p, key) then Some(p)
    else if p == 0 then None
    else LastIndex(file, key, p - 1)
  }

  /** Section 7.5.5: the offset after the last startxref, then the end marker. */
  function ReadStartXref(file: string): Option<nat> {
    var at := LastIndex(file, "startxref", |file|);
    if at == None then None
    else
      var rest := Expect(file[at.value..], "startxref\n");
      if rest == None then None
      else
        var number := ReadNat(rest.value);
        if number == None || Expect(number.value.1, "\n%%EOF") == None then None
        else Some(number.value.0)
  }

  datatype Entry = Entry(offset: nat, generation: nat, inUse: bool)

  /** Section 7.5.4: exactly twenty bytes, ten digits of offset, five of generation,
      the keyword n or f, and a two-byte end of line. */
  function ReadEntry(s: string): Option<(Entry, string)> {
    if |s| < 20 || !AllDigits(s[..10]) || s[10] != ' ' || !AllDigits(s[11..16]) || s[16] != ' '
       || (s[17] != 'n' && s[17] != 'f') || s[18..20] !in {" \n", " \r", "\r\n"} then None
    else Some((Entry(Value(s[..10]), Value(s[11..16]), s[17] == 'n'), s[20..]))
  }

  function ReadEntries(s: string, n: nat): Option<(seq<Entry>, string)> {
    if n == 0 then Some(([], s))
    else
      var first := ReadEntry(s);
      if first == None then None
      else
        var others := ReadEntries(first.value.1, n - 1);
        if others == None then None else Some(([first.value.0] + others.value.0, others.value.1))
  }

  datatype XrefTable = XrefTable(entries: seq<Entry>, root: nat)

  /** One cross-reference section starting at object 0, then the trailer, whose
      size must be the number of entries and which names the document catalogue. */
  function ReadXref(s: string): Option<XrefTable> {
    var start := Expect(s, "xref\n0 ");
    if start == None then None
    else
      var count := ReadNat(start.value);
      if count == None then None
      else
        var lines := Expect(count.value.1, "\n");
        if lines == None then None
        else
          var entries := ReadEntries(lines.value, count.value.0);
          if entries == None then None
          else
            var trailer := Expect(entries.value.1, "trailer\n<< /Size ");
            if trailer == None then None
            else
              var size := ReadNat(trailer.value);
              if size == None || size.value.0 != count.value.0 then None
              else
                var root := ReadRoot(size.value.1);
                if root == None then None else Some(XrefTable(entries.value.0, root.value))
  }

  function ReadRoot(s: string): Option<nat> {
    var entry := Expect(s, " /Root ");
    if entry == None then None
    else
      var root := ReadNat(entry.value);
      if root == None || Expect(root.value.1, " 0 R >>\n") == None then None else Some(root.value.0)
  }

  function ReadTable(file: string): Option<XrefTable> {
    var at := ReadStartXref(file);
    if at == None || at.value > |file| then None else ReadXref(file[at.value..])
  }

  /** What follows "number 0 obj" at the place its table entry names. */
  function ReadObject(file: string, table: seq<Entry>, number: nat): Option<string> {
    if number >= |table| || !table[number].inUse || table[number].generation != 0
      || table[number].offset > |file| then None
    else
      var found := ReadNat(file[table[number].offset..]);
      if found == None || found.value.0 != number then None else Expect(found.value.1, " 0 obj\n")
  }

  /** Section 7.3.8: the stream data is exactly the Length bytes after the keyword,
      and must be followed by endstream. */
  function ReadStream(s: string): Option<string> {
    var dict := Expect(s, "<< /Length ");
    if dict == None then None
    else
      var length := ReadNat(dict.value);
      if length == None then None
      else
        var data := Expect(length.value.1, " >>\nstream\n");
        if data == None || |data.value| < length.value.0 then None
        else if Expect(data.value[length.value.0..], "\nendstream\nendobj\n") == None then None
        else Some(data.value[..length.value.0])
  }

  // ----- dictionaries -----

  function UpTo(s: string, key: string): Option<string> {
    if key <= s then Some("")
    else if s == "" then None
    else
      var r := UpTo(s[1..], key);
      if r == None then None else Some([s[0]] + r.value)
  }

  /** What follows the first occurrence of the key in a dictionary. */
  function Lookup(dict: string, key: string): Option<string> {
    if key <= dict then Some(dict[|key|..]) else if dict == "" then None else Lookup(dict[1..], key)
  }

  /** Section 7.3.10: the value of a key that is an indirect reference. */
  function Reference(dict: string, key: string): Option<nat> {
    var value := Lookup(dict, key);
    if value == None then None
    else
      var number := ReadNat(value.value);
      if number == None || Expect(number.value.1, " 0 R") == None then None else Some(number.value.0)
  }

  function NumberUnder(dict: string, key: string): Option<nat> {
    var value := Lookup(dict, key);
    if value == None then None
    else
      var number := ReadNat(value.value);
      if number == None then None else Some(number.value.0)
  }

  /** Section 7.3.5: the value of a key that is a name. */
  function NameUnder(dict: string, key: string): Option<string> {
    var value := Lookup(dict, key);
    if value == None || value.value == "" || value.value[0] != '/' then None
    else Some(value.value[1..1 + Span(value.value[1..])])
  }

  /** The dictionary that is object `number`, if it is of this type. */
  function Dictionary(file: string, table: seq<Entry>, number: nat, kind: string): Option<string> {
    var body := ReadObject(file, table, number);
    if body == None then None
    else
      var dict := UpTo(body.value, "\nendobj");
      if dict == None || NameUnder(dict.value, "/Type ") != Some(kind) then None else dict
  }

  // ----- from the catalogue to the page, sections 7.5.2, 7.7.2 and 7.7.3 -----

  /** A page: its dictionary, how many pages there are, and the table it was found by. */
  datatype Leaf = Leaf(table: seq<Entry>, dict: string, pages: nat)

  /** The first page: header, catalogue, page tree, and the kid, which must name the
      page tree as its parent. */
  function ReadLeaf(file: string): Option<Leaf> {
    var found := ReadTable(file);
    if found == None || Expect(file, "%PDF-1.") == None then None
    else
      var table := found.value.entries;
      var catalog := Dictionary(file, table, found.value.root, "Catalog");
      var tree := if catalog == None then None else Reference(catalog.value, "/Pages ");
      if tree == None then None else ReadKid(file, table, tree.value)
  }

  function ReadKid(file: string, table: seq<Entry>, tree: nat): Option<Leaf> {
    var pages := Dictionary(file, table, tree, "Pages");
    if pages == None then None
    else
      var count, kid := NumberUnder(pages.value, "/Count "), Reference(pages.value, "/Kids [");
      if count == None || kid == None then None
      else
        var dict := Dictionary(file, table, kid.value, "Page");
        if dict == None || Reference(dict.value, "/Parent ") != Some(tree) then None
        else Some(Leaf(table, dict.value, count.value))
  }

  function ReadContent(file: string, leaf: Leaf): Option<string> {
    var contents := Reference(leaf.dict, "/Contents ");
    if contents == None then None
    else
      var body := ReadObject(file, leaf.table, contents.value);
      if body == None then None else ReadStream(body.value)
  }

  /** Numbers with a space between them, up to a closing bracket. */
  function ReadNumbers(s: string, n: nat): Option<seq<nat>> {
    var number := ReadNat(s);
    if n == 0 || number == None then None
    else if n == 1 then (if Expect(number.value.1, "]") == None then None else Some([number.value.0]))
    else
      var rest := Expect(number.value.1, " ");
      var others := if rest == None then None else ReadNumbers(rest.value, n - 1);
      if others == None then None else Some([number.value.0] + others.value)
  }

  /** Sections 7.7.3.3 and 7.9.5: the page's rectangle, from its lower left corner to
      its upper right one. */
  function ReadBox(leaf: Leaf): Option<seq<nat>> {
    var value := Lookup(leaf.dict, "/MediaBox [");
    if value == None then None else ReadNumbers(value.value, 4)
  }

  /** Sections 7.8.3 and 9.6.2: the base font of the Type 1 font that the page's
      resources have under a name. */
  function ReadFont(file: string, leaf: Leaf, name: string): Option<string> {
    var resources := Lookup(leaf.dict, "/Resources <<");
    var entries := if resources == None then None else Lookup(resources.value, "/Font <<");
    var fonts := if entries == None then None else UpTo(entries.value, ">>");
    var number := if fonts == None then None else Reference(fonts.value, "/" + name + " ");
    if number == None then None
    else
      var font := Dictionary(file, leaf.table, number.value, "Font");
      if font == None || NameUnder(font.value, "/Subtype ") != Some("Type1") then None
      else NameUnder(font.value, "/BaseFont ")
  }

  // ----- literal strings, section 7.3.4.2 -----

  predicate IsOctal(c: char) { '0' <= c <= '7' }

  /** How many octal digits, at most three, stand at the front. */
  function OctalSpan(s: string): (k: nat)
    ensures k <= 3 && k <= |s|
  {
    if s == "" || !IsOctal(s[0]) then 0
    else if |s| == 1 || !IsOctal(s[1]) then 1
    else if |s| == 2 || !IsOctal(s[2]) then 2
    else 3
  }

  /** High-order overflow is ignored. */
  function OctalValue(s: string): (v: nat)
    ensures v < 256
  {
    if s == "" then 0
    else (8 * OctalValue(s[..|s| - 1]) + (if s[|s| - 1] >= '0' then (s[|s| - 1] as int - '0' as int) else 0)) % 256
  }

  /** What an escape sequence, after its backslash, stands for. */
  function ReadEscape(s: string): (r: (string, string))
    requires s != ""
    ensures |r.1| < |s|
  {
    var c := s[0];
    if c == 'n' then ("\n", s[1..])
    else if c == 'r' then ("\r", s[1..])
    else if c == 't' then ("\t", s[1..])
    else if c == 'b' then ([8 as char], s[1..])
    else if c == 'f' then ([12 as char], s[1..])
    else if c == '\n' then ("", s[1..])
    else if c == '\r' then ("", if |s| > 1 && s[1] == '\n' then s[2..] else s[1..])
    else if IsOctal(c) then ([OctalValue(s[..OctalSpan(s)]) as char], s[OctalSpan(s)..])
    else ([c], s[1..])
  }

  function Prepend(head: string, r: Option<(string, string)>): Option<(string, string)> {
    if r == None then None else Some((head + r.value.0, r.value.1))
  }

  /** The text of a literal string up to its closing parenthesis, and what follows.
      Balanced parentheses belong to the text; any end of line reads as a line feed. */
  function ReadLiteral(s: string, depth: nat): (r: Option<(string, string)>)
    ensures r.Some? ==> |r.value.1| < |s|
    decreases |s|
  {
    if s == "" then None
    else if s[0] == '\\' then
      if |s| == 1 then None
      else
        var e := ReadEscape(s[1..]);
        Prepend(e.0, ReadLiteral(e.1, depth))
    else if s[0] == '(' then Prepend("(", ReadLiteral(s[1..], depth + 1))
    else if s[0] == ')' then
      if depth == 0 then Some(("", s[1..])) else Prepend(")", ReadLiteral(s[1..], depth - 1))
    else if s[0] == '\r' then Prepend("\n", ReadLiteral(if |s| > 1 && s[1] == '\n' then s[2..] else s[1..], depth))
    else Prepend([s[0]], ReadLiteral(s[1..], depth))
  }

  // ----- content streams -----

  datatype Token = Word(w: string) | Name(n: string) | Text(t: string)

  datatype Lexeme = End | Bad | Next(token: Token, rest: string)

  predicate IsWhite(c: char) { c == 0 as char || c == '\t' || c == '\n' || c == 12 as char || c == '\r' || c == ' ' }

  predicate IsRegular(c: char) { !IsWhite(c) && c !in {'(', ')', '<', '>', '[', ']', '{', '}', '/', '%'} }

  function Span(s: string): (k: nat)
    ensures k <= |s| && (forall i :: 0 <= i < k ==> IsRegular(s[i])) && (k < |s| ==> !IsRegular(s[k]))
  {
    if s == "" || !IsRegular(s[0]) then 0 else 1 + Span(s[1..])
  }

  /** The next token: a name, a literal string, or a word of regular characters. */
  function Lex(s: string): (r: Lexeme)
    ensures r.Next? ==> |r.rest| < |s|
    decreases |s|
  {
    if s == "" then End
    else if IsWhite(s[0]) then Lex(s[1..])
    else if s[0] == '(' then
      var text := ReadLiteral(s[1..], 0);
      if text == None then Bad else Next(Text(text.value.0), text.value.1)
    else if s[0] == '/' then
      var k := Span(s[1..]);
      Next(Name(s[1..1 + k]), s[1 + k..])
    else
      var k := Span(s);
      if k == 0 then Bad else Next(Word(s[..k]), s[k..])
  }

  datatype Operand = Number(v: nat) | NameOperand(n: string) | TextOperand(t: string)

  /** A string as shown: the font, its size and the text matrix in force. */
  datatype Shown = Shown(font: string, size: nat, matrix: seq<nat>, text: string)

  datatype Page = Page(inText: bool, font: string, size: nat, matrix: seq<nat>, operands: seq<Operand>,
                       shown: seq<Shown>)

  function BlankPage(): Page { Page(false, "", 0, [], [], []) }

  function Numbers(operands: seq<Operand>): Option<seq<nat>> {
    if operands == [] then Some([])
    else
      var rest := Numbers(operands[1..]);
      if rest == None || !operands[0].Number? then None else Some([operands[0].v] + rest.value)
  }

  /** One token: an operand is kept, an operator consumes the operands. */
  function Execute(page: Page, token: Token): Option<Page> {
    match token
    case Name(n) => Some(page.(operands := page.operands + [NameOperand(n)]))
    case Text(t) => Some(page.(operands := page.operands + [TextOperand(t)]))
    case Word(w) =>
      if w != "" && AllDigits(w) then Some(page.(operands := page.operands + [Number(Value(w))]))
      else if w == "BT" then
        if page.inText || page.operands != [] then None else Some(page.(inText := true, matrix := [1, 0, 0, 1, 0, 0]))
      else if w == "ET" then
        if !page.inText || page.operands != [] then None else Some(page.(inText := false))
      else if w == "Tf" then
        if |page.operands| != 2 || !page.operands[0].NameOperand? || !page.operands[1].Number? then None
        else Some(page.(font := page.operands[0].n, size := page.operands[1].v, operands := []))
      else if w == "Tm" then
        var numbers := Numbers(page.operands);
        if !page.inText || numbers == None || |numbers.value| != 6 then None
        else Some(page.(matrix := numbers.value, operands := []))
      else if w == "Tj" then
        if !page.inText || |page.operands| != 1 || !page.operands[0].TextOperand? then None
        else
          var seen := Shown(page.font, page.size, page.matrix, page.operands[0].t);
          Some(page.(shown := page.shown + [seen], operands := []))
      else None
  }

  function Draw(page: Page, s: string): Option<Page>
    decreases |s|
  {
    match Lex(s)
    case End => Some(page)
    case Bad => None
    case Next(token, rest) =>
      var page' := Execute(page, token);
      if page' == None then None else Draw(page'.value, rest)
  }

  /** The strings with the fonts that their names stand for. */
  function InFonts(file: string, leaf: Leaf, shown: seq<Shown>): Option<seq<Shown>> {
    if shown == [] then Some([])
    else
      var font, rest := ReadFont(file, leaf, shown[0].font), InFonts(file, leaf, shown[1..]);
      if font == None || rest == None then None else Some([shown[0].(font := font.value)] + rest.value)
  }

  /** A document as seen: how many pages there are, the size of the first one, and
      the strings on it. */
  datatype View = View(pages: nat, box: seq<nat>, shown: seq<Shown>)

  /** What a person opening the file sees on its first page. */
  function ReadPage(file: string): Option<View> {
    var leaf := ReadLeaf(file);
    var content := if leaf == None then None else ReadContent(file, leaf.value);
    if content == None then None
    else
      var page, box := Draw(BlankPage(), content.value), ReadBox(leaf.value);
      if page == None || page.value.inText || box == None then None
      else
        var shown := InFonts(file, leaf.value, page.value.shown);
        if shown == None then None else Some(View(leaf.value.pages, box.value, shown.value))
  }
}
