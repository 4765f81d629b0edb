/** Writer and reader undo each other: the file structure, the stream, and the
    text. */
module PdfRoundTrip {
  import opened Wrappers
  import opened Decimal
  import opened PdfWriter
  import opened PdfReader

  lemma ExpectPrefix(prefix: string, rest: string)
    ensures Expect(prefix + rest, prefix) == Some(rest)
  {
    assert (prefix + rest)[|prefix|..] == rest;
  }

  lemma {:induction false} LastIndexFound(file: string, key: string, at: nat, p: nat)
    requires at <= p <= |file| && StartsAt(file, at, key)
    requires forall q: nat :: at < q <= |file| ==> !StartsAt(file, q, key)
    ensures LastIndex(file, key, p) == Some(at)
  {
    if p > at { LastIndexFound(file, key, at, p - 1); }
  }

  // ----- startxref -----

  function TailText(xrefOffset: nat): string {
    "startxref\n" + Digits(xrefOffset) + "\n%%EOF\n"
  }

  /** The keyword does not occur again inside itself, the digits or the end marker:
      its first letter does not. */
  lemma TailHasNoOtherS(n: nat, q: nat)
    requires 0 < q < |TailText(n)|
    ensures TailText(n)[q] != 's'
  {
    var t := TailText(n);
    if 10 <= q < 10 + |Digits(n)| { assert t[q] == Digits(n)[q - 10]; }
  }

  lemma StartXrefFound(before: string, n: nat)
    ensures ReadStartXref(before + TailText(n)) == Some(n)
  {
    var file := before + TailText(n);
    assert file[|before|..] == TailText(n);
    assert "startxref" <= TailText(n);
    assert StartsAt(file, |before|, "startxref");
    forall q: nat | |before| < q <= |file| ensures !StartsAt(file, q, "startxref") {
      if StartsAt(file, q, "startxref") {
        assert file[q..][0] == 's';
        assert file[q] == TailText(n)[q - |before|];
        TailHasNoOtherS(n, q - |before|);
      }
    }
    LastIndexFound(file, "startxref", |before|, |file|);
    assert TailText(n) == "startxref\n" + (Digits(n) + "\n%%EOF\n");
    ExpectPrefix("startxref\n", Digits(n) + "\n%%EOF\n");
    ReadDigits(n, "\n%%EOF\n");
    assert "\n%%EOF" <= "\n%%EOF\n";
  }

  // ----- the table -----

  lemma EntryRead(offset: nat, rest: string)
    requires offset < Pow10(10)
    ensures ReadEntry(EntryText(offset) + rest) == Some((Entry(offset, 0, true), rest))
  {
    DigitsLength(offset, 10);
    ValueOfPadded(offset, 10);
    ValueOfZeros(5, "");
    FiveZeros();
    hide Digits, Padded, Zeros, Value, Pow10;
    var s, tail := EntryText(offset) + rest, " 00000 n \n";
    assert |tail| == 10 && |s| >= 20;
    assert s[..10] == Padded(offset, 10);
    assert forall i :: 0 <= i < 10 ==> s[10 + i] == tail[i];
    assert tail[1..6] == "00000" && tail[8..] == " \n";
    assert s[11..16] == tail[1..6] && s[18..20] == tail[8..];
    assert s[20..] == rest;
  }

  lemma FiveZeros()
    ensures Zeros(5) + "" == "00000"
  { }

  function InUse(offsets: seq<nat>): (entries: seq<Entry>)
    ensures |entries| == |offsets| && forall i :: 0 <= i < |offsets| ==> entries[i] == Entry(offsets[i], 0, true)
  {
    seq(|offsets|, i requires 0 <= i < |offsets| => Entry(offsets[i], 0, true))
  }

  /** Entry 0 heads the free list; the others are the objects. */
  function Table(offsets: seq<nat>): seq<Entry> {
    [Entry(0, 65535, false)] + InUse(offsets)
  }

  lemma {:induction false} EntriesFromFront(offset: nat, offsets: seq<nat>)
    ensures EntriesText([offset] + offsets) == EntryText(offset) + EntriesText(offsets)
  {
    hide EntryText;
    var all := [offset] + offsets;
    if offsets == [] {
      assert all[..|all| - 1] == [];
    } else {
      EntriesFromFront(offset, offsets[..|offsets| - 1]);
      assert all[..|all| - 1] == [offset] + offsets[..|offsets| - 1];
    }
  }

  lemma FirstEntry(offsets: seq<nat>, rest: string)
    ensures EntriesText(offsets) + rest
         == if offsets == [] then rest else EntryText(offsets[0]) + (EntriesText(offsets[1..]) + rest)
  {
    hide EntryText;
    if offsets == [] {
      assert EntriesText(offsets) + rest == rest;
    } else {
      hide EntriesText;
      assert [offsets[0]] + offsets[1..] == offsets;
      EntriesFromFront(offsets[0], offsets[1..]);
      Associate(EntryText(offsets[0]), EntriesText(offsets[1..]), rest);
    }
  }

  lemma FirstInUse(offsets: seq<nat>)
    ensures InUse(offsets) == if offsets == [] then [] else [Entry(offsets[0], 0, true)] + InUse(offsets[1..])
  {
    hide InUse;
    if offsets != [] {
      var all, parts := InUse(offsets), [Entry(offsets[0], 0, true)] + InUse(offsets[1..]);
      forall i | 0 <= i < |all| ensures all[i] == parts[i] {
        if i > 0 { assert offsets[1..][i - 1] == offsets[i]; }
      }
      assert all == parts;
    }
  }

  lemma {:induction false} EntriesRead(offsets: seq<nat>, rest: string)
    requires forall i :: 0 <= i < |offsets| ==> offsets[i] < Pow10(10)
    ensures ReadEntries(EntriesText(offsets) + rest, |offsets|) == Some((InUse(offsets), rest))
  {
    hide EntryText, Pow10, ReadEntry, EntriesText, InUse;
    FirstEntry(offsets, rest);
    FirstInUse(offsets);
    if offsets != [] {
      EntryRead(offsets[0], EntriesText(offsets[1..]) + rest);
      EntriesRead(offsets[1..], rest);
    }
  }

  lemma FreeHeadParts()
    ensures |FREE_HEAD| == 20 && FREE_HEAD[..10] == Zeros(10) + "" && FREE_HEAD[11..16] == Digits(65535)
    ensures FREE_HEAD[10] == ' ' && FREE_HEAD[16] == ' ' && FREE_HEAD[17] == 'f' && FREE_HEAD[18..20] == " \n"
  {
    GreatestGeneration();
    hide Digits;
    assert FREE_HEAD[..10] == "0000000000" == Zeros(10);
    assert FREE_HEAD[11..16] == "65535";
  }

  lemma GreatestGeneration()
    ensures Digits(65535) == "65535"
  { }

  lemma FreeHeadRead(rest: string)
    ensures ReadEntry(FREE_HEAD + rest) == Some((Entry(0, 65535, false), rest))
  {
    FreeHeadParts();
    ValueOfZeros(10, "");
    ValueOfDigits(65535);
    hide FREE_HEAD, Digits, Zeros, Value;
    var s := FREE_HEAD + rest;
    assert s[..10] == FREE_HEAD[..10] && s[11..16] == FREE_HEAD[11..16] && s[18..20] == FREE_HEAD[18..20];
    assert s[20..] == rest;
  }

  lemma TableRead(offsets: seq<nat>, rest: string)
    requires forall i :: 0 <= i < |offsets| ==> offsets[i] < Pow10(10)
    ensures ReadEntries(FREE_HEAD + EntriesText(offsets) + rest, |offsets| + 1) == Some((Table(offsets), rest))
  {
    hide Pow10, ReadEntry, EntriesText;
    assert FREE_HEAD + EntriesText(offsets) + rest == FREE_HEAD + (EntriesText(offsets) + rest);
    FreeHeadRead(EntriesText(offsets) + rest);
    EntriesRead(offsets, rest);
  }

  lemma RootRead(rest: string)
    ensures ReadRoot(" /Root 1 0 R >>\n" + rest) == Some(1)
  {
    hide ReadNat;
    assert " /Root 1 0 R >>\n" + rest == " /Root " + (Digits(1) + (" 0 R >>\n" + rest));
    ExpectPrefix(" /Root ", Digits(1) + (" 0 R >>\n" + rest));
    ReadDigits(1, " 0 R >>\n" + rest);
    ExpectPrefix(" 0 R >>\n", rest);
  }

  lemma TrailerRead(size: nat, rest: string)
    ensures var s := "trailer\n<< /Size " + Digits(size) + " /Root 1 0 R >>\n" + rest;
            && Expect(s, "trailer\n<< /Size ") == Some(Digits(size) + (" /Root 1 0 R >>\n" + rest))
            && ReadNat(Digits(size) + (" /Root 1 0 R >>\n" + rest)) == Some((size, " /Root 1 0 R >>\n" + rest))
            && ReadRoot(" /Root 1 0 R >>\n" + rest) == Some(1)
  {
    hide Digits, ReadNat, ReadRoot;
    var s := "trailer\n<< /Size " + Digits(size) + " /Root 1 0 R >>\n" + rest;
    assert s == "trailer\n<< /Size " + (Digits(size) + (" /Root 1 0 R >>\n" + rest));
    ExpectPrefix("trailer\n<< /Size ", Digits(size) + (" /Root 1 0 R >>\n" + rest));
    ReadDigits(size, " /Root 1 0 R >>\n" + rest);
    RootRead(rest);
  }

  lemma XrefSplits(offsets: seq<nat>, rest: string)
    ensures XrefText(offsets) + rest
            == "xref\n0 " + (Digits(|offsets| + 1) + ("\n" + (FREE_HEAD + EntriesText(offsets) + rest)))
  {
    hide Digits, EntriesText, FREE_HEAD;
    Regroup("xref\n0 ", Digits(|offsets| + 1), "\n", FREE_HEAD, EntriesText(offsets), rest);
  }

  lemma Regroup(a: string, b: string, c: string, d: string, e: string, f: string)
    ensures a + b + c + d + e + f == a + (b + (c + (d + e + f)))
  {
    assert a + b + c + d + e + f == a + (b + (c + (d + e + f)));
  }

  lemma XrefRead(offsets: seq<nat>, rest: string)
    requires forall i :: 0 <= i < |offsets| ==> offsets[i] < Pow10(10)
    ensures var n := |offsets| + 1;
            ReadXref(XrefText(offsets) + ("trailer\n<< /Size " + Digits(n) + " /Root 1 0 R >>\n" + rest))
              == Some(XrefTable(Table(offsets), 1))
  {
    hide Digits, ReadNat, EntriesText, ReadEntries, Pow10, Expect, XrefText, FREE_HEAD, ReadRoot;
    var n := |offsets| + 1;
    var trailer := "trailer\n<< /Size " + Digits(n) + " /Root 1 0 R >>\n" + rest;
    var lines := FREE_HEAD + EntriesText(offsets) + trailer;
    XrefSplits(offsets, trailer);
    ExpectPrefix("xref\n0 ", Digits(n) + ("\n" + lines));
    ReadDigits(n, "\n" + lines);
    ExpectPrefix("\n", lines);
    TableRead(offsets, trailer);
    TrailerRead(n, rest);
  }

  // ----- the objects -----

  /** Objects i+1 to n. */
  function Between(objects: seq<string>, i: nat, n: nat): string
    requires i <= n <= |objects|
    decreases n - i
  {
    if i == n then "" else ObjectText(i + 1, objects[i]) + Between(objects, i + 1, n)
  }

  lemma {:induction false} LayoutSplits(objects: seq<string>, i: nat, n: nat)
    requires i <= n <= |objects|
    ensures Layout(objects, n) == Layout(objects, i) + Between(objects, i, n)
    decreases n - i
  {
    hide ObjectText;
    if i < n {
      LayoutSplits(objects, i + 1, n);
      assert (Layout(objects, i) + ObjectText(i + 1, objects[i])) + Between(objects, i + 1, n)
          == Layout(objects, i) + (ObjectText(i + 1, objects[i]) + Between(objects, i + 1, n));
    }
  }

  lemma FileSplits(objects: seq<string>)
    ensures var n := |objects|;
            var body := Layout(objects, n);
            FileText(objects)
            == body + (XrefText(Offsets(objects, n))
                       + ("trailer\n<< /Size " + Digits(n + 1) + " /Root 1 0 R >>\n" + TailText(|body|)))
  {
    hide Digits, Layout, XrefText, Offsets;
    var n := |objects|;
    var body := Layout(objects, n);
    assert TrailerText(n + 1, |body|) == "trailer\n<< /Size " + Digits(n + 1) + " /Root 1 0 R >>\n" + TailText(|body|);
  }

  /** For any objects whose offsets fit ten digits, a reader starting from the end
      of the file recovers the table, and each entry of it leads to its object. */
  lemma TableOfFile(objects: seq<string>)
    requires forall i :: 0 <= i < |objects| ==> |Layout(objects, i)| < Pow10(10)
    ensures ReadTable(FileText(objects)) == Some(XrefTable(Table(Offsets(objects, |objects|)), 1))
  {
    hide Digits, Layout, XrefText, ReadXref, ReadStartXref, TailText, Pow10, FileText;
    var n := |objects|;
    var file, body := FileText(objects), Layout(objects, n);
    var table, size := XrefText(Offsets(objects, n)), "trailer\n<< /Size " + Digits(n + 1) + " /Root 1 0 R >>\n";
    FileSplits(objects);
    assert file == (body + (table + size)) + TailText(|body|);
    StartXrefFound(body + (table + size), |body|);
    assert file[|body|..] == table + (size + TailText(|body|));
    XrefRead(Offsets(objects, n), TailText(|body|));
  }

  lemma ObjectAt(objects: seq<string>, i: nat) returns (rest: string)
    requires i < |objects|
    ensures |Layout(objects, i)| <= |FileText(objects)|
    ensures FileText(objects)[|Layout(objects, i)|..]
            == Digits(i + 1) + (" 0 obj\n" + (objects[i] + "\nendobj\n" + rest))
  {
    hide Digits, Layout, XrefText, TrailerText;
    var n := |objects|;
    LayoutSplits(objects, i, n);
    var after := XrefText(Offsets(objects, n)) + TrailerText(n + 1, |Layout(objects, n)|);
    rest := Between(objects, i + 1, n) + after;
    assert FileText(objects) == Layout(objects, i) + (Between(objects, i, n) + after);
    assert Between(objects, i, n) + after == ObjectText(i + 1, objects[i]) + rest;
  }

  lemma EveryEntryLands(objects: seq<string>, i: nat) returns (rest: string)
    requires forall k :: 0 <= k < |objects| ==> |Layout(objects, k)| < Pow10(10)
    requires i < |objects|
    ensures var table := ReadTable(FileText(objects));
            table.Some? && |table.value.entries| == |objects| + 1 && table.value.root == 1
            && ReadObject(FileText(objects), table.value.entries, i + 1) == Some(objects[i] + "\nendobj\n" + rest)
  {
    hide Digits, Layout, FileText, ReadTable, Pow10, ReadNat;
    TableOfFile(objects);
    rest := ObjectAt(objects, i);
    ReadDigits(i + 1, " 0 obj\n" + (objects[i] + "\nendobj\n" + rest));
    ExpectPrefix(" 0 obj\n", objects[i] + "\nendobj\n" + rest);
  }

  lemma StreamRead(content: string, rest: string)
    ensures ReadStream(StreamBody(content) + "\nendobj\n" + rest) == Some(content)
  {
    hide Digits, ReadNat;
    var n := |content|;
    var end := "\nendstream\nendobj\n" + rest;
    var s := StreamBody(content) + "\nendobj\n" + rest;
    assert s == "<< /Length " + (Digits(n) + (" >>\nstream\n" + (content + end)));
    ExpectPrefix("<< /Length ", Digits(n) + (" >>\nstream\n" + (content + end)));
    ReadDigits(n, " >>\nstream\n" + (content + end));
    ExpectPrefix(" >>\nstream\n", content + end);
    assert (content + end)[n..] == end && (content + end)[..n] == content;
    ExpectPrefix("\nendstream\nendobj\n", rest);
  }

  lemma FixedSizes(objects: seq<string>)
    ensures |Layout(objects, 0)| == 9 && |Digits(PAGE_WIDTH)| <= 3 && |Digits(PAGE_HEIGHT)| <= 3 && 1000 < Pow10(10)
  {
    DigitsLength(PAGE_WIDTH, 3);
    DigitsLength(PAGE_HEIGHT, 3);
  }

  /** The first four objects do not depend on the document, so neither do the five
      offsets: the table never overflows its ten digits, however long the text. */
  lemma OffsetsAreFixed(content: string, i: nat)
    requires i < 5
    ensures |Layout(Objects(content), i)| < 1000 < Pow10(10)
  {
    hide StreamBody, Layout, Digits;
    var objects := Objects(content);
    FixedSizes(objects);
    LayoutGrows(objects, 0);
    LayoutGrows(objects, 1);
    LayoutGrows(objects, 2);
    LayoutGrows(objects, 3);
    assert |objects[0]| == 33 && |objects[1]| == 41 && |objects[3]| == 54;
    assert |objects[2]| < 200;
  }

  lemma LayoutGrows(objects: seq<string>, n: nat)
    requires n < |objects| && n < 9
    ensures |Layout(objects, n + 1)| == |Layout(objects, n)| + 16 + |objects[n]|
  { }

  // ----- dictionaries -----

  predicate OneLine(s: string) { forall q :: 0 <= q < |s| ==> s[q] != '\n' }

  /** No name in the text starts with this letter. */
  predicate NoName(s: string, c: char) { forall q :: 0 <= q < |s| && s[q] == '/' ==> q + 1 < |s| && s[q + 1] != c }

  predicate AllRegular(w: string) { forall i :: 0 <= i < |w| ==> IsRegular(w[i]) }

  lemma NoNameInBoth(a: string, b: string, c: char)
    requires NoName(a, c) && NoName(b, c)
    ensures NoName(a + b, c)
  { }

  lemma OneLineInBoth(a: string, b: string)
    requires OneLine(a) && OneLine(b)
    ensures OneLine(a + b)
  { }

  lemma {:induction false} SpanOfRegular(w: string, rest: string)
    requires AllRegular(w) && (rest == "" || !IsRegular(rest[0]))
    ensures Span(w + rest) == |w|
  {
    if w == "" {
      assert w + rest == rest;
    } else {
      SpanOfRegular(w[1..], rest);
      assert (w + rest)[1..] == w[1..] + rest;
    }
  }

  lemma {:induction false} UpToFound(body: string, key: string, rest: string)
    requires key != "" && forall q :: 0 <= q < |body| ==> body[q] != key[0]
    ensures UpTo(body + (key + rest), key) == Some(body)
  {
    var s := body + (key + rest);
    if body == "" {
      assert s == key + rest;
    } else {
      assert s[0] == body[0] != key[0];
      assert !(key <= s) && [body[0]] + body[1..] == body;
      assert s[1..] == body[1..] + (key + rest);
      UpToFound(body[1..], key, rest);
    }
  }

  /** The key does not stand anywhere before its place. */
  predicate Skips(before: string, key: string, after: string) {
    forall q :: 0 <= q < |before| ==> !(key <= (before + (key + after))[q..])
  }

  lemma {:induction false} LookupAt(before: string, key: string, after: string)
    requires key != "" && Skips(before, key, after)
    ensures Lookup(before + (key + after), key) == Some(after)
  {
    var s := before + (key + after);
    if before == "" {
      assert s == key + after;
      assert s[|key|..] == after;
    } else {
      assert s[0..] == s && s[1..] == before[1..] + (key + after);
      assert forall q :: 0 <= q < |before[1..]| ==> s[1..][q..] == s[q + 1..];
      LookupAt(before[1..], key, after);
    }
  }

  lemma LookupFound(before: string, key: string, after: string)
    requires |key| >= 2 && key[0] == '/' && NoName(before, key[1])
    ensures Lookup(before + (key + after), key) == Some(after)
  {
    var s := before + (key + after);
    forall q | 0 <= q < |before| ensures !(key <= s[q..]) {
      assert s[q..][0] == s[q] == before[q];
      if before[q] == '/' { assert s[q..][1] == s[q + 1] == before[q + 1] != key[1]; }
    }
    LookupAt(before, key, after);
  }

  lemma ReferenceFound(before: string, key: string, n: nat, after: string)
    requires key != "" && Lookup(Referring(before, key, n, after), key) == Some(Digits(n) + (" 0 R" + after))
    ensures Reference(Referring(before, key, n, after), key) == Some(n)
  {
    hide Digits, ReadNat, Lookup, Referring;
    ReadDigits(n, " 0 R" + after);
    ExpectPrefix(" 0 R", after);
  }

  /** A dictionary as text: what stands before the key, the reference, the rest. */
  function Referring(before: string, key: string, n: nat, after: string): string {
    before + (key + (Digits(n) + (" 0 R" + after)))
  }

  lemma Refers(before: string, key: string, n: nat, after: string)
    requires |key| >= 2 && key[0] == '/' && NoName(before, key[1])
    ensures Reference(Referring(before, key, n, after), key) == Some(n)
  {
    hide Digits, Lookup, NoName;
    LookupFound(before, key, Digits(n) + (" 0 R" + after));
    ReferenceFound(before, key, n, after);
  }

  lemma NameFound(before: string, key: string, name: string, c: char, after: string)
    requires |key| >= 2 && key[0] == '/' && NoName(before, key[1]) && AllRegular(name) && !IsRegular(c)
    ensures NameUnder(before + (key + ("/" + (name + ([c] + after)))), key) == Some(name)
  {
    hide Lookup, NoName;
    var value := "/" + (name + ([c] + after));
    LookupFound(before, key, value);
    assert value[1..] == name + ([c] + after);
    SpanOfRegular(name, [c] + after);
    assert value[1..1 + |name|] == name;
  }

  /** An object that begins with its type. */
  lemma TypeRead(head: string, kind: string, after: string)
    requires head == "<< " + ("/Type " + ("/" + (kind + ([' '] + "")))) && AllRegular(kind)
    ensures NameUnder(head + after, "/Type ") == Some(kind)
  {
    assert NoName("<< ", 'T') && !IsRegular(' ');
    hide NameUnder, NoName, AllRegular, IsRegular;
    NameFound("<< ", "/Type ", kind, ' ', after);
    assert head + after == "<< " + ("/Type " + ("/" + (kind + ([' '] + after))));
  }

  lemma Associate(a: string, b: string, c: string)
    ensures (a + b) + c == a + (b + c)
  { }

  /** An object that is one line with a type is read as a dictionary of that type. */
  lemma DictionaryRead(objects: seq<string>, i: nat, kind: string)
    requires forall k :: 0 <= k < |objects| ==> |Layout(objects, k)| < Pow10(10)
    requires i < |objects| && OneLine(objects[i]) && NameUnder(objects[i], "/Type ") == Some(kind)
    ensures ReadTable(FileText(objects)).Some?
    ensures Dictionary(FileText(objects), ReadTable(FileText(objects)).value.entries, i + 1, kind) == Some(objects[i])
  {
    hide Digits, Layout, FileText, ReadTable, Pow10, ReadObject, NameUnder;
    var rest := EveryEntryLands(objects, i);
    assert objects[i] + "\nendobj\n" + rest == objects[i] + ("\nendobj" + ("\n" + rest));
    UpToFound(objects[i], "\nendobj", "\n" + rest);
  }

  // ----- from the catalogue to the page -----

  lemma CatalogWords()
    ensures CATALOG_HEAD == "<< " + ("/Type " + ("/" + ("Catalog" + ([' '] + ""))))
    ensures NoName("<< ", 'T') && NoName(CATALOG_HEAD, 'P') && OneLine(CATALOG_HEAD) && OneLine(CATALOG_PAGES)
    ensures CATALOG_PAGES == "/Pages " + (Digits(2) + (" 0 R" + " >>"))
    ensures AllRegular("Catalog") && !IsRegular(' ')
  { }

  lemma CatalogRefers(content: string)
    ensures var catalog := Objects(content)[0];
            && OneLine(catalog) && NameUnder(catalog, "/Type ") == Some("Catalog")
            && Reference(catalog, "/Pages ") == Some(2)
  {
    CatalogWords();
    hide StreamBody, Digits, CATALOG_HEAD, CATALOG_PAGES, PAGES_HEAD, PAGES_KIDS, PAGE_HEAD, PAGE_PARENT,
         PAGE_BOX, PAGE_RESOURCES, PAGE_FONTS, PAGE_FONT, PAGE_FONTS_END, PAGE_CONTENTS, FONT_HEAD, FONT_SUBTYPE,
         FONT_BASE, NoName, OneLine, AllRegular, IsRegular, NameUnder, Reference;
    OneLineInBoth(CATALOG_HEAD, CATALOG_PAGES);
    Refers(CATALOG_HEAD, "/Pages ", 2, " >>");
    TypeRead(CATALOG_HEAD, "Catalog", CATALOG_PAGES);
  }

  lemma PagesWords()
    ensures PAGES_HEAD == "<< " + ("/Type " + ("/" + ("Pages" + ([' '] + ""))))
    ensures NoName("<< ", 'T') && NoName(PAGES_HEAD, 'K') && OneLine(PAGES_HEAD) && OneLine(PAGES_KIDS)
    ensures AllRegular("Pages") && !IsRegular(' ')
  { }

  lemma KidsWord()
    ensures PAGES_KIDS == "/Kids [" + (Digits(3) + (" 0 R" + "] /Count 1 >>"))
  { }

  lemma CountWord()
    ensures PAGES_KIDS == "/Kids [3 0 R] " + ("/Count " + (Digits(1) + " >>"))
    ensures NoName(PAGES_HEAD, 'C') && NoName("/Kids [3 0 R] ", 'C')
  { }

  lemma PagesCount(content: string)
    ensures NumberUnder(Objects(content)[1], "/Count ") == Some(1)
  {
    CountWord();
    hide StreamBody, Digits, ReadNat, Lookup, CATALOG_HEAD, CATALOG_PAGES, PAGES_HEAD, PAGES_KIDS, PAGE_HEAD,
         PAGE_PARENT, PAGE_BOX, PAGE_RESOURCES, PAGE_FONTS, PAGE_FONT, PAGE_FONTS_END, PAGE_CONTENTS, FONT_HEAD,
         FONT_SUBTYPE, FONT_BASE, NoName;
    var before, after := PAGES_HEAD + "/Kids [3 0 R] ", Digits(1) + " >>";
    NoNameInBoth(PAGES_HEAD, "/Kids [3 0 R] ", 'C');
    LookupFound(before, "/Count ", after);
    ReadDigits(1, " >>");
    assert PAGES_HEAD + PAGES_KIDS == before + ("/Count " + after);
  }

  lemma PagesRefer(content: string)
    ensures var pages := Objects(content)[1];
            OneLine(pages) && NameUnder(pages, "/Type ") == Some("Pages") && Reference(pages, "/Kids [") == Some(3)
  {
    PagesWords();
    KidsWord();
    hide StreamBody, Digits, CATALOG_HEAD, CATALOG_PAGES, PAGES_HEAD, PAGES_KIDS, PAGE_HEAD, PAGE_PARENT,
         PAGE_BOX, PAGE_RESOURCES, PAGE_FONTS, PAGE_FONT, PAGE_FONTS_END, PAGE_CONTENTS, FONT_HEAD, FONT_SUBTYPE,
         FONT_BASE, NoName, OneLine, AllRegular, IsRegular, NameUnder, Reference;
    OneLineInBoth(PAGES_HEAD, PAGES_KIDS);
    Refers(PAGES_HEAD, "/Kids [", 3, "] /Count 1 >>");
    TypeRead(PAGES_HEAD, "Pages", PAGES_KIDS);
  }

  // The page object, cut where the reader looks.

  function PageFront(): string { PAGE_HEAD + (PAGE_PARENT + PAGE_BOX) }

  /** The page's width and height as written. */
  function SizeText(): string { Digits(PAGE_WIDTH) + (" " + Digits(PAGE_HEIGHT)) }

  function PageBack(): string { PAGE_RESOURCES + (PAGE_FONTS + (PAGE_FONT + PAGE_FONTS_END)) }

  lemma PageText(content: string)
    ensures Objects(content)[2] == PageFront() + (SizeText() + (PageBack() + PAGE_CONTENTS))
  {
    hide StreamBody, Digits, CATALOG_HEAD, CATALOG_PAGES, PAGES_HEAD, PAGES_KIDS, PAGE_HEAD, PAGE_PARENT, PAGE_BOX,
         PAGE_RESOURCES, PAGE_FONTS, PAGE_FONT, PAGE_FONTS_END, PAGE_CONTENTS, FONT_HEAD, FONT_SUBTYPE, FONT_BASE;
  }

  lemma PageHeadWords()
    ensures PAGE_HEAD == "<< " + ("/Type " + ("/" + ("Page" + ([' '] + ""))))
    ensures NoName("<< ", 'T') && AllRegular("Page") && !IsRegular(' ')
  { }

  lemma PageParentWords()
    ensures PAGE_PARENT == "/Parent " + (Digits(2) + (" 0 R" + " "))
  { }

  lemma PageBoxWords()
    ensures PAGE_BOX == "/MediaBox [" + (Digits(0) + (" " + (Digits(0) + (" " + ""))))
  {
    assert Digits(0) == "0";
  }

  lemma PageFrontIsClear(c: char)
    requires c == 'R' || c == 'C'
    ensures NoName(PageFront(), c) && OneLine(PageFront())
    ensures NoName(PAGE_HEAD, 'M') && NoName(PAGE_PARENT, 'M')
  {
    assert NoName(PAGE_HEAD, c) && NoName(PAGE_PARENT, c) && NoName(PAGE_BOX, c);
    assert OneLine(PAGE_HEAD) && OneLine(PAGE_PARENT) && OneLine(PAGE_BOX);
    assert NoName(PAGE_HEAD, 'M') && NoName(PAGE_PARENT, 'M');
    hide PAGE_HEAD, PAGE_PARENT, PAGE_BOX, NoName, OneLine;
    NoNameInBoth(PAGE_PARENT, PAGE_BOX, c);
    NoNameInBoth(PAGE_HEAD, PAGE_PARENT + PAGE_BOX, c);
    OneLineInBoth(PAGE_PARENT, PAGE_BOX);
    OneLineInBoth(PAGE_HEAD, PAGE_PARENT + PAGE_BOX);
  }

  lemma PageBackIsClear()
    ensures NoName(PageBack(), 'C') && OneLine(PageBack())
  {
    assert NoName(PAGE_RESOURCES, 'C') && NoName(PAGE_FONTS, 'C');
    assert NoName(PAGE_FONT, 'C') && NoName(PAGE_FONTS_END, 'C');
    assert OneLine(PAGE_RESOURCES) && OneLine(PAGE_FONTS) && OneLine(PAGE_FONT) && OneLine(PAGE_FONTS_END);
    hide PAGE_RESOURCES, PAGE_FONTS, PAGE_FONT, PAGE_FONTS_END, NoName, OneLine;
    NoNameInBoth(PAGE_FONT, PAGE_FONTS_END, 'C');
    NoNameInBoth(PAGE_FONTS, PAGE_FONT + PAGE_FONTS_END, 'C');
    NoNameInBoth(PAGE_RESOURCES, PAGE_FONTS + (PAGE_FONT + PAGE_FONTS_END), 'C');
    OneLineInBoth(PAGE_FONT, PAGE_FONTS_END);
    OneLineInBoth(PAGE_FONTS, PAGE_FONT + PAGE_FONTS_END);
    OneLineInBoth(PAGE_RESOURCES, PAGE_FONTS + (PAGE_FONT + PAGE_FONTS_END));
  }

  lemma ContentsWord()
    ensures PAGE_CONTENTS == "/Contents " + (Digits(5) + (" 0 R" + " >>")) && OneLine(PAGE_CONTENTS)
  { }

  lemma DigitsAreClear(n: nat, c: char)
    ensures NoName(Digits(n), c) && OneLine(Digits(n))
  {
    assert forall q :: 0 <= q < |Digits(n)| ==> IsDigit(Digits(n)[q]);
  }

  lemma SizeIsClear(c: char)
    ensures NoName(SizeText(), c) && OneLine(SizeText())
  {
    DigitsAreClear(PAGE_WIDTH, c);
    DigitsAreClear(PAGE_HEIGHT, c);
    assert NoName(" ", c) && OneLine(" ");
    hide Digits, NoName, OneLine;
    var w, h := Digits(PAGE_WIDTH), Digits(PAGE_HEIGHT);
    NoNameInBoth(" ", h, c);
    NoNameInBoth(w, " " + h, c);
    OneLineInBoth(" ", h);
    OneLineInBoth(w, " " + h);
  }

  lemma PageIsTyped(content: string)
    ensures OneLine(Objects(content)[2]) && NameUnder(Objects(content)[2], "/Type ") == Some("Page")
  {
    PageFrontIsClear('C');
    PageBackIsClear();
    ContentsWord();
    SizeIsClear('C');
    PageText(content);
    PageHeadWords();
    hide SizeText, PageBack, Objects, Digits, PAGE_HEAD, PAGE_PARENT, PAGE_BOX, PAGE_CONTENTS, NoName, OneLine,
         AllRegular, IsRegular, NameUnder;
    var back := SizeText() + (PageBack() + PAGE_CONTENTS);
    OneLineInBoth(PageBack(), PAGE_CONTENTS);
    OneLineInBoth(SizeText(), PageBack() + PAGE_CONTENTS);
    OneLineInBoth(PageFront(), back);
    Associate(PAGE_HEAD, PAGE_PARENT + PAGE_BOX, back);
    TypeRead(PAGE_HEAD, "Page", PAGE_PARENT + PAGE_BOX + back);
  }

  /** The word Page is no beginning of the word Parent. */
  lemma ParentSkips(after: string)
    ensures Skips(PAGE_HEAD, "/Parent ", after)
  {
    var s := PAGE_HEAD + ("/Parent " + after);
    forall q | 0 <= q < |PAGE_HEAD| ensures !("/Parent " <= s[q..]) {
      assert s[q..][0] == s[q] == PAGE_HEAD[q];
      if q == 3 { assert s[q..][1] == s[4] == 'T'; }
      if q == 9 { assert s[q..][3] == s[12] == 'g'; }
    }
  }

  lemma PageHasParent(content: string)
    ensures Reference(Objects(content)[2], "/Parent ") == Some(2)
  {
    PageParentWords();
    PageText(content);
    hide SizeText, PageBack, Objects, Digits, PAGE_HEAD, PAGE_PARENT, PAGE_BOX, PAGE_CONTENTS, Reference, Skips, Lookup;
    var after := " " + (PAGE_BOX + (SizeText() + (PageBack() + PAGE_CONTENTS)));
    ParentSkips(Digits(2) + (" 0 R" + after));
    LookupAt(PAGE_HEAD, "/Parent ", Digits(2) + (" 0 R" + after));
    ReferenceFound(PAGE_HEAD, "/Parent ", 2, after);
    assert Objects(content)[2] == Referring(PAGE_HEAD, "/Parent ", 2, after);
  }

  lemma PageRefers(content: string)
    ensures Reference(Objects(content)[2], "/Contents ") == Some(5)
  {
    PageFrontIsClear('C');
    PageBackIsClear();
    ContentsWord();
    SizeIsClear('C');
    PageText(content);
    hide SizeText, PageFront, PageBack, Objects, Digits, PAGE_CONTENTS, NoName, OneLine, Reference;
    var before := PageFront() + (SizeText() + PageBack());
    NoNameInBoth(SizeText(), PageBack(), 'C');
    NoNameInBoth(PageFront(), SizeText() + PageBack(), 'C');
    Refers(before, "/Contents ", 5, " >>");
    assert Objects(content)[2] == Referring(before, "/Contents ", 5, " >>");
  }

  lemma OneNumberRead(n: nat, rest: string, k: nat)
    requires k > 1 && ReadNumbers(rest, k - 1).Some?
    ensures ReadNumbers(Digits(n) + (" " + rest), k) == Some([n] + ReadNumbers(rest, k - 1).value)
  {
    hide Digits, ReadNat;
    ReadDigits(n, " " + rest);
    ExpectPrefix(" ", rest);
  }

  lemma LastNumberRead(n: nat, rest: string)
    ensures ReadNumbers(Digits(n) + ("]" + rest), 1) == Some([n])
  {
    hide Digits, ReadNat;
    ReadDigits(n, "]" + rest);
    ExpectPrefix("]", rest);
  }

  lemma FourNumbersRead(a: nat, b: nat, c: nat, d: nat, rest: string)
    ensures ReadNumbers(Digits(a) + (" " + (Digits(b) + (" " + (Digits(c) + (" " + (Digits(d) + ("]" + rest))))))), 4)
         == Some([a, b, c, d])
  {
    hide Digits, ReadNumbers;
    var two := Digits(c) + (" " + (Digits(d) + ("]" + rest)));
    LastNumberRead(d, rest);
    OneNumberRead(c, Digits(d) + ("]" + rest), 2);
    assert [c] + [d] == [c, d];
    OneNumberRead(b, two, 3);
    assert [b] + [c, d] == [b, c, d];
    OneNumberRead(a, Digits(b) + (" " + two), 4);
    assert [a] + [b, c, d] == [a, b, c, d];
  }

  /** The page's rectangle is A4 in points, from the origin. */
  lemma BoxRead(leaf: Leaf, content: string)
    requires leaf.dict == Objects(content)[2]
    ensures ReadBox(leaf) == Some([0, 0, 595, 842])
  {
    hide Objects, Digits, PAGE_HEAD, PAGE_PARENT, PAGE_BOX, PAGE_RESOURCES, PAGE_FONTS, PAGE_FONT, PAGE_FONTS_END,
         PAGE_CONTENTS, NoName, OneLine, Lookup, ReadNumbers;
    PageFrontIsClear('C');
    PageBoxWords();
    BracketWord();
    var tail := " /Resources <<";
    var rest := tail + (PAGE_FONTS + (PAGE_FONT + PAGE_FONTS_END)) + PAGE_CONTENTS;
    var size := Digits(595) + (" " + (Digits(842) + ("]" + rest)));
    FourNumbersRead(0, 0, 595, 842, rest);
    NoNameInBoth(PAGE_HEAD, PAGE_PARENT, 'M');
    LookupFound(PAGE_HEAD + PAGE_PARENT, "/MediaBox [", Digits(0) + (" " + (Digits(0) + (" " + size))));
    BoxStart(Digits(0), size);
    BoxEnd(content, tail, rest, size);
  }

  lemma BracketWord()
    ensures PAGE_RESOURCES == "]" + " /Resources <<"
  { }

  lemma BoxStart(zero: string, size: string)
    ensures ("/MediaBox [" + (zero + (" " + (zero + (" " + ""))))) + size
         == "/MediaBox [" + (zero + (" " + (zero + (" " + size))))
  { }

  lemma BoxEnd(content: string, tail: string, rest: string, size: string)
    requires PAGE_RESOURCES == "]" + tail && rest == tail + (PAGE_FONTS + (PAGE_FONT + PAGE_FONTS_END)) + PAGE_CONTENTS
    requires size == Digits(595) + (" " + (Digits(842) + ("]" + rest)))
    ensures Objects(content)[2] == (PAGE_HEAD + PAGE_PARENT) + (PAGE_BOX + size)
  {
    PageText(content);
    hide Objects, Digits, PAGE_HEAD, PAGE_PARENT, PAGE_BOX, PAGE_RESOURCES, PAGE_FONTS, PAGE_FONT, PAGE_FONTS_END,
         PAGE_CONTENTS;
    var fonts := PAGE_FONTS + (PAGE_FONT + PAGE_FONTS_END);
    Associate("]", tail, fonts);
    Associate("]", tail + fonts, PAGE_CONTENTS);
    Associate(Digits(595), " " + Digits(842), "]" + rest);
    Associate(" ", Digits(842), "]" + rest);
    Associate(PAGE_HEAD, PAGE_PARENT + PAGE_BOX, size);
    Associate(PAGE_PARENT, PAGE_BOX, size);
    Associate(PAGE_HEAD, PAGE_PARENT, PAGE_BOX + size);
  }

  // ----- the font -----

  lemma FontWords()
    ensures FONT_HEAD == "<< " + ("/Type " + ("/" + ("Font" + ([' '] + ""))))
    ensures FONT_SUBTYPE == "/Subtype " + ("/" + ("Type1" + ([' '] + "")))
    ensures NoName("<< ", 'T') && NoName(FONT_HEAD, 'S') && OneLine(FONT_HEAD) && OneLine(FONT_SUBTYPE)
    ensures AllRegular("Font") && AllRegular("Type1") && !IsRegular(' ')
  { }

  lemma BaseFontWords()
    ensures FONT_BASE == "/BaseFont " + ("/" + ("Helvetica" + ([' '] + ">>"))) && OneLine(FONT_BASE)
    ensures NoName(FONT_HEAD, 'B') && NoName(FONT_SUBTYPE, 'B') && AllRegular("Helvetica")
  { }

  lemma FontNames(content: string)
    ensures var font := Objects(content)[3];
            && OneLine(font) && NameUnder(font, "/Type ") == Some("Font")
            && NameUnder(font, "/Subtype ") == Some("Type1") && NameUnder(font, "/BaseFont ") == Some("Helvetica")
  {
    FontWords();
    BaseFontWords();
    hide StreamBody, Digits, CATALOG_HEAD, CATALOG_PAGES, PAGES_HEAD, PAGES_KIDS, PAGE_HEAD, PAGE_PARENT, PAGE_BOX,
         PAGE_RESOURCES, PAGE_FONTS, PAGE_FONT, PAGE_FONTS_END, PAGE_CONTENTS, FONT_HEAD, FONT_SUBTYPE, FONT_BASE,
         NameUnder, NoName, OneLine, AllRegular, IsRegular;
    var font := Objects(content)[3];
    OneLineInBoth(FONT_HEAD, FONT_SUBTYPE);
    OneLineInBoth(FONT_HEAD + FONT_SUBTYPE, FONT_BASE);
    NoNameInBoth(FONT_HEAD, FONT_SUBTYPE, 'B');
    Associate(FONT_HEAD, FONT_SUBTYPE, FONT_BASE);
    TypeRead(FONT_HEAD, "Font", FONT_SUBTYPE + FONT_BASE);
    NameFound(FONT_HEAD, "/Subtype ", "Type1", ' ', FONT_BASE);
    SubtypeParts("/Subtype ", "Type1", FONT_BASE);
    NameFound(FONT_HEAD + FONT_SUBTYPE, "/BaseFont ", "Helvetica", ' ', ">>");
  }

  lemma SubtypeParts(key: string, name: string, after: string)
    ensures (key + ("/" + (name + ([' '] + "")))) + after == key + ("/" + (name + ([' '] + after)))
  { }

  lemma PageFontWords()
    ensures PAGE_RESOURCES == "] " + "/Resources <<" && PAGE_FONTS == " " + "/Font <<"
    ensures PAGE_FONTS_END == ">>" + " >> " && NoName("] ", 'R') && NoName(" ", 'F')
    ensures PAGE_FONT == " " + ("/F1 " + (Digits(4) + (" 0 R" + " ")))
    ensures forall q :: 0 <= q < |PAGE_FONT| ==> PAGE_FONT[q] != '>'
  { }

  lemma ResourcesParts(font: string, contents: string)
    ensures (("] " + "/Resources <<") + ((" " + "/Font <<") + (font + (">>" + " >> ")))) + contents
         == "] " + ("/Resources <<" + (" " + ("/Font <<" + (font + (">>" + (" >> " + contents))))))
  {
    var end := ">>" + " >> ";
    Associate(font, end, contents);
    Associate(">>", " >> ", contents);
    Associate(" ", "/Font <<", font + end);
    Associate("] ", "/Resources <<", " " + ("/Font <<" + (font + end)));
    Associate("] ", "/Resources <<" + (" " + ("/Font <<" + (font + end))), contents);
    Associate("/Resources <<", " " + ("/Font <<" + (font + end)), contents);
    Associate(" ", "/Font <<" + (font + end), contents);
    Associate("/Font <<", font + end, contents);
  }

  /** What the page's resources have under the name that the content uses. */
  lemma FontEntryRead(leaf: Leaf, content: string)
    requires leaf.dict == Objects(content)[2]
    ensures var resources := Lookup(leaf.dict, "/Resources <<");
            var entries := if resources == None then None else Lookup(resources.value, "/Font <<");
            var fonts := if entries == None then None else UpTo(entries.value, ">>");
            fonts == Some(PAGE_FONT)
  {
    PageFrontIsClear('R');
    PageFontWords();
    SizeIsClear('R');
    PageText(content);
    hide SizeText, PageFront, Objects, Digits, PAGE_RESOURCES, PAGE_FONTS, PAGE_FONT, PAGE_FONTS_END, PAGE_CONTENTS,
         NoName, OneLine, Lookup, UpTo;
    var last := " >> " + PAGE_CONTENTS;
    var fonts := PAGE_FONT + (">>" + last);
    var before := PageFront() + (SizeText() + "] ");
    NoNameInBoth(SizeText(), "] ", 'R');
    NoNameInBoth(PageFront(), SizeText() + "] ", 'R');
    LookupFound(before, "/Resources <<", " " + ("/Font <<" + fonts));
    ResourcesParts(PAGE_FONT, PAGE_CONTENTS);
    Associate(SizeText(), "] ", "/Resources <<" + (" " + ("/Font <<" + fonts)));
    Associate(PageFront(), SizeText() + "] ", "/Resources <<" + (" " + ("/Font <<" + fonts)));
    LookupFound(" ", "/Font <<", fonts);
    UpToFound(PAGE_FONT, ">>", last);
  }

  lemma FontRefers()
    ensures Reference(PAGE_FONT, "/" + "F1" + " ") == Some(4)
  {
    PageFontWords();
    hide Digits, PAGE_FONT, NoName, Reference;
    Refers(" ", "/F1 ", 4, " ");
    assert "/" + "F1" + " " == "/F1 ";
  }

  // ----- the whole way -----

  lemma HeaderRead(objects: seq<string>)
    ensures Expect(FileText(objects), "%PDF-1.").Some?
  {
    hide ObjectText, XrefText, TrailerText;
    LayoutSplits(objects, 0, |objects|);
    var rest := Between(objects, 0, |objects|) + XrefText(Offsets(objects, |objects|))
                + TrailerText(|objects| + 1, |Layout(objects, |objects|)|);
    assert FileText(objects) == "%PDF-1.4\n" + rest;
    assert "%PDF-1." <= "%PDF-1.4\n";
  }

  lemma OffsetsFit(content: string)
    ensures forall k :: 0 <= k < 5 ==> |Layout(Objects(content), k)| < Pow10(10)
  {
    forall k | 0 <= k < 5 ensures |Layout(Objects(content), k)| < Pow10(10) { OffsetsAreFixed(content, k); }
  }

  /** From the trailer to the catalogue, the page tree and its only page. */
  lemma LeafRead(content: string)
    ensures var file := FileText(Objects(content));
            ReadTable(file).Some?
            && ReadLeaf(file) == Some(Leaf(ReadTable(file).value.entries, Objects(content)[2], 1))
  {
    hide Digits, FileText, ReadTable, Dictionary, NameUnder, Reference, NumberUnder, OneLine, Layout, Pow10, Objects;
    var objects := Objects(content);
    OffsetsFit(content);
    HeaderRead(objects);
    var rest := EveryEntryLands(objects, 0);
    CatalogRefers(content);
    DictionaryRead(objects, 0, "Catalog");
    PagesRefer(content);
    PagesCount(content);
    DictionaryRead(objects, 1, "Pages");
    PageIsTyped(content);
    PageHasParent(content);
    DictionaryRead(objects, 2, "Page");
  }

  /** The stream comes back byte for byte, for every document of any length: from
      the trailer to the catalogue, the page tree, the page and its contents. */
  lemma ContentRoundTrip(content: string)
    ensures var file := FileText(Objects(content));
            ReadLeaf(file).Some? && ReadContent(file, ReadLeaf(file).value) == Some(content)
  {
    hide Digits, FileText, ReadTable, ReadLeaf, ReadStream, ReadObject, StreamBody, Reference, Layout, Pow10;
    OffsetsFit(content);
    LeafRead(content);
    PageRefers(content);
    var rest := EveryEntryLands(Objects(content), 4);
    assert Objects(content)[4] == StreamBody(content);
    StreamRead(content, rest);
  }

  /** The name that the content selects is, by the page's resources, Helvetica. */
  lemma FontRead(content: string)
    ensures var file := FileText(Objects(content));
            ReadLeaf(file).Some? && ReadFont(file, ReadLeaf(file).value, "F1") == Some("Helvetica")
  {
    hide Digits, FileText, ReadTable, ReadLeaf, Dictionary, NameUnder, Reference, Lookup, UpTo, OneLine, Layout, Pow10,
         Objects, PAGE_FONT;
    OffsetsFit(content);
    LeafRead(content);
    FontEntryRead(ReadLeaf(FileText(Objects(content))).value, content);
    FontRefers();
    FontNames(content);
    DictionaryRead(Objects(content), 3, "Font");
  }

  // ----- literal strings -----

  /** What survives of a rune: printable ASCII, everything else as a question mark. */
  function Printable(c: char): char { if ' ' <= c < 127 as char then c else '?' }

  function Sanitize(s: string): (r: string)
    ensures |r| == |s| && forall i :: 0 <= i < |s| ==> r[i] == Printable(s[i])
  {
    seq(|s|, i requires 0 <= i < |s| => Printable(s[i]))
  }

  lemma SanitizeStep(s: string)
    ensures Sanitize(s) == if s == "" then "" else [Printable(s[0])] + Sanitize(s[1..])
  {
    hide Printable;
  }

  lemma CloseRead(rest: string)
    ensures ReadLiteral(")" + rest, 0) == Some(("", rest))
  {
    assert (")" + rest)[1..] == rest;
  }

  /** Escaped text reads as the text, and ends exactly at the closing parenthesis. */
  lemma {:induction false} LiteralRoundTrip(s: string, rest: string)
    ensures ReadLiteral(EscapeText(s) + ")" + rest, 0) == Some((Sanitize(s), rest))
  {
    hide ReadLiteral, EscapeChar, Printable, Sanitize;
    if s == "" {
      CloseRead(rest);
      assert EscapeText(s) + ")" + rest == ")" + rest;
      SanitizeStep(s);
    } else {
      var tail := EscapeText(s[1..]) + ")" + rest;
      LiteralRoundTrip(s[1..], rest);
      assert EscapeText(s) + ")" + rest == EscapeChar(s[0]) + tail;
      EscapedCharRead(s[0], tail, Sanitize(s[1..]), rest);
      SanitizeStep(s);
    }
  }

  lemma EscapedCharRead(c: char, tail: string, text: string, rest: string)
    requires ReadLiteral(tail, 0) == Some((text, rest))
    ensures ReadLiteral(EscapeChar(c) + tail, 0) == Some(([Printable(c)] + text, rest))
  {
    var s := EscapeChar(c) + tail;
    if c == '(' || c == ')' || c == '\\' {
      assert s[1..][0] == c && s[1..][1..] == tail;
    } else {
      assert s[1..] == tail;
    }
  }
}
