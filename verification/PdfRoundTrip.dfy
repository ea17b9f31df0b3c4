/**
 Reading undoes writing: from the bytes of a written file, the reader recovers every page's lines,
 each at its place.
 */
module PdfRoundTrip {
  import opened Text
  import opened PdfSyntax
  import opened PdfWriter
  import opened PdfReader
  import opened PdfObjects

  // ---------- Where the objects are ----------

  lemma {:induction false} BodySplit(os: seq<string>, id: nat, k: nat)
    requires k < |os|
    ensures Body(os, id) == Body(os[..k], id) + (Wrapped(id + k, os[k]) + Body(os[k + 1..], id + k + 1))
  {
    hide Wrapped;
    if k > 0 {
      BodySplit(os[1..], id + 1, k - 1);
      assert os[1..][..k - 1] == os[..k][1..];
      assert os[1..][k..] == os[k + 1..];
      Regroup3(Wrapped(id, os[0]), Body(os[..k][1..], id + 1), Wrapped(id + k, os[k]) + Body(os[k + 1..], id + k + 1));
    } else {
      assert Body(os[..0], id) == "";
    }
  }

  lemma {:induction false} OffsetAt(os: seq<string>, id: nat, start: nat, k: nat)
    requires k < |os|
    ensures Offsets(os, id, start)[k] == start + |Body(os[..k], id)|
  {
    if k > 0 {
      OffsetAt(os[1..], id + 1, start + |Wrapped(id, os[0])|, k - 1);
      assert os[1..][..k - 1] == os[..k][1..];
    } else {
      assert Body(os[..0], id) == "";
    }
  }

  function OffsetOf(os: seq<string>, id: nat): nat
    requires 1 <= id <= |os|
  {
    Offsets(os, 1, |HEADER|)[id - 1]
  }

  /** The offset noted for object `id` is the exact position of its `id 0 obj` line, and the whole
      object stands there. */
  lemma ObjectAtOffset(os: seq<string>, root: nat, id: nat) returns (after: string)
    requires 1 <= id <= |os|
    ensures OffsetOf(os, id) <= |FileText(os, root)|
    ensures FileText(os, root)[OffsetOf(os, id)..] == Wrapped(id, os[id - 1]) + after
  {
    hide Body, Wrapped, Tail, Offsets;
    var k := id - 1;
    OffsetAt(os, 1, |HEADER|, k);
    BodySplit(os, 1, k);
    var mine, later := Wrapped(id, os[k]), Body(os[k + 1..], id + 1);
    after := later + Tail(os, root);
    FileParts(HEADER, Body(os[..k], 1), mine, later, Tail(os, root));
    CutAfter(HEADER + Body(os[..k], 1), mine + after);
  }

  lemma CutAfter(front: string, back: string)
    ensures (front + back)[|front|..] == back
  {
  }

  lemma FileParts(header: string, before: string, mine: string, later: string, tail: string)
    ensures header + (before + (mine + later)) + tail == header + before + (mine + (later + tail))
  {
    Regroup3(header, before, mine + later);
    Regroup3(header + before, mine + later, tail);
    Regroup3(mine, later, tail);
  }

  // ---------- The cross-reference table ----------

  const TEN_DIGITS := 10_000_000_000

  /** A table entry has its twenty bytes exactly when the offset has at most ten digits. */
  lemma EntryIsTwentyBytes(offset: nat)
    ensures |XrefEntry(offset)| == 20 <==> offset < TEN_DIGITS
  {
    DecLength(offset, 10);
    assert Pow10(10) == TEN_DIGITS by {
      assert Pow10(2) == 100 && Pow10(4) == 10000;
      assert Pow10(8) == 10000 * Pow10(4);
    }
  }

  lemma ReadPrintedEntry(offset: nat)
    requires offset < TEN_DIGITS
    ensures |XrefEntry(offset)| == 20
    ensures ReadEntry(XrefEntry(offset)) == Some(InUse(offset))
  {
    EntryIsTwentyBytes(offset);
    Pad10Value(offset);
    var e := XrefEntry(offset);
    assert e[..10] == Pad10(offset);
    assert e[10..] == " 00000 n \n";
    assert e[11..16] == "00000";
  }

  function Slots(offsets: seq<nat>): (slots: seq<Slot>)
    ensures |slots| == |offsets|
    ensures forall i :: 0 <= i < |offsets| ==> slots[i] == InUse(offsets[i])
  {
    if offsets == [] then [] else [InUse(offsets[0])] + Slots(offsets[1..])
  }

  lemma ReadFirstEntry(entry: string, entries: string, count: nat)
    requires |entry| == 20 && ReadEntry(entry).Some?
    ensures var others := ReadEntries(entries, count);
      ReadEntries(entry + entries, count + 1)
      == if others.None? then None else Some(([ReadEntry(entry).value] + others.value.0, others.value.1))
  {
    assert (entry + entries)[..20] == entry && (entry + entries)[20..] == entries;
  }

  lemma {:induction false} ReadPrintedEntries(offsets: seq<nat>, rest: string)
    requires forall i :: 0 <= i < |offsets| ==> offsets[i] < TEN_DIGITS
    ensures ReadEntries(XrefEntries(offsets) + rest, |offsets|) == Some((Slots(offsets), rest))
  {
    hide XrefEntry, ReadEntry;
    if offsets == [] {
      assert XrefEntries(offsets) + rest == rest;
    } else {
      ReadPrintedEntry(offsets[0]);
      ReadPrintedEntries(offsets[1..], rest);
      Regroup3(XrefEntry(offsets[0]), XrefEntries(offsets[1..]), rest);
      ReadFirstEntry(XrefEntry(offsets[0]), XrefEntries(offsets[1..]) + rest, |offsets| - 1);
    }
  }

  /** An offset of eleven digits spoils the table: a reader that takes twenty bytes per entry
      finds a digit where the blank should be. */
  lemma LongEntryUnreadable(offset: nat, rest: string)
    requires offset >= TEN_DIGITS
    ensures |XrefEntry(offset) + rest| >= 20 && ReadEntry((XrefEntry(offset) + rest)[..20]).None?
  {
    EntryIsTwentyBytes(offset);
    var e := (XrefEntry(offset) + rest)[..20];
    assert e[10] == Pad10(offset)[10];
    assert IsDigit(e[10]);
  }

  lemma LongFirst(offset: nat, later: string, count: nat)
    requires offset >= TEN_DIGITS && count > 0
    ensures ReadEntries(XrefEntry(offset) + later, count).None?
  {
    hide XrefEntry, ReadEntry;
    LongEntryUnreadable(offset, later);
  }

  lemma {:induction false} LongTableUnreadable(offsets: seq<nat>, rest: string)
    requires !AllBelow(offsets, TEN_DIGITS)
    ensures ReadEntries(XrefEntries(offsets) + rest, |offsets|).None?
  {
    hide XrefEntry, ReadEntry, ReadEntries;
    var later := XrefEntries(offsets[1..]) + rest;
    Regroup3(XrefEntry(offsets[0]), XrefEntries(offsets[1..]), rest);
    if offsets[0] >= TEN_DIGITS {
      LongFirst(offsets[0], later, |offsets|);
    } else {
      ReadPrintedEntry(offsets[0]);
      assert forall i :: 0 <= i < |offsets[1..]| ==> offsets[1..][i] == offsets[i + 1];
      LongTableUnreadable(offsets[1..], rest);
      ReadFirstEntry(XrefEntry(offsets[0]), later, |offsets| - 1);
    }
  }

  predicate AllBelow(offsets: seq<nat>, bound: nat) { forall i :: 0 <= i < |offsets| ==> offsets[i] < bound }

  /** The table reads back as the offsets exactly when all of them have at most ten digits. */
  lemma ReadPrintedXref(offsets: seq<nat>, rest: string)
    ensures ReadXref(XrefHead(|offsets| + 1) + FREE_ENTRY + XrefEntries(offsets) + rest)
         == if AllBelow(offsets, TEN_DIGITS) then Some(([Free] + Slots(offsets), rest)) else None
  {
    var entries := XrefEntries(offsets) + rest;
    Regroup(XrefHead(|offsets| + 1), FREE_ENTRY, XrefEntries(offsets), rest);
    ReadHead(|offsets| + 1, FREE_ENTRY + entries);
    ReadFreeEntry();
    ReadFirstEntry(FREE_ENTRY, entries, |offsets|);
    if AllBelow(offsets, TEN_DIGITS) {
      ReadPrintedEntries(offsets, rest);
    } else {
      LongTableUnreadable(offsets, rest);
    }
  }

  lemma ReadHead(count: nat, table: string)
    ensures ReadXref(XrefHead(count) + table) == ReadEntries(table, count)
  {
    var s := XrefHead(count) + table;
    var numbers := " " + (Dec(count) + ("\n" + table));
    HeadParts(Dec(count), table);
    assert s[..5] == "xref\n";
    assert s[5..] == Dec(0) + numbers;
    NextShow(Num(0), numbers);
    NextSkipsWhite(" ", Dec(count) + ("\n" + table));
    NextShow(Num(count), "\n" + table);
    assert ("\n" + table)[1..] == table;
  }

  lemma HeadParts(count: string, table: string)
    ensures "xref\n0 " + count + "\n" + table == "xref\n" + (Dec(0) + (" " + (count + ("\n" + table))))
  {
    assert Dec(0) == "0";
    assert "xref\n0 " == "xref\n" + "0" + " ";
  }

  lemma ReadFreeEntry()
    ensures |FREE_ENTRY| == 20 && ReadEntry(FREE_ENTRY) == Some(Free)
  {
    assert FREE_ENTRY[..10] == "0000000000";
    assert FREE_ENTRY[11..16] == "65535";
  }

  // ---------- The trailer ----------

  /** Printed objects hold no keyword but `R`. */
  lemma {:induction false} OnlyRefKeys(v: Val)
    ensures forall i :: 0 <= i < |Tokens(v)| && Tokens(v)[i].Key? ==> Tokens(v)[i] == R
    decreases v
  {
    match v
    case ArrayVal(items) => OnlyRefKeysItems(items);
    case DictVal(es) => OnlyRefKeysEntries(es);
    case _ =>
  }

  lemma {:induction false} OnlyRefKeysItems(items: Items)
    ensures forall i :: 0 <= i < |ItemTokens(items)| && ItemTokens(items)[i].Key? ==> ItemTokens(items)[i] == R
    decreases items
  {
    match items
    case NoItems =>
    case Item(v, tail) => OnlyRefKeys(v); OnlyRefKeysItems(tail);
  }

  lemma {:induction false} OnlyRefKeysEntries(es: Entries)
    ensures forall i :: 0 <= i < |EntryTokens(es)| && EntryTokens(es)[i].Key? ==> EntryTokens(es)[i] == R
    decreases es
  {
    match es
    case NoEntries =>
    case Entry(_, v, others) => OnlyRefKeys(v); OnlyRefKeysEntries(others);
  }

  const OBJECT := Key("obj")
  const TRAILER := Key("trailer")

  lemma ReadPrintedTrailer(size: nat, root: nat, xref: nat)
    ensures ReadTrailer(Trailer(size, root, xref)) == Some((size, RefVal(root, 0)))
  {
    var val := TrailerVal(size, root);
    TrailerTokens(size, root, xref);
    var ts := Tokens(val) + [Key("startxref")];
    assert ([TRAILER] + ts)[1..] == ts;
    ParseTokens(val, [Key("startxref")]);
    TrailerLookup(size, root);
  }

  lemma TrailerLookup(size: nat, root: nat)
    ensures Lookup(TrailerVal(size, root).entries, "Size") == Some(IntVal(size))
    ensures Lookup(TrailerVal(size, root).entries, "Root") == Some(RefVal(root, 0))
  {
    assert "Size"[0] != "Root"[0];
  }

  lemma OnlyRefStops(val: Val)
    ensures NoStops(Tokens(val), {"startxref"})
  {
    OnlyRefKeys(val);
  }

  lemma TrailerTokens(size: nat, root: nat, xref: nat)
    ensures Lex(Trailer(size, root, xref), {"startxref"}).0 == [TRAILER] + (Tokens(TrailerVal(size, root)) + [Key("startxref")])
  {
    hide Lexes, Lex, Next, Tokens, Dec, NoStops;
    var dict := "<< /Size " + Dec(size) + " /Root " + Dec(root) + " 0 R >>\n";
    var after := "\n" + Dec(xref) + "\n%%EOF\n";
    var val := TrailerVal(size, root);
    TrailerLexes(size, root);
    LexesToken(TRAILER, "\n");
    LexesThen("trailer" + "\n", [TRAILER], dict, Tokens(val));
    LexStopWord("startxref", after, {"startxref"});
    TrailerParts(Dec(size), Dec(root), Dec(xref));
    OnlyRefStops(val);
    NoStopsThen(TRAILER, Tokens(val), {"startxref"});
    LexesUse("trailer" + "\n" + dict, [TRAILER] + Tokens(val), "startxref" + after, {"startxref"});
    Regroup3([TRAILER], Tokens(val), [Key("startxref")]);
  }

  lemma NoStopsThen(t: Token, ts: seq<Token>, stops: set<string>)
    requires (t.Key? ==> t.word !in stops) && NoStops(ts, stops)
    ensures NoStops([t] + ts, stops)
  {
  }

  lemma TrailerParts(size: string, root: string, xref: string)
    ensures "trailer\n<< /Size " + size + " /Root " + root + " 0 R >>\nstartxref\n" + xref + "\n%%EOF\n"
         == "trailer" + "\n" + ("<< /Size " + size + " /Root " + root + " 0 R >>\n") + ("startxref" + ("\n" + xref + "\n%%EOF\n"))
  {
    assert "trailer" + "\n" + "<< /Size " == "trailer\n<< /Size ";
    assert " 0 R >>\n" + "startxref" + "\n" == " 0 R >>\nstartxref\n";
  }

  lemma LexStopWord(word: string, after: string, stops: set<string>)
    requires Showable(Key(word)) && EndsRun(after) && word in stops
    ensures Next(word + after).Some?
    ensures Lex(word + after, stops) == ([Key(word)], after)
  {
    NextShow(Key(word), after);
  }

  // ---------- startxref ----------

  const LAST := "startxref"

  lemma {:induction false} LastIndexAbove(s: string, at: nat, i: nat)
    requires at <= i && at + |LAST| <= |s| && s[at..at + |LAST|] == LAST
    requires forall j :: at < j < |s| ==> s[j] != 's'
    ensures LastIndex(s, LAST, i) == Some(at)
  {
    if i > at {
      if i + |LAST| <= |s| {
        assert s[i..i + |LAST|][0] == s[i];
      }
      LastIndexAbove(s, at, i - 1);
    }
  }

  /** The last `startxref` of `v` is followed by `position` and then by nothing. */
  predicate StartsAt(v: string, position: nat) {
    match LastIndex(v, LAST, |v|)
    case None => false
    case Some(at) =>
      match Next(v[at + 9..])
      case None => false
      case Some((t, after)) => t == Num(position) && Next(after).None?
  }

  const END_OF_FILE := "\n%%EOF\n"

  /** The last `startxref` of a file is the one of its trailer, whatever its pages say. */
  lemma FindStart(v: string, front: string, position: nat, end: string)
    requires v == front + (LAST + ("\n" + Dec(position) + end))
    requires end == END_OF_FILE
    ensures StartsAt(v, position)
  {
    hide LastIndex, Next;
    assert forall j :: 0 <= j < |end| ==> end[j] != 's' && !IsRegular(end[0]);
    LastIsLast(v, front, "\n" + Dec(position) + end);
    assert v[|front| + 9..] == "\n" + (Dec(position) + end);
    NextSkipsWhite("\n", Dec(position) + end);
    NextShow(Num(position), end);
    NothingAfter(end);
  }

  lemma LastHasOneS()
    ensures LAST[0] == 's' && forall i :: 1 <= i < |LAST| ==> LAST[i] != 's'
  {
  }

  lemma LastIsLast(v: string, front: string, number: string)
    requires v == front + (LAST + number)
    requires forall j :: 0 <= j < |number| ==> number[j] != 's'
    ensures LastIndex(v, LAST, |v|) == Some(|front|)
  {
    hide LastIndex, LAST;
    LastHasOneS();
    var m := |front| + |LAST|;
    assert v[|front|..m] == LAST;
    forall j | |front| < j < |v|
      ensures v[j] != 's'
    {
      if j < m { assert v[j] == LAST[j - |front|]; } else { assert v[j] == number[j - m]; }
    }
    LastIndexAbove(v, |front|, |v|);
  }

  lemma NothingAfter(end: string)
    requires end == END_OF_FILE
    ensures Next(end).None?
  {
    var rest := end[1..];
    assert |end| == 7 && end[0] == '\n' && end[6] == '\n';
    CommentToLineEnd(rest, 5);
    assert IsWhite(end[0]) && rest[0] == '%';
    assert Next(end) == Next(rest) == Next(rest[5..]);
    assert rest[5..][1..] == "";
  }

  lemma {:induction false} CommentToLineEnd(s: string, n: nat)
    requires |s| == n + 1 && s[n] == '\n'
    requires forall i :: 0 <= i < n ==> s[i] != '\n' && s[i] != '\r'
    ensures CommentLength(s) == n
  {
    if n > 0 { CommentToLineEnd(s[1..], n - 1); }
  }

  predicate TableAt(v: string, position: nat, slots: seq<Slot>, trailer: string) {
    position <= |v| && ReadXref(v[position..]) == Some((slots, trailer))
  }

  lemma ReadFrameFrom(v: string, position: nat, slots: seq<Slot>, trailer: string, root: Val)
    requires StartsAt(v, position) && TableAt(v, position, slots, trailer)
    requires ReadTrailer(trailer) == Some((|slots|, root))
    ensures ReadFrame(v) == Some((slots, root))
  {
  }

  function TableText(offsets: seq<nat>): string { XrefHead(|offsets| + 1) + FREE_ENTRY + XrefEntries(offsets) }

  /** From the last `startxref` the reader finds the table, if it can be read, and the root. */
  lemma ReadFile(v: string, front: string, offsets: seq<nat>, root: nat)
    requires v == front + (TableText(offsets) + Trailer(|offsets| + 1, root, |front|))
    ensures ReadFrame(v)
         == if AllBelow(offsets, TEN_DIGITS) then Some(([Free] + Slots(offsets), RefVal(root, 0))) else None
  {
    var trailer := Trailer(|offsets| + 1, root, |front|);
    assert v[|front|..] == TableText(offsets) + trailer;
    FindInFile(v, front, TableText(offsets), |offsets| + 1, root, |front|);
    ReadPrintedXref(offsets, trailer);
    if AllBelow(offsets, TEN_DIGITS) {
      assert TableAt(v, |front|, [Free] + Slots(offsets), trailer);
      ReadPrintedTrailer(|offsets| + 1, root, |front|);
      ReadFrameFrom(v, |front|, [Free] + Slots(offsets), trailer, RefVal(root, 0));
    } else {
      NoTableNoFrame(v, |front|);
    }
  }

  lemma NoTableNoFrame(v: string, position: nat)
    requires StartsAt(v, position) && position <= |v| && ReadXref(v[position..]).None?
    ensures ReadFrame(v).None?
  {
  }

  lemma FindInFile(v: string, front: string, table: string, size: nat, root: nat, position: nat)
    requires v == front + (table + Trailer(size, root, position))
    ensures StartsAt(v, position)
  {
    var before := StartOf(front, table, size, root, position);
    FindStart(v, before, position, END_OF_FILE);
  }

  lemma StartOf(front: string, table: string, size: nat, root: nat, position: nat) returns (before: string)
    ensures front + (table + Trailer(size, root, position)) == before + (LAST + ("\n" + Dec(position) + END_OF_FILE))
  {
    var dict := "trailer" + "\n" + ("<< /Size " + Dec(size) + " /Root " + Dec(root) + " 0 R >>\n");
    var start := LAST + ("\n" + Dec(position) + "\n%%EOF\n");
    TrailerParts(Dec(size), Dec(root), Dec(position));
    Regroup3(table, dict, start);
    Regroup3(front, table + dict, start);
    before := front + (table + dict);
  }

  /** `startxref` names the exact position of the cross-reference table. */
  lemma XrefStands(os: seq<string>, root: nat)
    ensures XrefPosition(os) <= |FileText(os, root)|
    ensures FileText(os, root)[XrefPosition(os)..]
         == XrefHead(|os| + 1) + FREE_ENTRY + XrefEntries(Offsets(os, 1, |HEADER|)) + Trailer(|os| + 1, root, XrefPosition(os))
  {
    var front := HEADER + Body(os, 1);
    assert (front + Tail(os, root))[|front|..] == Tail(os, root);
  }

  // ---------- Objects ----------

  lemma ObjectHeadLexes(id: nat)
    ensures Lexes(Dec(id) + " 0 obj\n", [Num(id), Num(0), OBJECT])
  {
    LexesToken(Num(id), " ");
    LexesToken(Num(0), " ");
    LexesToken(OBJECT, "\n");
    LexesThen(Dec(0) + " ", [Num(0)], "obj" + "\n", [OBJECT]);
    LexesThen(Dec(id) + " ", [Num(id)], Dec(0) + " " + ("obj" + "\n"), [Num(0)] + [OBJECT]);
    assert [Num(id)] + ([Num(0)] + [OBJECT]) == [Num(id), Num(0), OBJECT];
    assert Dec(0) == "0";
    assert Dec(id) + " " + (Dec(0) + " " + ("obj" + "\n")) == Dec(id) + " 0 obj\n";
  }

  lemma ObjectLexes(id: nat, payload: string, val: Val)
    requires Lexes(payload, Tokens(val))
    ensures Lexes(Dec(id) + " 0 obj\n" + payload, [Num(id), Num(0), OBJECT] + Tokens(val))
    ensures NoStops([Num(id), Num(0), OBJECT] + Tokens(val), OBJECT_ENDS)
  {
    ObjectHeadLexes(id);
    LexesThen(Dec(id) + " 0 obj\n", [Num(id), Num(0), OBJECT], payload, Tokens(val));
    OnlyRefKeys(val);
    assert "obj" !in OBJECT_ENDS && "R" !in OBJECT_ENDS;
  }

  lemma EndIsShowable(end: string)
    requires end in OBJECT_ENDS
    ensures Showable(Key(end))
  {
    assert Showable(Key("endobj"));
    assert Showable(Key("stream"));
  }

  /** The tokens of an object up to the keyword that ends it. */
  lemma LexObject(id: nat, payload: string, val: Val, end: string, after: string)
    requires Lexes(payload, Tokens(val))
    requires end in OBJECT_ENDS && EndsRun(after)
    ensures Lex(Dec(id) + " 0 obj\n" + payload + (end + after), OBJECT_ENDS)
         == ([Num(id), Num(0), OBJECT] + (Tokens(val) + [Key(end)]), after)
    ensures Lex(Dec(id) + " 0 obj\n" + payload + ("\n" + (end + after)), OBJECT_ENDS)
         == ([Num(id), Num(0), OBJECT] + (Tokens(val) + [Key(end)]), after)
  {
    hide Lex, Next, Dec, Lexes, EndsRun;
    ObjectLexes(id, payload, val);
    EndIsShowable(end);
    LexStopWord(end, after, OBJECT_ENDS);
    NextSkipsWhite("\n", end + after);
    LexSkipsWhite("\n", end + after, OBJECT_ENDS);
    var text, ts := Dec(id) + " 0 obj\n" + payload, [Num(id), Num(0), OBJECT] + Tokens(val);
    LexesUse(text, ts, end + after, OBJECT_ENDS);
    LexesUse(text, ts, "\n" + (end + after), OBJECT_ENDS);
    Regroup3([Num(id), Num(0), OBJECT], Tokens(val), [Key(end)]);
  }

  /** Object `id` is found at the offset its slot holds. */
  predicate StandsAt(v: string, slots: seq<Slot>, id: nat, payload: string, after: string) {
    && id < |slots| && slots[id].InUse? && slots[id].offset <= |v|
    && v[slots[id].offset..] == Wrapped(id, payload) + after
  }

  lemma ParseObject(id: nat, val: Val, end: string)
    ensures var ts := [Num(id), Num(0), OBJECT] + (Tokens(val) + [Key(end)]);
      && |ts| >= 3 && ts[..3] == [Num(id), Num(0), Key("obj")]
      && ParseVal(ts[3..]) == Some((val, [Key(end)]))
  {
    var ts := [Num(id), Num(0), OBJECT] + (Tokens(val) + [Key(end)]);
    assert ts[3..] == Tokens(val) + [Key(end)];
    ParseTokens(val, [Key(end)]);
  }

  lemma ReadPlain(v: string, slots: seq<Slot>, id: nat, payload: string, val: Val, after: string)
    requires StandsAt(v, slots, id, payload, after)
    requires Lexes(payload, Tokens(val))
    ensures ReadObject(v, slots, id) == Some(Object(val, None))
  {
    PlainParts(Dec(id) + " 0 obj\n", payload, after);
    LexObject(id, payload, val, "endobj", "\n" + after);
    ParseObject(id, val, "endobj");
  }

  lemma PlainParts(head: string, payload: string, after: string)
    ensures head + payload + "\nendobj\n" + after == head + payload + ("\n" + ("endobj" + ("\n" + after)))
  {
  }

  lemma ReadContents(v: string, slots: seq<Slot>, id: nat, stream: string, after: string)
    requires StandsAt(v, slots, id, ContentObject(stream), after)
    ensures ReadObject(v, slots, id) == Some(Object(LengthVal(|stream|), Some(stream)))
  {
    var val := LengthVal(|stream|);
    var dict := "<< /Length " + Dec(|stream|) + " >>\n";
    var rest := "\n" + (stream + ("\nendstream" + ("\nendobj\n" + after)));
    LengthLexes(|stream|);
    StreamParts(Dec(id) + " 0 obj\n", Dec(|stream|), stream, after);
    LexObject(id, dict, val, "stream", rest);
    ParseObject(id, val, "stream");
    ReadPrintedStream(stream, "\nendobj\n" + after);
  }

  lemma StreamHead(length: string, stream: string)
    ensures "<< /Length " + length + " >>\nstream\n" + stream == "<< /Length " + length + " >>\n" + ("stream\n" + stream)
  {
    assert " >>\nstream\n" == " >>\n" + "stream\n";
    Regroup3("<< /Length " + length, " >>\n", "stream\n");
  }

  lemma StreamRegrouped(head: string, open: string, stream: string, after: string)
    ensures head + (open + ("stream\n" + stream) + "\nendstream") + "\nendobj\n" + after
         == head + open + ("stream" + ("\n" + (stream + ("\nendstream" + ("\nendobj\n" + after)))))
  {
    assert "stream\n" == "stream" + "\n";
    var rest := stream + ("\nendstream" + ("\nendobj\n" + after));
    Regroup3("stream", "\n", rest);
    Regroup3("stream\n", stream, "\nendstream" + ("\nendobj\n" + after));
    Regroup3(open, "stream\n" + stream, "\nendstream");
    Regroup3(head, open, ("stream\n" + stream) + "\nendstream");
  }

  lemma StreamParts(head: string, length: string, stream: string, after: string)
    ensures head + ("<< /Length " + length + " >>\nstream\n" + stream + "\nendstream") + "\nendobj\n" + after
         == head + ("<< /Length " + length + " >>\n")
            + ("stream" + ("\n" + (stream + ("\nendstream" + ("\nendobj\n" + after)))))
  {
    StreamHead(length, stream);
    var open := "<< /Length " + length + " >>\n";
    StreamRegrouped(head, open, stream, after);
  }

  lemma LengthIsThere(n: nat)
    ensures Lookup(LengthVal(n).entries, "Length") == Some(IntVal(n))
  {
  }

  lemma StreamPlace(stream: string, behind: string)
    ensures var rest := "\n" + (stream + behind);
      rest[0] == '\n' && rest[1..1 + |stream|] == stream && rest[1 + |stream|..] == behind
  {
  }

  lemma ReadPrintedStream(stream: string, after: string)
    requires EndsRun(after)
    ensures ReadStream(LengthVal(|stream|), "\n" + (stream + ("\nendstream" + after))) == Some(stream)
  {
    hide Next, EndsRun, Lookup;
    LengthIsThere(|stream|);
    StreamPlace(stream, "\nendstream" + after);
    NextEndstream(after);
  }

  lemma EndstreamIsRegular()
    ensures AllRegular("endstream")
  {
    hide IsRegular;
    LettersAreRegular();
  }

  lemma LettersAreRegular()
    ensures forall c :: 'a' <= c <= 'z' ==> IsRegular(c)
  {
  }

  lemma EndstreamIsShowable()
    ensures Showable(Key("endstream"))
  {
    hide AllRegular, IsRegular;
    EndstreamIsRegular();
  }

  lemma NextEndstream(after: string)
    requires EndsRun(after)
    ensures Next("\nendstream" + after) == Some((Key("endstream"), after))
  {
    assert "\nendstream" + after == "\n" + ("endstream" + after);
    NextSkipsWhite("\n", "endstream" + after);
    EndstreamIsShowable();
    NextShow(Key("endstream"), after);
  }
}
