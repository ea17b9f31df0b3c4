/**
 A reader for the text of a PDF file, independent of the writer. It starts at the last `startxref`,
 follows the cross-reference table (section 7.5.4 of ISO 32000-1) and the trailer (7.5.5) to the
 catalog, walks the page tree (7.7.3), and runs each page's content stream (7.8.2, 9.4) to find
 what is shown where.
 */
module PdfReader {
  import opened Text
  import opened Latin1
  import opened PdfSyntax

  // ---------- Content streams ----------

  /** A string and the position of the line it is shown on. */
  datatype Shown = Shown(x: int, y: int, text: string)

  datatype TextState = TextState(inText: bool, font: Option<string>, leading: int, x: int, y: int)

  const START := TextState(false, None, 0, 0, 0)

  /** One operator with its operands: the new state and what the operator shows. */
  function Operate(op: string, args: seq<Token>, st: TextState): Option<(TextState, seq<Shown>)> {
    if op == "BT" then
      if args == [] && !st.inText then Some((st.(inText := true, x := 0, y := 0), [])) else None
    else if op == "ET" then
      if args == [] && st.inText then Some((st.(inText := false), [])) else None
    else if op == "Tf" then
      if |args| == 2 && args[0].Name? && args[1].Num? then Some((st.(font := Some(args[0].name)), [])) else None
    else if op == "TL" then
      if |args| == 1 && args[0].Num? then Some((st.(leading := args[0].n), [])) else None
    else if op == "Td" then
      if |args| == 2 && args[0].Num? && args[1].Num? && st.inText
      then Some((st.(x := st.x + args[0].n, y := st.y + args[1].n), [])) else None
    else if op == "T*" then
      if args == [] && st.inText then Some((st.(y := st.y - st.leading), [])) else None
    else if op == "Tj" then
      if |args| == 1 && args[0].Str? && st.inText && st.font.Some?
      then Some((st, [Shown(st.x, st.y, args[0].text)])) else None
    else None
  }

  /** Runs a token list: operands pile up until an operator takes them. */
  function Execute(ts: seq<Token>, args: seq<Token>, st: TextState): Option<seq<Shown>>
    decreases |ts|
  {
    if ts == [] then
      if args == [] && !st.inText then Some([]) else None
    else if ts[0].Key? then
      var r := Operate(ts[0].word, args, st);
      if r.None? then None else
        var later := Execute(ts[1..], [], r.value.0);
        if later.None? then None else Some(r.value.1 + later.value)
    else Execute(ts[1..], args + [ts[0]], st)
  }

  function ReadContent(stream: string): Option<seq<Shown>> {
    var (ts, rest) := Lex(stream, {});
    if Next(rest).None? then Execute(ts, [], START) else None
  }

  // ---------- Cross-reference table ----------

  datatype Slot = Free | InUse(offset: nat)

  /** One entry: ten digits, a blank, five digits, a blank, `n` or `f`, and a two-character line end. */
  function ReadEntry(e: string): Option<Slot>
    requires |e| == 20
  {
    if AllDigits(e[..10]) && e[10] == ' ' && AllDigits(e[11..16]) && e[16] == ' ' && e[18] == ' ' && e[19] == '\n' then
      if e[17] == 'n' then Some(InUse(Value(e[..10])))
      else if e[17] == 'f' then Some(Free)
      else None
    else None
  }

  function ReadEntries(table: string, count: nat): Option<(seq<Slot>, string)> {
    if count == 0 then Some(([], table))
    else if |table| < 20 then None
    else
      var slot := ReadEntry(table[..20]);
      var others := ReadEntries(table[20..], count - 1);
      if slot.None? || others.None? then None
      else Some(([slot.value] + others.value.0, others.value.1))
  }

  function ReadXref(s: string): Option<(seq<Slot>, string)> {
    if |s| < 5 || s[..5] != "xref\n" then None
    else
      var first := Next(s[5..]);
      if first.None? || first.value.0 != Num(0) then None
      else
        var count := Next(first.value.1);
        if count.None? || !count.value.0.Num? || count.value.1 == "" || count.value.1[0] != '\n' then None
        else ReadEntries(count.value.1[1..], count.value.0.n)
  }

  // ---------- Objects ----------

  datatype Object = Object(val: Val, stream: Option<string>)

  const OBJECT_ENDS := {"endobj", "stream"}

  /** The data of a stream object: `rest` is the text after the keyword `stream`. */
  function ReadStream(val: Val, rest: string): Option<string> {
    if !val.DictVal? then None
    else match Lookup(val.entries, "Length")
      case Some(IntVal(n)) =>
        var skip := if |rest| > 1 && rest[0] == '\r' && rest[1] == '\n' then 2
                    else if |rest| > 0 && rest[0] == '\n' then 1 else 0;
        if skip == 0 || |rest| < skip + n then None
        else
          var end := Next(rest[skip + n..]);
          if end.Some? && end.value.0 == Key("endstream") then Some(rest[skip..skip + n]) else None
      case _ => None
  }

  /** Object number `id` of a file, found through the cross-reference table. */
  function ReadObject(v: string, slots: seq<Slot>, id: nat): Option<Object> {
    if id >= |slots| || slots[id].Free? || slots[id].offset > |v| then None
    else
      var (ts, rest) := Lex(v[slots[id].offset..], OBJECT_ENDS);
      if |ts| < 3 || ts[..3] != [Num(id), Num(0), Key("obj")] then None
      else
        var r := ParseVal(ts[3..]);
        if r.None? then None
        else if r.value.1 == [Key("endobj")] then Some(Object(r.value.0, None))
        else if r.value.1 == [Key("stream")] then
          var data := ReadStream(r.value.0, rest);
          if data.None? then None else Some(Object(r.value.0, data))
        else None
  }

  /** The dictionary of an object whose `Type` is `kind`. */
  function ReadTyped(v: string, slots: seq<Slot>, ref: Val, kind: string): Option<Entries> {
    if !ref.RefVal? then None
    else match ReadObject(v, slots, ref.id)
      case Some(Object(DictVal(es), None)) =>
        if Lookup(es, "Type") == Some(NameVal(kind)) then Some(es) else None
      case _ => None
  }

  // ---------- Page tree ----------

  /** The shown strings of a page; its font must be a font object of the file. */
  function ReadPage(v: string, slots: seq<Slot>, ref: Val, parent: Val): Option<seq<Shown>> {
    match ReadTyped(v, slots, ref, "Page")
    case None => None
    case Some(page) =>
      if Lookup(page, "Parent") != Some(parent) || !HasFont(v, slots, page) then None
      else match Lookup(page, "Contents")
        case Some(RefVal(id, _)) =>
          (match ReadObject(v, slots, id)
           case Some(Object(_, Some(stream))) => ReadContent(stream)
           case _ => None)
        case _ => None
  }

  predicate HasFont(v: string, slots: seq<Slot>, page: Entries) {
    match Lookup(page, "Resources")
    case Some(DictVal(resources)) =>
      (match Lookup(resources, "Font")
       case Some(DictVal(fonts)) =>
         (match Lookup(fonts, "F1")
          case Some(ref) => ReadTyped(v, slots, ref, "Font").Some?
          case None => false)
       case _ => false)
    case _ => false
  }

  function ReadKids(v: string, slots: seq<Slot>, kids: Items, parent: Val): Option<seq<seq<Shown>>> {
    match kids
    case NoItems => Some([])
    case Item(ref, tail) =>
      var page := ReadPage(v, slots, ref, parent);
      var others := ReadKids(v, slots, tail, parent);
      if page.None? || others.None? then None else Some([page.value] + others.value)
  }

  function ReadTree(v: string, slots: seq<Slot>, root: Val): Option<seq<seq<Shown>>> {
    match ReadTyped(v, slots, root, "Catalog")
    case None => None
    case Some(catalog) =>
      match Lookup(catalog, "Pages")
      case None => None
      case Some(ref) =>
        match ReadTyped(v, slots, ref, "Pages")
        case None => None
        case Some(tree) =>
          match (Lookup(tree, "Kids"), Lookup(tree, "Count"))
          case (Some(ArrayVal(kids)), Some(IntVal(count))) =>
            var pages := ReadKids(v, slots, kids, ref);
            if pages.Some? && |pages.value| == count then pages else None
          case _ => None
  }

  // ---------- The file ----------

  /** The last occurrence of `pat` in `s` at `i` or before. */
  function LastIndex(s: string, pat: string, i: nat): (r: Option<nat>)
    ensures r.Some? ==> r.value <= i && r.value + |pat| <= |s| && s[r.value..r.value + |pat|] == pat
  {
    if i + |pat| <= |s| && s[i..i + |pat|] == pat then Some(i)
    else if i == 0 then None
    else LastIndex(s, pat, i - 1)
  }

  /** The file size that the trailer declares and the object it calls the root. */
  function ReadTrailer(s: string): Option<(nat, Val)> {
    var (ts, _) := Lex(s, {"startxref"});
    if ts == [] || ts[0] != Key("trailer") then None
    else match ParseVal(ts[1..])
      case Some((DictVal(es), rest)) =>
        if rest != [Key("startxref")] then None
        else (match (Lookup(es, "Size"), Lookup(es, "Root"))
              case (Some(IntVal(size)), Some(root)) => Some((size, root))
              case _ => None)
      case _ => None
  }

  /** The cross-reference table and the root object of a file. */
  function ReadFrame(v: string): Option<(seq<Slot>, Val)> {
    match LastIndex(v, "startxref", |v|)
    case None => None
    case Some(at) =>
      match Next(v[at + 9..])
      case Some((Num(position), rest)) =>
        if position > |v| || Next(rest).Some? then None
        else (match ReadXref(v[position..])
              case None => None
              case Some((slots, after)) =>
                match ReadTrailer(after)
                case None => None
                case Some((size, root)) => if size == |slots| then Some((slots, root)) else None)
      case _ => None
  }

  function ReadText(v: string): Option<seq<seq<Shown>>> {
    match ReadFrame(v)
    case None => None
    case Some((slots, root)) => ReadTree(v, slots, root)
  }

  /** What every page of a PDF file shows. */
  function ReadPdf(file: seq<byte>): Option<seq<seq<Shown>>> { ReadText(Decode(file)) }
}
