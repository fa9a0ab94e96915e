/** JSON texts: any value, printed in any way RFC 8259 allows.  Every printed object is one the
    scanner takes whole. */
module JsonText {
  import opened Wrappers
  import opened Characters
  import opened ObjectScanner

  // ---------- values, and the ways to print them ----------

  datatype Json =
    | Null
    | Boolean(b: bool)
    | Number(literal: string)
    | String(s: string)
    | Array(elements: Values)
    | Object(members: Fields)

  datatype Values = NoValues | Value(head: Json, tail: Values)

  datatype Fields = NoFields | Field(name: string, value: Json, tail: Fields)

  /** A character of a string literal: as it is, with a letter behind the backslash, or by its
      UTF-16 code in hexadecimal digits, each a capital or not. */
  datatype Form = AsIs | Short | Code(capitals: seq<bool>)

  datatype Written = Written(value: char, form: Form)

  /** A value as it is printed: how each character is written, and the blanks at each place. */
  datatype Doc =
    | NullDoc
    | BooleanDoc(b: bool)
    | NumberDoc(literal: string)
    | StringDoc(chars: seq<Written>)
    | ArrayDoc(open: string, elements: Elements)
    | ObjectDoc(open: string, members: Members)

  datatype Elements = NoElements | Element(head: Doc, after: string, comma: string, tail: Elements)

  datatype Members =
    | NoMembers
    | Member(name: seq<Written>, beforeColon: string, afterColon: string, value: Doc, after: string, comma: string,
             tail: Members)

  // ---------- which value a text denotes ----------

  function Said(chars: seq<Written>): string {
    seq(|chars|, i requires 0 <= i < |chars| => chars[i].value)
  }

  function Meaning(d: Doc): Json {
    match d
    case NullDoc => Null
    case BooleanDoc(b) => Boolean(b)
    case NumberDoc(literal) => Number(literal)
    case StringDoc(chars) => String(Said(chars))
    case ArrayDoc(_, es) => Array(ElementsMeaning(es))
    case ObjectDoc(_, ms) => Object(MembersMeaning(ms))
  }

  function ElementsMeaning(es: Elements): Values {
    match es
    case NoElements => NoValues
    case Element(d, _, _, tail) => Value(Meaning(d), ElementsMeaning(tail))
  }

  function MembersMeaning(ms: Members): Fields {
    match ms
    case NoMembers => NoFields
    case Member(name, _, _, d, _, _, tail) => Field(Said(name), Meaning(d), MembersMeaning(tail))
  }

  // ---------- what is allowed ----------

  predicate HasShort(c: char) {
    c == '"' || c == '\\' || c == '/' || c == '\U{0008}' || c == '\U{000C}' || c == '\n' || c == '\r' || c == '\t'
  }

  predicate LegalWritten(w: Written) {
    match w.form
    case AsIs => w.value >= '\U{0020}' && w.value != '"' && w.value != '\\'
    case Short => HasShort(w.value)
    case Code(capitals) => |capitals| == if w.value as int < 0x10000 then 4 else 8
  }

  predicate LegalChars(chars: seq<Written>) {
    forall i | 0 <= i < |chars| :: LegalWritten(chars[i])
  }

  predicate LegalNumber(literal: string) {
    forall i | 0 <= i < |literal| :: '0' <= literal[i] <= '9' || literal[i] in "+-.eE"
  }

  predicate LegalDoc(d: Doc) {
    match d
    case NumberDoc(literal) => LegalNumber(literal)
    case StringDoc(chars) => LegalChars(chars)
    case ArrayDoc(open, es) => Blank(open) && LegalElements(es)
    case ObjectDoc(open, ms) => Blank(open) && LegalMembers(ms)
    case _ => true
  }

  predicate LegalElements(es: Elements) {
    es.Element? ==> LegalDoc(es.head) && Blank(es.after) && Blank(es.comma) && LegalElements(es.tail)
  }

  predicate LegalMembers(ms: Members) {
    ms.Member? ==>
      LegalChars(ms.name) && Blank(ms.beforeColon) && Blank(ms.afterColon) && LegalDoc(ms.value)
      && Blank(ms.after) && Blank(ms.comma) && LegalMembers(ms.tail)
  }

  // ---------- the text ----------

  function HexDigit(n: int, capital: bool): char
    requires 0 <= n < 16
  {
    if capital then "0123456789ABCDEF"[n] else "0123456789abcdef"[n]
  }

  /** The letter behind the backslash. */
  function ShortLetter(c: char): char {
    if c == '\U{0008}' then 'b'
    else if c == '\U{000C}' then 'f'
    else if c == '\n' then 'n'
    else if c == '\r' then 'r'
    else if c == '\t' then 't'
    else c
  }

  /** One UTF-16 code unit, followed by `k`. */
  function UnitThen(n: int, capitals: seq<bool>, k: string): string
    requires 0 <= n < 0x10000 && |capitals| == 4
  {
    ['\\'] + (['u'] + ([HexDigit(n / 0x1000, capitals[0])] + ([HexDigit(n / 0x100 % 0x10, capitals[1])]
                       + ([HexDigit(n / 0x10 % 0x10, capitals[2])] + ([HexDigit(n % 0x10, capitals[3])] + k)))))
  }

  /** The surrogates of a character beyond the basic plane. */
  function HighUnit(c: char): (n: int)
    requires c as int >= 0x10000
    ensures 0 <= n < 0x10000
  {
    0xD800 + (c as int - 0x10000) / 0x400
  }

  function LowUnit(c: char): (n: int)
    requires c as int >= 0x10000
    ensures 0 <= n < 0x10000
  {
    0xDC00 + (c as int - 0x10000) % 0x400
  }

  function WrittenThen(w: Written, k: string): string
    requires LegalWritten(w)
  {
    match w.form
    case AsIs => [w.value] + k
    case Short => ['\\'] + ([ShortLetter(w.value)] + k)
    case Code(capitals) =>
      if w.value as int < 0x10000 then UnitThen(w.value as int, capitals, k)
      else UnitThen(HighUnit(w.value), capitals[..4], UnitThen(LowUnit(w.value), capitals[4..], k))
  }

  function CharsThen(s: string, k: string): string {
    if s == "" then k else [s[0]] + CharsThen(s[1..], k)
  }

  function WrittenAllThen(chars: seq<Written>, k: string): string
    requires LegalChars(chars)
  {
    if chars == [] then k else WrittenThen(chars[0], WrittenAllThen(chars[1..], k))
  }

  function LiteralThen(chars: seq<Written>, k: string): string
    requires LegalChars(chars)
  {
    ['"'] + WrittenAllThen(chars, ['"'] + k)
  }

  /** The printed value, followed by `k`. */
  function PrintThen(d: Doc, k: string): string
    requires LegalDoc(d)
  {
    match d
    case NullDoc => CharsThen("null", k)
    case BooleanDoc(b) => CharsThen(if b then "true" else "false", k)
    case NumberDoc(literal) => CharsThen(literal, k)
    case StringDoc(chars) => LiteralThen(chars, k)
    case ArrayDoc(open, es) => ['['] + CharsThen(open, ElementsThen(es, [']'] + k))
    case ObjectDoc(open, ms) => ['{'] + CharsThen(open, MembersThen(ms, ['}'] + k))
  }

  function ElementsThen(es: Elements, k: string): string
    requires LegalElements(es)
  {
    match es
    case NoElements => k
    case Element(d, after, comma, tail) =>
      var more := if tail.NoElements? then k else [','] + CharsThen(comma, ElementsThen(tail, k));
      PrintThen(d, CharsThen(after, more))
  }

  function MembersThen(ms: Members, k: string): string
    requires LegalMembers(ms)
  {
    match ms
    case NoMembers => k
    case Member(name, beforeColon, afterColon, d, after, comma, tail) =>
      var more := if tail.NoMembers? then k else [','] + CharsThen(comma, MembersThen(tail, k));
      var rest := PrintThen(d, CharsThen(after, more));
      LiteralThen(name, CharsThen(beforeColon, [':'] + CharsThen(afterColon, rest)))
  }

  function Text(d: Doc): string
    requires LegalDoc(d)
  {
    PrintThen(d, "")
  }

  /** The text is one of the ways to print the value. */
  ghost predicate Prints(v: Json, text: string) {
    exists d :: LegalDoc(d) && Meaning(d) == v && Text(d) == text
  }

  // ---------- a printed value is a legal body ----------

  function CharsBody(s: string, next: Body): Body {
    if s == "" then next else Plain(s[0], CharsBody(s[1..], next))
  }

  predicate PlainChars(s: string) {
    forall i | 0 <= i < |s| :: s[i] != '"' && s[i] != '{' && s[i] != '}'
  }

  lemma {:induction false} CharsBodyText(s: string, next: Body, k: string)
    requires PlainChars(s) && Legal(next)
    ensures Legal(CharsBody(s, next)) && TextThen(CharsBody(s, next), k) == CharsThen(s, TextThen(next, k))
  {
    if s != "" { CharsBodyText(s[1..], next, k); }
  }

  lemma BlankBodyText(s: string, next: Body, k: string)
    requires Blank(s) && Legal(next)
    ensures Legal(CharsBody(s, next)) && TextThen(CharsBody(s, next), k) == CharsThen(s, TextThen(next, k))
  {
    forall i | 0 <= i < |s| ensures s[i] != '"' && s[i] != '{' && s[i] != '}' {
      assert IsWhitespace(s[i]);
    }
    CharsBodyText(s, next, k);
  }

  function UnitPieces(n: int, capitals: seq<bool>): seq<Piece>
    requires 0 <= n < 0x10000 && |capitals| == 4
  {
    [Escape('u'), Raw(HexDigit(n / 0x1000, capitals[0])), Raw(HexDigit(n / 0x100 % 0x10, capitals[1])),
     Raw(HexDigit(n / 0x10 % 0x10, capitals[2])), Raw(HexDigit(n % 0x10, capitals[3]))]
  }

  function PiecesOf(w: Written): seq<Piece>
    requires LegalWritten(w)
  {
    match w.form
    case AsIs => [Raw(w.value)]
    case Short => [Escape(ShortLetter(w.value))]
    case Code(capitals) =>
      if w.value as int < 0x10000 then UnitPieces(w.value as int, capitals)
      else UnitPieces(HighUnit(w.value), capitals[..4]) + UnitPieces(LowUnit(w.value), capitals[4..])
  }

  function StringPieces(chars: seq<Written>): seq<Piece>
    requires LegalChars(chars)
  {
    if chars == [] then [] else PiecesOf(chars[0]) + StringPieces(chars[1..])
  }

  predicate LegalPieces(pieces: seq<Piece>) {
    forall i | 0 <= i < |pieces| :: LegalPiece(pieces[i])
  }

  lemma HexIsPlain(n: int, capital: bool)
    requires 0 <= n < 16
    ensures HexDigit(n, capital) != '"' && HexDigit(n, capital) != '\\'
  {
  }

  lemma {:induction false} StringThenConcat(p: seq<Piece>, q: seq<Piece>, k: string)
    ensures StringThen(p + q, k) == StringThen(p, StringThen(q, k))
  {
    if p == [] {
      assert p + q == q;
    } else {
      StringThenConcat(p[1..], q, k);
      assert (p + q)[1..] == p[1..] + q;
    }
  }

  lemma OnePiece(p: Piece, k: string)
    ensures StringThen([p], k) == if p.Raw? then [p.c] + k else ['\\'] + ([p.c] + k)
  {
    assert [p][1..] == [];
  }

  lemma FivePieces(a: Piece, b: Piece, c: Piece, d: Piece, e: Piece, k: string)
    ensures StringThen([a, b, c, d, e], k) ==
            StringThen([a], StringThen([b], StringThen([c], StringThen([d], StringThen([e], k)))))
  {
    hide StringThen;
    StringThenConcat([d], [e], k);
    StringThenConcat([c], [d] + [e], k);
    StringThenConcat([b], [c] + ([d] + [e]), k);
    StringThenConcat([a], [b] + ([c] + ([d] + [e])), k);
    assert [a] + ([b] + ([c] + ([d] + [e]))) == [a, b, c, d, e];
  }

  lemma UnitPiecesText(n: int, capitals: seq<bool>, k: string)
    requires 0 <= n < 0x10000 && |capitals| == 4
    ensures StringThen(UnitPieces(n, capitals), k) == UnitThen(n, capitals, k) && LegalPieces(UnitPieces(n, capitals))
  {
    HexIsPlain(n / 0x1000, capitals[0]);
    HexIsPlain(n / 0x100 % 0x10, capitals[1]);
    HexIsPlain(n / 0x10 % 0x10, capitals[2]);
    HexIsPlain(n % 0x10, capitals[3]);
    var a, b := HexDigit(n / 0x1000, capitals[0]), HexDigit(n / 0x100 % 0x10, capitals[1]);
    var c, d := HexDigit(n / 0x10 % 0x10, capitals[2]), HexDigit(n % 0x10, capitals[3]);
    hide HexDigit, StringThen;
    FivePieces(Escape('u'), Raw(a), Raw(b), Raw(c), Raw(d), k);
    OnePiece(Raw(d), k);
    OnePiece(Raw(c), [d] + k);
    OnePiece(Raw(b), [c] + ([d] + k));
    OnePiece(Raw(a), [b] + ([c] + ([d] + k)));
    OnePiece(Escape('u'), [a] + ([b] + ([c] + ([d] + k))));
  }

  lemma PiecesOfText(w: Written, k: string)
    requires LegalWritten(w)
    ensures StringThen(PiecesOf(w), k) == WrittenThen(w, k) && LegalPieces(PiecesOf(w))
  {
    hide StringThen, UnitPieces, UnitThen, HighUnit, LowUnit, ShortLetter;
    match w.form
    case AsIs => OnePiece(Raw(w.value), k);
    case Short => OnePiece(Escape(ShortLetter(w.value)), k);
    case Code(capitals) =>
      if w.value as int < 0x10000 {
        UnitPiecesText(w.value as int, capitals, k);
      } else {
        var high, low := UnitPieces(HighUnit(w.value), capitals[..4]), UnitPieces(LowUnit(w.value), capitals[4..]);
        UnitPiecesText(LowUnit(w.value), capitals[4..], k);
        UnitPiecesText(HighUnit(w.value), capitals[..4], StringThen(low, k));
        StringThenConcat(high, low, k);
      }
  }

  lemma {:induction false} StringPiecesText(chars: seq<Written>, k: string)
    requires LegalChars(chars)
    ensures StringThen(StringPieces(chars), k) == WrittenAllThen(chars, k) && LegalPieces(StringPieces(chars))
  {
    if chars != [] {
      hide StringThen, PiecesOf, WrittenThen, LegalWritten, LegalPiece;
      StringPiecesText(chars[1..], k);
      PiecesOfText(chars[0], WrittenAllThen(chars[1..], k));
      StringThenConcat(PiecesOf(chars[0]), StringPieces(chars[1..]), k);
    }
  }

  function LiteralBody(chars: seq<Written>, next: Body): Body
    requires LegalChars(chars)
  {
    Quoted(StringPieces(chars), next)
  }

  lemma LiteralBodyText(chars: seq<Written>, next: Body, k: string)
    requires LegalChars(chars) && Legal(next)
    ensures Legal(LiteralBody(chars, next))
    ensures TextThen(LiteralBody(chars, next), k) == LiteralThen(chars, TextThen(next, k))
  {
    hide StringPieces, WrittenAllThen, LegalChars, LegalPiece;
    StringPiecesText(chars, ['"'] + TextThen(next, k));
  }

  function BodyOf(d: Doc, next: Body): Body
    requires LegalDoc(d)
  {
    match d
    case NullDoc => CharsBody("null", next)
    case BooleanDoc(b) => CharsBody(if b then "true" else "false", next)
    case NumberDoc(literal) => CharsBody(literal, next)
    case StringDoc(chars) => LiteralBody(chars, next)
    case ArrayDoc(open, es) => Plain('[', CharsBody(open, ElementsBody(es, Plain(']', next))))
    case ObjectDoc(open, ms) => Nested(CharsBody(open, MembersBody(ms, End)), next)
  }

  function ElementsBody(es: Elements, next: Body): Body
    requires LegalElements(es)
  {
    match es
    case NoElements => next
    case Element(d, after, comma, tail) =>
      var more := if tail.NoElements? then next else Plain(',', CharsBody(comma, ElementsBody(tail, next)));
      BodyOf(d, CharsBody(after, more))
  }

  function MembersBody(ms: Members, next: Body): Body
    requires LegalMembers(ms)
  {
    match ms
    case NoMembers => next
    case Member(name, beforeColon, afterColon, d, after, comma, tail) =>
      var more := if tail.NoMembers? then next else Plain(',', CharsBody(comma, MembersBody(tail, next)));
      var rest := BodyOf(d, CharsBody(after, more));
      LiteralBody(name, CharsBody(beforeColon, Plain(':', CharsBody(afterColon, rest))))
  }

  lemma WordsArePlain(literal: string)
    requires LegalNumber(literal) || literal == "null" || literal == "true" || literal == "false"
    ensures PlainChars(literal)
  {
  }

  lemma {:induction false} BodyOfText(d: Doc, next: Body, k: string)
    requires LegalDoc(d) && Legal(next)
    ensures Legal(BodyOf(d, next)) && TextThen(BodyOf(d, next), k) == PrintThen(d, TextThen(next, k))
    decreases d
  {
    hide CharsBody, CharsThen, LiteralBody, LiteralThen, LegalChars, Blank, LegalNumber, PlainChars;
    match d
    case NullDoc =>
      WordsArePlain("null");
      CharsBodyText("null", next, k);
    case BooleanDoc(b) =>
      WordsArePlain(if b then "true" else "false");
      CharsBodyText(if b then "true" else "false", next, k);
    case NumberDoc(literal) =>
      WordsArePlain(literal);
      CharsBodyText(literal, next, k);
    case StringDoc(chars) => LiteralBodyText(chars, next, k);
    case ArrayDoc(open, es) =>
      ElementsBodyText(es, Plain(']', next), k);
      BlankBodyText(open, ElementsBody(es, Plain(']', next)), k);
    case ObjectDoc(open, ms) =>
      var after := ['}'] + TextThen(next, k);
      MembersBodyText(ms, End, after);
      BlankBodyText(open, MembersBody(ms, End), after);
  }

  lemma {:induction false} ElementsBodyText(es: Elements, next: Body, k: string)
    requires LegalElements(es) && Legal(next)
    ensures Legal(ElementsBody(es, next))
    ensures TextThen(ElementsBody(es, next), k) == ElementsThen(es, TextThen(next, k))
    decreases es
  {
    hide CharsBody, CharsThen, Blank;
    if es.Element? {
      if es.tail.NoElements? {
        BlankBodyText(es.after, next, k);
        BodyOfText(es.head, CharsBody(es.after, next), k);
      } else {
        ElementsBodyText(es.tail, next, k);
        BlankBodyText(es.comma, ElementsBody(es.tail, next), k);
        var more := Plain(',', CharsBody(es.comma, ElementsBody(es.tail, next)));
        BlankBodyText(es.after, more, k);
        BodyOfText(es.head, CharsBody(es.after, more), k);
      }
    }
  }

  lemma {:induction false} MembersBodyText(ms: Members, next: Body, k: string)
    requires LegalMembers(ms) && Legal(next)
    ensures Legal(MembersBody(ms, next)) && TextThen(MembersBody(ms, next), k) == MembersThen(ms, TextThen(next, k))
    decreases ms
  {
    hide CharsBody, CharsThen, Blank, LiteralBody, LiteralThen, LegalChars;
    if ms.Member? {
      var more := next;
      if !ms.tail.NoMembers? {
        MembersBodyText(ms.tail, next, k);
        BlankBodyText(ms.comma, MembersBody(ms.tail, next), k);
        more := Plain(',', CharsBody(ms.comma, MembersBody(ms.tail, next)));
      }
      BlankBodyText(ms.after, more, k);
      var rest := BodyOf(ms.value, CharsBody(ms.after, more));
      BodyOfText(ms.value, CharsBody(ms.after, more), k);
      BlankBodyText(ms.afterColon, rest, k);
      var colon := Plain(':', CharsBody(ms.afterColon, rest));
      BlankBodyText(ms.beforeColon, colon, k);
      LiteralBodyText(ms.name, CharsBody(ms.beforeColon, colon), k);
    }
  }

  /** However a JSON object is printed, the text is an object of the scanner's language. */
  lemma PrintedIsObject(v: Json, text: string)
    requires v.Object? && Prints(v, text)
    ensures IsObject(text)
  {
    var d :| LegalDoc(d) && Meaning(d) == v && Text(d) == text;
    var body := CharsBody(d.open, MembersBody(d.members, End));
    MembersBodyText(d.members, End, ['}']);
    BlankBodyText(d.open, MembersBody(d.members, End), ['}']);
    assert ['}'] + "" == ['}'];
    assert Legal(body) && text == ObjectText(body);
  }

  /** Printing an object in any way and scanning it back gives the printed text, whatever surrounds it. */
  lemma PrintedObjectIsFound(blank: string, v: Json, text: string, after: string)
    requires Blank(blank) && v.Object? && Prints(v, text)
    ensures Leading(blank + (text + after)) == Some(text)
  {
    PrintedIsObject(v, text);
    var b :| Legal(b) && text == ObjectText(b);
    LeadingFindsObject(blank, b, after);
  }

  // ---------- every value can be printed ----------

  function Plainly(c: char): Written {
    if c >= '\U{0020}' && c != '"' && c != '\\' then Written(c, AsIs)
    else if HasShort(c) then Written(c, Short)
    else Written(c, Code([false, false, false, false]))
  }

  function PlainlyAll(s: string): seq<Written> {
    seq(|s|, i requires 0 <= i < |s| => Plainly(s[i]))
  }

  function Compact(v: Json): Doc {
    match v
    case Null => NullDoc
    case Boolean(b) => BooleanDoc(b)
    case Number(literal) => NumberDoc(literal)
    case String(s) => StringDoc(PlainlyAll(s))
    case Array(vs) => ArrayDoc("", CompactValues(vs))
    case Object(fs) => ObjectDoc("", CompactFields(fs))
  }

  function CompactValues(vs: Values): Elements {
    match vs
    case NoValues => NoElements
    case Value(v, tail) => Element(Compact(v), "", "", CompactValues(tail))
  }

  function CompactFields(fs: Fields): Members {
    match fs
    case NoFields => NoMembers
    case Field(name, v, tail) => Member(PlainlyAll(name), "", "", Compact(v), "", "", CompactFields(tail))
  }

  predicate LegalJson(v: Json) {
    match v
    case Number(literal) => LegalNumber(literal)
    case Array(vs) => LegalValues(vs)
    case Object(fs) => LegalFields(fs)
    case _ => true
  }

  predicate LegalValues(vs: Values) {
    vs.Value? ==> LegalJson(vs.head) && LegalValues(vs.tail)
  }

  predicate LegalFields(fs: Fields) {
    fs.Field? ==> LegalJson(fs.value) && LegalFields(fs.tail)
  }

  lemma PlainlyMeans(s: string)
    ensures LegalChars(PlainlyAll(s)) && Said(PlainlyAll(s)) == s
  {
  }

  lemma {:induction false} CompactMeans(v: Json)
    requires LegalJson(v)
    ensures LegalDoc(Compact(v)) && Meaning(Compact(v)) == v
    decreases v
  {
    match v
    case String(s) => PlainlyMeans(s);
    case Array(vs) => CompactValuesMean(vs);
    case Object(fs) => CompactFieldsMean(fs);
    case _ =>
  }

  lemma {:induction false} CompactValuesMean(vs: Values)
    requires LegalValues(vs)
    ensures LegalElements(CompactValues(vs)) && ElementsMeaning(CompactValues(vs)) == vs
    decreases vs
  {
    if vs.Value? {
      CompactMeans(vs.head);
      CompactValuesMean(vs.tail);
    }
  }

  lemma {:induction false} CompactFieldsMean(fs: Fields)
    requires LegalFields(fs)
    ensures LegalMembers(CompactFields(fs)) && MembersMeaning(CompactFields(fs)) == fs
    decreases fs
  {
    if fs.Field? {
      PlainlyMeans(fs.name);
      CompactMeans(fs.value);
      CompactFieldsMean(fs.tail);
    }
  }

  /** Every value has a text. */
  lemma EveryValuePrints(v: Json)
    requires LegalJson(v)
    ensures exists text :: Prints(v, text)
  {
    CompactMeans(v);
    assert Prints(v, Text(Compact(v)));
  }
}
