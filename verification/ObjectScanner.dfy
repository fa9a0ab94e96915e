/** The scanner that takes a brace-balanced object off the front of a text, and the
    language it recognises. */
module ObjectScanner {
  import opened Wrappers
  import opened Characters

  function TrimStart(s: string): string {
    if s != "" && IsWhitespace(s[0]) then TrimStart(s[1..]) else s
  }

  /** The state the scan is in at some character. */
  datatype Mode = Mode(depth: nat, inString: bool, escaped: bool)

  predicate Closes(m: Mode, c: char) {
    !m.inString && c == '}' && m.depth == 1
  }

  /** The state after one more character. */
  function Next(m: Mode, c: char): (m': Mode)
    requires m.depth > 0 && !Closes(m, c)
    ensures m'.depth > 0
  {
    if m.inString then
      if m.escaped then m.(escaped := false)
      else if c == '\\' then m.(escaped := true)
      else if c == '"' then m.(inString := false)
      else m
    else if c == '"' then m.(inString := true)
    else if c == '{' then m.(depth := m.depth + 1)
    else if c == '}' then m.(depth := m.depth - 1)
    else m
  }

  datatype Length = Unclosed | Chars(n: nat)

  function Plus(l: Length, k: nat): Length {
    if l.Chars? then Chars(l.n + k) else Unclosed
  }

  /** The number of characters up to and including the brace that closes depth 1. */
  function Scan(s: string, m: Mode): (l: Length)
    requires m.depth > 0
    ensures l.Chars? ==> 0 < l.n <= |s|
  {
    if s == "" then Unclosed
    else if Closes(m, s[0]) then Chars(1)
    else Plus(Scan(s[1..], Next(m, s[0])), 1)
  }

  const Inside: Mode := Mode(1, false, false)

  function Leading(text: string): Option<string> {
    var t := TrimStart(text);
    if t == "" || t[0] != '{' then None
    else
      var l := Scan(t[1..], Inside);
      if l.Chars? then Some(t[..l.n + 1]) else None
  }

  /** `leading_object`: the depth counter never underflows, and the loop computes `Leading`. */
  method LeadingObject(text: string) returns (found: Option<string>)
    ensures found == Leading(text)
  {
    var t := TrimStart(text);
    if t == "" || t[0] != '{' { return None; }
    var depth: nat, inString, escaped := 0, false, false;
    var idx := 0;
    while idx < |t|
      invariant idx <= |t|
      invariant idx == 0 ==> depth == 0 && !inString && !escaped
      invariant idx > 0 ==> depth > 0
      invariant idx > 0 ==> Scan(t[1..], Inside) == Plus(Scan(t[idx..], Mode(depth, inString, escaped)), idx - 1)
    {
      var ch := t[idx];
      assert t[idx..][1..] == t[idx + 1..];
      if inString {
        if escaped { escaped := false; }
        else if ch == '\\' { escaped := true; }
        else if ch == '"' { inString := false; }
      } else if ch == '"' { inString := true; }
      else if ch == '{' { depth := depth + 1; }
      else if ch == '}' {
        depth := depth - 1;
        if depth == 0 { return Some(t[..idx + 1]); }
      }
      idx := idx + 1;
    }
    return None;
  }

  // ---------- the language ----------

  /** A character of a string literal, or a backslash and the character it escapes. */
  datatype Piece = Raw(c: char) | Escape(c: char)

  /** What stands between two braces: plain characters, string literals, nested objects. */
  datatype Body =
    | End
    | Plain(c: char, rest: Body)
    | Quoted(pieces: seq<Piece>, rest: Body)
    | Nested(inner: Body, rest: Body)

  predicate LegalPiece(p: Piece) {
    p.Raw? ==> p.c != '"' && p.c != '\\'
  }

  predicate Legal(b: Body) {
    match b
    case End => true
    case Plain(c, rest) => c != '"' && c != '{' && c != '}' && Legal(rest)
    case Quoted(pieces, rest) => (forall i | 0 <= i < |pieces| :: LegalPiece(pieces[i])) && Legal(rest)
    case Nested(inner, rest) => Legal(inner) && Legal(rest)
  }

  /** The text of the pieces, followed by `k`. */
  function StringThen(pieces: seq<Piece>, k: string): string {
    if pieces == [] then k
    else if pieces[0].Raw? then [pieces[0].c] + StringThen(pieces[1..], k)
    else ['\\'] + ([pieces[0].c] + StringThen(pieces[1..], k))
  }

  /** The text of the body, followed by `k`. */
  function TextThen(b: Body, k: string): string {
    match b
    case End => k
    case Plain(c, rest) => [c] + TextThen(rest, k)
    case Quoted(pieces, rest) => ['"'] + StringThen(pieces, ['"'] + TextThen(rest, k))
    case Nested(inner, rest) => ['{'] + TextThen(inner, ['}'] + TextThen(rest, k))
  }

  /** An object: a body between braces. */
  function ObjectText(b: Body): string {
    ['{'] + TextThen(b, ['}'])
  }

  ghost predicate IsObject(p: string) {
    exists b :: Legal(b) && p == ObjectText(b)
  }

  lemma ConsAppend(c: char, s: string, r: string)
    ensures ([c] + s) + r == [c] + (s + r)
  {
  }

  lemma {:induction false} StringThenAppend(pieces: seq<Piece>, k: string, r: string)
    ensures StringThen(pieces, k) + r == StringThen(pieces, k + r)
  {
    if pieces != [] {
      var c, t := pieces[0].c, StringThen(pieces[1..], k);
      StringThenAppend(pieces[1..], k, r);
      ConsAppend(c, t, r);
      ConsAppend('\\', [c] + t, r);
    }
  }

  lemma {:induction false} TextThenAppend(b: Body, k: string, r: string)
    ensures TextThen(b, k) + r == TextThen(b, k + r)
  {
    match b
    case End =>
    case Plain(c, rest) =>
      TextThenAppend(rest, k, r);
      ConsAppend(c, TextThen(rest, k), r);
    case Quoted(pieces, rest) =>
      TextThenAppend(rest, k, r);
      ConsAppend('"', TextThen(rest, k), r);
      StringThenAppend(pieces, ['"'] + TextThen(rest, k), r);
      ConsAppend('"', StringThen(pieces, ['"'] + TextThen(rest, k)), r);
    case Nested(inner, rest) =>
      TextThenAppend(rest, k, r);
      ConsAppend('}', TextThen(rest, k), r);
      TextThenAppend(inner, ['}'] + TextThen(rest, k), r);
      ConsAppend('{', TextThen(inner, ['}'] + TextThen(rest, k)), r);
  }

  lemma ObjectTextAppend(b: Body, r: string)
    ensures ObjectText(b) + r == ['{'] + TextThen(b, ['}'] + r)
  {
    TextThenAppend(b, ['}'], r);
    ConsAppend('{', TextThen(b, ['}']), r);
  }

  // ---------- the scan recognises the language ----------

  lemma ScanCons(c: char, t: string, m: Mode)
    requires m.depth > 0
    ensures Scan([c] + t, m) == if Closes(m, c) then Chars(1) else Plus(Scan(t, Next(m, c)), 1)
  {
    assert ([c] + t)[1..] == t;
  }

  lemma {:induction false} ScanSkipsString(pieces: seq<Piece>, k: string, depth: nat)
    requires depth > 0 && forall i | 0 <= i < |pieces| :: LegalPiece(pieces[i])
    ensures |k| <= |StringThen(pieces, k)|
    ensures Scan(StringThen(pieces, k), Mode(depth, true, false))
         == Plus(Scan(k, Mode(depth, true, false)), |StringThen(pieces, k)| - |k|)
  {
    if pieces != [] {
      var c, t := pieces[0].c, StringThen(pieces[1..], k);
      ScanSkipsString(pieces[1..], k, depth);
      if pieces[0].Raw? {
        ScanCons(c, t, Mode(depth, true, false));
      } else {
        ScanCons('\\', [c] + t, Mode(depth, true, false));
        ScanCons(c, t, Mode(depth, true, true));
      }
    }
  }

  /** Scanning `s`, which ends in `k`, comes to the start of `k` outside strings at the same depth. */
  predicate Skips(s: string, k: string, depth: nat)
    requires depth > 0
  {
    && |k| <= |s|
    && Scan(s, Mode(depth, false, false)) == Plus(Scan(k, Mode(depth, false, false)), |s| - |k|)
  }

  lemma SkipsOn(s: string, t: string, k: string, depth: nat)
    requires depth > 0 && Skips(s, t, depth) && Skips(t, k, depth)
    ensures Skips(s, k, depth)
  {
  }

  lemma SkipsPlain(c: char, k: string, depth: nat)
    requires depth > 0 && c != '"' && c != '{' && c != '}'
    ensures Skips([c] + k, k, depth)
  {
    ScanCons(c, k, Mode(depth, false, false));
  }

  lemma SkipsQuoted(pieces: seq<Piece>, k: string, depth: nat)
    requires depth > 0 && forall i | 0 <= i < |pieces| :: LegalPiece(pieces[i])
    ensures Skips(['"'] + StringThen(pieces, ['"'] + k), k, depth)
  {
    ScanCons('"', k, Mode(depth, true, false));
    ScanSkipsString(pieces, ['"'] + k, depth);
    ScanCons('"', StringThen(pieces, ['"'] + k), Mode(depth, false, false));
  }

  lemma SkipsBraces(s: string, k: string, depth: nat)
    requires depth > 0 && Skips(s, ['}'] + k, depth + 1)
    ensures Skips(['{'] + s, k, depth)
  {
    assert Next(Mode(depth + 1, false, false), '}') == Mode(depth, false, false);
    assert Next(Mode(depth, false, false), '{') == Mode(depth + 1, false, false);
    ScanCons('}', k, Mode(depth + 1, false, false));
    ScanCons('{', s, Mode(depth, false, false));
  }

  /** Scanning over a body leaves the depth where it was. */
  lemma {:induction false} ScanSkipsBody(b: Body, k: string, depth: nat)
    requires depth > 0 && Legal(b)
    ensures Skips(TextThen(b, k), k, depth)
  {
    match b
    case End =>
    case Plain(c, rest) =>
      var t := TextThen(rest, k);
      ScanSkipsBody(rest, k, depth);
      SkipsPlain(c, t, depth);
      SkipsOn([c] + t, t, k, depth);
    case Quoted(pieces, rest) =>
      var t := TextThen(rest, k);
      ScanSkipsBody(rest, k, depth);
      SkipsQuoted(pieces, t, depth);
      SkipsOn(['"'] + StringThen(pieces, ['"'] + t), t, k, depth);
    case Nested(inner, rest) =>
      var t := TextThen(rest, k);
      ScanSkipsBody(rest, k, depth);
      ScanSkipsBody(inner, ['}'] + t, depth + 1);
      SkipsBraces(TextThen(inner, ['}'] + t), t, depth);
      SkipsOn(['{'] + TextThen(inner, ['}'] + t), t, k, depth);
  }

  /** Bodies, each followed by its closing brace, and then `k`. */
  function ClosedThen(bodies: seq<Body>, k: string): string {
    if bodies == [] then k else TextThen(bodies[0], ['}'] + ClosedThen(bodies[1..], k))
  }

  predicate AllLegal(bodies: seq<Body>) {
    forall i | 0 <= i < |bodies| :: Legal(bodies[i])
  }

  lemma ClosedCons(b: Body, bodies: seq<Body>, k: string)
    ensures ClosedThen([b] + bodies, k) == TextThen(b, ['}'] + ClosedThen(bodies, k))
  {
    assert ([b] + bodies)[1..] == bodies;
  }

  /** What a successful scan from outside a string went over: `depth` closed bodies. */
  lemma {:induction false} ScannedBodies(s: string, depth: nat) returns (bodies: seq<Body>)
    requires depth > 0 && Scan(s, Mode(depth, false, false)).Chars?
    ensures |bodies| == depth && AllLegal(bodies)
    ensures s == ClosedThen(bodies, s[Scan(s, Mode(depth, false, false)).n..])
    decreases |s|
  {
    var c, t, k := s[0], s[1..], s[Scan(s, Mode(depth, false, false)).n..];
    assert s == [c] + t;
    if c == '}' && depth == 1 {
      bodies := [End];
      ClosedCons(End, [], k);
    } else if c == '}' {
      var more := ScannedBodies(t, depth - 1);
      bodies := [End] + more;
      ClosedCons(End, more, k);
    } else if c == '{' {
      var more := ScannedBodies(t, depth + 1);
      bodies := [Nested(more[0], more[1])] + more[2..];
      ClosedCons(Nested(more[0], more[1]), more[2..], k);
      assert more[1..][1..] == more[2..];
    } else if c == '"' {
      var pieces, more := ScannedString(t, depth);
      bodies := [Quoted(pieces, more[0])] + more[1..];
      ClosedCons(Quoted(pieces, more[0]), more[1..], k);
    } else {
      var more := ScannedBodies(t, depth);
      bodies := [Plain(c, more[0])] + more[1..];
      ClosedCons(Plain(c, more[0]), more[1..], k);
    }
  }

  /** The same from inside a string: its remaining pieces, the quote, then the bodies. */
  lemma {:induction false} ScannedString(s: string, depth: nat) returns (pieces: seq<Piece>, bodies: seq<Body>)
    requires depth > 0 && Scan(s, Mode(depth, true, false)).Chars?
    ensures |bodies| == depth && AllLegal(bodies) && forall i | 0 <= i < |pieces| :: LegalPiece(pieces[i])
    ensures s == StringThen(pieces, ['"'] + ClosedThen(bodies, s[Scan(s, Mode(depth, true, false)).n..]))
    decreases |s|
  {
    var c, t := s[0], s[1..];
    assert s == [c] + t;
    if c == '"' {
      bodies := ScannedBodies(t, depth);
      pieces := [];
    } else if c == '\\' {
      var more;
      assert t == [t[0]] + t[1..];
      more, bodies := ScannedString(t[1..], depth);
      pieces := [Escape(t[0])] + more;
      assert pieces[1..] == more;
    } else {
      var more;
      more, bodies := ScannedString(t, depth);
      pieces := [Raw(c)] + more;
      assert pieces[1..] == more;
    }
  }

  lemma {:induction false} TrimStartSkips(blank: string, t: string)
    requires Blank(blank) && (t == "" || !IsWhitespace(t[0]))
    ensures TrimStart(blank + t) == t
  {
    if blank == "" {
      assert blank + t == t;
    } else {
      TrimStartSkips(blank[1..], t);
      assert (blank + t)[1..] == blank[1..] + t;
    }
  }

  /** Any object, after any blanks and before any text, is found exactly. */
  lemma LeadingFindsObject(blank: string, b: Body, after: string)
    requires Blank(blank) && Legal(b)
    ensures Leading(blank + (ObjectText(b) + after)) == Some(ObjectText(b))
  {
    var t := ObjectText(b) + after;
    ObjectTextAppend(b, after);
    TrimStartSkips(blank, t);
    ScanSkipsBody(b, ['}'] + after, 1);
    ScanCons('}', after, Inside);
    assert t[1..] == TextThen(b, ['}'] + after);
    assert t[..|ObjectText(b)|] == ObjectText(b);
  }

  /** `leading_object` answers with a text exactly when that text is an object and the trimmed
      input starts with it; there is at most one such text. */
  lemma LeadingIsExact(text: string, p: string)
    ensures Leading(text) == Some(p) <==> IsObject(p) && p <= TrimStart(text)
  {
    var t := TrimStart(text);
    if Leading(text) == Some(p) {
      var bodies := ScannedBodies(t[1..], 1);
      var after := t[|p|..];
      assert t[1..][|p| - 1..] == after;
      assert bodies == [bodies[0]] + [];
      ClosedCons(bodies[0], [], after);
      ObjectTextAppend(bodies[0], after);
      assert t == ['{'] + t[1..] == ObjectText(bodies[0]) + after;
      assert p == ObjectText(bodies[0]);
    }
    if IsObject(p) && p <= t {
      var b :| Legal(b) && p == ObjectText(b);
      var after := t[|p|..];
      LeadingFindsObject("", b, after);
      assert "" + (ObjectText(b) + after) == t;
      TrimStartSkips("", t);
      assert "" + t == t;
    }
  }

  /** No object is a proper prefix of another: what is found is the shortest, and the only, one. */
  lemma ObjectsArePrefixFree(p: string, q: string)
    requires IsObject(p) && IsObject(q) && p <= q
    ensures p == q
  {
    assert !IsWhitespace('{');
    TrimStartSkips("", q);
    assert "" + q == q;
    LeadingIsExact(q, p);
    LeadingIsExact(q, q);
  }
}
