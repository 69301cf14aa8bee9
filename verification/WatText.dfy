/** WebAssembly text: UTF-8, string literals (section 6.3.3 of the WebAssembly Core Specification) and tokens. */
module WatText {
  import opened Common

  // ---- UTF-8 --------------------------------------------------------------------------------

  function Utf8Char(c: char): (b: Bytes)
    ensures b != []
  {
    var n := c as int;
    if n < 0x80 then [n as byte]
    else if n < 0x800 then [(0xC0 + n / 64) as byte, (0x80 + n % 64) as byte]
    else if n < 0x1_0000 then [(0xE0 + n / 4096) as byte, (0x80 + n / 64 % 64) as byte, (0x80 + n % 64) as byte]
    else [(0xF0 + n / 262144) as byte, (0x80 + n / 4096 % 64) as byte, (0x80 + n / 64 % 64) as byte,
          (0x80 + n % 64) as byte]
  }

  function Utf8(s: string): Bytes {
    if s == "" then [] else Utf8Char(s[0]) + Utf8(s[1..])
  }

  lemma Utf8CharInjective(c: char, d: char, x: Bytes, y: Bytes)
    requires Utf8Char(c) + x == Utf8Char(d) + y
    ensures c == d && x == y
  {
    hide Utf8Char;
    var a, b := Utf8Char(c), Utf8Char(d);
    assert (a + x)[0] == a[0] && (b + y)[0] == b[0];
    FirstByte(c, d);
    assert (a + x)[..|a|] == a && (b + y)[..|b|] == b;
    assert (a + x)[|a|..] == x && (b + y)[|b|..] == y;
    SameBytes(c, d);
  }

  /** The first byte tells how many there are. */
  lemma FirstByte(c: char, d: char)
    requires Utf8Char(c)[0] == Utf8Char(d)[0]
    ensures |Utf8Char(c)| == |Utf8Char(d)|
  {
    ByteRange(c);
    ByteRange(d);
    hide Utf8Char;
  }

  lemma ByteRange(c: char)
    ensures var b := Utf8Char(c);
            && (|b| == 1 <==> b[0] < 0x80) && (|b| == 2 <==> 0xC0 <= b[0] < 0xE0)
            && (|b| == 3 <==> 0xE0 <= b[0] < 0xF0) && (|b| == 4 <==> 0xF0 <= b[0]) && 1 <= |b| <= 4
  {
  }

  lemma SameBytes(c: char, d: char)
    requires Utf8Char(c) == Utf8Char(d)
    ensures c == d
  {
    var b := Utf8Char(c);
    FromBytes(c);
    FromBytes(d);
    hide Utf8Char;
  }

  /** The code point, computed back from the bytes. */
  lemma FromBytes(c: char)
    ensures var b, n := Utf8Char(c), c as int;
            && (|b| == 1 ==> n == b[0] as int)
            && (|b| == 2 ==> n == 64 * (b[0] as int - 0xC0) + (b[1] as int - 0x80))
            && (|b| == 3 ==> n == 4096 * (b[0] as int - 0xE0) + 64 * (b[1] as int - 0x80) + (b[2] as int - 0x80))
            && (|b| == 4 ==>
                  n == 262144 * (b[0] as int - 0xF0) + 4096 * (b[1] as int - 0x80) + 64 * (b[2] as int - 0x80)
                       + (b[3] as int - 0x80))
            && 1 <= |b| <= 4
  {
    Sextets(c as int);
  }

  lemma Sextets(n: int)
    requires 0 <= n
    ensures n == 64 * (n / 64) + n % 64
    ensures n / 64 == 64 * (n / 4096) + n / 64 % 64
    ensures n / 4096 == 64 * (n / 262144) + n / 4096 % 64
  {
    assert n / 4096 == n / 64 / 64;
    assert n / 262144 == n / 4096 / 64;
  }

  /** Different texts have different bytes. */
  lemma {:induction false} Utf8Injective(s: string, t: string)
    requires Utf8(s) == Utf8(t)
    ensures s == t
    decreases |s|
  {
    if s != "" && t != "" {
      Utf8CharInjective(s[0], t[0], Utf8(s[1..]), Utf8(t[1..]));
      Utf8Injective(s[1..], t[1..]);
      assert s == [s[0]] + s[1..] && t == [t[0]] + t[1..];
    }
  }

  // ---- decimal numbers ----------------------------------------------------------------------

  function Digit(n: nat): char
    requires n < 10
  {
    '0' + n as char
  }

  function Decimal(n: nat): (s: string)
    ensures s != "" && forall i :: 0 <= i < |s| ==> '0' <= s[i] <= '9'
  {
    if n < 10 then [Digit(n)] else Decimal(n / 10) + [Digit(n % 10)]
  }

  function ReadDecimal(s: string): Option<nat> {
    if s == "" || !('0' <= s[|s| - 1] <= '9') then None else
    var last := (s[|s| - 1] - '0') as nat;
    if |s| == 1 then Some(last) else
    match ReadDecimal(s[..|s| - 1])
    case None => None
    case Some(n) => Some(10 * n + last)
  }

  lemma {:induction false} DecimalRoundTrip(n: nat)
    ensures ReadDecimal(Decimal(n)) == Some(n)
  {
    if n >= 10 {
      DecimalRoundTrip(n / 10);
      var s := Decimal(n);
      assert s[..|s| - 1] == Decimal(n / 10) && s[|s| - 1] == Digit(n % 10);
    }
  }

  // ---- string literals ----------------------------------------------------------------------

  /** A character that may stand in a string literal: no control character. */
  predicate Printable(c: char) {
    ' ' <= c && c != 0x7F as char
  }

  predicate AllPrintable(s: string) {
    forall i :: 0 <= i < |s| ==> Printable(s[i])
  }

  function SimpleEscape(c: char): Option<byte> {
    if c == 't' then Some(9) else if c == 'n' then Some(10) else if c == 'r' then Some(13)
    else if c == '"' then Some(34) else if c == '\'' then Some(39) else if c == '\\' then Some(92) else None
  }

  function HexDigit(c: char): Option<byte> {
    if '0' <= c <= '9' then Some((c - '0') as byte)
    else if 'a' <= c <= 'f' then Some((c - 'a') as byte + 10)
    else if 'A' <= c <= 'F' then Some((c - 'A') as byte + 10)
    else None
  }

  function Prefix(b: Bytes, r: Option<(Bytes, string)>): Option<(Bytes, string)> {
    if r.None? then None else Some((b + r.value.0, r.value.1))
  }

  /** The bytes of a literal whose opening quote has been read, and the text after its closing quote. */
  function StringBody(s: string): (r: Option<(Bytes, string)>)
    ensures r.Some? ==> |r.value.1| < |s|
    decreases |s|
  {
    if s == "" then None
    else if s[0] == '"' then Some(([], s[1..]))
    else if s[0] != '\\' then
      if Printable(s[0]) then Prefix(Utf8Char(s[0]), StringBody(s[1..])) else None
    else if |s| == 1 then None
    else if SimpleEscape(s[1]).Some? then Prefix([SimpleEscape(s[1]).value], StringBody(s[2..]))
    else if |s| > 2 && HexDigit(s[1]).Some? && HexDigit(s[2]).Some? then
      Prefix([(16 * (HexDigit(s[1]).value as int) + HexDigit(s[2]).value as int) as byte], StringBody(s[3..]))
    else None
  }

  function Replace(s: string, c: char, with: string): string {
    if s == "" then "" else (if s[0] == c then with else [s[0]]) + Replace(s[1..], c, with)
  }

  /** How the generator escapes: backslashes first, then double quotes. */
  function Escape(s: string): string {
    Replace(Replace(s, '\\', "\\\\"), '"', "\\\"")
  }

  function EscapeChar(c: char): string {
    if c == '\\' then "\\\\" else if c == '"' then "\\\"" else [c]
  }

  lemma {:induction false} ReplaceConcat(s: string, t: string, c: char, with: string)
    ensures Replace(s + t, c, with) == Replace(s, c, with) + Replace(t, c, with)
    decreases |s|
  {
    if s == "" {
      assert s + t == t;
    } else {
      assert (s + t)[1..] == s[1..] + t;
      ReplaceConcat(s[1..], t, c, with);
    }
  }

  lemma EscapeFirst(s: string)
    requires s != ""
    ensures Escape(s) == EscapeChar(s[0]) + Escape(s[1..])
  {
    var once := Replace(s[1..], '\\', "\\\\");
    var first := if s[0] == '\\' then "\\\\" else [s[0]];
    assert Replace(s, '\\', "\\\\") == first + once;
    ReplaceConcat(first, once, '"', "\\\"");
    assert Replace(first, '"', "\\\"") == EscapeChar(s[0]) by { ReplaceShort(first); }
  }

  lemma ReplaceShort(s: string)
    requires |s| == 1 || s == "\\\\"
    ensures Replace(s, '"', "\\\"") == if s == "\"" then "\\\"" else s
  {
    assert Replace("", '"', "\\\"") == "";
    if |s| == 2 { assert s[1..][1..] == "" && s[1..] == "\\"; }
  }

  /** Reading a literal undoes the escaping, exactly for texts without control characters. */
  lemma {:induction false} EscapedBody(s: string, r: string)
    ensures StringBody(Escape(s) + "\\00\"" + r) == if AllPrintable(s) then Some((Utf8(s) + [0], r)) else None
    decreases |s|
  {
    hide StringBody, EscapeChar, Printable, Utf8Char;
    var close := "\\00\"";
    if s == "" {
      assert Escape(s) == "";
      NulBody(Escape(s) + close + r, r);
      assert Utf8(s) + [0] == [0];
    } else {
      EscapedBody(s[1..], r);
      EscapeFirst(s);
      hide Escape;
      EscapedChar(s[0], Escape(s[1..]) + close + r);
      assert Escape(s) + close + r == EscapeChar(s[0]) + (Escape(s[1..]) + close + r);
      PrintableFirst(s);
      hide AllPrintable;
      assert Utf8(s) + [0] == Utf8Char(s[0]) + (Utf8(s[1..]) + [0]);
    }
  }

  lemma PrintableFirst(s: string)
    requires s != ""
    ensures AllPrintable(s) <==> Printable(s[0]) && AllPrintable(s[1..])
  {
    hide Printable;
    assert s == [s[0]] + s[1..];
  }

  lemma NulBody(s: string, r: string)
    requires s == "\\00\"" + r
    ensures StringBody(s) == Some(([0], r))
  {
    assert s[0] == '\\' && s[1] == '0' && s[2] == '0' && s[3..] == "\"" + r;
    assert s[3..][1..] == r;
    assert StringBody(s[3..]) == Some(([], r));
    assert HexDigit('0') == Some(0) && SimpleEscape('0').None?;
    var zero: Bytes := [0];
    assert zero + [] == zero;
    assert StringBody(s) == Prefix(zero, StringBody(s[3..]));
  }

  lemma EscapedChar(c: char, r: string)
    ensures StringBody(EscapeChar(c) + r) == if Printable(c) then Prefix(Utf8Char(c), StringBody(r)) else None
  {
    var s := EscapeChar(c) + r;
    assert s[|EscapeChar(c)|..] == r;
  }

  /** A character that stands for itself. */
  predicate Plain(c: char) {
    Printable(c) && c != '"' && c != '\\'
  }

  lemma {:induction false} PlainBody(s: string, r: string)
    requires forall i :: 0 <= i < |s| ==> Plain(s[i])
    ensures StringBody(s + "\"" + r) == Some((Utf8(s), r))
    decreases |s|
  {
    var all := s + "\"" + r;
    if s == "" {
      assert all[1..] == r;
    } else {
      assert all[1..] == s[1..] + "\"" + r;
      PlainBody(s[1..], r);
    }
  }

  // ---- tokens -------------------------------------------------------------------------------

  datatype Token = Open | Close | Word(word: string) | Str(bytes: Bytes)

  predicate IsGap(c: char) {
    c == ' ' || c == '\n' || c == '\t' || c == '\r'
  }

  predicate IdChar(c: char) {
    '!' <= c <= '~' && c !in {'"', '(', ')', ',', ';', '[', ']', '{', '}'}
  }

  function WordLength(s: string): (n: nat)
    ensures n <= |s|
  {
    if s != "" && IdChar(s[0]) then 1 + WordLength(s[1..]) else 0
  }

  function Cons(t: Token, r: Option<seq<Token>>): Option<seq<Token>> {
    if r.None? then None else Some([t] + r.value)
  }

  /** The tokens of a text without comments. */
  function Lex(s: string): Option<seq<Token>>
    decreases |s|
  {
    if s == "" then Some([])
    else if IsGap(s[0]) then Lex(s[1..])
    else if s[0] == '(' then Cons(Open, Lex(s[1..]))
    else if s[0] == ')' then Cons(Close, Lex(s[1..]))
    else if s[0] == '"' then
      (match StringBody(s[1..])
       case None => None
       case Some((bytes, rest)) => Cons(Str(bytes), Lex(rest)))
    else if IdChar(s[0]) then
      var n := WordLength(s);
      Cons(Word(s[..n]), Lex(s[n..]))
    else None
  }

  /** One token as the generator writes it; `Data` is escaped text with a final NUL. */
  datatype Lexeme = LParen | RParen | Atom(word: string) | Quoted(raw: string) | Data(text: string)

  /** A token and the white space after it. */
  datatype Piece = Piece(lexeme: Lexeme, gap: string)

  function Spell(x: Lexeme): string {
    match x
    case LParen => "("
    case RParen => ")"
    case Atom(word) => word
    case Quoted(raw) => "\"" + raw + "\""
    case Data(text) => "\"" + Escape(text) + "\\00\""
  }

  function SpellAll(ps: seq<Piece>): string {
    if ps == [] then "" else Spell(ps[0].lexeme) + ps[0].gap + SpellAll(ps[1..])
  }

  function TokenOf(x: Lexeme): Token {
    match x
    case LParen => Open
    case RParen => Close
    case Atom(word) => Word(word)
    case Quoted(raw) => Str(Utf8(raw))
    case Data(text) => Str(Utf8(text) + [0])
  }

  function Tokens(ps: seq<Piece>): (ts: seq<Token>)
    ensures |ts| == |ps| && forall i :: 0 <= i < |ps| ==> ts[i] == TokenOf(ps[i].lexeme)
  {
    seq(|ps|, i requires 0 <= i < |ps| => TokenOf(ps[i].lexeme))
  }

  /** Names are made of name characters and end where they should; literals that are not escaped need none. */
  predicate WellSpelled(p: Piece) {
    && (forall i :: 0 <= i < |p.gap| ==> IsGap(p.gap[i]))
    && (p.lexeme.Atom? ==> p.lexeme.word != "" && forall i :: 0 <= i < |p.lexeme.word| ==> IdChar(p.lexeme.word[i]))
    && (p.lexeme.Quoted? ==> forall i :: 0 <= i < |p.lexeme.raw| ==> Plain(p.lexeme.raw[i]))
  }

  predicate AllWellSpelled(ps: seq<Piece>) {
    forall i :: 0 <= i < |ps| ==> WellSpelled(ps[i])
  }

  predicate Apart(p: Piece, q: Piece) {
    p.lexeme.Atom? && p.gap == "" ==> !q.lexeme.Atom?
  }

  predicate Separated(ps: seq<Piece>) {
    forall i :: 0 <= i < |ps| - 1 ==> Apart(ps[i], ps[i + 1])
  }

  predicate Legible(x: Lexeme) {
    x.Data? ==> AllPrintable(x.text)
  }

  predicate AllLegible(ps: seq<Piece>) {
    forall i :: 0 <= i < |ps| ==> Legible(ps[i].lexeme)
  }

  lemma {:induction false} SkipGap(gap: string, r: string)
    requires forall i :: 0 <= i < |gap| ==> IsGap(gap[i])
    ensures Lex(gap + r) == Lex(r)
    decreases |gap|
  {
    if gap == "" {
      assert gap + r == r;
    } else {
      assert (gap + r)[1..] == gap[1..] + r;
      SkipGap(gap[1..], r);
    }
  }

  lemma {:induction false} WordRun(word: string, r: string)
    requires (forall i :: 0 <= i < |word| ==> IdChar(word[i])) && (r == "" || !IdChar(r[0]))
    ensures WordLength(word + r) == |word|
    decreases |word|
  {
    if word == "" {
      assert word + r == r;
    } else {
      assert (word + r)[1..] == word[1..] + r;
      WordRun(word[1..], r);
    }
  }

  lemma LexWord(word: string, r: string)
    requires word != "" && (forall i :: 0 <= i < |word| ==> IdChar(word[i])) && (r == "" || !IdChar(r[0]))
    ensures Lex(word + r) == Cons(Word(word), Lex(r))
  {
    var s := word + r;
    WordRun(word, r);
    assert IdChar(word[0]) && s[0] == word[0];
    assert s[..|word|] == word && s[|word|..] == r;
  }

  lemma LexString(body: string, bytes: Bytes, r: string, ok: bool)
    requires StringBody(body + "\"" + r) == if ok then Some((bytes, r)) else None
    ensures Lex("\"" + body + "\"" + r) == if ok then Cons(Str(bytes), Lex(r)) else None
  {
    hide StringBody;
    var s := "\"" + body + "\"" + r;
    assert s[0] == '"' && s[1..] == body + "\"" + r;
  }

  lemma LexParen(r: string)
    ensures Lex("(" + r) == Cons(Open, Lex(r)) && Lex(")" + r) == Cons(Close, Lex(r))
  {
    assert ("(" + r)[1..] == r && (")" + r)[1..] == r;
  }

  /** One token at the front of a text. */
  lemma LexOne(x: Lexeme, r: string)
    requires WellSpelled(Piece(x, ""))
    requires x.Atom? ==> r == "" || !IdChar(r[0])
    ensures Lex(Spell(x) + r) == if Legible(x) then Cons(TokenOf(x), Lex(r)) else None
  {
    hide Utf8, Escape, AllPrintable, StringBody, Lex, Cons, IdChar, Plain;
    match x {
      case LParen => LexParen(r);
      case RParen => LexParen(r);
      case Atom(word) => LexWord(word, r);
      case Quoted(raw) =>
        PlainBody(raw, r);
        LexString(raw, Utf8(raw), r, true);
      case Data(text) =>
        var body := Escape(text) + "\\00";
        assert Escape(text) + "\\00\"" + r == body + "\"" + r;
        EscapedBody(text, r);
        LexString(body, Utf8(text) + [0], r, AllPrintable(text));
        assert Spell(x) + r == "\"" + body + "\"" + r;
    }
  }

  lemma StartsApart(q: Piece, r: string)
    requires !q.lexeme.Atom?
    ensures var s := Spell(q.lexeme) + r; s != "" && !IdChar(s[0])
  {
    hide Escape;
  }

  lemma Tail(ps: seq<Piece>)
    requires ps != []
    ensures AllWellSpelled(ps) ==> WellSpelled(ps[0]) && AllWellSpelled(ps[1..])
    ensures Separated(ps) ==> Separated(ps[1..]) && (|ps| > 1 ==> Apart(ps[0], ps[1]))
    ensures AllLegible(ps) <==> Legible(ps[0].lexeme) && AllLegible(ps[1..])
    ensures Tokens(ps) == [TokenOf(ps[0].lexeme)] + Tokens(ps[1..])
  {
    hide WellSpelled, AllLegible, Separated, TokenOf;
    TailSeparated(ps);
    TailLegible(ps);
  }

  lemma TailSeparated(ps: seq<Piece>)
    requires ps != []
    ensures Separated(ps) ==> Separated(ps[1..]) && (|ps| > 1 ==> Apart(ps[0], ps[1]))
  {
    hide Apart;
  }

  lemma TailLegible(ps: seq<Piece>)
    requires ps != []
    ensures AllLegible(ps) <==> Legible(ps[0].lexeme) && AllLegible(ps[1..])
  {
    hide Legible;
    assert forall i :: 0 < i < |ps| ==> ps[i] == ps[1..][i - 1];
  }

  lemma SpellTwo(ps: seq<Piece>)
    requires |ps| > 1
    ensures SpellAll(ps[1..]) == Spell(ps[1].lexeme) + (ps[1].gap + SpellAll(ps[2..]))
  {
    hide Spell;
    assert ps[1..][1..] == ps[2..] && ps[1..][0] == ps[1];
  }

  lemma WordEnds(ps: seq<Piece>)
    requires ps != [] && WellSpelled(ps[0]) && Separated(ps) && ps[0].lexeme.Atom?
    ensures var r := ps[0].gap + SpellAll(ps[1..]); r == "" || !IdChar(r[0])
  {
    hide Spell;
    var r := ps[0].gap + SpellAll(ps[1..]);
    if ps[0].gap != "" {
      assert r[0] == ps[0].gap[0] && IsGap(ps[0].gap[0]);
    } else if |ps| > 1 {
      assert Apart(ps[0], ps[1]);
      SpellTwo(ps);
      StartsApart(ps[1], ps[1].gap + SpellAll(ps[2..]));
      assert r == SpellAll(ps[1..]);
    } else {
      assert ps[1..] == [];
    }
  }

  lemma LexFirst(ps: seq<Piece>)
    requires ps != [] && WellSpelled(ps[0]) && Separated(ps)
    ensures Lex(SpellAll(ps)) ==
            if Legible(ps[0].lexeme) then Cons(TokenOf(ps[0].lexeme), Lex(SpellAll(ps[1..]))) else None
  {
    hide Lex, Spell, Legible, TokenOf, Separated, IdChar, IsGap;
    var p, after := ps[0], SpellAll(ps[1..]);
    assert SpellAll(ps) == Spell(p.lexeme) + (p.gap + after);
    hide SpellAll;
    SkipGap(p.gap, after);
    if p.lexeme.Atom? { WordEnds(ps); }
    LexOne(p.lexeme, p.gap + after);
  }

  /** Reading back what was spelled: the tokens, or nothing if some escaped text cannot stand in a literal. */
  lemma {:induction false} LexSpelled(ps: seq<Piece>)
    requires AllWellSpelled(ps) && Separated(ps)
    ensures Lex(SpellAll(ps)) == if AllLegible(ps) then Some(Tokens(ps)) else None
    decreases |ps|
  {
    hide Lex, Legible, TokenOf, WellSpelled, AllWellSpelled, Separated;
    if ps == [] {
      LexEmpty();
    } else {
      hide AllLegible, SpellAll;
      Tail(ps);
      LexSpelled(ps[1..]);
      LexFirst(ps);
    }
  }

  lemma LexEmpty()
    ensures Lex("") == Some([])
  {
  }
}
