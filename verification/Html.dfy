/** The page runtime's HTML printer and fragment parser. */
module Html {
  import opened Common
  import opened Strings

  type Attr = (string, string)

  datatype Node = Text(text: string) | Element(tag: string, attrs: seq<Attr>, children: seq<Node>)

  const VOID: set<string> := {
    "area", "base", "br", "col", "embed", "hr", "img", "input", "link", "meta", "param", "source", "track", "wbr" }

  const RAW: set<string> := {"script", "style"}

  // ---- printing -----------------------------------------------------------------------------

  function EscTextChar(c: char): string {
    if c == '&' then "&amp;" else if c == '<' then "&lt;" else if c == '>' then "&gt;" else [c]
  }

  function EscText(s: string): string {
    if s == "" then "" else EscTextChar(s[0]) + EscText(s[1..])
  }

  function EscAttr(s: string): string {
    if s == "" then "" else (if s[0] == '"' then "&quot;" else EscTextChar(s[0])) + EscAttr(s[1..])
  }

  function PrintAttr(name: string, v: string): string {
    " " + name + "=\"" + v + "\""
  }

  function PrintAttrs(attrs: seq<Attr>): string {
    if attrs == [] then "" else PrintAttr(attrs[0].0, EscAttr(attrs[0].1)) + PrintAttrs(attrs[1..])
  }

  /** What a raw-text element prints of its children: their text, unescaped; elements are skipped. */
  function RawText(nodes: seq<Node>): string {
    if nodes == [] then "" else (if nodes[0].Text? then nodes[0].text else "") + RawText(nodes[1..])
  }

  function OpenTag(tag: string, attrs: seq<Attr>): string {
    "<" + tag + PrintAttrs(attrs) + ">"
  }

  function CloseTag(tag: string): string {
    "</" + tag + ">"
  }

  function Serialize(node: Node): string
    decreases node, 0
  {
    match node
    case Text(text) => EscText(text)
    case Element(tag, attrs, children) =>
      if tag == "document" then SerializeAll(children)
      else if tag != "" && tag[0] == '#' then ""
      else if tag in VOID then OpenTag(tag, attrs)
      else OpenTag(tag, attrs) + (if tag in RAW then RawText(children) else SerializeAll(children)) + CloseTag(tag)
  }

  function SerializeAll(nodes: seq<Node>): string
    decreases nodes, 1
  {
    if nodes == [] then "" else Serialize(nodes[0]) + SerializeAll(nodes[1..])
  }

  // ---- characters ---------------------------------------------------------------------------

  /** White space, as the script language's regular expressions and `trim` see it. */
  predicate IsSpace(c: char) {
    || '\t' <= c <= '\r' || c == ' '
    || c == 0xA0 as char || c == 0x1680 as char || 0x2000 as char <= c <= 0x200A as char || c == 0x2028 as char
    || c == 0x2029 as char || c == 0x202F as char || c == 0x205F as char || c == 0x3000 as char || c == 0xFEFF as char
  }

  function LowerChar(c: char): char {
    if 'A' <= c <= 'Z' then (c as int + 32) as char else c
  }

  function Lower(s: string): string {
    seq(|s|, i requires 0 <= i < |s| => LowerChar(s[i]))
  }

  predicate NameChar(c: char) {
    !IsSpace(c) && c != '=' && c != '/' && c != '>'
  }

  /** A character that may belong to a tag name in an opening tag. */
  predicate TagChar(c: char) {
    !IsSpace(c) && c != '/' && c != '>'
  }

  /** Length of the longest prefix whose characters are spaces. */
  function Spaces(s: string): (n: nat)
    ensures n <= |s| && (forall i :: 0 <= i < n ==> IsSpace(s[i])) && (n < |s| ==> !IsSpace(s[n]))
  {
    if s != "" && IsSpace(s[0]) then 1 + Spaces(s[1..]) else 0
  }

  function NonSpaces(s: string): (n: nat)
    ensures n <= |s| && (forall i :: 0 <= i < n ==> !IsSpace(s[i])) && (n < |s| ==> IsSpace(s[n]))
  {
    if s != "" && !IsSpace(s[0]) then 1 + NonSpaces(s[1..]) else 0
  }

  function NameLength(s: string): (n: nat)
    ensures n <= |s| && (forall i :: 0 <= i < n ==> NameChar(s[i])) && (n < |s| ==> !NameChar(s[n]))
  {
    if s != "" && NameChar(s[0]) then 1 + NameLength(s[1..]) else 0
  }

  function TagLength(s: string): (n: nat)
    ensures n <= |s| && (forall i :: 0 <= i < n ==> TagChar(s[i])) && (n < |s| ==> !TagChar(s[n]))
  {
    if s != "" && TagChar(s[0]) then 1 + TagLength(s[1..]) else 0
  }

  /** Characters before the next one that can start an attribute name. */
  function Junk(s: string): (n: nat)
    ensures n <= |s| && (forall i :: 0 <= i < n ==> !NameChar(s[i])) && (n < |s| ==> NameChar(s[n]))
  {
    if s != "" && !NameChar(s[0]) then 1 + Junk(s[1..]) else 0
  }

  function TrimEnd(s: string): string {
    if s != "" && IsSpace(s[|s| - 1]) then TrimEnd(s[..|s| - 1]) else s
  }

  function Trim(s: string): string {
    TrimEnd(s[Spaces(s)..])
  }

  // ---- parsing ------------------------------------------------------------------------------

  /** The optional `= value` after an attribute name: the value, and how much of `s` it takes. */
  function AttrValue(s: string): (r: (string, nat))
    ensures r.1 <= |s|
  {
    var a := Spaces(s);
    if a == |s| || s[a] != '=' then ("", 0) else
    var b := a + 1 + Spaces(s[a + 1..]);
    if b == |s| then ("", 0) else
    var v := s[b + 1..];
    var close := Find(v, [s[b]], 0);
    if (s[b] == '"' || s[b] == '\'') && close.Some? then (v[..close.value], b + 1 + close.value + 1)
    else
      var n := NonSpaces(s[b..]);
      (s[b..b + n], b + n)
  }

  /** An attribute name is not empty. */
  lemma NameStarts(s: string)
    requires Junk(s) < |s|
    ensures 0 < NameLength(s[Junk(s)..]) <= |s| - Junk(s)
  {
    hide NameChar;
    assert s[Junk(s)..][0] == s[Junk(s)];
  }

  function ParseAttrs(s: string): seq<Attr>
    decreases |s|
  {
    hide Junk, NameLength, AttrValue;
    var k := Junk(s);
    if k == |s| then [] else
    NameStarts(s);
    var t := s[k..];
    var n := NameLength(t);
    var (value, used) := AttrValue(t[n..]);
    [(t[..n], value)] + ParseAttrs(t[n + used..])
  }

  /** Position of the `>` that ends a tag; one inside quotes does not count. */
  function TagEnd(s: string, quote: Option<char>): (r: Option<nat>)
    ensures r.Some? ==> r.value < |s|
  {
    if s == "" then None
    else if quote.None? && s[0] == '>' then Some(0)
    else
      var q := if quote.Some? then (if s[0] == quote.value then None else quote)
               else if s[0] == '"' || s[0] == '\'' then Some(s[0]) else None;
      match TagEnd(s[1..], q)
      case None => None
      case Some(k) => Some(k + 1)
  }

  /** An element whose closing tag has not been seen; the bottom frame is the fragment itself. */
  datatype Frame = Frame(tag: string, attrs: seq<Attr>, children: seq<Node>)

  type Stack = s: seq<Frame> | s != [] witness [Frame("#root", [], [])]

  const ROOT: Stack := [Frame("#root", [], [])]

  function AddChildren(stack: Stack, nodes: seq<Node>): (r: Stack)
    ensures |r| == |stack|
  {
    var k := |stack| - 1;
    stack[k := stack[k].(children := stack[k].children + nodes)]
  }

  function PushText(stack: Stack, text: string): (r: Stack)
    ensures |r| == |stack|
  {
    if text == "" then stack else AddChildren(stack, [Text(text)])
  }

  /** Close the innermost open element. */
  function CloseTop(stack: Stack): (r: Stack)
    requires |stack| > 1
    ensures |r| == |stack| - 1
  {
    var k := |stack| - 1;
    AddChildren(stack[..k], [Element(stack[k].tag, stack[k].attrs, stack[k].children)])
  }

  /** Close every element down to frame `k`. */
  function CloseDown(stack: Stack, k: nat): (r: Stack)
    requires 1 <= k <= |stack|
    ensures |r| == k
    decreases |stack|
  {
    if |stack| == k then stack else CloseDown(CloseTop(stack), k)
  }

  /** Close down to the innermost element called `name`; ignore the tag if there is none. */
  function CloseNamed(stack: Stack, name: string, k: nat): Stack
    requires k < |stack|
  {
    if k == 0 then stack
    else if stack[k].tag == name then CloseDown(stack, k)
    else CloseNamed(stack, name, k - 1)
  }

  /** The fragment's nodes once the input has ended. */
  function Finish(stack: Stack): seq<Node> {
    CloseDown(stack, 1)[0].children
  }

  datatype Outcome = Stop(stack: Stack) | Go(rest: string, stack: Stack)

  /** Everything up to and including the first `>`, if any, is dropped. */
  function SkipPast(s: string, close: string, from: nat, stack: Stack): (r: Outcome)
    requires from <= |s| && s != "" && close != ""
    ensures r.Go? && |r.rest| < |s| && r.rest == s[|s| - |r.rest|..]
  {
    match Find(s, close, from)
    case None => Go("", stack)
    case Some(k) => Fits(s, close, k); Go(s[k + |close|..], stack)
  }

  /** An opening tag has been read; `rest` follows its `>`. */
  function Opened(tag: string, attrs: seq<Attr>, selfClose: bool, rest: string, stack: Stack): (r: Outcome)
    ensures r.Go? && |r.rest| <= |rest| && r.rest == rest[|rest| - |r.rest|..]
  {
    if selfClose || tag in VOID then Go(rest, AddChildren(stack, [Element(tag, attrs, [])]))
    else if tag in RAW then
      (match Find(Lower(rest), "</" + tag, 0)
       case None => Go("", AddChildren(stack, [Element(tag, attrs, [Text(rest)])]))
       case Some(k) =>
         var text := if k > 0 then [Text(rest[..k])] else [];
         Go(rest[k..], AddChildren(stack, [Element(tag, attrs, text)])))
    else Go(rest, stack + [Frame(tag, attrs, [])])
  }

  /** One markup construct at the front of `s`. */
  function ParseMarkup(s: string, stack: Stack): (r: Outcome)
    requires s != "" && s[0] == '<'
    ensures r.Go? ==> |r.rest| < |s| && r.rest == s[|s| - |r.rest|..]
  {
    if OccursAt(s, "<!--", 0) then SkipPast(s, "-->", 4, stack)
    else if OccursAt(s, "<!", 0) || OccursAt(s, "<?", 0) then SkipPast(s, ">", 0, stack)
    else if OccursAt(s, "</", 0) then
      (match Find(s, ">", 0)
       case None => Stop(stack)
       case Some(gt) =>
         Fits(s, ">", gt);
         assert s[gt..gt + 1][0] == '>' && s[0..2][1] == '/';
         Go(s[gt + 1..], CloseNamed(stack, Lower(Trim(s[2..gt])), |stack| - 1)))
    else match TagEnd(s[1..], None)
      case None => Stop(PushText(stack, s))
      case Some(k) =>
        var inner, rest := s[1..k + 1], s[k + 2..];
        var selfClose := inner != "" && inner[|inner| - 1] == '/';
        var body := if selfClose then inner[..|inner| - 1] else inner;
        var start := Spaces(body);
        var n := TagLength(body[start..]);
        if n == 0 then Go(rest, stack)
        else Opened(Lower(body[start..start + n]), ParseAttrs(body[start + n..]), selfClose, rest, stack)
  }

  function ParseFrom(s: string, stack: Stack): seq<Node>
    decreases |s|
  {
    if s == "" then Finish(stack) else
    match Find(s, "<", 0)
    case None => Finish(PushText(stack, s))
    case Some(lt) =>
      Fits(s, "<", lt);
      match ParseMarkup(s[lt..], PushText(stack, s[..lt]))
      case Stop(stack') => Finish(stack')
      case Go(rest, stack') => ParseFrom(rest, stack')
  }

  function Parse(src: string): seq<Node> {
    ParseFrom(src, ROOT)
  }

  lemma RestOfAll(src: string, i: nat, lt: nat, rest: string)
    requires i + lt <= |src| && |rest| <= |src[i..][lt..]|
    requires rest == src[i..][lt..][|src[i..][lt..]| - |rest|..]
    ensures rest == src[|src| - |rest|..]
  {
    assert src[i..][lt..] == src[i + lt..];
  }

  /** The parser's loop over an index and a stack of open nodes. */
  method ParseFragment(src: string) returns (nodes: seq<Node>)
    ensures nodes == Parse(src)
  {
    hide ParseMarkup, Finish, PushText, Find;
    var stack: Stack := ROOT;
    var i := 0;
    while i < |src|
      invariant 0 <= i <= |src|
      invariant ParseFrom(src[i..], stack) == Parse(src)
    {
      var s := src[i..];
      var lt := Find(s, "<", 0);
      if lt.None? {
        return Finish(PushText(stack, s));
      }
      Fits(s, "<", lt.value);
      stack := PushText(stack, s[..lt.value]);
      match ParseMarkup(s[lt.value..], stack) {
        case Stop(stack') => return Finish(stack');
        case Go(rest, stack') =>
          RestOfAll(src, i, lt.value, rest);
          stack, i := stack', |src| - |rest|;
      }
    }
    nodes := Finish(stack);
  }
}
