/** What parsing a printed forest yields, for every content; and when that is the forest itself. */
module HtmlRoundTrip {
  import opened Common
  import opened Strings
  import opened Html

  // ---- names the printer and the parser agree on ---------------------------------------------

  predicate NameOk(name: string) {
    name != "" && forall i :: 0 <= i < |name| ==> NameChar(name[i]) && name[i] != '"' && name[i] != '\''
  }

  predicate TagOk(tag: string) {
    && tag != "" && tag != "document" && tag[0] != '!' && tag[0] != '?' && tag[0] != '#'
    && forall i :: 0 <= i < |tag| ==> TagChar(tag[i]) && tag[i] != '"' && tag[i] != '\'' && LowerChar(tag[i]) == tag[i]
  }

  predicate AttrsOk(attrs: seq<Attr>) {
    forall i :: 0 <= i < |attrs| ==> NameOk(attrs[i].0)
  }

  /** Tag and attribute names are plain, and no raw-text element contains its own closing tag. Text and
      attribute values are arbitrary. */
  predicate WellNamed(node: Node)
    decreases node, 0
  {
    node.Element? ==>
      && TagOk(node.tag) && AttrsOk(node.attrs)
      && (node.tag in RAW ==> Find(Lower(RawText(node.children)), "</" + node.tag, 0).None?)
      && (node.tag !in VOID && node.tag !in RAW ==> AllWellNamed(node.children))
  }

  predicate AllWellNamed(nodes: seq<Node>)
    decreases nodes, 1
  {
    nodes == [] || (WellNamed(nodes[0]) && AllWellNamed(nodes[1..]))
  }

  // ---- the normal form ----------------------------------------------------------------------

  /** Text in front of a forest: nothing, or merged with the text the forest starts with. */
  function Prepend(text: string, nodes: seq<Node>): seq<Node> {
    if text == "" then nodes
    else if nodes != [] && nodes[0].Text? then [Text(text + nodes[0].text)] + nodes[1..]
    else [Text(text)] + nodes
  }

  function EscAttrs(attrs: seq<Attr>): seq<Attr> {
    if attrs == [] then [] else [(attrs[0].0, EscAttr(attrs[0].1))] + EscAttrs(attrs[1..])
  }

  /** Escaped once, adjacent text merged, empty text dropped, content that is never printed gone. */
  function Normalize(nodes: seq<Node>): seq<Node>
    decreases nodes, 1
  {
    if nodes == [] then [] else
    match nodes[0]
    case Text(text) => Prepend(EscText(text), Normalize(nodes[1..]))
    case Element(_, _, _) => [NormalizeElement(nodes[0])] + Normalize(nodes[1..])
  }

  function NormalizeElement(node: Node): (r: Node)
    requires node.Element?
    ensures r.Element?
    decreases node, 0
  {
    Element(node.tag, EscAttrs(node.attrs),
            if node.tag in VOID then []
            else if node.tag in RAW then Prepend(RawText(node.children), [])
            else Normalize(node.children))
  }

  // ---- small steps of the parser ------------------------------------------------------------

  lemma {:induction false} EscTextPlain(s: string)
    ensures forall i :: 0 <= i < |EscText(s)| ==> EscText(s)[i] != '<'
    decreases |s|
  {
    if s != "" { EscTextPlain(s[1..]); }
  }

  lemma {:induction false} EscAttrPlain(s: string)
    ensures forall i :: 0 <= i < |EscAttr(s)| ==> EscAttr(s)[i] != '"'
    decreases |s|
  {
    if s != "" { EscAttrPlain(s[1..]); }
  }

  /** Text up to the next markup becomes one text node. */
  lemma TextRun(t: string, r: string, stack: Stack)
    requires (forall i :: 0 <= i < |t| ==> t[i] != '<') && (r == "" || r[0] == '<')
    ensures ParseFrom(t + r, stack) == ParseFrom(r, PushText(stack, t))
  {
    hide ParseMarkup, Finish;
    var s := t + r;
    if t == "" {
      assert s == r;
    } else if r == "" {
      assert s == t;
      FindNoChar(s, '<');
    } else {
      FindChar(s, '<', |t|);
      FindChar(r, '<', 0);
      assert s[..|t|] == t && s[|t|..] == r && r[0..] == r && r[..0] == "";
    }
  }

  // ---- the end of a tag ---------------------------------------------------------------------

  ghost function Shift(r: Option<nat>, n: nat): Option<nat> {
    if r.Some? then Some(r.value + n) else None
  }

  lemma {:induction false} ScanPlain(a: string, s: string)
    requires forall i :: 0 <= i < |a| ==> a[i] != '>' && a[i] != '"' && a[i] != '\''
    ensures TagEnd(a + s, None) == Shift(TagEnd(s, None), |a|)
    decreases |a|
  {
    if a == "" {
      assert a + s == s;
    } else {
      assert (a + s)[1..] == a[1..] + s;
      ScanPlain(a[1..], s);
    }
  }

  lemma {:induction false} ScanQuoted(v: string, s: string)
    requires forall i :: 0 <= i < |v| ==> v[i] != '"'
    ensures TagEnd(v + "\"" + s, Some('"')) == Shift(TagEnd(s, None), |v| + 1)
    decreases |v|
  {
    if v == "" {
      assert (v + "\"" + s)[1..] == s;
    } else {
      assert (v + "\"" + s)[1..] == v[1..] + "\"" + s;
      ScanQuoted(v[1..], s);
    }
  }

  lemma QuoteOpens(v: string, s: string)
    requires forall i :: 0 <= i < |v| ==> v[i] != '"'
    ensures TagEnd("\"" + (v + "\"" + s), None) == Shift(TagEnd(s, None), |v| + 2)
  {
    var quoted := "\"" + (v + "\"" + s);
    ScanQuoted(v, s);
    assert quoted[1..] == v + "\"" + s;
  }

  lemma FrontPlain(name: string)
    requires NameOk(name)
    ensures var front := " " + name + "=";
            forall i :: 0 <= i < |front| ==> front[i] != '>' && front[i] != '"' && front[i] != '\''
  {
    hide IsSpace;
    var front := " " + name + "=";
    forall i | 0 <= i < |front| ensures front[i] != '>' && front[i] != '"' && front[i] != '\'' {
      if 0 < i <= |name| { assert front[i] == name[i - 1] && NameChar(name[i - 1]); }
    }
  }

  lemma ScanAttr(name: string, v: string, s: string)
    requires NameOk(name) && forall i :: 0 <= i < |v| ==> v[i] != '"'
    ensures TagEnd(PrintAttr(name, v) + s, None) == Shift(TagEnd(s, None), |PrintAttr(name, v)|)
  {
    hide NameOk, TagEnd;
    var front, quoted := " " + name + "=", "\"" + (v + "\"" + s);
    QuoteOpens(v, s);
    FrontPlain(name);
    ScanPlain(front, quoted);
    assert PrintAttr(name, v) + s == front + quoted;
  }

  lemma PrintFirst(attrs: seq<Attr>, s: string)
    requires attrs != []
    ensures PrintAttrs(attrs) + s == PrintAttr(attrs[0].0, EscAttr(attrs[0].1)) + (PrintAttrs(attrs[1..]) + s)
    ensures |PrintAttrs(attrs)| == |PrintAttr(attrs[0].0, EscAttr(attrs[0].1))| + |PrintAttrs(attrs[1..])|
  {
    hide EscAttr, PrintAttr;
    var first, rest := PrintAttr(attrs[0].0, EscAttr(attrs[0].1)), PrintAttrs(attrs[1..]);
    assert PrintAttrs(attrs) == first + rest;
    hide PrintAttrs;
    assert first + rest + s == first + (rest + s);
  }

  lemma {:induction false} ScanAttrs(attrs: seq<Attr>, s: string)
    requires AttrsOk(attrs)
    ensures TagEnd(PrintAttrs(attrs) + s, None) == Shift(TagEnd(s, None), |PrintAttrs(attrs)|)
    decreases |attrs|
  {
    hide TagEnd, NameOk, PrintAttr, EscAttr;
    if attrs == [] {
      assert PrintAttrs(attrs) + s == s;
    } else {
      PrintFirst(attrs, s);
      EscAttrPlain(attrs[0].1);
      ScanAttr(attrs[0].0, EscAttr(attrs[0].1), PrintAttrs(attrs[1..]) + s);
      ScanAttrs(attrs[1..], s);
    }
  }

  // ---- attributes ---------------------------------------------------------------------------

  lemma {:induction false} NameRun(name: string, s: string)
    requires (forall i :: 0 <= i < |name| ==> NameChar(name[i])) && s != "" && !NameChar(s[0])
    ensures NameLength(name + s) == |name| && (name != "" ==> Junk(name + s) == 0)
    decreases |name|
  {
    hide NameChar;
    if name == "" {
      assert name + s == s;
    } else {
      assert (name + s)[1..] == name[1..] + s;
      NameRun(name[1..], s);
    }
  }

  lemma QuotedValue(v: string, s: string)
    requires forall i :: 0 <= i < |v| ==> v[i] != '"'
    ensures AttrValue("=\"" + v + "\"" + s) == (v, |v| + 3)
  {
    var t := "=\"" + v + "\"" + s;
    var rest := v + "\"" + s;
    assert t[0] == '=' && t[1] == '"' && t[2..] == rest;
    assert Spaces(t) == 0;
    assert t[1..][0] == '"';
    assert Spaces(t[1..]) == 0;
    FindChar(rest, '"', |v|);
    assert rest[..|v|] == v;
  }

  /** One printed attribute is read, and reading goes on after it. */
  lemma AttrRead(name: string, v: string, tail: string)
    requires NameOk(name) && forall i :: 0 <= i < |v| ==> v[i] != '"'
    ensures ParseAttrs(PrintAttr(name, v) + tail) == [(name, v)] + ParseAttrs(tail)
  {
    var s := PrintAttr(name, v) + tail;
    var after := "=\"" + v + "\"" + tail;
    var t := name + after;
    assert s == " " + t;
    NameRun(name, after);
    FirstJunk(s, t);
    hide NameOk, Junk, NameLength, NameChar;
    QuotedValue(v, tail);
    hide AttrValue;
    assert t[..|name|] == name && t[|name|..] == after;
    assert t[|name| + (|v| + 3)..] == tail;
  }

  lemma {:induction false} AttrsRoundTrip(attrs: seq<Attr>)
    requires AttrsOk(attrs)
    ensures ParseAttrs(PrintAttrs(attrs)) == EscAttrs(attrs)
    decreases |attrs|
  {
    hide ParseAttrs, NameOk, PrintAttr, EscAttr;
    if attrs == [] {
      NoAttrs();
    } else {
      EscAttrPlain(attrs[0].1);
      AttrRead(attrs[0].0, EscAttr(attrs[0].1), PrintAttrs(attrs[1..]));
      AttrsRoundTrip(attrs[1..]);
    }
  }

  lemma NoAttrs()
    ensures ParseAttrs("") == []
  {
    assert Junk("") == 0;
  }

  lemma FirstJunk(s: string, t: string)
    requires s == " " + t && t != "" && NameChar(t[0])
    ensures Junk(s) == 1 && s[Junk(s)..] == t
  {
    assert s[1..] == t;
    assert Junk(t) == 0;
  }

  // ---- opening and closing tags -------------------------------------------------------------

  lemma LowerTag(tag: string)
    requires TagOk(tag)
    ensures Lower(tag) == tag
  {
  }

  lemma {:induction false} TagChars(tag: string, s: string)
    requires (forall i :: 0 <= i < |tag| ==> TagChar(tag[i])) && (s == "" || !TagChar(s[0]))
    ensures TagLength(tag + s) == |tag|
    decreases |tag|
  {
    hide TagChar;
    if tag == "" {
      assert tag + s == s;
    } else {
      assert (tag + s)[1..] == tag[1..] + s;
      TagChars(tag[1..], s);
    }
  }

  lemma TagRun(tag: string, s: string)
    requires TagOk(tag) && (s == "" || !TagChar(s[0]))
    ensures Spaces(tag + s) == 0 && TagLength(tag + s) == |tag|
  {
    TagChars(tag, s);
    assert TagChar(tag[0]) && (tag + s)[0] == tag[0];
  }

  lemma {:induction false} PrintedAttrsShape(attrs: seq<Attr>)
    ensures var s := PrintAttrs(attrs); attrs != [] ==> s != "" && s[0] == ' ' && s[|s| - 1] == '"'
    decreases |attrs|
  {
    if attrs != [] { PrintedAttrsShape(attrs[1..]); }
  }

  lemma OpenShape(tag: string, attrs: seq<Attr>, r: string)
    requires TagOk(tag) && AttrsOk(attrs)
    ensures var s, inner := OpenTag(tag, attrs) + r, tag + PrintAttrs(attrs);
            && |s| >= |inner| + 2 && s[0] == '<' && s[1] == tag[0]
            && TagEnd(s[1..], None) == Some(|inner|) && s[1..|inner| + 1] == inner && s[|inner| + 2..] == r
  {
    hide PrintAttrs, NameOk, IsSpace;
    var s, printed, close := OpenTag(tag, attrs) + r, PrintAttrs(attrs), ">" + r;
    assert s == "<" + (tag + (printed + close));
    assert s[1..] == tag + (printed + close);
    ScanAttrs(attrs, close);
    forall i | 0 <= i < |tag| ensures tag[i] != '>' { assert TagChar(tag[i]); }
    ScanPlain(tag, printed + close);
  }

  lemma InnerShape(tag: string, attrs: seq<Attr>)
    requires TagOk(tag) && AttrsOk(attrs)
    ensures var inner := tag + PrintAttrs(attrs);
            && tag != "" && inner[|inner| - 1] != '/' && Spaces(inner) == 0 && TagLength(inner) == |tag|
            && inner[..|tag|] == tag && inner[|tag|..] == PrintAttrs(attrs)
  {
    hide PrintAttrs, NameOk;
    PrintedAttrsShape(attrs);
    EmptyPrinted();
    TagRun(tag, PrintAttrs(attrs));
    assert TagChar(tag[|tag| - 1]);
  }

  /** A printed opening tag is read back with its name and escaped attributes. */
  lemma OpenRead(tag: string, attrs: seq<Attr>, r: string, stack: Stack)
    requires TagOk(tag) && AttrsOk(attrs)
    ensures OpenTag(tag, attrs) + r != "" && (OpenTag(tag, attrs) + r)[0] == '<'
    ensures ParseMarkup(OpenTag(tag, attrs) + r, stack) == Opened(tag, EscAttrs(attrs), false, r, stack)
  {
    hide ParseAttrs, PrintAttrs, Opened, AttrsOk, TagOk, OccursAt, Find, TagEnd, SkipPast, CloseNamed, Lower, Spaces,
         TagLength, OpenTag;
    var s, inner := OpenTag(tag, attrs) + r, tag + PrintAttrs(attrs);
    OpenShape(tag, attrs, r);
    NotSpecial(s, tag);
    InnerShape(tag, attrs);
    assert inner[0..] == inner && inner[0..|tag|] == tag;
    LowerTag(tag);
    AttrsRoundTrip(attrs);
  }

  lemma EmptyPrinted()
    ensures PrintAttrs([]) == ""
  {
  }

  lemma StartsWith(s: string, part: string, i: nat)
    requires i < |part| && i < |s|
    ensures OccursAt(s, part, 0) ==> s[i] == part[i]
  {
    if OccursAt(s, part, 0) { assert s[0..|part|][i] == s[i]; }
  }

  lemma NotSpecial(s: string, tag: string)
    requires TagOk(tag) && |s| > 1 && s[0] == '<' && s[1] == tag[0]
    ensures !OccursAt(s, "<!--", 0) && !OccursAt(s, "<!", 0) && !OccursAt(s, "<?", 0) && !OccursAt(s, "</", 0)
  {
    assert TagChar(tag[0]);
    StartsWith(s, "<!--", 1);
    StartsWith(s, "<!", 1);
    StartsWith(s, "<?", 1);
    StartsWith(s, "</", 1);
  }

  lemma TrimTag(tag: string)
    requires TagOk(tag)
    ensures Trim(tag) == tag
  {
    TagRun(tag, "");
    assert tag + "" == tag && tag[0..] == tag;
    assert TagChar(tag[|tag| - 1]);
  }

  lemma CloseShape(tag: string, r: string)
    requires TagOk(tag)
    ensures var s := CloseTag(tag) + r;
            && |s| >= 3 + |tag| && s[0] == '<' && s[1] == '/' && OccursAt(s, "</", 0)
            && !OccursAt(s, "<!--", 0) && !OccursAt(s, "<!", 0) && !OccursAt(s, "<?", 0)
            && Find(s, ">", 0) == Some(2 + |tag|) && s[2..2 + |tag|] == tag && s[3 + |tag|..] == r
  {
    hide IsSpace;
    var s := CloseTag(tag) + r;
    assert s[0..2] == "</";
    StartsWith(s, "<!--", 1);
    StartsWith(s, "<!", 1);
    StartsWith(s, "<?", 1);
    var gt := 2 + |tag|;
    forall i | 0 <= i < gt ensures s[i] != '>' {
      if i >= 2 { assert s[i] == tag[i - 2] && TagChar(tag[i - 2]); }
    }
    FindChar(s, '>', gt);
  }

  /** A printed closing tag closes the innermost element of that name, if one is open. */
  lemma CloseRead(tag: string, r: string, stack: Stack)
    requires TagOk(tag)
    ensures CloseTag(tag) + r != "" && (CloseTag(tag) + r)[0] == '<'
    ensures ParseMarkup(CloseTag(tag) + r, stack) == Go(r, CloseNamed(stack, tag, |stack| - 1))
  {
    hide CloseNamed, TagOk, OccursAt, Find, TagEnd, SkipPast, Opened, Trim, Lower, CloseTag;
    CloseShape(tag, r);
    TrimTag(tag);
    LowerTag(tag);
  }

  // ---- whole forests ------------------------------------------------------------------------

  /** What follows the current forest: the end of the input, or more markup. */
  predicate MarkupOrEnd(s: string) {
    s == "" || s[0] == '<'
  }

  lemma MarkupFirst(s: string, stack: Stack)
    requires s != "" && s[0] == '<'
    ensures ParseFrom(s, stack) == match ParseMarkup(s, stack)
                                   case Stop(stack') => Finish(stack')
                                   case Go(rest, stack') => ParseFrom(rest, stack')
  {
    hide ParseMarkup, Finish;
    FindChar(s, '<', 0);
    assert s[0..] == s && s[..0] == "";
  }

  lemma AddTwice(stack: Stack, a: seq<Node>, b: seq<Node>)
    ensures AddChildren(AddChildren(stack, a), b) == AddChildren(stack, a + b)
  {
    var k := |stack| - 1;
    assert stack[k].children + (a + b) == stack[k].children + a + b;
  }

  lemma AddNone(stack: Stack)
    ensures AddChildren(stack, []) == stack
  {
    var k := |stack| - 1;
    assert stack[k].children + [] == stack[k].children;
  }

  /** No raw-text element is ever open. */
  ghost predicate NoRawOpen(stack: Stack) {
    forall k :: 1 <= k < |stack| ==> stack[k].tag !in RAW
  }

  lemma {:induction false} StrayClose(stack: Stack, name: string, k: nat)
    requires NoRawOpen(stack) && name in RAW && k < |stack|
    ensures CloseNamed(stack, name, k) == stack
    decreases k
  {
    if k > 0 { StrayClose(stack, name, k - 1); }
  }

  lemma OccursIndex(u: string, part: string, k: nat, i: nat)
    requires OccursAt(u, part, k) && i < |part|
    ensures u[k + i] == part[i]
  {
    assert u[k..k + |part|][i] == u[k + i];
  }

  lemma Straddle(low: string, part: string, all: string, j: nat)
    requires part != "" && forall i :: 1 <= i < |part| ==> part[i] != part[0]
    requires |low| < |all| && all[..|low|] == low && all[|low|] == part[0]
    requires j < |low| && OccursAt(all, part, j)
    ensures OccursAt(low, part, j)
  {
    var i := |low| - j;
    assert i >= |part| by {
      if i < |part| { OccursIndex(all, part, j, i); }
    }
    var x, y := all[j..j + |part|], low[j..j + |part|];
    forall k | 0 <= k < |x| ensures x[k] == y[k] {
      assert x[k] == all[j + k] == all[..|low|][j + k];
    }
    assert x == y;
  }

  /** A pattern whose first character occurs in it only once cannot straddle the end of `low`. */
  lemma FirstAfter(low: string, part: string, all: string)
    requires part != "" && forall i :: 1 <= i < |part| ==> part[i] != part[0]
    requires Find(low, part, 0).None? && |low| <= |all| && all[..|low|] == low && OccursAt(all, part, |low|)
    ensures Find(all, part, 0) == Some(|low|)
  {
    hide Find;
    assert all[|low|] == all[|low|..|low| + |part|][0];
    hide OccursAt;
    forall j | 0 <= j < |low| ensures !OccursAt(all, part, j) {
      if OccursAt(all, part, j) { Straddle(low, part, all, j); }
    }
    FindsFirst(all, part, 0, |low|);
  }

  lemma RawTagPlain(tag: string)
    requires tag in RAW
    ensures var part := "</" + tag;
            Lower(part) == part && forall i :: 1 <= i < |part| ==> part[i] != part[0]
  {
    if tag == "script" { assert "</" + tag == "</script"; } else { assert "</" + tag == "</style"; }
  }

  lemma LowerParts(a: string, b: string, c: string)
    ensures Lower(a + b + c) == Lower(a) + Lower(b) + Lower(c)
  {
  }

  /** In raw text that does not contain the closing tag, the search stops where the text ends. */
  lemma RawEnd(raw: string, tag: string, r: string)
    requires tag in RAW && Find(Lower(raw), "</" + tag, 0).None?
    ensures Find(Lower(raw + CloseTag(tag) + r), "</" + tag, 0) == Some(|raw|)
  {
    hide Find, Lower, RAW;
    var part := "</" + tag;
    RawTagPlain(tag);
    LowerParts(raw, part, ">" + r);
    assert raw + CloseTag(tag) + r == raw + part + (">" + r);
    var low, all := Lower(raw), Lower(raw + CloseTag(tag) + r);
    assert |low| == |raw| by { LowerLength(raw); }
    assert all[|low|..|low| + |part|] == part;
    FirstAfter(low, part, all);
  }

  lemma LowerLength(s: string)
    ensures |Lower(s)| == |s|
  {
  }

  lemma PrependTwice(a: string, b: string, nodes: seq<Node>)
    ensures Prepend(a, Prepend(b, nodes)) == Prepend(a + b, nodes)
  {
    if a == "" {
      assert a + b == b;
    } else if b == "" {
      assert a + b == a;
    } else if nodes != [] && nodes[0].Text? {
      assert a + (b + nodes[0].text) == a + b + nodes[0].text;
    }
  }

  /** Pushing text and then nodes that do not start with text is pushing the merged forest. */
  lemma PushThenAdd(stack: Stack, t: string, nodes: seq<Node>)
    requires nodes == [] || nodes[0].Element?
    ensures AddChildren(PushText(stack, t), nodes) == AddChildren(stack, Prepend(t, nodes))
  {
    if t != "" { AddTwice(stack, [Text(t)], nodes); }
  }

  /** What the parser does with an element that has been opened. */
  lemma AfterOpen(tag: string, attrs: seq<Attr>, rest: string, stack: Stack)
    requires TagOk(tag) && AttrsOk(attrs)
    ensures var next := Opened(tag, EscAttrs(attrs), false, rest, stack);
            next.Go? && ParseFrom(OpenTag(tag, attrs) + rest, stack) == ParseFrom(next.rest, next.stack)
  {
    hide ParseMarkup, TagOk, AttrsOk, ParseFrom, OpenTag, EscAttrs, Finish;
    OpenRead(tag, attrs, rest, stack);
    MarkupFirst(OpenTag(tag, attrs) + rest, stack);
    hide Opened;
  }

  /** One element at the front of the input. */
  lemma ParseElement(node: Node, r: string, stack: Stack)
    requires node.Element? && WellNamed(node) && NoRawOpen(stack)
    ensures ParseFrom(Serialize(node) + r, stack) == ParseFrom(r, AddChildren(stack, [NormalizeElement(node)]))
    decreases node, 0
  {
    hide TagOk, AttrsOk, ParseFrom, OpenTag, CloseTag, EscAttrs, AddChildren, RawText, Find, Lower, VOID, RAW,
         NoRawOpen;
    var tag, attrs, children := node.tag, node.attrs, node.children;
    PlainTag(tag);
    if tag in VOID {
      AfterOpen(tag, attrs, r, stack);
    } else if tag in RAW {
      var rest := RawText(children) + CloseTag(tag) + r;
      assert Serialize(node) + r == OpenTag(tag, attrs) + rest;
      AfterOpen(tag, attrs, rest, stack);
      ParseRaw(node, r, stack);
    } else {
      var rest, stack' := CloseTag(tag) + r, stack + [Frame(tag, EscAttrs(attrs), [])];
      assert Serialize(node) + r == OpenTag(tag, attrs) + (SerializeAll(children) + rest);
      AfterOpen(tag, attrs, SerializeAll(children) + rest, stack);
      assert SerializeAll(children) + rest == "" + SerializeAll(children) + rest;
      assert NoRawOpen(stack') by { OpenOrdinary(stack, Frame(tag, EscAttrs(attrs), [])); }
      assert MarkupOrEnd(rest) by { CloseRead(tag, r, stack); }
      ParseNodes("", children, rest, stack');
      CloseInnermost(stack, tag, attrs, Normalize(children), r);
    }
  }

  lemma OpenOrdinary(stack: Stack, frame: Frame)
    requires NoRawOpen(stack) && frame.tag !in RAW
    ensures NoRawOpen(stack + [frame])
  {
  }

  lemma PlainTag(tag: string)
    requires TagOk(tag)
    ensures tag != "document" && tag != "" && tag[0] != '#'
  {
  }

  lemma ParseRaw(node: Node, r: string, stack: Stack)
    requires node.Element? && WellNamed(node) && node.tag in RAW && node.tag !in VOID && NoRawOpen(stack)
    ensures var rest := RawText(node.children) + CloseTag(node.tag) + r;
            var next := Opened(node.tag, EscAttrs(node.attrs), false, rest, stack);
            next.Go? && ParseFrom(next.rest, next.stack) == ParseFrom(r, AddChildren(stack, [NormalizeElement(node)]))
  {
    hide TagOk, AttrsOk, AddChildren, ParseFrom, CloseTag, RawText, Find, Lower, VOID, RAW, EscAttrs, Normalize;
    var tag, raw := node.tag, RawText(node.children);
    var rest := raw + CloseTag(tag) + r;
    RawEnd(raw, tag, r);
    assert rest[|raw|..] == CloseTag(tag) + r && rest[..|raw|] == raw;
    assert Prepend(raw, []) == if |raw| > 0 then [Text(raw)] else [];
    RawStray(tag, r, stack, NormalizeElement(node));
  }

  lemma RawStray(tag: string, r: string, stack: Stack, node: Node)
    requires TagOk(tag) && tag in RAW && NoRawOpen(stack)
    ensures ParseFrom(CloseTag(tag) + r, AddChildren(stack, [node])) == ParseFrom(r, AddChildren(stack, [node]))
  {
    hide ParseMarkup, TagOk, AddChildren, ParseFrom, CloseTag, RAW, CloseNamed;
    var stack' := AddChildren(stack, [node]);
    CloseRead(tag, r, stack');
    MarkupFirst(CloseTag(tag) + r, stack');
    AddKeepsTags(stack, [node]);
    StrayClose(stack', tag, |stack'| - 1);
  }

  lemma AddKeepsTags(stack: Stack, nodes: seq<Node>)
    ensures forall k :: 0 <= k < |stack| ==> AddChildren(stack, nodes)[k].tag == stack[k].tag
  {
  }

  lemma CloseInnermost(stack: Stack, tag: string, attrs: seq<Attr>, nodes: seq<Node>, r: string)
    requires TagOk(tag)
    ensures var open := stack + [Frame(tag, EscAttrs(attrs), [])];
            ParseFrom(CloseTag(tag) + r, AddChildren(open, nodes))
            == ParseFrom(r, AddChildren(stack, [Element(tag, EscAttrs(attrs), nodes)]))
  {
    hide ParseMarkup, TagOk, ParseFrom;
    var open := stack + [Frame(tag, EscAttrs(attrs), [])];
    var full := AddChildren(open, nodes);
    CloseRead(tag, r, full);
    MarkupFirst(CloseTag(tag) + r, full);
    assert [] + nodes == nodes;
    assert full == stack + [Frame(tag, EscAttrs(attrs), nodes)];
    assert full[..|stack|] == stack;
    assert CloseNamed(full, tag, |stack|) == CloseDown(full, |stack|);
    assert CloseDown(full, |stack|) == CloseTop(full);
  }

  /** A forest with text `t` in front of it. */
  lemma ParseNodes(t: string, nodes: seq<Node>, tail: string, stack: Stack)
    requires AllWellNamed(nodes) && MarkupOrEnd(tail) && NoRawOpen(stack)
    requires forall i :: 0 <= i < |t| ==> t[i] != '<'
    ensures ParseFrom(t + SerializeAll(nodes) + tail, stack)
            == ParseFrom(tail, AddChildren(stack, Prepend(t, Normalize(nodes))))
    decreases nodes, 1
  {
    hide ParseFrom, AddChildren, NormalizeElement;
    if nodes == [] {
      assert t + SerializeAll(nodes) + tail == t + tail;
      TextRun(t, tail, stack);
      PushThenAdd(stack, t, []);
      AddNone(PushText(stack, t));
    } else if nodes[0].Text? {
      var text := EscText(nodes[0].text);
      EscTextPlain(nodes[0].text);
      assert t + SerializeAll(nodes) + tail == (t + text) + SerializeAll(nodes[1..]) + tail;
      ParseNodes(t + text, nodes[1..], tail, stack);
      PrependTwice(t, text, Normalize(nodes[1..]));
    } else {
      ParseElementFirst(t, nodes, tail, stack);
    }
  }

  lemma ParseElementFirst(t: string, nodes: seq<Node>, tail: string, stack: Stack)
    requires AllWellNamed(nodes) && MarkupOrEnd(tail) && NoRawOpen(stack) && nodes != [] && nodes[0].Element?
    requires forall i :: 0 <= i < |t| ==> t[i] != '<'
    ensures ParseFrom(t + SerializeAll(nodes) + tail, stack)
            == ParseFrom(tail, AddChildren(stack, Prepend(t, Normalize(nodes))))
    decreases nodes, 0
  {
    hide ParseFrom, AddChildren, NormalizeElement, Serialize, WellNamed;
    var node, r := nodes[0], SerializeAll(nodes[1..]) + tail;
    var s := Serialize(node) + r;
    assert t + SerializeAll(nodes) + tail == t + s;
    StartsWithTag(node, r);
    TextRun(t, s, stack);
    var stack1 := PushText(stack, t);
    assert NoRawOpen(stack1) by { AddKeepsTags(stack, [Text(t)]); }
    ParseElement(node, r, stack1);
    var stack2 := AddChildren(stack1, [NormalizeElement(node)]);
    assert NoRawOpen(stack2) by { AddKeepsTags(stack1, [NormalizeElement(node)]); }
    assert r == "" + SerializeAll(nodes[1..]) + tail;
    ParseNodes("", nodes[1..], tail, stack2);
    AddTwice(stack1, [NormalizeElement(node)], Normalize(nodes[1..]));
    assert Normalize(nodes) == [NormalizeElement(node)] + Normalize(nodes[1..]);
    PushThenAdd(stack, t, [NormalizeElement(node)] + Normalize(nodes[1..]));
  }

  lemma StartsWithTag(node: Node, r: string)
    requires node.Element? && WellNamed(node)
    ensures Serialize(node) + r != "" && (Serialize(node) + r)[0] == '<'
  {
    PlainTag(node.tag);
    assert OpenTag(node.tag, node.attrs)[0] == '<';
  }

  /** Parsing what was printed yields the normal form, for every forest with plain names. */
  lemma ParsePrinted(forest: seq<Node>)
    requires AllWellNamed(forest)
    ensures Parse(SerializeAll(forest)) == Normalize(forest)
  {
    hide ParseFrom, Normalize, SerializeAll, AllWellNamed;
    assert SerializeAll(forest) == "" + SerializeAll(forest) + "";
    ParseNodes("", forest, "", ROOT);
    assert [] + Normalize(forest) == Normalize(forest);
    EndOfInput(AddChildren(ROOT, Normalize(forest)));
  }

  lemma EndOfInput(stack: Stack)
    requires |stack| == 1
    ensures ParseFrom("", stack) == stack[0].children
  {
  }

  // ---- forests that survive the round trip ----------------------------------------------------

  predicate PlainText(s: string) {
    forall i :: 0 <= i < |s| ==> s[i] != '&' && s[i] != '<' && s[i] != '>'
  }

  predicate PlainValue(s: string) {
    PlainText(s) && forall i :: 0 <= i < |s| ==> s[i] != '"'
  }

  predicate PlainValues(attrs: seq<Attr>) {
    forall i :: 0 <= i < |attrs| ==> PlainValue(attrs[i].1)
  }

  /** Nothing to escape, no empty text, and only the children that the printer prints. */
  predicate NormalNode(node: Node)
    decreases node, 0
  {
    match node
    case Text(text) => text != "" && PlainText(text)
    case Element(tag, attrs, children) =>
      && PlainValues(attrs)
      && (if tag in VOID then children == []
          else if tag in RAW then children == [] || (|children| == 1 && children[0].Text? && children[0].text != "")
          else Normal(children))
  }

  /** Normal nodes, no two neighbouring ones text. */
  predicate Normal(nodes: seq<Node>)
    decreases nodes, 1
  {
    nodes == [] || (NormalNode(nodes[0]) && !(nodes[0].Text? && |nodes| > 1 && nodes[1].Text?) && Normal(nodes[1..]))
  }

  lemma {:induction false} EscTextFixed(s: string)
    ensures |EscText(s)| >= |s| && (EscText(s) == s <==> PlainText(s))
    decreases |s|
  {
    if s != "" {
      var c, rest := EscTextChar(s[0]), s[1..];
      EscTextFixed(rest);
      assert s == [s[0]] + rest;
      if |c| == 1 {
        assert EscText(s)[1..] == EscText(rest);
        assert PlainText(s) <==> PlainText(rest) by { PlainSplit(s); }
      }
    }
  }

  lemma PlainSplit(s: string)
    requires s != ""
    ensures PlainText(s) <==> s[0] != '&' && s[0] != '<' && s[0] != '>' && PlainText(s[1..])
    ensures PlainValue(s) <==> s[0] != '"' && s[0] != '&' && s[0] != '<' && s[0] != '>' && PlainValue(s[1..])
  {
    assert s == [s[0]] + s[1..];
  }

  lemma {:induction false} EscAttrFixed(s: string)
    ensures |EscAttr(s)| >= |s| && (EscAttr(s) == s <==> PlainValue(s))
    decreases |s|
  {
    if s != "" {
      var c, rest := if s[0] == '"' then "&quot;" else EscTextChar(s[0]), s[1..];
      EscAttrFixed(rest);
      assert s == [s[0]] + rest;
      if |c| == 1 {
        assert EscAttr(s)[1..] == EscAttr(rest);
        assert PlainValue(s) <==> PlainValue(rest) by { PlainSplit(s); }
      }
    }
  }

  lemma {:induction false} EscAttrsFixed(attrs: seq<Attr>)
    ensures EscAttrs(attrs) == attrs <==> PlainValues(attrs)
    decreases |attrs|
  {
    if attrs != [] {
      hide EscAttr, PlainValue;
      EscAttrFixed(attrs[0].1);
      EscAttrsFixed(attrs[1..]);
      assert attrs == [attrs[0]] + attrs[1..];
      assert EscAttrs(attrs)[1..] == EscAttrs(attrs[1..]);
    }
  }

  lemma {:induction false} NormalizeShrinks(nodes: seq<Node>)
    ensures |Normalize(nodes)| <= |nodes|
    decreases |nodes|
  {
    if nodes != [] { NormalizeShrinks(nodes[1..]); }
  }

  lemma {:induction false} RawShape(nodes: seq<Node>)
    ensures Prepend(RawText(nodes), []) == nodes
            <==> nodes == [] || (|nodes| == 1 && nodes[0].Text? && nodes[0].text != "")
  {
    if |nodes| == 1 {
      assert RawText(nodes[1..]) == "";
      assert RawText(nodes) == if nodes[0].Text? then nodes[0].text else "";
      assert Prepend(RawText(nodes), []) == if RawText(nodes) == "" then [] else [Text(RawText(nodes))];
    }
  }

  lemma NormalNodeFixed(node: Node)
    requires node.Element?
    ensures NormalizeElement(node) == node <==> NormalNode(node)
    decreases node, 0
  {
    hide EscAttrs, PlainValues, RawText, Prepend, Normalize, Normal, VOID, RAW;
    EscAttrsFixed(node.attrs);
    RawShape(node.children);
    if node.tag !in VOID && node.tag !in RAW { NormalFixed(node.children); }
  }

  /** The normal form changes nothing exactly on the forests that are already normal. */
  lemma NormalFixed(nodes: seq<Node>)
    ensures Normalize(nodes) == nodes <==> Normal(nodes)
    decreases nodes, 1
  {
    hide NormalizeElement, NormalNode, EscText, PlainText;
    if nodes != [] {
      var rest := nodes[1..];
      NormalFixed(rest);
      NormalizeShrinks(rest);
      assert nodes == [nodes[0]] + rest;
      if nodes[0].Text? {
        TextFixed(nodes[0].text, rest);
      } else {
        NormalNodeFixed(nodes[0]);
        assert Normalize(nodes)[1..] == Normalize(rest);
      }
    }
  }

  lemma TextFixed(text: string, rest: seq<Node>)
    requires |Normalize(rest)| <= |rest| && (Normalize(rest) == rest <==> Normal(rest))
    ensures var nodes := [Text(text)] + rest; Normalize(nodes) == nodes <==> Normal(nodes)
  {
    hide EscText, PlainText, Normal, Normalize;
    var nodes, after := [Text(text)] + rest, Normalize(rest);
    assert nodes[1..] == rest;
    EscTextFixed(text);
    TextFirst(text, rest);
    if EscText(text) != "" && !(after != [] && after[0].Text?) {
      assert ([Text(EscText(text))] + after)[1..] == after;
      assert [Text(EscText(text))] + after == nodes <==> EscText(text) == text && after == rest;
    }
  }

  lemma TextFirst(text: string, rest: seq<Node>)
    ensures var nodes := [Text(text)] + rest;
            && Normalize(nodes) == Prepend(EscText(text), Normalize(rest))
            && (Normal(nodes) <==> text != "" && PlainText(text) && !(rest != [] && rest[0].Text?) && Normal(rest))
  {
    var nodes := [Text(text)] + rest;
    assert nodes[1..] == rest;
  }

  /** Printing and parsing give a forest back if and only if it is normal. */
  lemma RoundTripIff(forest: seq<Node>)
    requires AllWellNamed(forest)
    ensures Parse(SerializeAll(forest)) == forest <==> Normal(forest)
  {
    ParsePrinted(forest);
    NormalFixed(forest);
  }

  /** Entities are not decoded: an ampersand comes back as the five characters that print it. */
  lemma EntityExample()
    ensures Parse(SerializeAll([Text("&")])) == [Text("&amp;")]
  {
    ParsePrinted([Text("&")]);
    assert EscText("&") == "&amp;";
  }
}
