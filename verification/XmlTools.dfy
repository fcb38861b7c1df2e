/** The XML fallback transport: rendering Tool calls as text, and reading a model round back. */
module XmlTools {
  import opened Text
  import Utf8
  import opened Json
  import opened Protocol

  const MAX_XML_ROUND_BYTES := 262144
  const OPEN := "<tool_call"
  const CLOSE := "</tool_call>"

  datatype XmlRound = XmlRound(calls: seq<ToolCall>, workingText: string)

  // ---- Attributes ----

  function UnescapeAttr(s: string): string {
    ReplaceAll(ReplaceAll(ReplaceAll(ReplaceAll(ReplaceAll(s,
      "&quot;", "\""), "&apos;", "'"), "&lt;", "<"), "&gt;", ">"), "&amp;", "&")
  }

  /** The quoted value at the front of `s`. */
  function AttrValue(s: string): Option<string> {
    if s == "" || (s[0] != '\"' && s[0] != '\'') then None
    else
      match Find(s[1..], s[..1])
      case None => None
      case Some(end) => Some(UnescapeAttr(s[1..][..end]))
  }

  function Attr(attrs: string, key: string): Option<string> {
    match Find(attrs, key + "=")
    case None => None
    case Some(at) => AttrValue(attrs[at + |key| + 1..])
  }

  /** Characters that JSON writes unchanged and XML does not treat specially. */
  predicate PlainChar(c: char) {
    c >= ' ' && c != '\"' && c != '\\' && !IsMarkup(c)
  }

  predicate PlainChars(v: string) {
    forall i :: 0 <= i < |v| ==> PlainChar(v[i])
  }

  lemma CharTextShape(c: char)
    ensures var w := CharText(c, true);
            && (PlainChar(c) ==> w == [c]) && (!PlainChar(c) ==> |w| > 1)
            && '&' !in w && (c != '\"' ==> '\"' !in w)
  {
  }

  lemma {:induction false} CharsTextShape(v: string)
    ensures PlainChars(v) ==> CharsText(v, true) == v
    ensures !PlainChars(v) ==> |CharsText(v, true)| > |v|
    ensures '&' !in CharsText(v, true) && ('\"' !in v ==> '\"' !in CharsText(v, true))
  {
    hide CharText, PlainChar;
    if v != "" {
      CharsTextShape(v[1..]);
      CharTextShape(v[0]);
      assert v == [v[0]] + v[1..];
      assert PlainChars(v) <==> PlainChar(v[0]) && PlainChars(v[1..]) by { PlainSplit(v); }
    }
  }

  lemma PlainSplit(v: string)
    requires v != ""
    ensures PlainChars(v) <==> PlainChar(v[0]) && PlainChars(v[1..])
  {
    hide PlainChar;
    assert forall i :: 1 <= i < |v| ==> v[i] == v[1..][i - 1];
    if PlainChars(v) {
      assert forall i :: 0 <= i < |v| - 1 ==> PlainChar(v[i + 1]) && v[1..][i] == v[i + 1];
    }
  }

  lemma {:induction false} CharsTextQuote(a: string, b: string)
    ensures CharsText(a + "\"" + b, true) == CharsText(a, true) + "\\\"" + CharsText(b, true)
  {
    hide CharText;
    if a == "" {
      assert a + "\"" + b == "\"" + b && ("\"" + b)[1..] == b;
      assert CharText('\"', true) == "\\\"" by { QuoteText(); }
    } else {
      CharsTextQuote(a[1..], b);
      assert (a + "\"" + b)[1..] == a[1..] + "\"" + b && (a + "\"" + b)[0] == a[0];
    }
  }

  lemma QuoteText()
    ensures CharText('\"', true) == "\\\""
  {
  }

  lemma UnescapeNothing(s: string)
    requires '&' !in s
    ensures UnescapeAttr(s) == s
  {
    NothingToReplace(s, "&quot;", "\"");
    NothingToReplace(s, "&apos;", "'");
    NothingToReplace(s, "&lt;", "<");
    NothingToReplace(s, "&gt;", ">");
    NothingToReplace(s, "&amp;", "&");
  }

  /** What an attribute reader gets from a JSON-quoted value: the text up to the first quotation mark. */
  lemma AttrValueOfText(written: string, rest: string)
    requires '\"' !in written && '&' !in written
    ensures AttrValue("\"" + written + "\"" + rest) == Some(written)
  {
    hide UnescapeAttr;
    var s := "\"" + written + "\"" + rest;
    assert s[1..] == written + "\"" + rest && s[..1] == "\"";
    FindAfter(written, "\"", rest);
    assert s[1..][..|written|] == written;
    UnescapeNothing(written);
  }

  /**
   * Quoted values are written with JSON escapes but read with XML entities, so a value that the reader has found survives
   * exactly when it contains no character that JSON escapes.
   */
  lemma AttrRoundTrip(v: string, rest: string)
    ensures AttrValue(Quoted(v, true) + rest) == Some(v) <==> PlainChars(v)
  {
    hide CharText, AttrValue, PlainChars;
    var written := CharsText(v, true);
    CharsTextShape(v);
    if '\"' !in v {
      assert Quoted(v, true) + rest == "\"" + written + "\"" + rest;
      AttrValueOfText(written, rest);
    } else {
      var k := QuoteAt(v);
      AttrStopsAtQuote(v[..k], v[k + 1..], rest);
      assert v == v[..k] + "\"" + v[k + 1..];
      assert v[k] == '\"';
      assert !PlainChars(v) by { NotPlain(v, k); }
    }
  }

  lemma NotPlain(v: string, k: nat)
    requires k < |v| && v[k] == '\"'
    ensures !PlainChars(v)
  {
  }

  /** A quotation mark inside the value ends it early, with the backslash in front of it read as text. */
  lemma AttrStopsAtQuote(a: string, b: string, rest: string)
    requires '\"' !in a
    ensures var v := a + "\"" + b;
            var r := AttrValue(Quoted(v, true) + rest);
            r.Some? && '\"' !in r.value
  {
    hide AttrValue, CharsText, PlainChars;
    var head, tail := CharsText(a, true) + "\\", CharsText(b, true) + "\"" + rest;
    CharsTextQuote(a, b);
    CharsTextShape(a);
    assert Quoted(a + "\"" + b, true) + rest == "\"" + head + "\"" + tail;
    AttrValueOfText(head, tail);
  }

  lemma QuotedValueIsCut(rest: string)
    ensures AttrValue(Quoted("a\"b", true) + rest) == Some("a\\")
  {
    hide AttrValue, CharsText;
    CharsTextQuote("a", "b");
    assert "a" + "\"" + "b" == "a\"b";
    PlainText();
    assert Quoted("a\"b", true) + rest == "\"" + "a\\" + "\"" + ("b\"" + rest);
    AttrValueOfText("a\\", "b\"" + rest);
  }

  lemma PlainText()
    ensures CharsText("a", true) == "a" && CharsText("b", true) == "b"
    ensures PlainChars("a") && PlainChars("b")
  {
    CharsTextShape("a");
    CharsTextShape("b");
  }

  function QuoteAt(v: string): (k: nat)
    requires '\"' in v
    ensures k < |v| && v[k] == '\"' && '\"' !in v[..k]
  {
    if v[0] == '\"' then 0 else 1 + QuoteAt(v[1..])
  }

  // ---- One block ----

  datatype Block =
    | NoBlock
    | Unterminated
    | Block(before: string, attrs: string, body: string, rest: string)

  /** The first `<tool_call …>…</tool_call>` in the text. */
  function FirstBlock(text: string): (b: Block)
    ensures b.Block? ==> |b.rest| < |text|
  {
    match Find(text, OPEN)
    case None => NoBlock
    case Some(start) =>
      var after := text[start + |OPEN|..];
      match Find(after, ">")
      case None => Unterminated
      case Some(openEnd) =>
        var inside := after[openEnd + 1..];
        match Find(inside, CLOSE)
        case None => Unterminated
        case Some(end) => Block(text[..start], after[..openEnd], inside[..end], inside[end + |CLOSE|..])
  }

  function ReadCall(attrs: string, body: string, nth: nat, taken: set<string>): Result<ToolCall, string> {
    match Attr(attrs, "name")
    case None => Err("missing_tool_name")
    case Some(name) =>
      var given := Attr(attrs, "id");
      var id := if given.Some? then given.value else "xml_" + NatText(nth);
      if id in taken then Err("duplicate_tool_call_id")
      else
        match ParseJson(Trim(body))
        case None => Err("invalid_tool_arguments")
        case Some(arguments) => Result.Ok(ToolCall(id, name, arguments, Xml))
  }

  function Ids(calls: seq<ToolCall>): set<string> {
    set i | 0 <= i < |calls| :: calls[i].id
  }

  function ReadBlocks(text: string, calls: seq<ToolCall>, working: string): Result<XmlRound, string>
    decreases |text|
  {
    match FirstBlock(text)
    case NoBlock =>
      if Contains(text, CLOSE) then Err("malformed_tool_call")
      else Result.Ok(XmlRound(calls, Trim(working + text)))
    case Unterminated => Err("unterminated_tool_call")
    case Block(before, attrs, body, rest) =>
      match ReadCall(attrs, body, |calls| + 1, Ids(calls))
      case Err(e) => Err(e)
      case Ok(call) => ReadBlocks(rest, calls + [call], working + before)
  }

  function ParseRound(text: string): Result<XmlRound, string> {
    if |Utf8.Encode(text)| > MAX_XML_ROUND_BYTES then Err("xml_round_too_large") else ReadBlocks(text, [], "")
  }

  method ParseXmlToolRound(text: string) returns (r: Result<XmlRound, string>)
    ensures r == ParseRound(text)
  {
    hide FirstBlock, ReadCall, Contains;
    if |Utf8.Encode(text)| > MAX_XML_ROUND_BYTES {
      return Err("xml_round_too_large");
    }
    var calls, working, rest := [], "", text;
    while true
      invariant ReadBlocks(text, [], "") == ReadBlocks(rest, calls, working)
      decreases |rest|
    {
      var block := FirstBlock(rest);
      match block {
        case NoBlock => break;
        case Unterminated => return Err("unterminated_tool_call");
        case Block(before, attrs, body, after) =>
          working := working + before;
          var call := ReadCall(attrs, body, |calls| + 1, Ids(calls));
          if call.Err? {
            return Err(call.error);
          }
          calls := calls + [call.value];
          rest := after;
      }
    }
    if Contains(rest, CLOSE) {
      return Err("malformed_tool_call");
    }
    working := working + rest;
    return Result.Ok(XmlRound(calls, Trim(working)));
  }

  // ---- Rendering ----

  function Attrs(id: string, name: string): string {
    " id=" + Quoted(id, true) + " name=" + Quoted(name, true)
  }

  function RenderAttrs(call: ToolCall): string {
    Attrs(call.id, call.name)
  }

  function RenderBody(call: ToolCall): string {
    "\n" + SafeJson(call.arguments) + "\n"
  }

  function RenderCall(call: ToolCall): string {
    OPEN + RenderAttrs(call) + ">" + RenderBody(call) + CLOSE
  }

  /** The retained calls of a round as the agent loop writes them after the working text. */
  function RenderCalls(calls: seq<ToolCall>): string {
    if calls == [] then "" else "\n" + RenderCall(calls[0]) + RenderCalls(calls[1..])
  }

  predicate Transportable(call: ToolCall) {
    && PlainChars(call.id) && PlainChars(call.name) && !Contains(call.id, "name=")
    && NumbersOk(call.arguments) && Nesting(call.arguments) < MAX_DEPTH
    && call.transport == Xml
  }

  /** The id comes first, so it is found whatever it holds. */
  lemma IdReadsBack(id: string, name: string)
    ensures Attr(Attrs(id, name), "id") == Some(id) <==> PlainChars(id)
  {
    hide AttrValue, Quoted, PlainChars, Find;
    var rest := " name=" + Quoted(name, true);
    assert "id" + "=" == "id=";
    FindAfter(" ", "id=", Quoted(id, true) + rest);
    assert Attrs(id, name) == " " + "id=" + (Quoted(id, true) + rest);
    assert Attrs(id, name)[4..] == Quoted(id, true) + rest;
    AttrRoundTrip(id, rest);
  }

  /** Behind an id that does not hold the name's key the name is found, and survives like any value. */
  lemma NameReadsBack(id: string, name: string)
    requires !Contains(CharsText(id, true), "name=")
    ensures Attr(Attrs(id, name), "name") == Some(name) <==> PlainChars(name)
  {
    hide AttrValue, Contains, Find, PlainChars, CharsText;
    var written, quotedName := CharsText(id, true), Quoted(name, true);
    assert "name" + "=" == "name=";
    NameFound(written, quotedName);
    assert Attrs(id, name) == " id=\"" + written + "\" name=" + quotedName;
    assert Attrs(id, name)[|written| + 12..] == quotedName == quotedName + "";
    AttrRoundTrip(name, "");
  }

  /** An id that holds the name's key is where the name is looked for. */
  lemma KeyInId(written: string, rest: string)
    requires Contains(written, "name=")
    ensures Find(" id=\"" + written + rest, "name=") == Some(5 + Find(written, "name=").value)
  {
    hide Find;
    var head, needle := " id=\"", "name=";
    var s, at := head + written + rest, Find(written, "name=").value;
    assert s == head + (written + rest);
    forall j | 5 <= j <= 5 + at
      ensures MatchAt(s, needle, j) == MatchAt(written, needle, j - 5)
    {
      MatchInSuffix(head, written + rest, needle, j - 5);
      MatchInPrefix(written, rest, needle, j - 5);
    }
    assert forall j :: 0 <= j < 5 ==> s[j] == head[j] && head[j] != needle[0];
    forall j | 0 <= j < 5 + at
      ensures !MatchAt(s, needle, j)
    {
      if MatchAt(s, needle, j) {
        MatchChars(s, needle, j);
      }
    }
    FindIs(s, needle, 5 + at);
  }

  lemma FindChar(a: string, t: string, c: char)
    requires c in a || c !in t
    ensures Find(a + t, [c]) == Find(a, [c])
  {
    hide Find;
    if c in a {
      var i :| 0 <= i < |a| && a[i] == c;
      assert MatchAt(a, [c], i);
      var at := Find(a, [c]).value;
      forall j | j <= at
        ensures MatchAt(a + t, [c], j) == MatchAt(a, [c], j)
      {
        MatchInPrefix(a, t, [c], j);
      }
      FindIs(a + t, [c], at);
    } else {
      NoChar(a, c);
      NoChar(a + t, c);
    }
  }

  lemma NoChar(a: string, c: char)
    requires c !in a
    ensures Find(a, [c]).None?
  {
    hide Find;
    forall j: nat | j < |a|
      ensures !MatchAt(a, [c], j)
    {
      assert a[j..j + 1] == [a[j]];
    }
  }

  /** A value that starts in text with a quotation mark behind its first character does not reach what follows. */
  lemma ValueInFront(x: string, t: string, u: string)
    requires x != "" && '\"' in x[1..] && '\'' !in t && '\'' !in u
    ensures AttrValue(x + t) == AttrValue(x + u)
  {
    hide Find, UnescapeAttr;
    assert (x + t)[1..] == x[1..] + t && (x + u)[1..] == x[1..] + u;
    assert (x + t)[..1] == [x[0]] && (x + u)[..1] == [x[0]];
    if x[0] == '\"' || x[0] == '\'' {
      FindChar(x[1..], t, x[0]);
      FindChar(x[1..], u, x[0]);
      var r := Find(x[1..], [x[0]]);
      if r.Some? {
        assert (x[1..] + t)[..r.value] == (x[1..] + u)[..r.value];
      }
    }
  }

  /** With the key in the id, what is read as the name is the same for all names without quotation marks. */
  lemma NameIsIgnored(id: string, a: string, b: string)
    requires Contains(CharsText(id, true), "name=")
    requires '\'' !in CharsText(a, true) && '\'' !in CharsText(b, true)
    ensures Attr(Attrs(id, a), "name") == Attr(Attrs(id, b), "name")
  {
    hide AttrValue, Find, CharsText;
    var written := CharsText(id, true);
    var at := Find(written, "name=").value;
    var front := written[at + 5..] + "\" name=\"";
    assert front[|front| - 1] == '\"' && |front| >= 8;
    assert front[1..][|front| - 2] == '\"';
    NameFromId(id, a);
    NameFromId(id, b);
    ValueInFront(front, CharsText(a, true) + "\"", CharsText(b, true) + "\"");
  }

  lemma NameFromId(id: string, name: string)
    requires Contains(CharsText(id, true), "name=")
    ensures var written := CharsText(id, true);
            var front := written[Find(written, "name=").value + 5..] + "\" name=\"";
            Attr(Attrs(id, name), "name") == AttrValue(front + (CharsText(name, true) + "\""))
  {
    hide AttrValue, Find, CharsText;
    var written := CharsText(id, true);
    var at := Find(written, "name=").value;
    var front := written[at + 5..] + "\" name=\"";
    var rest := "\" name=" + Quoted(name, true);
    assert "name" + "=" == "name=";
    assert Attrs(id, name) == " id=\"" + written + rest;
    KeyInId(written, rest);
    assert Attrs(id, name)[10 + at..] == front + (CharsText(name, true) + "\"");
  }

  predicate NameComesBack(id: string, name: string) {
    Attr(Attrs(id, name), "name") == Some(name)
  }

  /** Behind an id, all plain names come back exactly when the id as it is written does not hold the name's key. */
  lemma NamesComeBack(id: string)
    ensures (forall name :: PlainChars(name) ==> NameComesBack(id, name)) <==> !Contains(CharsText(id, true), "name=")
  {
    hide Attr, Attrs, Contains, CharsText, PlainChars;
    if !Contains(CharsText(id, true), "name=") {
      forall name | PlainChars(name)
        ensures NameComesBack(id, name)
      {
        NameReadsBack(id, name);
      }
    } else {
      PlainText();
      NameIsIgnored(id, "a", "b");
      assert !(NameComesBack(id, "a") && NameComesBack(id, "b"));
    }
  }

  /** The same for both attributes: id and name come back, whatever plain name it is, exactly under these two conditions. */
  lemma AttrsComeBack(id: string)
    ensures (forall name :: PlainChars(name) ==> Attr(Attrs(id, name), "id") == Some(id) && NameComesBack(id, name)) <==>
              PlainChars(id) && !Contains(id, "name=")
  {
    hide Attr, Attrs, Contains, CharsText, PlainChars, NameComesBack;
    NamesComeBack(id);
    CharsTextShape(id);
    PlainText();
    IdReadsBack(id, "a");
    forall name | PlainChars(id)
      ensures Attr(Attrs(id, name), "id") == Some(id)
    {
      IdReadsBack(id, name);
    }
  }

  lemma PlainKey()
    ensures PlainChars("name=") && PlainChars("t") && CharsText("name=", true) == "name=" && CharsText("t", true) == "t"
  {
    hide CharsText;
    CharsTextShape("name=");
    CharsTextShape("t");
  }

  /** The name is lost behind this id: what comes back is the text between the id and the name. */
  lemma NameIsLost()
    ensures PlainChars("name=") && PlainChars("t")
    ensures Attr(Attrs("name=", "t"), "name") == Some(" name=")
  {
    PlainKey();
    hide AttrValue, Find, CharsText, PlainChars;
    FindAfter("", "name=", "");
    assert "" + "name=" + "" == "name=";
    NameFromId("name=", "t");
    assert "name="[5..] + "\" name=\"" + ("t" + "\"") == "\"" + " name=" + "\"" + "t\"";
    AttrValueOfText(" name=", "t\"");
  }

  lemma PlainHasNoQuote(v: string)
    requires PlainChars(v)
    ensures '\"' !in v
  {
  }

  lemma NameFound(id: string, quotedName: string)
    requires !Contains(id, "name=")
    ensures Find(" id=\"" + id + "\" name=" + quotedName, "name=") == Some(|id| + 7)
  {
    FindInThird(" id=", id, '\"', ' ', "name=", quotedName);
    assert " id=\"" + id + "\" name=" + quotedName == " id=" + ['\"'] + id + ['\"'] + [' '] + "name=" + quotedName;
  }

  lemma FindInThird(a: string, b: string, x: char, y: char, needle: string, tail: string)
    requires needle != "" && x !in needle && y !in needle
    requires |a| < |needle| && !Contains(b, needle)
    ensures Find(a + [x] + b + [x] + [y] + needle + tail, needle) == Some(|a| + |b| + 3)
  {
    hide Find;
    FindMarker("", y, needle, tail);
    var third := "" + [y] + needle + tail;
    FindSkips(b, x, third, needle);
    var second := b + [x] + third;
    FindSkips(a, x, second, needle);
    assert a + [x] + b + [x] + [y] + needle + tail == a + [x] + second;
  }

  /** A marker right after a separator that it does not contain, behind text without the marker. */
  lemma FindMarker(pre: string, sep: char, marker: string, tail: string)
    requires marker != "" && sep !in marker && !Contains(pre, marker)
    ensures Find(pre + [sep] + marker + tail, marker) == Some(|pre| + 1)
  {
    FindAfter("", marker, tail);
    assert "" + marker + tail == marker + tail;
    FindSkips(pre, sep, marker + tail, marker);
    assert pre + [sep] + marker + tail == pre + [sep] + (marker + tail);
  }

  lemma SafeJsonEnds(v: Json)
    requires NumbersOk(v)
    ensures var s := SafeJson(v); s != "" && !IsWhitespace(s[0]) && !IsWhitespace(s[|s| - 1]) && '<' !in s
  {
    hide EscapeMarkup;
    EscapeMarkupWrite(v);
    WriteHead(v, true);
    WriteTail(v);
    EscapeMarkupRemoves(Serialize(v));
  }

  lemma WriteTail(v: Json)
    requires NumbersOk(v)
    ensures var s := Write(v, true); s != "" && !IsWhitespace(s[|s| - 1])
  {
  }

  /** A rendered block is found whole, and its parts are the ones that were written. */
  lemma FirstBlockOfRendered(pre: string, call: ToolCall, rest: string)
    requires Transportable(call) && !Contains(pre, OPEN)
    ensures FirstBlock(pre + "\n" + RenderCall(call) + rest)
            == Block(pre + "\n", RenderAttrs(call), RenderBody(call), rest)
  {
    hide RenderAttrs, RenderBody, Contains, FirstBlock, Transportable;
    RenderedParts(call);
    var attrs, body := RenderAttrs(call), RenderBody(call);
    assert pre + "\n" + RenderCall(call) + rest == pre + "\n" + OPEN + attrs + ">" + body + CLOSE + rest;
    FirstBlockAt(pre, attrs, body, rest);
  }

  lemma RenderedParts(call: ToolCall)
    requires Transportable(call)
    ensures RenderAttrs(call) == " id=\"" + call.id + "\" name=\"" + call.name + "\""
    ensures '>' !in RenderAttrs(call) && '<' !in RenderBody(call)
  {
    hide SafeJson, Contains, CharsText, PlainChars, NumbersOk, Nesting;
    CharsTextShape(call.id);
    CharsTextShape(call.name);
    PlainHasNoMarkup(call.id);
    PlainHasNoMarkup(call.name);
    SafeJsonEnds(call.arguments);
  }

  lemma PlainHasNoMarkup(v: string)
    requires PlainChars(v)
    ensures '>' !in v
  {
  }

  lemma FirstBlockAt(pre: string, attrs: string, body: string, rest: string)
    requires !Contains(pre, OPEN) && '>' !in attrs && '<' !in body
    ensures FirstBlock(pre + "\n" + OPEN + attrs + ">" + body + CLOSE + rest) == Block(pre + "\n", attrs, body, rest)
  {
    hide Find, Contains;
    var inside := body + CLOSE + rest;
    var after := attrs + ">" + inside;
    var text := pre + "\n" + OPEN + attrs + ">" + body + CLOSE + rest;
    FindMarker(pre, '\n', OPEN, after);
    Cut(pre + ['\n'], OPEN, after);
    assert text == pre + ['\n'] + OPEN + after;
    FindAfter(attrs, ">", inside);
    Cut(attrs, ">", inside);
    FindAfter(body, CLOSE, rest);
    Cut(body, CLOSE, rest);
  }

  lemma Cut(a: string, b: string, c: string)
    ensures (a + b + c)[..|a|] == a && (a + b + c)[|a| + |b|..] == c
  {
  }

  lemma CallReadBack(call: ToolCall, nth: nat, taken: set<string>)
    requires Transportable(call) && call.id !in taken
    ensures ReadCall(RenderAttrs(call), RenderBody(call), nth, taken) == Result.Ok(call)
  {
    hide SafeJson, Contains, Attr, ParseJson, NumbersOk, Nesting, Attrs, PlainChars, CharsText;
    RenderedParts(call);
    CharsTextShape(call.id);
    IdReadsBack(call.id, call.name);
    NameReadsBack(call.id, call.name);
    SafeJsonEnds(call.arguments);
    TrimAround("\n", SafeJson(call.arguments), "\n");
    SafeJsonReadsBack(call.arguments);
  }

  predicate DistinctIds(calls: seq<ToolCall>) {
    forall i, j :: 0 <= i < j < |calls| ==> calls[i].id != calls[j].id
  }

  lemma {:induction false} BlocksReadBack(pre: string, calls: seq<ToolCall>, done: seq<ToolCall>, working: string)
    requires !Contains(pre, OPEN) && (calls == [] ==> !Contains(pre, CLOSE))
    requires forall i :: 0 <= i < |calls| ==> Transportable(calls[i])
    requires DistinctIds(done + calls)
    ensures ReadBlocks(pre + RenderCalls(calls), done, working) == Result.Ok(XmlRound(done + calls, Trim(working + pre)))
    decreases |calls|
  {
    hide FirstBlock, ReadCall, Contains, RenderCall, Transportable, Trim;
    if calls == [] {
      assert pre + RenderCalls(calls) == pre && done + calls == done;
      assert FirstBlock(pre).NoBlock? by { NoBlockIn(pre); }
    } else {
      var call, rest := calls[0], RenderCalls(calls[1..]);
      assert pre + RenderCalls(calls) == pre + "\n" + RenderCall(call) + rest;
      FirstBlockOfRendered(pre, call, rest);
      assert forall i :: 0 <= i < |done| ==> (done + calls)[i] == done[i];
      assert (done + calls)[|done|] == call;
      CallReadBack(call, |done| + 1, Ids(done));
      assert (done + [call]) + calls[1..] == done + calls;
      assert "" + rest == rest;
      assert !Contains("", OPEN) && !Contains("", CLOSE) by { NothingInside(); }
      BlocksReadBack("", calls[1..], done + [call], working + (pre + "\n"));
      assert working + (pre + "\n") + "" == working + pre + "\n";
      TrimLineFeed(working + pre);
    }
  }

  lemma NoBlockIn(text: string)
    requires !Contains(text, OPEN)
    ensures FirstBlock(text).NoBlock?
  {
  }

  lemma NothingInside()
    ensures !Contains("", OPEN) && !Contains("", CLOSE)
  {
  }

  lemma TrimLineFeed(s: string)
    ensures Trim(s + "\n") == Trim(s)
  {
    TrimMeaning(s);
    var k, t := LeadingBlanks(s), Trim(s);
    var a, b := s[..k], s[k + |t|..];
    assert forall i :: 0 <= i < |b| ==> b[i] == s[k + |t| + i];
    assert s + "\n" == a + t + (b + "\n");
    TrimAround(a, t, b + "\n");
  }

  /**
   * Working text followed by rendered calls reads back as exactly those calls and the trimmed working text. The text
   * may not open a block of its own, and when there are no calls it may not close one either.
   */
  lemma XmlRoundTrip(working: string, calls: seq<ToolCall>)
    requires !Contains(working, OPEN) && (calls == [] ==> !Contains(working, CLOSE))
    requires forall i :: 0 <= i < |calls| ==> Transportable(calls[i])
    requires DistinctIds(calls)
    requires |Utf8.Encode(working + RenderCalls(calls))| <= MAX_XML_ROUND_BYTES
    ensures ParseRound(working + RenderCalls(calls)) == Result.Ok(XmlRound(calls, Trim(working)))
  {
    hide ReadBlocks, Transportable, Contains;
    assert [] + calls == calls && "" + working == working;
    BlocksReadBack(working, calls, [], "");
  }
}
