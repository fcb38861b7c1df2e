/** JSON values, their compact text, and a reader for that text (RFC 8259). */
module Json {
  import opened Text

  datatype Field = Field(key: string, value: Json)

  /** A number is kept as its text; object members are kept in text order. */
  datatype Json =
    | Null
    | Bool(b: bool)
    | Num(lit: string)
    | Str(s: string)
    | Arr(items: seq<Json>)
    | Obj(fields: seq<Field>)

  /** The recursion limit of the reader. */
  const MAX_DEPTH: nat := 128

  // ---- Lexical parts ----

  predicate IsWs(c: char) {
    c == ' ' || c == '\t' || c == '\n' || c == '\r'
  }

  function SkipWs(s: string): (t: string)
    ensures |t| <= |s|
  {
    if s != "" && IsWs(s[0]) then SkipWs(s[1..]) else s
  }

  predicate IsDigit(c: char) {
    '0' <= c <= '9'
  }

  predicate IsNumChar(c: char) {
    IsDigit(c) || c == '-' || c == '+' || c == '.' || c == 'e' || c == 'E'
  }

  function NumRun(s: string): (n: nat)
    ensures n <= |s| && (n < |s| ==> !IsNumChar(s[n]))
    ensures forall i :: 0 <= i < n ==> IsNumChar(s[i])
  {
    if s != "" && IsNumChar(s[0]) then 1 + NumRun(s[1..]) else 0
  }

  function DropDigits(s: string): string {
    if s != "" && IsDigit(s[0]) then DropDigits(s[1..]) else s
  }

  predicate StartsDigit(s: string) {
    s != "" && IsDigit(s[0])
  }

  /** Section 6 of RFC 8259: an integer part without leading zeros, then optional fraction and exponent. */
  predicate IsNumber(lit: string) {
    var unsigned := if lit != "" && lit[0] == '-' then lit[1..] else lit;
    && (forall i :: 0 <= i < |lit| ==> IsNumChar(lit[i]))
    && StartsDigit(unsigned)
    && (unsigned[0] == '0' ==> !StartsDigit(unsigned[1..]))
    && IsFraction(DropDigits(unsigned))
  }

  predicate IsFraction(s: string) {
    if s != "" && s[0] == '.' then StartsDigit(s[1..]) && IsExponent(DropDigits(s[1..])) else IsExponent(s)
  }

  predicate IsExponent(s: string) {
    s == "" || (
      && (s[0] == 'e' || s[0] == 'E')
      && var digits := if |s| > 1 && (s[1] == '+' || s[1] == '-') then s[2..] else s[1..];
      StartsDigit(digits) && DropDigits(digits) == "")
  }

  function HexDigit(n: int): char
    requires 0 <= n < 16
  {
    if n < 10 then '0' + n as char else 'a' + (n - 10) as char
  }

  function HexValue(c: char): Option<nat> {
    if '0' <= c <= '9' then Some(c as int - '0' as int)
    else if 'a' <= c <= 'f' then Some(c as int - 'a' as int + 10)
    else if 'A' <= c <= 'F' then Some(c as int - 'A' as int + 10)
    else None
  }

  /** Four hexadecimal digits. */
  function Hex4(s: string): Option<nat> {
    if |s| < 4 then None
    else
      match (HexValue(s[0]), HexValue(s[1]), HexValue(s[2]), HexValue(s[3]))
      case (Some(a), Some(b), Some(c), Some(d)) => Some(a * 4096 + b * 256 + c * 16 + d)
      case _ => None
  }

  // ---- Writing ----

  function ShortUnicode(c: char): string
    requires c as int < 256
  {
    ['\\', 'u', '0', '0', HexDigit(c as int / 16), HexDigit(c as int % 16)]
  }

  /** A character inside a string literal; `safe` also escapes the three characters that XML gives a meaning to. */
  function CharText(c: char, safe: bool): string {
    if c == '\"' then "\\\""
    else if c == '\\' then "\\\\"
    else if c == '\U{08}' then "\\b"
    else if c == '\U{0C}' then "\\f"
    else if c == '\n' then "\\n"
    else if c == '\r' then "\\r"
    else if c == '\t' then "\\t"
    else if c < ' ' || (safe && IsMarkup(c)) then ShortUnicode(c)
    else [c]
  }

  predicate IsMarkup(c: char) {
    c == '&' || c == '<' || c == '>'
  }

  function CharsText(s: string, safe: bool): string {
    if s == "" then "" else CharText(s[0], safe) + CharsText(s[1..], safe)
  }

  function Quoted(s: string, safe: bool): string {
    "\"" + CharsText(s, safe) + "\""
  }

  function Write(v: Json, safe: bool): string
    decreases v
  {
    match v
    case Null => "null"
    case Bool(b) => if b then "true" else "false"
    case Num(lit) => lit
    case Str(s) => Quoted(s, safe)
    case Arr(items) => "[" + WriteItems(items, safe) + "]"
    case Obj(fields) => "{" + WriteFields(fields, safe) + "}"
  }

  function WriteItems(items: seq<Json>, safe: bool): string
    decreases items
  {
    if items == [] then ""
    else Write(items[0], safe) + (if |items| == 1 then "" else "," + WriteItems(items[1..], safe))
  }

  function WriteFields(fields: seq<Field>, safe: bool): string
    decreases fields
  {
    if fields == [] then ""
    else WriteField(fields[0], safe) + (if |fields| == 1 then "" else "," + WriteFields(fields[1..], safe))
  }

  function WriteField(f: Field, safe: bool): string
    decreases f
  {
    Quoted(f.key, safe) + ":" + Write(f.value, safe)
  }

  /** `serde_json::to_string`. */
  function Serialize(v: Json): string {
    Write(v, false)
  }

  /** The three `replace` calls on a finished text. */
  function EscapeMarkup(s: string): string {
    if s == "" then "" else (if IsMarkup(s[0]) then ShortUnicode(s[0]) else [s[0]]) + EscapeMarkup(s[1..])
  }

  function SafeJson(v: Json): string {
    EscapeMarkup(Serialize(v))
  }

  // ---- Reading ----

  datatype Read<+T> = Bad | Good(value: T, rest: string)

  /** The character after a backslash. */
  function ReadEscape(s: string): (r: Read<char>)
    ensures r.Good? ==> |r.rest| < |s|
  {
    if s == "" then Bad
    else if s[0] == '\"' || s[0] == '\\' || s[0] == '/' then Good(s[0], s[1..])
    else if s[0] == 'b' then Good('\U{08}', s[1..])
    else if s[0] == 'f' then Good('\U{0C}', s[1..])
    else if s[0] == 'n' then Good('\n', s[1..])
    else if s[0] == 'r' then Good('\r', s[1..])
    else if s[0] == 't' then Good('\t', s[1..])
    else if s[0] == 'u' then ReadUnicode(s[1..])
    else Bad
  }

  /** `\uXXXX`, or a pair of surrogates. */
  function ReadUnicode(s: string): (r: Read<char>)
    ensures r.Good? ==> |r.rest| < |s|
  {
    match Hex4(s)
    case None => Bad
    case Some(u) =>
      if u < 0xD800 || 0xE000 <= u < 0x1_0000 then Good(u as char, s[4..])
      else if u < 0xDC00 && |s| >= 6 && s[4] == '\\' && s[5] == 'u' then
        match Hex4(s[6..])
        case None => Bad
        case Some(w) =>
          if 0xDC00 <= w < 0xE000 then Good((0x1_0000 + (u - 0xD800) * 0x400 + (w - 0xDC00)) as char, s[10..]) else Bad
      else Bad
  }

  /** The rest of a string literal. */
  function ReadChars(s: string): (r: Read<string>)
    ensures r.Good? ==> |r.rest| < |s|
    decreases |s|
  {
    if s == "" || s[0] < ' ' then Bad
    else if s[0] == '\"' then Good("", s[1..])
    else
      var first := if s[0] == '\\' then ReadEscape(s[1..]) else Good(s[0], s[1..]);
      if first.Bad? then Bad
      else
        match ReadChars(first.rest)
        case Bad => Bad
        case Good(t, rest) => Good([first.value] + t, rest)
  }

  function ReadWord(s: string, word: string, v: Json): (r: Read<Json>)
    requires word != ""
    ensures r.Good? ==> |r.rest| < |s|
  {
    if word <= s then Good(v, s[|word|..]) else Bad
  }

  function ReadValue(text: string, depth: nat): (r: Read<Json>)
    ensures r.Good? ==> |r.rest| < |text|
    decreases |text|, 1
  {
    var s := SkipWs(text);
    if s == "" then Bad
    else if s[0] == 'n' then ReadWord(s, "null", Null)
    else if s[0] == 't' then ReadWord(s, "true", Bool(true))
    else if s[0] == 'f' then ReadWord(s, "false", Bool(false))
    else if s[0] == '\"' then
      match ReadChars(s[1..])
      case Bad => Bad
      case Good(t, rest) => Good(Str(t), rest)
    else if s[0] == '[' then
      if depth <= 1 then Bad
      else if SkipWs(s[1..]) != "" && SkipWs(s[1..])[0] == ']' then Good(Arr([]), SkipWs(s[1..])[1..])
      else
        match ReadItems(s[1..], depth - 1)
        case Bad => Bad
        case Good(items, rest) => Good(Arr(items), rest)
    else if s[0] == '{' then
      if depth <= 1 then Bad
      else if SkipWs(s[1..]) != "" && SkipWs(s[1..])[0] == '}' then Good(Obj([]), SkipWs(s[1..])[1..])
      else
        match ReadFields(s[1..], depth - 1)
        case Bad => Bad
        case Good(fields, rest) => Good(Obj(fields), rest)
    else
      var n := NumRun(s);
      if n > 0 && IsNumber(s[..n]) then Good(Num(s[..n]), s[n..]) else Bad
  }

  function ReadItems(text: string, depth: nat): (r: Read<seq<Json>>)
    ensures r.Good? ==> |r.rest| < |text|
    decreases |text|, 2
  {
    match ReadValue(text, depth)
    case Bad => Bad
    case Good(v, more) =>
      var s := SkipWs(more);
      if s == "" then Bad
      else if s[0] == ']' then Good([v], s[1..])
      else if s[0] != ',' then Bad
      else
        match ReadItems(s[1..], depth)
        case Bad => Bad
        case Good(vs, rest) => Good([v] + vs, rest)
  }

  function ReadFields(text: string, depth: nat): (r: Read<seq<Field>>)
    ensures r.Good? ==> |r.rest| < |text|
    decreases |text|, 2
  {
    match ReadField(text, depth)
    case Bad => Bad
    case Good(f, more) =>
      var s := SkipWs(more);
      if s == "" then Bad
      else if s[0] == '}' then Good([f], s[1..])
      else if s[0] != ',' then Bad
      else
        match ReadFields(s[1..], depth)
        case Bad => Bad
        case Good(fs, rest) => Good([f] + fs, rest)
  }

  function ReadField(text: string, depth: nat): (r: Read<Field>)
    ensures r.Good? ==> |r.rest| < |text|
    decreases |text|, 1
  {
    var s := SkipWs(text);
    if s == "" || s[0] != '\"' then Bad
    else
      match ReadChars(s[1..])
      case Bad => Bad
      case Good(key, more) =>
        var t := SkipWs(more);
        if t == "" || t[0] != ':' then Bad
        else
          match ReadValue(t[1..], depth)
          case Bad => Bad
          case Good(v, rest) => Good(Field(key, v), rest)
  }

  /** `serde_json::from_str`: one value and nothing after it. */
  function ParseJson(text: string): Option<Json> {
    match ReadValue(text, MAX_DEPTH)
    case Bad => None
    case Good(v, rest) => if SkipWs(rest) == "" then Some(v) else None
  }

  // ---- Round trip ----

  function Nesting(v: Json): nat
    decreases v
  {
    match v
    case Arr(items) => 1 + NestingItems(items)
    case Obj(fields) => 1 + NestingFields(fields)
    case _ => 0
  }

  function NestingItems(items: seq<Json>): nat
    decreases items
  {
    if items == [] then 0
    else if Nesting(items[0]) < NestingItems(items[1..]) then NestingItems(items[1..]) else Nesting(items[0])
  }

  function NestingFields(fields: seq<Field>): nat
    decreases fields
  {
    if fields == [] then 0
    else if Nesting(fields[0].value) < NestingFields(fields[1..]) then NestingFields(fields[1..])
    else Nesting(fields[0].value)
  }

  predicate NumbersOk(v: Json)
    decreases v
  {
    match v
    case Num(lit) => IsNumber(lit)
    case Arr(items) => forall i :: 0 <= i < |items| ==> NumbersOk(items[i])
    case Obj(fields) => forall i :: 0 <= i < |fields| ==> NumbersOk(fields[i].value)
    case _ => true
  }

  lemma ReadCharText(c: char, safe: bool, tail: string)
    ensures ReadChars(CharText(c, safe) + tail) ==
            match ReadChars(tail)
            case Bad => Bad
            case Good(t, rest) => Good([c] + t, rest)
  {
    var s := CharText(c, safe) + tail;
    if |CharText(c, safe)| == 6 {
      assert s[1..][1..] == s[2..] && s[2..][..4] == CharText(c, safe)[2..] && s[2..][4..] == tail;
      HexRoundTrip(c, s[2..]);
    } else if |CharText(c, safe)| == 2 {
      assert s[1..][1..] == tail;
    } else {
      assert s[1..] == tail;
    }
  }

  lemma HexRoundTrip(c: char, s: string)
    requires c as int < 256 && |s| >= 4 && s[..4] == ShortUnicode(c)[2..]
    ensures Hex4(s) == Some(c as int)
  {
    var n := c as int;
    assert s[0] == s[..4][0] && s[1] == s[..4][1] && s[2] == s[..4][2] && s[3] == s[..4][3];
    assert HexValue(HexDigit(n / 16)) == Some(n / 16) && HexValue(HexDigit(n % 16)) == Some(n % 16);
  }

  lemma {:induction false} ReadCharsText(s: string, safe: bool, rest: string)
    ensures ReadChars(CharsText(s, safe) + "\"" + rest) == Good(s, rest)
  {
    hide ReadChars, CharText;
    if s == "" {
      assert CharsText(s, safe) + "\"" + rest == "\"" + rest;
      assert ReadChars("\"" + rest) == Good("", rest) by { ClosingQuote(rest); }
    } else {
      var tail := CharsText(s[1..], safe) + "\"" + rest;
      assert CharsText(s, safe) + "\"" + rest == CharText(s[0], safe) + tail;
      ReadCharText(s[0], safe, tail);
      ReadCharsText(s[1..], safe, rest);
      assert [s[0]] + s[1..] == s;
    }
  }

  lemma ClosingQuote(rest: string)
    ensures ReadChars("\"" + rest) == Good("", rest)
  {
  }

  predicate Ends(rest: string) {
    rest == "" || (!IsNumChar(rest[0]) && !IsWs(rest[0]))
  }

  /** A written value starts with a character that no separator, bracket or blank can be taken for. */
  lemma WriteHead(v: Json, safe: bool)
    requires NumbersOk(v)
    ensures Write(v, safe) != "" && !IsWs(Write(v, safe)[0]) && Write(v, safe)[0] !in "]},:"
    ensures v.Num? ==> IsNumChar(Write(v, safe)[0]) && Write(v, safe)[0] !in "ntf\"[{eE"
    ensures !v.Num? ==> Write(v, safe)[0] in "ntf\"[{"
  {
  }

  /** Reading what was written gives the value back and leaves what follows. */
  lemma {:induction false} ReadWritten(v: Json, safe: bool, rest: string, depth: nat)
    requires NumbersOk(v) && Nesting(v) < depth && Ends(rest)
    ensures ReadValue(Write(v, safe) + rest, depth) == Good(v, rest)
    decreases v, 1
  {
    hide ReadChars, CharsText, ReadItems, ReadFields, WriteItems, WriteFields, NestingItems, NestingFields, IsNumber;
    var s := Write(v, safe) + rest;
    WriteHead(v, safe);
    assert s[0] == Write(v, safe)[0] && SkipWs(s) == s;
    match v {
      case Null =>
      case Bool(b) =>
      case Num(lit) =>
        NumRunOf(lit, rest);
        assert s[..|lit|] == lit;
      case Str(t) =>
        assert s[1..] == CharsText(t, safe) + "\"" + rest;
        ReadCharsText(t, safe, rest);
      case Arr(items) => ReadWrittenArr(items, safe, rest, depth);
      case Obj(fields) => ReadWrittenObj(fields, safe, rest, depth);
    }
  }

  lemma {:induction false} ReadWrittenArr(items: seq<Json>, safe: bool, rest: string, depth: nat)
    requires NumbersOk(Arr(items)) && Nesting(Arr(items)) < depth
    ensures ReadValue(Write(Arr(items), safe) + rest, depth) == Good(Arr(items), rest)
    decreases items, 1
  {
    hide ReadItems, WriteItems, NestingItems, NumbersOk;
    var s, body := Write(Arr(items), safe) + rest, WriteItems(items, safe) + "]" + rest;
    assert s[1..] == body && SkipWs(s) == s;
    assert forall i :: 0 <= i < |items| ==> NumbersOk(items[i]) by { AllNumbersOk(items); }
    ItemsHead(items, safe, rest);
    if items != [] {
      ReadWrittenItems(items, safe, rest, depth - 1);
    }
  }

  lemma AllNumbersOk(items: seq<Json>)
    requires NumbersOk(Arr(items))
    ensures forall i :: 0 <= i < |items| ==> NumbersOk(items[i])
  {
  }

  lemma {:induction false} ReadWrittenObj(fields: seq<Field>, safe: bool, rest: string, depth: nat)
    requires NumbersOk(Obj(fields)) && Nesting(Obj(fields)) < depth
    ensures ReadValue(Write(Obj(fields), safe) + rest, depth) == Good(Obj(fields), rest)
    decreases fields, 1
  {
    hide ReadFields, WriteFields, NestingFields;
    var s, body := Write(Obj(fields), safe) + rest, WriteFields(fields, safe) + "}" + rest;
    assert s[1..] == body && SkipWs(s) == s;
    FieldsHead(fields, safe, rest);
    if fields != [] {
      ReadWrittenFields(fields, safe, rest, depth - 1);
    }
  }

  lemma NumRunOf(lit: string, rest: string)
    requires IsNumber(lit) && Ends(rest)
    ensures lit != "" && NumRun(lit + rest) == |lit|
  {
    var n := NumRun(lit + rest);
    assert forall i :: 0 <= i < |lit| ==> (lit + rest)[i] == lit[i];
    assert rest != "" ==> (lit + rest)[|lit|] == rest[0];
  }

  lemma ItemsHead(items: seq<Json>, safe: bool, rest: string)
    requires forall i :: 0 <= i < |items| ==> NumbersOk(items[i])
    ensures var s := WriteItems(items, safe) + "]" + rest; SkipWs(s) == s && (s[0] == ']' <==> items == []) && (items == [] ==> s[1..] == rest)
  {
    if items != [] {
      WriteHead(items[0], safe);
      assert (WriteItems(items, safe) + "]" + rest)[0] == Write(items[0], safe)[0];
    }
  }

  lemma FieldsHead(fields: seq<Field>, safe: bool, rest: string)
    ensures var s := WriteFields(fields, safe) + "}" + rest; SkipWs(s) == s && (s[0] == '}' <==> fields == []) && (fields == [] ==> s[1..] == rest)
  {
  }

  lemma {:induction false} ReadWrittenItems(items: seq<Json>, safe: bool, rest: string, depth: nat)
    requires items != [] && forall i :: 0 <= i < |items| ==> NumbersOk(items[i])
    requires NestingItems(items) < depth
    ensures ReadItems(WriteItems(items, safe) + "]" + rest, depth) == Good(items, rest)
    decreases items, 0
  {
    hide ReadValue, ReadItems, Write, Nesting, NumbersOk;
    var s := WriteItems(items, safe) + "]" + rest;
    var after := if |items| == 1 then "]" + rest else "," + (WriteItems(items[1..], safe) + "]" + rest);
    assert s == Write(items[0], safe) + after;
    ReadWritten(items[0], safe, after, depth);
    ReadItemsStep(s, depth);
    if |items| == 1 {
      assert items == [items[0]] && after[1..] == rest;
    } else {
      assert after[1..] == WriteItems(items[1..], safe) + "]" + rest;
      ReadWrittenItems(items[1..], safe, rest, depth);
      assert [items[0]] + items[1..] == items;
    }
  }

  lemma {:induction false} ReadWrittenFields(fields: seq<Field>, safe: bool, rest: string, depth: nat)
    requires fields != [] && forall i :: 0 <= i < |fields| ==> NumbersOk(fields[i].value)
    requires NestingFields(fields) < depth
    ensures ReadFields(WriteFields(fields, safe) + "}" + rest, depth) == Good(fields, rest)
    decreases fields, 0
  {
    hide ReadField, ReadFields, WriteField, Nesting, NumbersOk;
    var s := WriteFields(fields, safe) + "}" + rest;
    var after := if |fields| == 1 then "}" + rest else "," + (WriteFields(fields[1..], safe) + "}" + rest);
    var f := fields[0];
    assert s == WriteField(f, safe) + after;
    ReadWritten(f.value, safe, after, depth);
    ReadWrittenField(f, safe, after, depth);
    ReadFieldsStep(s, depth);
    if |fields| == 1 {
      assert fields == [f] && after[1..] == rest;
    } else {
      assert after[1..] == WriteFields(fields[1..], safe) + "}" + rest;
      ReadWrittenFields(fields[1..], safe, rest, depth);
      assert [f] + fields[1..] == fields;
    }
  }

  /** How reading goes on behind the first member. */
  lemma ReadFieldsStep(text: string, depth: nat)
    ensures var r := ReadField(text, depth);
            && (r.Good? && r.rest != "" && r.rest[0] == '}' ==> ReadFields(text, depth) == Good([r.value], r.rest[1..]))
            && (r.Good? && r.rest != "" && r.rest[0] == ',' && ReadFields(r.rest[1..], depth).Good? ==>
                  var more := ReadFields(r.rest[1..], depth);
                  ReadFields(text, depth) == Good([r.value] + more.value, more.rest))
  {
    hide ReadField;
  }

  /** How reading goes on behind the first element. */
  lemma ReadItemsStep(text: string, depth: nat)
    ensures var r := ReadValue(text, depth);
            && (r.Good? && r.rest != "" && r.rest[0] == ']' ==> ReadItems(text, depth) == Good([r.value], r.rest[1..]))
            && (r.Good? && r.rest != "" && r.rest[0] == ',' && ReadItems(r.rest[1..], depth).Good? ==>
                  var more := ReadItems(r.rest[1..], depth);
                  ReadItems(text, depth) == Good([r.value] + more.value, more.rest))
  {
    hide ReadValue;
  }

  lemma ReadWrittenField(f: Field, safe: bool, after: string, depth: nat)
    requires ReadValue(Write(f.value, safe) + after, depth) == Good(f.value, after)
    ensures ReadField(WriteField(f, safe) + after, depth) == Good(f, after)
  {
    hide ReadValue, ReadChars, Write, CharsText;
    var s := WriteField(f, safe) + after;
    var more := ":" + (Write(f.value, safe) + after);
    assert SkipWs(s) == s && s[1..] == CharsText(f.key, safe) + "\"" + more;
    ReadCharsText(f.key, safe, more);
    assert SkipWs(more) == more && more[1..] == Write(f.value, safe) + after;
  }

  // ---- Escaping after serialising ----

  lemma {:induction false} EscapeMarkupSplit(a: string, b: string)
    ensures EscapeMarkup(a + b) == EscapeMarkup(a) + EscapeMarkup(b)
  {
    if a == "" {
      assert a + b == b;
    } else {
      EscapeMarkupSplit(a[1..], b);
      assert (a + b)[1..] == a[1..] + b && (a + b)[0] == a[0];
    }
  }

  lemma {:induction false} EscapeMarkupPlain(s: string)
    requires forall i :: 0 <= i < |s| ==> !IsMarkup(s[i])
    ensures EscapeMarkup(s) == s
  {
    if s != "" {
      EscapeMarkupPlain(s[1..]);
    }
  }

  lemma EscapeMarkupChar(c: char)
    ensures EscapeMarkup(CharText(c, false)) == CharText(c, true)
  {
    if IsMarkup(c) {
      assert EscapeMarkup([c]) == ShortUnicode(c) + EscapeMarkup("");
    } else {
      EscapeMarkupPlain(CharText(c, false));
    }
  }

  lemma {:induction false} EscapeMarkupQuoted(s: string)
    ensures EscapeMarkup(CharsText(s, false)) == CharsText(s, true)
    ensures EscapeMarkup(Quoted(s, false)) == Quoted(s, true)
  {
    hide CharText;
    if s != "" {
      EscapeMarkupQuoted(s[1..]);
      EscapeMarkupChar(s[0]);
      EscapeMarkupSplit(CharText(s[0], false), CharsText(s[1..], false));
    }
    EscapeMarkupSplit("\"", CharsText(s, false));
    EscapeMarkupSplit("\"" + CharsText(s, false), "\"");
    EscapeMarkupPlain("\"");
  }

  /** Replacing markup in the finished text only ever touches the inside of string literals. */
  lemma {:induction false} EscapeMarkupWrite(v: Json)
    requires NumbersOk(v)
    ensures EscapeMarkup(Write(v, false)) == Write(v, true)
    decreases v, 1
  {
    hide EscapeMarkup, CharsText, WriteItems, WriteFields, IsNumber;
    match v {
      case Null => EscapeMarkupPlain("null");
      case Bool(b) => EscapeMarkupPlain(Write(v, false));
      case Num(lit) => NumberPlain(lit);
      case Str(s) => EscapeMarkupQuoted(s);
      case Arr(items) =>
        EscapeMarkupItems(items);
        Wrapped("[", WriteItems(items, false), "]");
      case Obj(fields) =>
        EscapeMarkupFields(fields);
        Wrapped("{", WriteFields(fields, false), "}");
    }
  }

  lemma NumberPlain(lit: string)
    requires IsNumber(lit)
    ensures EscapeMarkup(lit) == lit
  {
    forall i | 0 <= i < |lit|
      ensures !IsMarkup(lit[i])
    {
      assert IsNumChar(lit[i]);
    }
    EscapeMarkupPlain(lit);
  }

  lemma Wrapped(a: string, b: string, c: string)
    requires forall i :: 0 <= i < |a| ==> !IsMarkup(a[i])
    requires forall i :: 0 <= i < |c| ==> !IsMarkup(c[i])
    ensures EscapeMarkup(a + b + c) == a + EscapeMarkup(b) + c
  {
    EscapeMarkupSplit(a, b);
    EscapeMarkupSplit(a + b, c);
    EscapeMarkupPlain(a);
    EscapeMarkupPlain(c);
  }

  lemma {:induction false} EscapeMarkupItems(items: seq<Json>)
    requires forall i :: 0 <= i < |items| ==> NumbersOk(items[i])
    ensures EscapeMarkup(WriteItems(items, false)) == WriteItems(items, true)
    decreases items, 0
  {
    hide Write, NumbersOk, EscapeMarkup;
    if items == [] {
      EscapeMarkupPlain("");
    } else {
      EscapeMarkupWrite(items[0]);
      if |items| > 1 {
        EscapeMarkupItems(items[1..]);
        EscapeMarkupSplit(Write(items[0], false), "," + WriteItems(items[1..], false));
        Wrapped(",", WriteItems(items[1..], false), "");
        assert "," + WriteItems(items[1..], false) + "" == "," + WriteItems(items[1..], false);
      } else {
        assert Write(items[0], false) + "" == Write(items[0], false);
      }
    }
  }

  lemma {:induction false} EscapeMarkupFields(fields: seq<Field>)
    requires forall i :: 0 <= i < |fields| ==> NumbersOk(fields[i].value)
    ensures EscapeMarkup(WriteFields(fields, false)) == WriteFields(fields, true)
    decreases fields, 0
  {
    hide WriteField, NumbersOk, EscapeMarkup;
    if fields == [] {
      EscapeMarkupPlain("");
    } else {
      var f := fields[0];
      EscapeMarkupWrite(f.value);
      EscapeMarkupField(f);
      if |fields| > 1 {
        EscapeMarkupFields(fields[1..]);
        EscapeMarkupSplit(WriteField(f, false), "," + WriteFields(fields[1..], false));
        Wrapped(",", WriteFields(fields[1..], false), "");
        assert "," + WriteFields(fields[1..], false) + "" == "," + WriteFields(fields[1..], false);
      } else {
        assert WriteField(f, false) + "" == WriteField(f, false);
      }
    }
  }

  lemma EscapeMarkupField(f: Field)
    requires EscapeMarkup(Write(f.value, false)) == Write(f.value, true)
    ensures EscapeMarkup(WriteField(f, false)) == WriteField(f, true)
  {
    hide Write, EscapeMarkup, Quoted;
    EscapeMarkupQuoted(f.key);
    EscapeMarkupSplit(Quoted(f.key, false), ":");
    EscapeMarkupPlain(":");
    EscapeMarkupSplit(Quoted(f.key, false) + ":", Write(f.value, false));
  }

  lemma EscapeMarkupRemoves(s: string)
    ensures forall i :: 0 <= i < |EscapeMarkup(s)| ==> !IsMarkup(EscapeMarkup(s)[i])
  {
  }

  /**
   * `safe_json`: no raw `<`, `>` or `&` is left in the text, and it still reads back to the same value (section 7 of
   * RFC 8259), for values nested less deeply than the reader's recursion limit.
   */
  lemma SafeJsonReadsBack(v: Json)
    requires NumbersOk(v) && Nesting(v) < MAX_DEPTH
    ensures ParseJson(SafeJson(v)) == Some(v) && ParseJson(Serialize(v)) == Some(v)
    ensures forall i :: 0 <= i < |SafeJson(v)| ==> !IsMarkup(SafeJson(v)[i])
  {
    hide EscapeMarkup, Write, ReadValue;
    EscapeMarkupWrite(v);
    EscapeMarkupRemoves(Serialize(v));
    ReadWritten(v, true, "", MAX_DEPTH);
    ReadWritten(v, false, "", MAX_DEPTH);
    assert Write(v, true) + "" == Write(v, true) && Write(v, false) + "" == Write(v, false);
  }

  // ---- Texts tell values apart ----

  lemma {:induction false} CharsOneLine(s: string, safe: bool)
    ensures '\n' !in CharsText(s, safe)
  {
    if s != "" {
      CharsOneLine(s[1..], safe);
      CharOneLine(s[0], safe);
    }
  }

  lemma CharOneLine(c: char, safe: bool)
    ensures '\n' !in CharText(c, safe)
  {
  }

  /** The compact text of a value has no raw line feed. */
  lemma {:induction false} WriteOneLine(v: Json, safe: bool)
    requires NumbersOk(v)
    ensures '\n' !in Write(v, safe)
    decreases v, 1
  {
    hide CharsText, WriteItems, WriteFields, IsNumber;
    match v {
      case Null =>
      case Bool(_) =>
      case Num(lit) => NumberOneLine(lit);
      case Str(s) => CharsOneLine(s, safe);
      case Arr(items) => ItemsOneLine(items, safe);
      case Obj(fields) => FieldsOneLine(fields, safe);
    }
  }

  lemma NumberOneLine(lit: string)
    requires IsNumber(lit)
    ensures '\n' !in lit
  {
    assert !IsNumChar('\n');
  }

  lemma {:induction false} ItemsOneLine(items: seq<Json>, safe: bool)
    requires forall i :: 0 <= i < |items| ==> NumbersOk(items[i])
    ensures '\n' !in WriteItems(items, safe)
    decreases items, 0
  {
    hide Write, NumbersOk;
    if items != [] {
      WriteOneLine(items[0], safe);
      if |items| > 1 {
        ItemsOneLine(items[1..], safe);
      }
    }
  }

  lemma {:induction false} FieldsOneLine(fields: seq<Field>, safe: bool)
    requires forall i :: 0 <= i < |fields| ==> NumbersOk(fields[i].value)
    ensures '\n' !in WriteFields(fields, safe)
    decreases fields, 0
  {
    hide Write, CharsText, NumbersOk;
    if fields != [] {
      CharsOneLine(fields[0].key, safe);
      WriteOneLine(fields[0].value, safe);
      if |fields| > 1 {
        FieldsOneLine(fields[1..], safe);
      }
    }
  }

  /** Two values with the same text are the same. */
  lemma SerializeInjective(v: Json, u: Json)
    requires NumbersOk(v) && Nesting(v) < MAX_DEPTH && NumbersOk(u) && Nesting(u) < MAX_DEPTH
    requires Serialize(v) == Serialize(u)
    ensures v == u
  {
    hide Write, ParseJson;
    SafeJsonReadsBack(v);
    SafeJsonReadsBack(u);
  }

  // ---- No text ends in a colon and another text ----

  /** Where a scan over a text stands: inside a literal or not, behind a backslash or not, and how many brackets are open. */
  datatype Scan = Scan(open: bool, escaped: bool, depth: int)

  function Next(q: Scan, c: char): Scan {
    if q.escaped then q.(escaped := false)
    else if c == '\\' then q.(escaped := true)
    else if c == '\"' then q.(open := !q.open)
    else if q.open then q
    else if c == '[' || c == '{' then q.(depth := q.depth + 1)
    else if c == ']' || c == '}' then q.(depth := q.depth - 1)
    else q
  }

  function Scanned(q: Scan, s: string): Scan
    decreases |s|
  {
    if s == "" then q else Scanned(Next(q, s[0]), s[1..])
  }

  function Outside(depth: int): Scan {
    Scan(false, false, depth)
  }

  /** How deep the scan stands; a literal counts like a bracket. */
  function Level(q: Scan): int {
    q.depth + if q.open then 1 else 0
  }

  predicate Above(q: Scan, s: string, floor: int)
    decreases |s|
  {
    Level(q) >= floor && (s != "" ==> Above(Next(q, s[0]), s[1..], floor))
  }

  lemma {:induction false} ScannedConcat(q: Scan, a: string, b: string, floor: int)
    ensures Scanned(q, a + b) == Scanned(Scanned(q, a), b)
    ensures Above(q, a + b, floor) <==> Above(q, a, floor) && Above(Scanned(q, a), b, floor)
    decreases |a|
  {
    hide Next;
    if a == "" {
      assert a + b == b;
    } else {
      assert (a + b)[0] == a[0] && (a + b)[1..] == a[1..] + b;
      ScannedConcat(Next(q, a[0]), a[1..], b, floor);
    }
  }

  /** The text moves the scan back to where it started, and not below the floor on the way. */
  predicate Returns(q: Scan, s: string, floor: int) {
    Scanned(q, s) == q && Above(q, s, floor)
  }

  lemma ReturnsTwice(q: Scan, a: string, b: string, floor: int)
    requires Returns(q, a, floor) && Returns(q, b, floor)
    ensures Returns(q, a + b, floor)
  {
    hide Scanned, Above;
    ScannedConcat(q, a, b, floor);
  }

  lemma PlainReturns(q: Scan, c: char, floor: int)
    requires !q.escaped && Level(q) >= floor && c !in "\\\"" && (q.open || c !in "[]{}")
    ensures Returns(q, [c], floor)
  {
  }

  /** A bracket or a quotation mark, what returns to the level behind it, and the one that closes it. */
  lemma WrapReturns(q: Scan, before: char, inner: string, after: char)
    requires Returns(Next(q, before), inner, Level(q) + 1) && Next(Next(q, before), after) == q
    ensures Returns(q, [before] + inner + [after], Level(q))
  {
    var r := Next(q, before);
    hide Next;
    ScannedConcat(q, [before], inner + [after], Level(q));
    ScannedConcat(r, inner, [after], Level(q));
    AboveLower(r, inner, Level(q) + 1, Level(q));
    assert [before] + inner + [after] == [before] + (inner + [after]);
    assert [before][1..] == "" && [after][1..] == "";
    assert Scanned(q, [before]) == r && Scanned(r, [after]) == q;
    assert Above(r, "", Level(q)) && Above(q, "", Level(q));
  }

  lemma {:induction false} AboveLower(q: Scan, s: string, floor: int, lower: int)
    requires Above(q, s, floor) && lower <= floor
    ensures Above(q, s, lower)
    decreases |s|
  {
    hide Next;
    if s != "" {
      AboveLower(Next(q, s[0]), s[1..], floor, lower);
    }
  }

  lemma CharReturns(c: char, depth: int)
    ensures Returns(Scan(true, false, depth), CharText(c, false), depth + 1)
  {
    var q := Scan(true, false, depth);
    var text := CharText(c, false);
    if text == [c] {
      PlainReturns(q, c, depth + 1);
    } else if |text| == 2 {
      assert text == ['\\', text[1]];
      EscapeReturns(text[1], depth);
    } else {
      assert text == ShortUnicode(c);
      UnicodeReturns(c, depth);
    }
  }

  lemma EscapeReturns(c: char, depth: int)
    ensures Returns(Scan(true, false, depth), ['\\', c], depth + 1)
  {
    assert ['\\', c][1..] == [c] && [c][1..] == "";
    assert Scanned(Scan(true, true, depth), [c]) == Scan(true, false, depth);
  }

  lemma UnicodeReturns(c: char, depth: int)
    requires c as int < 256
    ensures Returns(Scan(true, false, depth), ShortUnicode(c), depth + 1)
  {
    var q := Scan(true, false, depth);
    var text := ShortUnicode(c);
    var x, y := text[4], text[5];
    PlainReturns(q, '0', depth + 1);
    PlainReturns(q, x, depth + 1);
    PlainReturns(q, y, depth + 1);
    EscapeReturns('u', depth);
    hide Returns;
    ReturnsTwice(q, ['\\', 'u'], ['0'], depth + 1);
    ReturnsTwice(q, ['\\', 'u'] + ['0'], ['0'], depth + 1);
    ReturnsTwice(q, ['\\', 'u'] + ['0'] + ['0'], [x], depth + 1);
    ReturnsTwice(q, ['\\', 'u'] + ['0'] + ['0'] + [x], [y], depth + 1);
    hide HexDigit;
    assert ['\\', 'u'] + ['0'] + ['0'] + [x] + [y] == text;
  }

  lemma {:induction false} CharsReturn(s: string, depth: int)
    ensures Returns(Scan(true, false, depth), CharsText(s, false), depth + 1)
  {
    hide CharText;
    if s != "" {
      CharReturns(s[0], depth);
      CharsReturn(s[1..], depth);
      ReturnsTwice(Scan(true, false, depth), CharText(s[0], false), CharsText(s[1..], false), depth + 1);
    }
  }

  lemma QuotedReturns(s: string, depth: int)
    ensures Returns(Outside(depth), Quoted(s, false), depth)
  {
    hide CharsText, Returns;
    CharsReturn(s, depth);
    WrapReturns(Outside(depth), '\"', CharsText(s, false), '\"');
  }

  lemma {:induction false} BareReturns(s: string, depth: int)
    requires forall i :: 0 <= i < |s| ==> s[i] !in "\\\"[]{}"
    ensures Returns(Outside(depth), s, depth)
  {
    if s != "" {
      PlainReturns(Outside(depth), s[0], depth);
      BareReturns(s[1..], depth);
      ReturnsTwice(Outside(depth), [s[0]], s[1..], depth);
      assert s == [s[0]] + s[1..];
    }
  }

  lemma {:induction false} WriteReturns(v: Json, depth: int)
    requires NumbersOk(v)
    ensures Returns(Outside(depth), Write(v, false), depth)
    decreases v, 1
  {
    hide WriteItems, WriteFields, IsFraction, CharsText, Returns, Scanned, Above;
    match v {
      case Null => BareReturns("null", depth);
      case Bool(b) => BareReturns(if b then "true" else "false", depth);
      case Num(lit) => BareReturns(lit, depth);
      case Str(s) => QuotedReturns(s, depth);
      case Arr(items) =>
        ItemsReturn(items, depth + 1);
        WrapReturns(Outside(depth), '[', WriteItems(items, false), ']');
      case Obj(fields) =>
        FieldsReturn(fields, depth + 1);
        WrapReturns(Outside(depth), '{', WriteFields(fields, false), '}');
    }
  }

  lemma NothingReturns(depth: int)
    ensures Returns(Outside(depth), "", depth)
  {
  }

  lemma {:induction false} ItemsReturn(items: seq<Json>, depth: int)
    requires forall i :: 0 <= i < |items| ==> NumbersOk(items[i])
    ensures Returns(Outside(depth), WriteItems(items, false), depth)
    decreases items, 0
  {
    hide Write, NumbersOk, Returns;
    NothingReturns(depth);
    if items != [] {
      WriteReturns(items[0], depth);
      if |items| > 1 {
        ItemsReturn(items[1..], depth);
        CommaReturns(Write(items[0], false), WriteItems(items[1..], false), depth);
      } else {
        assert WriteItems(items, false) == Write(items[0], false);
      }
    }
  }

  lemma CommaReturns(a: string, b: string, depth: int)
    requires Returns(Outside(depth), a, depth) && Returns(Outside(depth), b, depth)
    ensures Returns(Outside(depth), a + ("," + b), depth)
  {
    PlainReturns(Outside(depth), ',', depth);
    hide Returns;
    ReturnsTwice(Outside(depth), ",", b, depth);
    ReturnsTwice(Outside(depth), a, "," + b, depth);
  }

  lemma {:induction false} FieldsReturn(fields: seq<Field>, depth: int)
    requires forall i :: 0 <= i < |fields| ==> NumbersOk(fields[i].value)
    ensures Returns(Outside(depth), WriteFields(fields, false), depth)
    decreases fields, 0
  {
    hide Write, NumbersOk, Returns, Quoted;
    NothingReturns(depth);
    if fields != [] {
      QuotedReturns(fields[0].key, depth);
      PlainReturns(Outside(depth), ':', depth);
      WriteReturns(fields[0].value, depth);
      ReturnsTwice(Outside(depth), Quoted(fields[0].key, false), ":", depth);
      ReturnsTwice(Outside(depth), Quoted(fields[0].key, false) + ":", Write(fields[0].value, false), depth);
      if |fields| > 1 {
        FieldsReturn(fields[1..], depth);
        CommaReturns(WriteField(fields[0], false), WriteFields(fields[1..], false), depth);
      } else {
        assert WriteFields(fields, false) == WriteField(fields[0], false);
      }
    }
  }

  /** Starting inside a literal instead of outside of one, the scan ends there instead. */
  lemma {:induction false} ScanMirrors(q: Scan, r: Scan, s: string)
    requires q.open != r.open && q.escaped == r.escaped
    ensures Scanned(q, s).open != Scanned(r, s).open && Scanned(q, s).escaped == Scanned(r, s).escaped
    decreases |s|
  {
    if s != "" {
      ScanMirrors(Next(q, s[0]), Next(r, s[0]), s[1..]);
    }
  }

  /** Text behind the first character of a literal, array or object stays inside of it until the last. */
  lemma InsideOf(before: char, inner: string, after: char, front: string, back: string)
    requires Returns(Next(Outside(0), before), inner, 1)
    requires [before] + inner + [after] == front + back && front != "" && back != ""
    ensures Level(Scanned(Outside(0), front)) >= 1
  {
    var q := Next(Outside(0), before);
    hide Next, Scanned;
    var most, rest := front[1..], inner[|front| - 1..];
    assert front == [before] + most by {
      assert (front + back)[0] == front[0];
    }
    assert inner == most + rest by {
      assert (front + back)[1..][..|inner|] == inner;
      assert (front + back)[1..] == most + back;
    }
    ScannedConcat(q, most, rest, 1);
    ScannedConcat(Outside(0), [before], most, 0);
    assert Scanned(Outside(0), [before]) == q by {
      OneScanned(Outside(0), before);
    }
  }

  lemma OneScanned(q: Scan, c: char)
    ensures Scanned(q, [c]) == Next(q, c)
  {
  }

  /** The text of no value ends in a colon and the text of another. */
  lemma NoValueBehindColon(v: Json, front: string, u: Json)
    requires NumbersOk(v) && NumbersOk(u)
    ensures Serialize(v) != front + ":" + Serialize(u)
  {
    hide Write, NumbersOk, IsNumber, Scanned, Returns, CharsText;
    if Serialize(v) == front + ":" + Serialize(u) {
      ColonAtLevelZero(v, front, u);
      ColonIsInside(v, front, Serialize(u));
    }
  }

  lemma ColonAtLevelZero(v: Json, front: string, u: Json)
    requires NumbersOk(v) && NumbersOk(u) && Serialize(v) == front + ":" + Serialize(u)
    ensures Level(Scanned(Outside(0), front)) == 0
  {
    hide Write, NumbersOk, Scanned, Above;
    var q := Scanned(Outside(0), front);
    var behind := Next(q, ':');
    WriteReturns(v, 0);
    WriteReturns(u, q.depth);
    ScannedConcat(Outside(0), front + ":", Serialize(u), 0);
    ScannedConcat(Outside(0), front, ":", 0);
    OneScanned(q, ':');
    if behind.open {
      ScanMirrors(behind, Outside(q.depth), Serialize(u));
    }
  }

  lemma ColonIsInside(v: Json, front: string, rest: string)
    requires NumbersOk(v) && Serialize(v) == front + ":" + rest
    ensures Level(Scanned(Outside(0), front)) >= 1
  {
    hide CharsText, WriteItems, WriteFields, Scanned, Returns, IsFraction;
    assert Serialize(v)[|front|] == ':' && Serialize(v)[0] != ':' && front + ":" + rest == front + (":" + rest);
    match v {
      case Null =>
      case Bool(_) =>
      case Num(lit) =>
      case Str(s) =>
        CharsReturn(s, 0);
        InsideOf('\"', CharsText(s, false), '\"', front, ":" + rest);
      case Arr(items) =>
        ItemsReturn(items, 1);
        InsideOf('[', WriteItems(items, false), ']', front, ":" + rest);
      case Obj(fields) =>
        FieldsReturn(fields, 1);
        InsideOf('{', WriteFields(fields, false), '}', front, ":" + rest);
    }
  }

  // ---- Looking into values ----

  /** `Value::get` with a member name. */
  function Get(v: Json, key: string): Option<Json> {
    if v.Obj? then Lookup(v.fields, key) else None
  }

  function Lookup(fields: seq<Field>, key: string): Option<Json> {
    if fields == [] then None
    else if fields[0].key == key then Some(fields[0].value)
    else Lookup(fields[1..], key)
  }

  function AsStr(v: Option<Json>): Option<string> {
    if v.Some? && v.value.Str? then Some(v.value.s) else None
  }

  /** The number a string of digits writes. */
  function NatOf(digits: string): Option<nat> {
    if digits == "" || !IsDigit(digits[|digits| - 1]) then None
    else
      var last: nat := digits[|digits| - 1] as int - '0' as int;
      if |digits| == 1 then Some(last)
      else
        match NatOf(digits[..|digits| - 1])
        case None => None
        case Some(n) => Some(10 * n + last)
  }

  /** `as_u64`. */
  function AsU64(v: Option<Json>): Option<nat> {
    if v.None? || !v.value.Num? then None
    else
      var n := NatOf(v.value.lit);
      if n.Some? && n.value <= 0xFFFF_FFFF_FFFF_FFFF then n else None
  }

  function FromNat(n: nat): Json {
    Num(NatText(n))
  }

  lemma {:induction false} NatRoundTrip(n: nat)
    ensures NatOf(NatText(n)) == Some(n)
  {
    if n >= 10 {
      NatRoundTrip(n / 10);
      assert NatText(n)[..|NatText(n)| - 1] == NatText(n / 10);
    }
  }

  type i64 = n: int | -0x8000_0000_0000_0000 <= n < 0x8000_0000_0000_0000

  function Negative(n: int): int {
    -n
  }

  function Magnitude(n: int): nat {
    if n < 0 then -n else n
  }

  /** `as_i64`. */
  function AsI64(v: Option<Json>): Option<i64> {
    if v.None? || !v.value.Num? then None
    else
      var lit := v.value.lit;
      if lit != "" && lit[0] == '-' then
        var n := NatOf(lit[1..]);
        if n.Some? && n.value <= 0x8000_0000_0000_0000 then Some(Negative(n.value)) else None
      else
        var n := NatOf(lit);
        if n.Some? && n.value < 0x8000_0000_0000_0000 then Some(n.value) else None
  }

  function FromInt(n: i64): Json {
    if n < 0 then Num("-" + NatText(Magnitude(n))) else FromNat(n)
  }

  lemma IntRoundTrip(n: i64)
    ensures AsI64(Some(FromInt(n))) == Some(n)
  {
    if n < 0 {
      NatRoundTrip(Magnitude(n));
      assert ("-" + NatText(Magnitude(n)))[1..] == NatText(Magnitude(n));
    } else {
      NatRoundTrip(n);
      assert '0' <= NatText(n)[0] <= '9';
    }
  }

  /** The first member with a name is the one that is found. */
  lemma {:induction false} LookupAt(fields: seq<Field>, k: nat)
    requires k < |fields| && forall j :: 0 <= j < k ==> fields[j].key != fields[k].key
    ensures Lookup(fields, fields[k].key) == Some(fields[k].value)
  {
    if k > 0 {
      assert fields[0].key != fields[k].key;
      assert forall j :: 0 <= j < k - 1 ==> fields[1..][j] == fields[j + 1];
      LookupAt(fields[1..], k - 1);
    }
  }
}
