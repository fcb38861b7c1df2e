/** The language of `shirita.math.evaluate`: tokens, syntax trees, their printed form, and a parser on tokens. */
module MathGrammar {
  import opened Text
  import opened Utf8

  const MAX_EXPRESSION_BYTES := 4096
  const MAX_PARSE_DEPTH := 64

  datatype Op = Add | Sub | Mul | Div | Rem

  datatype Tree =
    | Number(lit: seq<byte>)
    | Paren(inner: Tree)
    | Pos(arg: Tree)
    | Neg(arg: Tree)
    | Pow(base: Tree, exp: Tree)
    | Bin(op: Op, left: Tree, right: Tree)

  datatype Token = Num(lit: seq<byte>) | Sym(c: byte)

  const PLUS: byte := 43
  const MINUS: byte := 45
  const STAR: byte := 42
  const SLASH: byte := 47
  const PERCENT: byte := 37
  const CARET: byte := 94
  const LPAREN: byte := 40
  const RPAREN: byte := 41

  function OpByte(op: Op): byte {
    match op
    case Add => PLUS
    case Sub => MINUS
    case Mul => STAR
    case Div => SLASH
    case Rem => PERCENT
  }

  /** Binding strength, tightest first: atoms, unary signs, `^`, products, sums. */
  const ATOM: nat := 0
  const UNARY: nat := 1
  const POWER: nat := 2
  const TERM: nat := 3
  const EXPR: nat := 4

  function OpLevel(op: Op): nat {
    if op.Add? || op.Sub? then EXPR else TERM
  }

  function Level(t: Tree): nat {
    match t
    case Number(_) => ATOM
    case Paren(_) => ATOM
    case Pos(_) => UNARY
    case Neg(_) => UNARY
    case Pow(_, _) => POWER
    case Bin(op, _, _) => OpLevel(op)
  }

  /** The grammar: sums and products associate to the left, `^` to the right, signs bind tighter than `^`. */
  predicate Grammatical(t: Tree) {
    match t
    case Number(_) => true
    case Paren(e) => Grammatical(e)
    case Pos(u) => Level(u) <= UNARY && Grammatical(u)
    case Neg(u) => Level(u) <= UNARY && Grammatical(u)
    case Pow(u, p) => Level(u) <= UNARY && Level(p) <= POWER && Grammatical(u) && Grammatical(p)
    case Bin(op, l, r) => Level(l) <= OpLevel(op) && Level(r) < OpLevel(op) && Grammatical(l) && Grammatical(r)
  }

  function Tokens(t: Tree): seq<Token> {
    match t
    case Number(lit) => [Num(lit)]
    case Paren(e) => [Sym(LPAREN)] + Tokens(e) + [Sym(RPAREN)]
    case Pos(u) => [Sym(PLUS)] + Tokens(u)
    case Neg(u) => [Sym(MINUS)] + Tokens(u)
    case Pow(u, p) => Tokens(u) + [Sym(CARET)] + Tokens(p)
    case Bin(op, l, r) => Tokens(l) + [Sym(OpByte(op))] + Tokens(r)
  }

  function Max(a: nat, b: nat): nat {
    if a < b then b else a
  }

  /** Nesting of parentheses. */
  function Depth(t: Tree): nat {
    match t
    case Number(_) => 0
    case Paren(e) => 1 + Depth(e)
    case Pos(u) => Depth(u)
    case Neg(u) => Depth(u)
    case Pow(u, p) => Max(Depth(u), Depth(p))
    case Bin(_, l, r) => Max(Depth(l), Depth(r))
  }

  // ---- Tokens of a text ----

  /** `is_ascii_whitespace`. */
  predicate IsSpace(b: byte) {
    b == 9 || b == 10 || b == 12 || b == 13 || b == 32
  }

  predicate IsDigit(b: byte) {
    48 <= b <= 57 || b == 46
  }

  function RunLength(b: seq<byte>): (n: nat)
    ensures n <= |b| && (n < |b| ==> !IsDigit(b[n]))
    ensures forall i :: 0 <= i < n ==> IsDigit(b[i])
  {
    if b != [] && IsDigit(b[0]) then 1 + RunLength(b[1..]) else 0
  }

  function Lex(b: seq<byte>): seq<Token> {
    if b == [] then []
    else if IsSpace(b[0]) then Lex(b[1..])
    else if IsDigit(b[0]) then [Num(b[..RunLength(b)])] + Lex(b[RunLength(b)..])
    else [Sym(b[0])] + Lex(b[1..])
  }

  predicate Printable(k: Token) {
    match k
    case Num(lit) => lit != [] && forall i :: 0 <= i < |lit| ==> IsDigit(lit[i])
    case Sym(c) => !IsSpace(c) && !IsDigit(c)
  }

  function Image(k: Token): seq<byte> {
    match k
    case Num(lit) => lit
    case Sym(c) => [c]
  }

  /** Tokens written out, each with a space in front. */
  function Print(s: seq<Token>): seq<byte> {
    if s == [] then [] else [32] + Image(s[0]) + Print(s[1..])
  }

  lemma RunLengthOfLiteral(lit: seq<byte>, rest: seq<byte>)
    requires forall i :: 0 <= i < |lit| ==> IsDigit(lit[i])
    requires rest == [] || !IsDigit(rest[0])
    ensures RunLength(lit + rest) == |lit|
  {
    var n := RunLength(lit + rest);
    assert forall i :: 0 <= i < |lit| ==> (lit + rest)[i] == lit[i];
    assert rest != [] ==> (lit + rest)[|lit|] == rest[0];
  }

  lemma {:induction false} LexInvertsPrint(s: seq<Token>)
    requires forall i :: 0 <= i < |s| ==> Printable(s[i])
    ensures Lex(Print(s)) == s
  {
    hide Lex, Printable, Image;
    if s == [] {
      assert Lex([]) == [] by { LexOfNothing(); }
    } else {
      LexInvertsPrint(s[1..]);
      LexOfImage(s[0], Print(s[1..]));
    }
  }

  lemma LexOfNothing()
    ensures Lex([]) == []
  {
  }

  lemma LexOfImage(k: Token, rest: seq<byte>)
    requires Printable(k) && (rest == [] || rest[0] == 32)
    ensures Lex([32] + Image(k) + rest) == [k] + Lex(rest)
  {
    hide Lex, RunLength, IsDigit, IsSpace;
    LexOfSpace(Image(k) + rest);
    assert [32] + Image(k) + rest == [32] + (Image(k) + rest);
    if k.Num? {
      LexOfLiteral(k.lit, rest);
    } else {
      LexOfSymbol(k.c, rest);
    }
  }

  lemma LexOfSpace(rest: seq<byte>)
    ensures Lex([32] + rest) == Lex(rest)
  {
    assert ([32] + rest)[1..] == rest;
  }

  lemma LexOfLiteral(lit: seq<byte>, rest: seq<byte>)
    requires Printable(Num(lit)) && (rest == [] || rest[0] == 32)
    ensures Lex(lit + rest) == [Num(lit)] + Lex(rest)
  {
    var body := lit + rest;
    RunLengthOfLiteral(lit, rest);
    assert body[..|lit|] == lit && body[|lit|..] == rest && body[0] == lit[0];
  }

  lemma LexOfSymbol(c: byte, rest: seq<byte>)
    requires Printable(Sym(c))
    ensures Lex([c] + rest) == [Sym(c)] + Lex(rest)
  {
    assert ([c] + rest)[1..] == rest;
  }

  // ---- Parsing tokens ----

  datatype Parsed = Fail | Got(tree: Tree, rest: seq<Token>)

  /** The operator a chain at this level goes on with. */
  function ChainOp(level: nat, s: seq<Token>): Option<Op> {
    if s == [] || !s[0].Sym? then None
    else
      var c := s[0].c;
      if level == EXPR then (if c == PLUS then Some(Add) else if c == MINUS then Some(Sub) else None)
      else if level == TERM then
        (if c == STAR then Some(Mul) else if c == SLASH then Some(Div) else if c == PERCENT then Some(Rem) else None)
      else None
  }

  predicate Starts(s: seq<Token>, c: byte) {
    s != [] && s[0] == Sym(c)
  }

  /** One grammar level from the front of `s`, with room for `room` more open parentheses. */
  function Parse(level: nat, s: seq<Token>, room: nat): (p: Parsed)
    ensures p.Got? ==> |p.rest| < |s|
    decreases |s|, level, 1
  {
    if level >= TERM then
      match Parse(level - 1, s, room)
      case Fail => Fail
      case Got(t, rest) => Chain(level, t, rest, room)
    else if level == POWER then
      match Parse(UNARY, s, room)
      case Fail => Fail
      case Got(u, rest) =>
        if !Starts(rest, CARET) then Got(u, rest)
        else
          match Parse(POWER, rest[1..], room)
          case Fail => Fail
          case Got(e, rest') => Got(Pow(u, e), rest')
    else if level == UNARY then
      if Starts(s, PLUS) || Starts(s, MINUS) then
        match Parse(UNARY, s[1..], room)
        case Fail => Fail
        case Got(u, rest) => Got(if Starts(s, PLUS) then Pos(u) else Neg(u), rest)
      else Parse(ATOM, s, room)
    else if Starts(s, LPAREN) then
      if room == 0 then Fail
      else
        match Parse(EXPR, s[1..], room - 1)
        case Fail => Fail
        case Got(e, rest) => if Starts(rest, RPAREN) then Got(Paren(e), rest[1..]) else Fail
    else if s != [] && s[0].Num? then Got(Number(s[0].lit), s[1..])
    else Fail
  }

  /** Left-associative continuation after `acc`. */
  function Chain(level: nat, acc: Tree, s: seq<Token>, room: nat): (p: Parsed)
    ensures p.Got? ==> |p.rest| <= |s|
    decreases |s|, level, 0
  {
    match ChainOp(level, s)
    case None => Got(acc, s)
    case Some(op) =>
      match Parse(level - 1, s[1..], room)
      case Fail => Fail
      case Got(r, rest) => Chain(level, Bin(op, acc, r), rest, room)
  }

  // ---- The parser and the grammar agree ----

  /** How the two chain levels begin. */
  lemma ChainBegins(level: nat, s: seq<Token>, room: nat)
    requires level >= TERM
    ensures var p := Parse(level - 1, s, room);
            Parse(level, s, room) == if p.Fail? then Fail else Chain(level, p.tree, p.rest, room)
  {
  }

  predicate Describes(level: nat, s: seq<Token>, room: nat, t: Tree, rest: seq<Token>) {
    Grammatical(t) && Level(t) <= level && Tokens(t) + rest == s && Depth(t) <= room
  }

  /** Soundness: a parsed tree is grammatical and its tokens are exactly those consumed. */
  lemma {:induction false} ParseSound(level: nat, s: seq<Token>, room: nat)
    requires level <= EXPR && Parse(level, s, room).Got?
    ensures var p := Parse(level, s, room); Describes(level, s, room, p.tree, p.rest)
    decreases |s|, level, 1
  {
    if level >= TERM {
      ParseSound(level - 1, s, room);
      var p := Parse(level - 1, s, room);
      ChainSound(level, p.tree, p.rest, room, s);
    } else if level == POWER {
      PowerSound(s, room);
    } else {
      OperandSound(level, s, room);
    }
  }

  lemma {:induction false} PowerSound(s: seq<Token>, room: nat)
    requires Parse(POWER, s, room).Got?
    ensures var p := Parse(POWER, s, room); Describes(POWER, s, room, p.tree, p.rest)
    decreases |s|, POWER, 0
  {
    ParseSound(UNARY, s, room);
    var base := Parse(UNARY, s, room);
    if Starts(base.rest, CARET) {
      ParseSound(POWER, base.rest[1..], room);
      var power := Parse(POWER, base.rest[1..], room);
      PowerDescribes(s, room, base.tree, base.rest, power.tree, power.rest);
    }
  }

  lemma PowerDescribes(s: seq<Token>, room: nat, base: Tree, middle: seq<Token>, power: Tree, rest: seq<Token>)
    requires Starts(middle, CARET)
    requires Describes(UNARY, s, room, base, middle) && Describes(POWER, middle[1..], room, power, rest)
    ensures Describes(POWER, s, room, Pow(base, power), rest)
  {
    assert [Sym(CARET)] + middle[1..] == middle;
  }

  lemma {:induction false} OperandSound(level: nat, s: seq<Token>, room: nat)
    requires level <= UNARY && Parse(level, s, room).Got?
    ensures var p := Parse(level, s, room); Describes(level, s, room, p.tree, p.rest)
    decreases |s|, level, 0
  {
    if level == UNARY {
      if Starts(s, PLUS) || Starts(s, MINUS) {
        ParseSound(UNARY, s[1..], room);
        var p := Parse(UNARY, s[1..], room);
        SignDescribes(s, room, p.tree, p.rest);
      } else {
        ParseSound(ATOM, s, room);
      }
    } else if Starts(s, LPAREN) {
      ParseSound(EXPR, s[1..], room - 1);
      var p := Parse(EXPR, s[1..], room - 1);
      ParenDescribes(s, room, p.tree, p.rest);
    } else {
      assert [s[0]] + s[1..] == s;
    }
  }

  lemma SignDescribes(s: seq<Token>, room: nat, t: Tree, rest: seq<Token>)
    requires Starts(s, PLUS) || Starts(s, MINUS)
    requires Describes(UNARY, s[1..], room, t, rest)
    ensures Describes(UNARY, s, room, if Starts(s, PLUS) then Pos(t) else Neg(t), rest)
  {
    assert [s[0]] + s[1..] == s;
  }

  lemma ParenDescribes(s: seq<Token>, room: nat, t: Tree, rest: seq<Token>)
    requires Starts(s, LPAREN) && Starts(rest, RPAREN) && room > 0
    requires Describes(EXPR, s[1..], room - 1, t, rest)
    ensures Describes(ATOM, s, room, Paren(t), rest[1..])
  {
    assert [s[0]] + s[1..] == s && [Sym(RPAREN)] + rest[1..] == rest;
  }

  lemma {:induction false} ChainSound(level: nat, acc: Tree, s: seq<Token>, room: nat, whole: seq<Token>)
    requires TERM <= level <= EXPR && Chain(level, acc, s, room).Got?
    requires Describes(level, whole, room, acc, s)
    ensures var p := Chain(level, acc, s, room); Describes(level, whole, room, p.tree, p.rest)
    decreases |s|, level, 0
  {
    hide Parse, Describes;
    var next := ChainOp(level, s);
    if next.Some? {
      ParseSound(level - 1, s[1..], room);
      var p := Parse(level - 1, s[1..], room);
      ChainDescribes(level, whole, room, next.value, acc, s, p.tree, p.rest);
      ChainSound(level, Bin(next.value, acc, p.tree), p.rest, room, whole);
    }
  }

  lemma ChainDescribes(
    level: nat, whole: seq<Token>, room: nat, op: Op, acc: Tree, s: seq<Token>, right: Tree, rest: seq<Token>)
    requires TERM <= level <= EXPR && ChainOp(level, s) == Some(op)
    requires Describes(level, whole, room, acc, s) && Describes(level - 1, s[1..], room, right, rest)
    ensures Describes(level, whole, room, Bin(op, acc, right), rest)
  {
    assert [Sym(OpByte(op))] + s[1..] == s;
  }

  /** `s` does not go on with an operator that a tree of this level would take in. */
  predicate Follows(level: nat, s: seq<Token>) {
    && (level >= POWER ==> !Starts(s, CARET))
    && (level >= TERM ==> ChainOp(TERM, s).None?)
    && (level >= EXPR ==> ChainOp(EXPR, s).None?)
  }

  /** Completeness: a grammatical tree is what parsing its tokens gives, and parsing stops right after them. */
  lemma {:induction false} ParseComplete(level: nat, t: Tree, rest: seq<Token>, room: nat)
    requires level <= EXPR && Grammatical(t) && Level(t) <= level && Depth(t) <= room
    requires Follows(level, rest)
    ensures Parse(level, Tokens(t) + rest, room) == Got(t, rest)
    decreases t, level, 1
  {
    if level >= TERM {
      ChainComplete(level, t, rest, room);
    } else if level == POWER {
      PowerComplete(t, rest, room);
    } else {
      OperandComplete(level, t, rest, room);
    }
  }

  lemma {:induction false} PowerComplete(t: Tree, rest: seq<Token>, room: nat)
    requires Grammatical(t) && Level(t) <= POWER && Depth(t) <= room
    requires Follows(POWER, rest)
    ensures Parse(POWER, Tokens(t) + rest, room) == Got(t, rest)
    decreases t, POWER, 0
  {
    if t.Pow? {
      var after := [Sym(CARET)] + Tokens(t.exp) + rest;
      assert Tokens(t) + rest == Tokens(t.base) + after && after[1..] == Tokens(t.exp) + rest;
      ParseComplete(UNARY, t.base, after, room);
      ParseComplete(POWER, t.exp, rest, room);
    } else {
      ParseComplete(UNARY, t, rest, room);
    }
  }

  lemma {:induction false} OperandComplete(level: nat, t: Tree, rest: seq<Token>, room: nat)
    requires level <= UNARY && Grammatical(t) && Level(t) <= level && Depth(t) <= room
    ensures Parse(level, Tokens(t) + rest, room) == Got(t, rest)
    decreases t, level, 0
  {
    var s := Tokens(t) + rest;
    if t.Pos? || t.Neg? {
      assert s[1..] == Tokens(t.arg) + rest;
      ParseComplete(UNARY, t.arg, rest, room);
    } else if level == UNARY {
      ParseComplete(ATOM, t, rest, room);
    } else if t.Paren? {
      var after := [Sym(RPAREN)] + rest;
      assert s[1..] == Tokens(t.inner) + after && after[1..] == rest;
      ParseComplete(EXPR, t.inner, after, room - 1);
    } else {
      assert s[1..] == rest;
    }
  }

  lemma {:induction false} ChainComplete(level: nat, t: Tree, rest: seq<Token>, room: nat)
    requires TERM <= level <= EXPR && Grammatical(t) && Level(t) <= level && Depth(t) <= room
    requires Follows(level - 1, rest)
    ensures Parse(level, Tokens(t) + rest, room) == Chain(level, t, rest, room)
    decreases t, level, 0
  {
    hide Parse, Chain;
    ChainBegins(level, Tokens(t) + rest, room);
    if Level(t) == level {
      var after := [Sym(OpByte(t.op))] + Tokens(t.right) + rest;
      assert Tokens(t) + rest == Tokens(t.left) + after && after[1..] == Tokens(t.right) + rest;
      ChainComplete(level, t.left, after, room);
      ParseComplete(level - 1, t.right, rest, room);
      ChainTakesIn(level, t, after, rest, room);
    } else {
      ParseComplete(level - 1, t, rest, room);
    }
  }

  lemma ChainTakesIn(level: nat, t: Tree, after: seq<Token>, rest: seq<Token>, room: nat)
    requires t.Bin? && level >= TERM && ChainOp(level, after) == Some(t.op) && Parse(level - 1, after[1..], room) == Got(t.right, rest)
    ensures Chain(level, t.left, after, room) == Chain(level, t, rest, room)
  {
    hide Parse;
  }

  /** The grammar is unambiguous: the tokens determine the tree. */
  lemma Unambiguous(a: Tree, b: Tree)
    requires Grammatical(a) && Grammatical(b) && Tokens(a) == Tokens(b)
    ensures a == b
  {
    var room := Max(Depth(a), Depth(b));
    ParseComplete(EXPR, a, [], room);
    ParseComplete(EXPR, b, [], room);
  }

  /** Any tree made grammatical by the parentheses its operands need. */
  function Bracket(t: Tree): (g: Tree)
    ensures Grammatical(g) && Level(g) == Level(t)
  {
    match t
    case Number(_) => t
    case Paren(e) => Paren(Bracket(e))
    case Pos(u) => Pos(Fit(UNARY, Bracket(u)))
    case Neg(u) => Neg(Fit(UNARY, Bracket(u)))
    case Pow(u, p) => Pow(Fit(UNARY, Bracket(u)), Fit(POWER, Bracket(p)))
    case Bin(op, l, r) => Bin(op, Fit(OpLevel(op), Bracket(l)), Fit(OpLevel(op) - 1, Bracket(r)))
  }

  function Fit(level: nat, t: Tree): Tree {
    if Level(t) <= level then t else Paren(t)
  }
}
