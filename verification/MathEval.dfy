/** The recursive-descent evaluator `eval_math`, over an arbitrary arithmetic. */
module MathEval {
  import opened Text
  import opened Utf8
  import opened MathGrammar

  /** The number operations, of which only a zero test and a finiteness test are looked at. */
  datatype Arith<!N> = Arith(
    parse: seq<byte> -> Option<N>,
    neg: N -> N,
    pow: (N, N) -> N,
    bin: (Op, N, N) -> N,
    isZero: N -> bool,
    isFinite: N -> bool)

  /** The denotation of a tree; none for an unreadable literal or a zero divisor. */
  function Eval<N>(ar: Arith<N>, t: Tree): Option<N> {
    match t
    case Number(lit) => ar.parse(lit)
    case Paren(e) => Eval(ar, e)
    case Pos(u) => Eval(ar, u)
    case Neg(u) =>
      (match Eval(ar, u)
       case None => None
       case Some(x) => Some(ar.neg(x)))
    case Pow(u, p) =>
      (match (Eval(ar, u), Eval(ar, p))
       case (Some(x), Some(y)) => Some(ar.pow(x, y))
       case _ => None)
    case Bin(op, l, r) =>
      (match (Eval(ar, l), Eval(ar, r))
       case (Some(x), Some(y)) => Apply(ar, op, x, y)
       case _ => None)
  }

  function Apply<N>(ar: Arith<N>, op: Op, x: N, y: N): Option<N> {
    if (op.Div? || op.Rem?) && ar.isZero(y) then None else Some(ar.bin(op, x, y))
  }

  /** The text is a spelling of this tree: its tokens, with white space anywhere between them. */
  predicate Spells(input: seq<byte>, t: Tree) {
    Grammatical(t) && Tokens(t) == Lex(input)
  }

  /** The value of a text, through the token parser. */
  function EvalText<N>(ar: Arith<N>, input: seq<byte>): Option<N> {
    if |input| > MAX_EXPRESSION_BYTES then None
    else
      match Parse(EXPR, Lex(input), MAX_PARSE_DEPTH)
      case Fail => None
      case Got(t, rest) =>
        if rest != [] then None
        else
          match Eval(ar, t)
          case None => None
          case Some(v) => if ar.isFinite(v) then Some(v) else None
  }

  /** A value comes out exactly when the text spells a tree within the limits that has this finite denotation. */
  lemma EvalTextMeaning<N>(ar: Arith<N>, input: seq<byte>, v: N)
    ensures EvalText(ar, input) == Some(v) <==>
            && |input| <= MAX_EXPRESSION_BYTES
            && ar.isFinite(v)
            && exists t :: Spells(input, t) && Depth(t) <= MAX_PARSE_DEPTH && Eval(ar, t) == Some(v)
  {
    hide Parse, Eval, Lex, Tokens, Grammatical;
    var s := Lex(input);
    var p := Parse(EXPR, s, MAX_PARSE_DEPTH);
    if p.Got? && p.rest == [] {
      ParseSound(EXPR, s, MAX_PARSE_DEPTH);
      assert Tokens(p.tree) + [] == Tokens(p.tree);
      assert Spells(input, p.tree);
    }
    forall t | Spells(input, t) && Depth(t) <= MAX_PARSE_DEPTH
      ensures p == Got(t, [])
    {
      ParseComplete(EXPR, t, [], MAX_PARSE_DEPTH);
      assert Tokens(t) + [] == s;
      LevelBound(t);
    }
  }

  lemma LevelBound(t: Tree)
    ensures Level(t) <= EXPR
  {
  }

  /** The printed form of a grammatical tree within the limits evaluates to the tree's own finite denotation. */
  lemma PrintedForm<N>(ar: Arith<N>, t: Tree, v: N)
    requires Grammatical(t) && Depth(t) <= MAX_PARSE_DEPTH && |Print(Tokens(t))| <= MAX_EXPRESSION_BYTES
    requires forall i :: 0 <= i < |Tokens(t)| ==> Printable(Tokens(t)[i])
    ensures EvalText(ar, Print(Tokens(t))) == Some(v) <==> Eval(ar, t) == Some(v) && ar.isFinite(v)
  {
    hide Parse, Eval, Tokens, Grammatical, Print, Lex;
    LexInvertsPrint(Tokens(t));
    EvalTextMeaning(ar, Print(Tokens(t)), v);
    forall u | Spells(Print(Tokens(t)), u)
      ensures u == t
    {
      Unambiguous(t, u);
    }
    assert Spells(Print(Tokens(t)), t);
  }

  /** Adding the parentheses a tree needs to be written down does not change what it denotes. */
  lemma {:induction false} BracketKeepsValue<N>(ar: Arith<N>, t: Tree)
    ensures Eval(ar, Bracket(t)) == Eval(ar, t)
  {
    match t {
      case Number(_) =>
      case Paren(e) => BracketKeepsValue(ar, e);
      case Pos(u) => BracketKeepsValue(ar, u);
      case Neg(u) => BracketKeepsValue(ar, u);
      case Pow(u, p) =>
        BracketKeepsValue(ar, u);
        BracketKeepsValue(ar, p);
      case Bin(_, l, r) =>
        BracketKeepsValue(ar, l);
        BracketKeepsValue(ar, r);
    }
  }

  /** A chain that starts from a tree without a value never gets one. */
  lemma {:induction false} ChainStrict<N>(ar: Arith<N>, level: nat, acc: Tree, s: seq<Token>, room: nat)
    requires Eval(ar, acc).None?
    ensures var p := Chain(level, acc, s, room); p.Got? ==> Eval(ar, p.tree).None?
    decreases |s|
  {
    hide Parse;
    var next := ChainOp(level, s);
    if next.Some? {
      var p := Parse(level - 1, s[1..], room);
      if p.Got? {
        assert Eval(ar, Bin(next.value, acc, p.tree)).None?;
        ChainStrict(ar, level, Bin(next.value, acc, p.tree), p.rest, room);
      }
    }
  }

  /** One step of a chain, together with the value of the tree it grows. */
  lemma ChainGoesOn<N>(ar: Arith<N>, level: nat, acc: Tree, s: seq<Token>, room: nat, op: Op)
    requires ChainOp(level, s) == Some(op)
    ensures var p := Parse(level - 1, s[1..], room);
            && Chain(level, acc, s, room) == (if p.Fail? then Fail else Chain(level, Bin(op, acc, p.tree), p.rest, room))
            && (p.Got? ==>
                  Eval(ar, Bin(op, acc, p.tree)) == (match (Eval(ar, acc), Eval(ar, p.tree))
                                                     case (Some(x), Some(y)) => Apply(ar, op, x, y)
                                                     case _ => None))
  {
    hide Parse;
  }

  lemma ChainEnds(level: nat, acc: Tree, s: seq<Token>, room: nat)
    requires ChainOp(level, s).None?
    ensures Chain(level, acc, s, room) == Got(acc, s)
  {
  }

  /** What a grammar-level method must return for the tokens it was called on. */
  ghost predicate Agrees<N>(ar: Arith<N>, p: Parsed, v: Option<N>, rest: seq<Token>, restored: bool) {
    match p
    case Fail => v.None?
    case Got(t, after) => v == Eval(ar, t) && (v.Some? ==> rest == after && restored)
  }

  class Parser<N> {
    const ar: Arith<N>
    const b: seq<byte>
    var i: nat
    var depth: nat

    ghost predicate Valid()
      reads this
    {
      i <= |b| && depth <= MAX_PARSE_DEPTH
    }

    ghost function Ahead(): seq<Token>
      requires Valid()
      reads this
    {
      Lex(b[i..])
    }

    ghost function Room(): nat
      requires Valid()
      reads this
    {
      MAX_PARSE_DEPTH - depth
    }

    constructor (ar: Arith<N>, input: seq<byte>)
      ensures Valid() && i == 0 && depth == 0 && b == input && this.ar == ar
    {
      this.ar := ar;
      b := input;
      i := 0;
      depth := 0;
    }

    method Ws()
      requires Valid()
      modifies this`i
      ensures Valid() && old(i) <= i && Ahead() == old(Ahead())
      ensures i < |b| ==> !IsSpace(b[i])
    {
      while i < |b| && IsSpace(b[i])
        invariant old(i) <= i <= |b|
        invariant Lex(b[i..]) == Lex(b[old(i)..])
      {
        assert b[i..][1..] == b[i + 1..];
        i := i + 1;
      }
    }

    method Eat(c: byte) returns (ok: bool)
      requires Valid() && !IsSpace(c) && !IsDigit(c)
      modifies this`i
      ensures Valid() && old(i) <= i
      ensures ok <==> Starts(old(Ahead()), c)
      ensures ok ==> old(i) < i && Ahead() == old(Ahead())[1..]
      ensures !ok ==> Ahead() == old(Ahead()) && (i < |b| ==> !IsSpace(b[i]))
    {
      Ws();
      if i < |b| && b[i] == c {
        assert b[i..][1..] == b[i + 1..];
        i := i + 1;
        return true;
      }
      return false;
    }

    method Expr() returns (v: Option<N>)
      requires Valid()
      modifies this
      ensures i <= |b| && old(i) <= i && (v.Some? ==> Valid())
      ensures Agrees(ar, Parse(EXPR, old(Ahead()), old(Room())), v, Lex(b[i..]), depth == old(depth))
      decreases |b| - i, EXPR
    {
      hide Lex, Parse, Chain, Eval;
      ghost var s, room := Ahead(), Room();
      ChainBegins(EXPR, s, room);
      v := Term();
      if v.None? {
        if Parse(TERM, s, room).Got? {
          ChainStrict(ar, EXPR, Parse(TERM, s, room).tree, Parse(TERM, s, room).rest, room);
        }
        return;
      }
      ghost var acc := Parse(TERM, s, room).tree;
      while true
        invariant Valid() && old(i) <= i && depth == old(depth)
        invariant v.Some? && Eval(ar, acc) == v
        invariant Parse(EXPR, s, room) == Chain(EXPR, acc, Ahead(), room)
        decreases |b| - i
      {
        ghost var ahead := Ahead();
        var op := Add;
        var found := Eat(PLUS);
        if !found {
          op := Sub;
          found := Eat(MINUS);
        }
        if !found {
          ChainEnds(EXPR, acc, ahead, room);
          return;
        }
        ChainGoesOn(ar, EXPR, acc, ahead, room, op);
        ghost var p := Parse(TERM, ahead[1..], room);
        var x := Term();
        if p.Got? {
          acc := Bin(op, acc, p.tree);
          if Eval(ar, acc).None? {
            ChainStrict(ar, EXPR, acc, p.rest, room);
          }
        }
        if x.None? {
          return None;
        }
        v := Some(ar.bin(op, v.value, x.value));
      }
    }

    method Term() returns (v: Option<N>)
      requires Valid()
      modifies this
      ensures i <= |b| && old(i) <= i && (v.Some? ==> Valid())
      ensures Agrees(ar, Parse(TERM, old(Ahead()), old(Room())), v, Lex(b[i..]), depth == old(depth))
      decreases |b| - i, TERM
    {
      hide Lex, Parse, Chain, Eval;
      ghost var s, room := Ahead(), Room();
      ChainBegins(TERM, s, room);
      v := Power();
      if v.None? {
        if Parse(POWER, s, room).Got? {
          ChainStrict(ar, TERM, Parse(POWER, s, room).tree, Parse(POWER, s, room).rest, room);
        }
        return;
      }
      ghost var acc := Parse(POWER, s, room).tree;
      while true
        invariant Valid() && old(i) <= i && depth == old(depth)
        invariant v.Some? && Eval(ar, acc) == v
        invariant Parse(TERM, s, room) == Chain(TERM, acc, Ahead(), room)
        decreases |b| - i
      {
        ghost var ahead := Ahead();
        var op := Mul;
        var found := Eat(STAR);
        if !found {
          op := Div;
          found := Eat(SLASH);
        }
        if !found {
          op := Rem;
          found := Eat(PERCENT);
        }
        if !found {
          ChainEnds(TERM, acc, ahead, room);
          return;
        }
        ChainGoesOn(ar, TERM, acc, ahead, room, op);
        ghost var p := Parse(POWER, ahead[1..], room);
        var x := Power();
        if p.Got? {
          acc := Bin(op, acc, p.tree);
          if Eval(ar, acc).None? {
            ChainStrict(ar, TERM, acc, p.rest, room);
          }
        }
        if x.None? || ((op.Div? || op.Rem?) && ar.isZero(x.value)) {
          return None;
        }
        v := Some(ar.bin(op, v.value, x.value));
      }
    }

    method Power() returns (v: Option<N>)
      requires Valid()
      modifies this
      ensures i <= |b| && old(i) <= i && (v.Some? ==> Valid())
      ensures Agrees(ar, Parse(POWER, old(Ahead()), old(Room())), v, Lex(b[i..]), depth == old(depth))
      decreases |b| - i, POWER
    {
      hide Lex;
      ghost var p := Parse(UNARY, Ahead(), Room());
      v := Unary();
      if v.None? {
        return;
      }
      var found := Eat(CARET);
      if found {
        var e := Power();
        v := if e.None? then None else Some(ar.pow(v.value, e.value));
      }
    }

    method Unary() returns (v: Option<N>)
      requires Valid()
      modifies this
      ensures i <= |b| && old(i) <= i && (v.Some? ==> Valid())
      ensures Agrees(ar, Parse(UNARY, old(Ahead()), old(Room())), v, Lex(b[i..]), depth == old(depth))
      decreases |b| - i, UNARY
    {
      hide Lex;
      var plus := Eat(PLUS);
      if plus {
        v := Unary();
        return;
      }
      var minus := Eat(MINUS);
      if minus {
        v := Unary();
        v := if v.None? then None else Some(ar.neg(v.value));
        return;
      }
      v := Atom();
    }

    method Atom() returns (v: Option<N>)
      requires Valid()
      modifies this
      ensures i <= |b| && old(i) <= i && (v.Some? ==> Valid())
      ensures Agrees(ar, Parse(ATOM, old(Ahead()), old(Room())), v, Lex(b[i..]), depth == old(depth))
      decreases |b| - i, ATOM
    {
      ghost var inner := if Starts(Ahead(), LPAREN) && Room() > 0 then Parse(EXPR, Ahead()[1..], Room() - 1) else Fail;
      var open := Eat(LPAREN);
      if open {
        depth := depth + 1;
        if depth > MAX_PARSE_DEPTH {
          return None;
        }
        v := Expr();
        if v.None? {
          return;
        }
        var close := Eat(RPAREN);
        if !close {
          return None;
        }
        depth := depth - 1;
        return;
      }
      var start := i;
      while i < |b| && IsDigit(b[i])
        invariant start <= i <= |b| && depth == old(depth)
        invariant forall k :: start <= k < i ==> IsDigit(b[k])
      {
        i := i + 1;
      }
      LexAt(b, start, i);
      if start == i {
        return None;
      }
      v := ar.parse(b[start..i]);
    }
  }

  /** What the scanned stretch of digits means for the tokens ahead. */
  lemma LexAt(b: seq<byte>, start: nat, end: nat)
    requires start <= end <= |b| && (start < |b| ==> !IsSpace(b[start]))
    requires forall k :: start <= k < end ==> IsDigit(b[k])
    requires end < |b| ==> !IsDigit(b[end])
    ensures start < end ==> Lex(b[start..]) == [Num(b[start..end])] + Lex(b[end..])
    ensures start == end ==> Lex(b[start..]) == [] || Lex(b[start..])[0].Sym?
  {
    assert b[start..] == b[start..end] + b[end..];
    RunLengthOfLiteral(b[start..end], b[end..]);
    assert b[start..][..end - start] == b[start..end] && b[start..][end - start..] == b[end..];
  }

  method EvalMath<N>(ar: Arith<N>, input: seq<byte>) returns (r: Option<N>)
    ensures r == EvalText(ar, input)
  {
    hide Lex, Parse, Eval;
    if |input| > MAX_EXPRESSION_BYTES {
      return None;
    }
    var p := new Parser(ar, input);
    assert input[0..] == input;
    var v := p.Expr();
    if v.None? {
      return None;
    }
    p.Ws();
    AllRead(input, p.i);
    return if p.i == |input| && ar.isFinite(v.value) then v else None;
  }

  lemma AllRead(b: seq<byte>, i: nat)
    requires i <= |b| && (i < |b| ==> !IsSpace(b[i]))
    ensures Lex(b[i..]) == [] <==> i == |b|
  {
  }
}
