/** Incremental UTF-8 decoding of a byte stream that the network cuts at arbitrary places. */
module Utf8 {

  type byte = b: int | 0 <= b < 256

  const REPLACEMENT: char := '\U{FFFD}'

  /** UTF8-tail of RFC 3629, section 4. */
  predicate Tail(b: byte) {
    0x80 <= b <= 0xBF
  }

  /** Exactly one well-formed character: the productions UTF8-1 to UTF8-4 of RFC 3629, section 4. */
  predicate WellFormed(s: seq<byte>) {
    match |s|
    case 1 => s[0] <= 0x7F
    case 2 => 0xC2 <= s[0] <= 0xDF && Tail(s[1])
    case 3 =>
      && Tail(s[2])
      && (|| (s[0] == 0xE0 && 0xA0 <= s[1] <= 0xBF) || (0xE1 <= s[0] <= 0xEC && Tail(s[1]))
          || (s[0] == 0xED && 0x80 <= s[1] <= 0x9F) || (0xEE <= s[0] <= 0xEF && Tail(s[1])))
    case 4 =>
      && Tail(s[2]) && Tail(s[3])
      && (|| (s[0] == 0xF0 && 0x90 <= s[1] <= 0xBF) || (0xF1 <= s[0] <= 0xF3 && Tail(s[1]))
          || (s[0] == 0xF4 && 0x80 <= s[1] <= 0x8F))
    case _ => false
  }

  /** `s` could still grow into a well-formed character. */
  ghost predicate ProperPrefix(s: seq<byte>) {
    0 < |s| && exists rest: seq<byte> :: 0 < |rest| && WellFormed(s + rest)
  }

  /** The scalar value of a well-formed character. */
  function Scalar(s: seq<byte>): (c: char)
    requires WellFormed(s)
  {
    var b := seq(|s|, i requires 0 <= i < |s| => s[i] as int);
    if |s| == 1 then b[0] as char
    else if |s| == 2 then ((b[0] - 0xC0) * 0x40 + (b[1] - 0x80)) as char
    else if |s| == 3 then ((b[0] - 0xE0) * 0x1000 + (b[1] - 0x80) * 0x40 + (b[2] - 0x80)) as char
    else ((b[0] - 0xF0) * 0x4_0000 + (b[1] - 0x80) * 0x1000 + (b[2] - 0x80) * 0x40 + (b[3] - 0x80)) as char
  }

  /** The bytes of one character. */
  function EncodeChar(c: char): (s: seq<byte>)
    ensures WellFormed(s) && Scalar(s) == c
  {
    var v := c as int;
    var v1 := v / 0x40;
    var v2 := v1 / 0x40;
    if v < 0x80 then [v]
    else if v < 0x800 then [0xC0 + v1, 0x80 + v % 0x40]
    else if v < 0x1_0000 then [0xE0 + v2, 0x80 + v1 % 0x40, 0x80 + v % 0x40]
    else [0xF0 + v2 / 0x40, 0x80 + v2 % 0x40, 0x80 + v1 % 0x40, 0x80 + v % 0x40]
  }

  function Encode(t: string): seq<byte> {
    if t == "" then [] else EncodeChar(t[0]) + Encode(t[1..])
  }

  /** What the validator behind `std::str::from_utf8` finds at the front of a non-empty buffer. */
  datatype Front =
    | Char(len: nat)
    | Bad(len: nat)      // error_len() == Some(len)
    | Incomplete         // error_len() == None

  function Width(lead: byte): nat {
    if lead <= 0x7F then 1
    else if 0xC2 <= lead <= 0xDF then 2
    else if 0xE0 <= lead <= 0xEF then 3
    else if 0xF0 <= lead <= 0xF4 then 4
    else 0
  }

  predicate SecondOk(lead: byte, b: byte) {
    if lead == 0xE0 then 0xA0 <= b <= 0xBF
    else if lead == 0xED then 0x80 <= b <= 0x9F
    else if lead == 0xF0 then 0x90 <= b <= 0xBF
    else if lead == 0xF4 then 0x80 <= b <= 0x8F
    else Tail(b)
  }

  function Classify(s: seq<byte>): (f: Front)
    requires s != []
    ensures !f.Incomplete? ==> 1 <= f.len <= |s|
    ensures f.Char? ==> WellFormed(s[..f.len])
  {
    var w := Width(s[0]);
    if w == 0 then Bad(1)
    else if w == 1 then Char(1)
    else if |s| == 1 then Incomplete
    else if !SecondOk(s[0], s[1]) then Bad(1)
    else if w == 2 then Char(2)
    else if |s| == 2 then Incomplete
    else if !Tail(s[2]) then Bad(2)
    else if w == 3 then Char(3)
    else if |s| == 3 then Incomplete
    else if !Tail(s[3]) then Bad(3)
    else Char(4)
  }

  /** A well-formed character is recognised whatever follows it. */
  lemma ClassifyChar(s: seq<byte>, rest: seq<byte>)
    requires WellFormed(s)
    ensures Classify(s + rest) == Char(|s|)
    ensures (s + rest)[..|s|] == s && (s + rest)[|s|..] == rest
  {
  }

  lemma IncompleteIsShort(s: seq<byte>)
    requires s != [] && Classify(s).Incomplete?
    ensures |s| <= 3
  {
  }

  lemma IncompleteCanGrow(s: seq<byte>)
    requires s != [] && Classify(s).Incomplete?
    ensures ProperPrefix(s)
  {
    var second: byte := if |s| > 1 then s[1] else if s[0] == 0xE0 then 0xA0 else if s[0] == 0xF0 then 0x90 else 0x80;
    var third: byte := if |s| > 2 then s[2] else 0x80;
    var whole: seq<byte> :=
      if Width(s[0]) == 2 then [s[0], second]
      else if Width(s[0]) == 3 then [s[0], second, third]
      else [s[0], second, third, 0x80];
    assert WellFormed(whole);
    assert s + whole[|s|..] == whole by {
      hide WellFormed;
    }
  }

  lemma GrowingIsIncomplete(s: seq<byte>)
    requires ProperPrefix(s)
    ensures Classify(s).Incomplete?
  {
    var rest: seq<byte> :| 0 < |rest| && WellFormed(s + rest);
    hide WellFormed, Classify;
    ClassifyChar(s + rest, []);
    assert s + rest + [] == s + rest;
    if !Classify(s).Incomplete? {
      ClassifyStable(s, rest);
    }
  }

  /** Decided fronts stay decided when more bytes arrive. */
  lemma ClassifyStable(s: seq<byte>, more: seq<byte>)
    requires s != [] && !Classify(s).Incomplete?
    ensures Classify(s + more) == Classify(s)
  {
  }

  /** An ill-formed front is seen as soon as one byte more than its maximal subpart is there; that one can still grow. */
  lemma BadFront(s: seq<byte>, n: nat)
    requires s != [] && Classify(s).Bad? && Classify(s).len < n <= |s|
    ensures Classify(s[..n]) == Classify(s)
  {
  }

  lemma BadSubpart(s: seq<byte>)
    requires s != [] && Classify(s).Bad? && Classify(s).len > 1
    ensures Classify(s[..Classify(s).len]).Incomplete?
  {
  }

  lemma CharAtFront(s: seq<byte>, n: nat)
    requires 1 <= n <= |s| && WellFormed(s[..n])
    ensures Classify(s) == Char(n)
  {
    hide WellFormed, Classify;
    ClassifyChar(s[..n], s[n..]);
    assert s[..n] + s[n..] == s;
  }

  /**
   * The verdict in the terms of the Unicode Standard, section 3.9. An ill-formed front is cut at its maximal subpart:
   * one byte, or the longest stretch that starts some well-formed character but cannot be completed here.
   */
  lemma ClassifyMeaning(s: seq<byte>)
    requires s != []
    ensures Classify(s).Incomplete? <==> ProperPrefix(s)
    ensures Classify(s).Incomplete? ==> |s| <= 3
    ensures Classify(s).Char? <==> exists n :: 1 <= n <= |s| && WellFormed(s[..n])
    ensures Classify(s).Bad? ==>
              && (Classify(s).len == 1 || ProperPrefix(s[..Classify(s).len]))
              && forall n :: Classify(s).len < n <= |s| ==> !ProperPrefix(s[..n]) && !WellFormed(s[..n])
  {
    hide WellFormed, Classify, ProperPrefix;
    if ProperPrefix(s) {
      GrowingIsIncomplete(s);
    }
    if Classify(s).Incomplete? {
      IncompleteCanGrow(s);
      IncompleteIsShort(s);
    }
    forall n | 1 <= n <= |s| && WellFormed(s[..n])
      ensures Classify(s) == Char(n)
    {
      CharAtFront(s, n);
    }
    if Classify(s).Bad? {
      var k := Classify(s).len;
      if k > 1 {
        BadSubpart(s);
        IncompleteCanGrow(s[..k]);
      }
      forall n | k < n <= |s|
        ensures !ProperPrefix(s[..n])
      {
        BadFront(s, n);
        if ProperPrefix(s[..n]) {
          GrowingIsIncomplete(s[..n]);
        }
      }
    }
  }

  /** The character a decided front stands for: its own, or U+FFFD for an ill-formed maximal subpart. */
  function Symbol(s: seq<byte>): char
    requires s != [] && !Classify(s).Incomplete?
  {
    var f := Classify(s);
    if f.Char? then Scalar(s[..f.len]) else REPLACEMENT
  }

  lemma SymbolStable(s: seq<byte>, more: seq<byte>)
    requires s != [] && !Classify(s).Incomplete?
    ensures Classify(s + more) == Classify(s) && Symbol(s + more) == Symbol(s)
  {
    ClassifyStable(s, more);
    assert (s + more)[..Classify(s).len] == s[..Classify(s).len];
  }

  lemma BadSymbol(s: seq<byte>)
    requires s != [] && Classify(s).Bad?
    ensures Symbol(s) == REPLACEMENT
  {
  }

  datatype Decoded = Decoded(text: string, rest: seq<byte>)

  /** Reference decoder: one front after the other; an unfinished character at the very end is left over. */
  function Lossy(s: seq<byte>): Decoded {
    if s == [] || Classify(s).Incomplete? then Decoded("", s)
    else
      var r := Lossy(s[Classify(s).len..]);
      Decoded([Symbol(s)] + r.text, r.rest)
  }

  /** One front at a time: the only facts about `Lossy` that the proofs below need. */
  lemma LossyUnfold(s: seq<byte>)
    ensures s == [] || Classify(s).Incomplete? ==> Lossy(s) == Decoded("", s)
    ensures s != [] && !Classify(s).Incomplete? ==>
              Lossy(s) == Decoded([Symbol(s)] + Lossy(s[Classify(s).len..]).text, Lossy(s[Classify(s).len..]).rest)
  {
  }

  /** What is left over is a suffix of at most three bytes that can still become a character. */
  lemma {:induction false} LeftoverMeaning(s: seq<byte>)
    ensures var r := Lossy(s).rest; |r| <= |s| && r == s[|s| - |r|..] && |r| <= 3 && (r != [] ==> ProperPrefix(r))
  {
    hide WellFormed, Scalar, Classify, ProperPrefix;
    if s != [] {
      ClassifyMeaning(s);
      if !Classify(s).Incomplete? {
        LeftoverMeaning(s[Classify(s).len..]);
      }
    }
  }

  /** Well-formed text is decoded to itself, with nothing left over. */
  lemma {:induction false} LossyInvertsEncode(t: string)
    ensures Lossy(Encode(t)) == Decoded(t, [])
  {
    hide WellFormed, Scalar, EncodeChar, Classify;
    if t != "" {
      var first, rest := EncodeChar(t[0]), Encode(t[1..]);
      LossyInvertsEncode(t[1..]);
      ClassifyChar(first, rest);
      assert Symbol(first + rest) == t[0];
      assert [t[0]] + t[1..] == t;
    }
  }

  /** Decoding in two pieces, with the leftover carried over, is decoding in one. */
  lemma {:induction false} LossySplit(a: seq<byte>, b: seq<byte>)
    ensures var r := Lossy(Lossy(a).rest + b); Lossy(a + b) == Decoded(Lossy(a).text + r.text, r.rest)
  {
    hide *;
    LossyUnfold(a);
    if a != [] && !Classify(a).Incomplete? {
      var n := Classify(a).len;
      assert (a + b)[n..] == a[n..] + b;
      SymbolStable(a, b);
      LossyUnfold(a + b);
      LossySplit(a[n..], b);
    }
  }

  function Concat(chunks: seq<seq<byte>>): seq<byte> {
    if chunks == [] then [] else chunks[0] + Concat(chunks[1..])
  }

  /** Feeding the chunks one after the other: all outputs joined, and the final leftover. */
  function Feed(pending: seq<byte>, chunks: seq<seq<byte>>): Decoded
    decreases |chunks|
  {
    if chunks == [] then Decoded("", pending)
    else
      var first := Lossy(pending + chunks[0]);
      var later := Feed(first.rest, chunks[1..]);
      Decoded(first.text + later.text, later.rest)
  }

  /** Network chunk boundaries, empty chunks included, do not change what is decoded or what is left over. */
  lemma {:induction false} ChunkIndependence(pending: seq<byte>, chunks: seq<seq<byte>>)
    requires pending != [] ==> Classify(pending).Incomplete?
    ensures Feed(pending, chunks) == Lossy(pending + Concat(chunks))
    decreases |chunks|
  {
    hide WellFormed, Scalar, Classify, ProperPrefix, Lossy;
    LossyUnfold(pending);
    if chunks == [] {
      assert pending + Concat(chunks) == pending;
    } else {
      var all := pending + chunks[0];
      LeftoverMeaning(all);
      LossySplit(all, Concat(chunks[1..]));
      assert pending + Concat(chunks) == all + Concat(chunks[1..]);
      var first := Lossy(all);
      if first.rest != [] {
        ClassifyMeaning(first.rest);
      }
      ChunkIndependence(first.rest, chunks[1..]);
    }
  }

  /** `std::str::from_utf8`: everything valid, or where validity ends and how long the bad sequence is. */
  datatype Validity = Valid | Invalid(upTo: nat, front: Front)

  function FromUtf8(s: seq<byte>): (v: Validity)
    ensures v.Invalid? ==> v.upTo < |s| && v.front == Classify(s[v.upTo..]) && !v.front.Char?
  {
    hide Classify, WellFormed;
    if s == [] then Valid
    else
      var f := Classify(s);
      if !f.Char? then assert s[0..] == s; Invalid(0, f)
      else
        match FromUtf8(s[f.len..])
        case Valid => Valid
        case Invalid(u, g) => assert s[f.len..][u..] == s[f.len + u..]; Invalid(f.len + u, g)
  }

  /** A valid buffer decodes without a leftover. */
  lemma {:induction false} ValidLeavesNothing(s: seq<byte>)
    requires FromUtf8(s).Valid?
    ensures Lossy(s).rest == []
  {
    hide WellFormed, Scalar, Classify;
    if s != [] {
      ValidLeavesNothing(s[Classify(s).len..]);
    }
  }

  /** What stands before the reported error is valid. */
  lemma {:induction false} ValidUpTo(s: seq<byte>)
    requires FromUtf8(s).Invalid?
    ensures FromUtf8(s[..FromUtf8(s).upTo]).Valid?
  {
    hide WellFormed, Scalar, Classify, Lossy;
    if Classify(s).Char? {
      var n, u := Classify(s).len, FromUtf8(s).upTo;
      ValidUpTo(s[n..]);
      ClassifyChar(s[..n], s[n..][..u - n]);
      assert s[..u] == s[..n] + s[n..][..u - n];
    }
  }

  /** The decoder's loop body: the valid part goes out, the error after it is next. */
  lemma LossyAtError(s: seq<byte>)
    requires FromUtf8(s).Invalid?
    ensures var u := FromUtf8(s).upTo;
            var later := Lossy(s[u..]);
            Lossy(s) == Decoded(Lossy(s[..u]).text + later.text, later.rest)
  {
    hide *;
    var u := FromUtf8(s).upTo;
    ValidUpTo(s);
    ValidLeavesNothing(s[..u]);
    LossySplit(s[..u], s[u..]);
    assert s[..u] + s[u..] == s && [] + s[u..] == s[u..];
  }

  /** The state `decode_utf8_chunk` keeps between chunks. */
  class Utf8Decoder {
    var pending: seq<byte>

    /** What is buffered is always the start of a character that can still be completed. */
    ghost predicate Valid()
      reads this
    {
      |pending| <= 3 && (pending != [] ==> ProperPrefix(pending))
    }

    constructor ()
      ensures Valid() && pending == []
    {
      pending := [];
    }

    method DecodeChunk(chunk: seq<byte>) returns (out: string)
      requires Valid()
      modifies this
      ensures Valid()
      ensures Decoded(out, pending) == Lossy(old(pending) + chunk)
    {
      hide Lossy, FromUtf8, Classify, Symbol, WellFormed, ProperPrefix;
      ghost var all := pending + chunk;
      if pending == [] && FromUtf8(chunk).Valid? {
        ValidLeavesNothing(chunk);
        assert all == chunk;
        return Lossy(chunk).text;
      }
      pending := pending + chunk;
      out := "";
      assert "" + Lossy(pending).text == Lossy(pending).text;
      while true
        invariant Lossy(all) == Decoded(out + Lossy(pending).text, Lossy(pending).rest)
        decreases |pending|
      {
        match FromUtf8(pending) {
          case Valid =>
            ValidLeavesNothing(pending);
            out := out + Lossy(pending).text;
            pending := [];
            break;
          case Invalid(upTo, front) =>
            LossyAtError(pending);
            LossyUnfold(pending[upTo..]);
            out := out + Lossy(pending[..upTo]).text;
            if front.Incomplete? {
              pending := pending[upTo..];
              break;
            }
            BadSymbol(pending[upTo..]);
            out := out + [REPLACEMENT];
            assert pending[upTo + front.len..] == pending[upTo..][front.len..];
            pending := pending[upTo + front.len..];
        }
      }
      LeftoverMeaning(all);
    }
  }
}
