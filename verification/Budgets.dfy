/** The call budget and the repeated-call guard of a run. */
module Budgets {
  import opened Text
  import opened Json
  import opened Protocol
  import opened Tools

  const U32_MAX: nat := 0xFFFF_FFFF

  type u32 = n: nat | n <= 0xFFFF_FFFF

  /** `as u32` on a length. */
  function Truncate(n: nat): u32 {
    n % 0x1_0000_0000
  }

  function SaturatingAdd(a: u32, b: u32): u32 {
    if a + b <= U32_MAX then a + b else U32_MAX
  }

  /** The counter after these rounds of calls. */
  function Charge(batches: seq<nat>): u32 {
    if batches == [] then 0
    else SaturatingAdd(Charge(batches[..|batches| - 1]), Truncate(batches[|batches| - 1]))
  }

  function Sum(batches: seq<nat>): nat {
    if batches == [] then 0 else Sum(batches[..|batches| - 1]) + batches[|batches| - 1]
  }

  lemma BatchSnoc(batches: seq<nat>, n: nat)
    ensures Charge(batches + [n]) == SaturatingAdd(Charge(batches), Truncate(n))
    ensures Sum(batches + [n]) == Sum(batches) + n
  {
    assert (batches + [n])[..|batches|] == batches;
  }

  /** The counter is the number of calls exactly when that number fits in 32 bits. */
  lemma {:induction false} ChargeIsCount(batches: seq<nat>)
    ensures Charge(batches) == Sum(batches) <==> Sum(batches) <= U32_MAX
    ensures Charge(batches) <= Sum(batches)
  {
    if batches != [] {
      ChargeIsCount(batches[..|batches| - 1]);
    }
  }

  /** A single round of 2^32 calls is charged nothing, because the length is cut to 32 bits first. */
  lemma OversizedRoundIsFree()
    ensures Charge([0x1_0000_0000]) == 0 && Sum([0x1_0000_0000]) == 0x1_0000_0000
  {
    BatchSnoc([], 0x1_0000_0000);
    assert [] + [0x1_0000_0000] == [0x1_0000_0000];
  }

  function CallText(call: ToolCall): string {
    call.name + ":" + Serialize(call.arguments)
  }

  /** `call_signature`. */
  function Signature(calls: seq<ToolCall>): string {
    if calls == [] then ""
    else if |calls| == 1 then CallText(calls[0])
    else CallText(calls[0]) + "\n" + Signature(calls[1..])
  }

  lemma SignatureEmpty(calls: seq<ToolCall>)
    ensures Signature(calls) == "" <==> calls == []
  {
  }

  /** How `identical_rounds` runs on: one more for a repeated non-empty signature, back to one otherwise. */
  function Streak(signatures: seq<string>): nat {
    var n := |signatures|;
    if n == 0 then 0
    else if signatures[n - 1] != "" && n > 1 && signatures[n - 2] == signatures[n - 1] then Streak(signatures[..n - 1]) + 1
    else 1
  }

  /** The counter is the length of the current run of equal non-empty signatures, and that run cannot be longer. */
  lemma {:induction false} StreakMeaning(signatures: seq<string>)
    requires signatures != []
    ensures var n, k, last := |signatures|, Streak(signatures), signatures[|signatures| - 1];
            && 1 <= k <= n
            && (forall i :: n - k <= i < n ==> signatures[i] == last)
            && (last != "" ==> k == n || signatures[n - k - 1] != last)
            && (last == "" ==> k == 1)
  {
    var n := |signatures|;
    if signatures[n - 1] != "" && n > 1 && signatures[n - 2] == signatures[n - 1] {
      var before := signatures[..n - 1];
      StreakMeaning(before);
      assert forall i :: 0 <= i < n - 1 ==> before[i] == signatures[i];
    }
  }

  datatype Ask = Ask(name: string, arguments: Json)

  /** What a list of calls asks for; the ids do not matter to a signature. */
  function Asks(calls: seq<ToolCall>): (asks: seq<Ask>)
    ensures |asks| == |calls| && forall i :: 0 <= i < |calls| ==> asks[i] == Ask(calls[i].name, calls[i].arguments)
  {
    seq(|calls|, i requires 0 <= i < |calls| => Ask(calls[i].name, calls[i].arguments))
  }

  /** A name cannot imitate the end of one call and the start of another: for that it takes a colon and a line feed. */
  predicate Separable(name: string) {
    ':' !in name || '\n' !in name
  }

  predicate Readable(v: Json) {
    NumbersOk(v) && Nesting(v) < MAX_DEPTH
  }

  predicate Legible(calls: seq<ToolCall>) {
    forall i :: 0 <= i < |calls| ==> Separable(calls[i].name) && Readable(calls[i].arguments)
  }

  /** A text can be cut at the first such character in one way. */
  lemma CutAtFirst(a: string, b: string, c: char, s: string, t: string)
    requires c !in a && c !in b && a + [c] + s == b + [c] + t
    ensures a == b && s == t
  {
    var whole := a + [c] + s;
    assert whole[|a|] == c && whole[|b|] == c;
    assert forall i :: 0 <= i < |a| ==> whole[i] == a[i];
    assert forall i :: 0 <= i < |b| ==> whole[i] == b[i];
    assert |a| == |b|;
    assert a == whole[..|a|] && b == whole[..|b|] && s == whole[|a| + 1..] && t == whole[|b| + 1..];
  }

  /** What follows the first line of a signature, with the line feed in front of it. */
  function Later(calls: seq<ToolCall>): string
    requires calls != []
  {
    if |calls| == 1 then "" else "\n" + Signature(calls[1..])
  }

  /** What stands behind the first call's name and colon. */
  function Behind(calls: seq<ToolCall>): string
    requires calls != []
  {
    Serialize(calls[0].arguments) + Later(calls)
  }

  lemma SignatureFront(calls: seq<ToolCall>)
    requires calls != []
    ensures Signature(calls) == CallText(calls[0]) + Later(calls)
    ensures Signature(calls) == calls[0].name + ":" + Behind(calls)
  {
    hide Serialize;
  }

  lemma {:induction false} SameAsks(a: seq<ToolCall>, b: seq<ToolCall>)
    requires Asks(a) == Asks(b)
    ensures Signature(a) == Signature(b)
  {
    hide Serialize;
    assert |a| == |Asks(a)| == |Asks(b)| == |b|;
    if a != [] {
      assert Asks(a)[0] == Asks(b)[0];
      forall i | 0 <= i < |a| - 1
        ensures Asks(a[1..])[i] == Asks(b[1..])[i]
      {
        assert Asks(a)[i + 1] == Asks(b)[i + 1];
      }
      SameAsks(a[1..], b[1..]);
    }
  }

  lemma {:induction false} SameSignature(a: seq<ToolCall>, b: seq<ToolCall>)
    requires Legible(a) && Legible(b) && Signature(a) == Signature(b)
    ensures Asks(a) == Asks(b)
    decreases |a|
  {
    hide Serialize, Signature, Separable, Readable;
    SignatureEmpty(a);
    SignatureEmpty(b);
    if a != [] {
      SameFirst(a, b);
      if |a| > 1 {
        SameSignature(a[1..], b[1..]);
      }
      forall i | 0 <= i < |a|
        ensures |a| == |b| && Asks(a)[i] == Asks(b)[i]
      {
        if i > 0 {
          assert Asks(a)[i] == Asks(a[1..])[i - 1] && Asks(b)[i] == Asks(b[1..])[i - 1];
        }
      }
    }
  }

  /** The first calls are the same and what follows them is. */
  predicate SameStart(a: seq<ToolCall>, b: seq<ToolCall>)
    requires a != [] && b != []
  {
    && a[0].name == b[0].name && a[0].arguments == b[0].arguments
    && (|a| == 1 <==> |b| == 1)
    && (|a| > 1 ==> Signature(a[1..]) == Signature(b[1..]))
  }

  lemma SameFirst(a: seq<ToolCall>, b: seq<ToolCall>)
    requires a != [] && b != [] && Legible(a) && Legible(b) && Signature(a) == Signature(b)
    ensures SameStart(a, b)
  {
    hide Signature, SameStart, Readable;
    if ':' !in a[0].name && ':' !in b[0].name {
      SameWithoutColons(a, b);
    } else if '\n' !in a[0].name && '\n' !in b[0].name {
      SameWithoutLineFeeds(a, b);
    } else if ':' !in a[0].name {
      NotMixed(a, b);
    } else {
      NotMixed(b, a);
    }
  }

  lemma SameWithoutColons(a: seq<ToolCall>, b: seq<ToolCall>)
    requires a != [] && b != [] && Signature(a) == Signature(b)
    requires Readable(a[0].arguments) && Readable(b[0].arguments)
    requires ':' !in a[0].name && ':' !in b[0].name
    ensures SameStart(a, b)
  {
    hide Serialize, Signature, Later;
    SerializeOneLine(a[0].arguments);
    SerializeOneLine(b[0].arguments);
    SignatureFront(a);
    SignatureFront(b);
    CutAtFirst(a[0].name, b[0].name, ':', Behind(a), Behind(b));
    SameLine(Serialize(a[0].arguments), Serialize(b[0].arguments), a, b, Behind(a));
    SerializeInjective(a[0].arguments, b[0].arguments);
  }

  lemma SameWithoutLineFeeds(a: seq<ToolCall>, b: seq<ToolCall>)
    requires a != [] && b != [] && Signature(a) == Signature(b)
    requires Readable(a[0].arguments) && Readable(b[0].arguments)
    requires '\n' !in a[0].name && '\n' !in b[0].name
    ensures SameStart(a, b)
  {
    hide Serialize, Signature, Later;
    SerializeOneLine(a[0].arguments);
    SerializeOneLine(b[0].arguments);
    SignatureFront(a);
    SignatureFront(b);
    SameLine(CallText(a[0]), CallText(b[0]), a, b, Signature(a));
    SameCall(a[0], b[0]);
  }

  lemma SerializeOneLine(value: Json)
    requires NumbersOk(value)
    ensures '\n' !in Serialize(value)
  {
    WriteOneLine(value, false);
  }

  /** The first line feed behind text on one line, if there is one, starts what is said of the later calls. */
  lemma SameLine(x: string, y: string, a: seq<ToolCall>, b: seq<ToolCall>, whole: string)
    requires a != [] && b != [] && '\n' !in x && '\n' !in y
    requires whole == x + Later(a) == y + Later(b)
    ensures x == y && (|a| == 1 <==> |b| == 1)
    ensures |a| > 1 ==> Signature(a[1..]) == Signature(b[1..])
  {
    hide Signature;
    LineFeedIn(x, a);
    LineFeedIn(y, b);
    if |a| > 1 {
      assert whole == x + ['\n'] + Signature(a[1..]) && whole == y + ['\n'] + Signature(b[1..]);
      CutAtFirst(x, y, '\n', Signature(a[1..]), Signature(b[1..]));
    } else {
      assert whole == x && whole == y;
    }
  }

  lemma LineFeedIn(x: string, a: seq<ToolCall>)
    requires a != [] && '\n' !in x
    ensures '\n' in x + Later(a) <==> |a| > 1
  {
    hide Signature;
    if |a| > 1 {
      assert (x + Later(a))[|x|] == '\n';
    } else {
      assert x + Later(a) == x;
    }
  }

  /** Two calls that are written alike are alike: a longer name would leave one value's text behind a colon in the other's. */
  lemma SameCall(a: ToolCall, b: ToolCall)
    requires Readable(a.arguments) && Readable(b.arguments) && CallText(a) == CallText(b)
    ensures a.name == b.name && a.arguments == b.arguments
  {
    hide Serialize;
    if |a.name| < |b.name| {
      LongerName(a, b);
    } else if |b.name| < |a.name| {
      LongerName(b, a);
    } else {
      assert a.name == CallText(a)[..|a.name|] && b.name == CallText(b)[..|b.name|];
      assert Serialize(a.arguments) == CallText(a)[|a.name| + 1..];
      assert Serialize(b.arguments) == CallText(b)[|b.name| + 1..];
      SerializeInjective(a.arguments, b.arguments);
    }
  }

  lemma LongerName(a: ToolCall, b: ToolCall)
    requires Readable(a.arguments) && Readable(b.arguments) && CallText(a) == CallText(b)
    ensures |a.name| >= |b.name|
  {
    hide Serialize;
    if |a.name| < |b.name| {
      var front := b.name[|a.name| + 1..];
      assert Serialize(a.arguments) == CallText(b)[|a.name| + 1..] == front + ":" + Serialize(b.arguments);
      NoValueBehindColon(a.arguments, front, b.arguments);
    }
  }

  /** A first name without a colon but with a line feed is not imitated by one with a colon and no line feed. */
  lemma NotMixed(a: seq<ToolCall>, b: seq<ToolCall>)
    requires a != [] && b != [] && Signature(a) == Signature(b)
    requires ':' !in a[0].name && '\n' !in b[0].name
    ensures '\n' !in a[0].name || ':' !in b[0].name
  {
    hide Serialize, Signature;
    SignatureFront(a);
    SignatureFront(b);
    var whole, n, m := Signature(a), |a[0].name|, |b[0].name|;
    assert whole[..n] == a[0].name && whole[..m] == b[0].name && whole[n] == ':' && whole[m] == ':';
  }

  /**
   * Between lists in which no name holds both a colon and a line feed, signatures are equal exactly when the lists ask for
   * the same: the guard then counts repeated requests and nothing else.
   */
  lemma SignatureMeaning(a: seq<ToolCall>, b: seq<ToolCall>)
    requires Legible(a) && Legible(b)
    ensures Signature(a) == Signature(b) <==> Asks(a) == Asks(b)
  {
    hide Signature, Asks, Legible;
    if Signature(a) == Signature(b) {
      SameSignature(a, b);
    }
    if Asks(a) == Asks(b) {
      SameAsks(a, b);
    }
  }

  /** Whatever a registry accepts as a name is safe in this way. */
  lemma RegisteredAreSeparable(registry: Registry, name: string, entry: Entry)
    requires Register(registry, name, entry).Some?
    ensures Separable(name) && ':' !in name && '\n' !in name
  {
    forall i | 0 <= i < |name|
      ensures name[i] != ':' && name[i] != '\n'
    {
      assert NameChar(name[i]);
    }
  }

  const TWO_CALLS := [
    ToolCall("1", "a", Num("1"), Transport.Native),
    ToolCall("2", "b", Num("2"), Transport.Native)
  ]

  const ONE_CALL := [ToolCall("1", "a:1\nb", Num("2"), Transport.Native)]

  /** With a colon and a line feed in its name one call has the signature of two. */
  lemma SignatureCollision()
    ensures Signature(TWO_CALLS) == Signature(ONE_CALL) && |TWO_CALLS| == 2 && |ONE_CALL| == 1
    ensures Legible(TWO_CALLS) && !Legible(ONE_CALL)
  {
    var two, one := TWO_CALLS, ONE_CALL;
    assert Signature(two) == CallText(two[0]) + "\n" + Signature([two[1]]) by {
      assert two[1..] == [two[1]];
    }
    assert CallText(two[0]) == "a:1" && CallText(two[1]) == "b:2" && CallText(one[0]) == "a:1\nb:2";
    assert one[0].name[1] == ':';
  }
}
