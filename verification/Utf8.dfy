/** Bytes as text: the streaming decoder of terminal.rs, over the byte sequences of section 4 of
    RFC 3629. Text is kept as its bytes. */
module Utf8 {
  type Byte = b: int | 0 <= b < 256

  predicate Cont(b: Byte) { 0x80 <= b < 0xC0 }

  /** How long the character that starts with this byte is; 0 when none does. */
  function Length(b: Byte): nat {
    if b < 0x80 then 1
    else if 0xC2 <= b < 0xE0 then 2
    else if 0xE0 <= b < 0xF0 then 3
    else if 0xF0 <= b < 0xF5 then 4
    else 0
  }

  /** Whether `b` can follow the first byte `a`: no overlong forms, surrogates, or characters past
      U+10FFFF. */
  predicate Second(a: Byte, b: Byte) {
    if a == 0xE0 then 0xA0 <= b < 0xC0
    else if a == 0xED then 0x80 <= b < 0xA0
    else if a == 0xF0 then 0x90 <= b < 0xC0
    else if a == 0xF4 then 0x80 <= b < 0x90
    else Cont(b)
  }

  predicate Follows(bs: seq<Byte>, i: nat)
    requires 0 < i < |bs|
  {
    if i == 1 then Second(bs[0], bs[1]) else Cont(bs[i])
  }

  /** What stands at the front of some bytes: a whole character of `n` bytes, the start of one that
      the end cuts off, or `n` bytes that are no character. */
  datatype Unit = Whole(n: nat) | Partial | Invalid(n: nat)

  /** The unit, when its bytes from `i` on are still to be looked at. */
  function UnitFrom(bs: seq<Byte>, i: nat): (u: Unit)
    requires bs != [] && 1 <= i <= Length(bs[0]) && i <= |bs|
    ensures u.Whole? ==> i <= u.n == Length(bs[0]) <= |bs|
    ensures u.Invalid? ==> i <= u.n < |bs| && u.n < Length(bs[0])
    ensures u.Partial? ==> |bs| < Length(bs[0])
    decreases Length(bs[0]) - i
  {
    if i == Length(bs[0]) then Whole(i)
    else if i == |bs| then Partial
    else if Follows(bs, i) then UnitFrom(bs, i + 1)
    else Invalid(i)
  }

  function UnitOf(bs: seq<Byte>): (u: Unit)
    requires bs != []
    ensures u.Whole? ==> 1 <= u.n <= |bs|
    ensures u.Invalid? ==> 1 <= u.n <= |bs|
    ensures u.Partial? ==> |bs| <= 3
  {
    if Length(bs[0]) == 0 then Invalid(1) else UnitFrom(bs, 1)
  }

  /** U+FFFD */
  const REPLACEMENT: seq<Byte> := [0xEF, 0xBF, 0xBD]

  /** How many bytes the unit at the front takes. */
  function Size(bs: seq<Byte>): (n: nat)
    requires bs != []
    ensures 1 <= n <= |bs|
  {
    match UnitOf(bs)
    case Whole(n) => n
    case Invalid(n) => n
    case Partial => |bs|
  }

  function Shown(bs: seq<Byte>): seq<Byte>
    requires bs != []
  {
    if UnitOf(bs).Whole? then bs[..Size(bs)] else REPLACEMENT
  }

  /** `String::from_utf8_lossy` */
  function Lossy(bs: seq<Byte>): seq<Byte>
    decreases |bs|
  {
    if bs == [] then [] else Shown(bs) + Lossy(bs[Size(bs)..])
  }

  /** `str::from_utf8`: how much is text, and what stops it. */
  datatype Verdict = AllText | CutOff(validUpTo: nat) | NotText

  function Check(bs: seq<Byte>): (v: Verdict)
    ensures v.CutOff? ==> v.validUpTo < |bs| <= v.validUpTo + 3
    decreases |bs|
  {
    if bs == [] then AllText
    else match UnitOf(bs)
      case Whole(n) =>
        (match Check(bs[n..])
         case CutOff(k) => CutOff(n + k)
         case v => v)
      case Invalid(_) => NotText
      case Partial => CutOff(0)
  }

  /** How much of the buffer is decoded now: all of it, but for a character that the end cuts off. */
  function Ready(bs: seq<Byte>): (n: nat)
    ensures n <= |bs| <= n + 3 || n == |bs|
  {
    match Check(bs) { case CutOff(k) => k case _ => |bs| }
  }

  function Concat(chunks: seq<seq<Byte>>): seq<Byte> {
    if chunks == [] then [] else chunks[0] + Concat(chunks[1..])
  }

  /** What the pump appends, in all, for these reads and this carry. */
  function Pumped(carry: seq<Byte>, chunks: seq<seq<Byte>>): seq<Byte>
    decreases |chunks|
  {
    if chunks == [] then Lossy(carry)
    else
      var buffer := carry + chunks[0];
      Lossy(buffer[..Ready(buffer)]) + Pumped(buffer[Ready(buffer)..], chunks[1..])
  }

  // ----- Units and what comes after them -----

  /** More bytes change only what was cut off. */
  lemma {:induction false} MoreFrom(a: seq<Byte>, b: seq<Byte>, i: nat)
    requires a != [] && 1 <= i <= Length(a[0]) && i <= |a| && !UnitFrom(a, i).Partial?
    ensures UnitFrom(a + b, i) == UnitFrom(a, i)
    decreases Length(a[0]) - i
  {
    if i < Length(a[0]) {
      assert (a + b)[i] == a[i] && (a + b)[1] == a[1];
      if Follows(a, i) {
        MoreFrom(a, b, i + 1);
      }
    }
  }

  lemma MoreUnit(a: seq<Byte>, b: seq<Byte>)
    requires a != [] && !UnitOf(a).Partial?
    ensures UnitOf(a + b) == UnitOf(a)
  {
    if Length(a[0]) != 0 {
      MoreFrom(a, b, 1);
    }
  }

  /** A character that was cut off was cut off everywhere before, too: its bytes so far fit. */
  lemma {:induction false} CutFrom(a: seq<Byte>, b: seq<Byte>, i: nat)
    requires a != [] && 1 <= i <= Length(a[0]) && i <= |a| && UnitFrom(a, i).Partial?
    ensures UnitFrom(a + b, i).Whole? || UnitFrom(a + b, i).Partial? || UnitFrom(a + b, i).n >= |a|
    decreases Length(a[0]) - i
  {
    if i < |a| {
      assert (a + b)[i] == a[i] && (a + b)[1] == a[1];
      CutFrom(a, b, i + 1);
    }
  }

  lemma CutUnit(a: seq<Byte>, b: seq<Byte>)
    requires a != [] && UnitOf(a).Partial?
    ensures match UnitOf(a + b) case Whole(n) => n > |a| case Invalid(n) => n >= |a| case Partial => true
  {
    CutFrom(a, b, 1);
  }

  // ----- Streams that chunking cannot hurt -----

  /** Every unit is one byte. */
  predicate Single(bs: seq<Byte>)
    decreases |bs|
  {
    bs == [] || (Size(bs) == 1 && Single(bs[1..]))
  }

  /** After bytes that are no character, every unit is one byte. */
  predicate Tame(bs: seq<Byte>)
    decreases |bs|
  {
    bs == [] || if UnitOf(bs).Invalid? then Single(bs[Size(bs)..]) else Tame(bs[Size(bs)..])
  }

  lemma {:induction false} SingleIsTame(bs: seq<Byte>)
    requires Single(bs)
    ensures Tame(bs)
    decreases |bs|
  {
    if bs != [] {
      SingleIsTame(bs[1..]);
    }
  }

  /** Text, whole or cut off at the end, is tame. */
  lemma {:induction false} TextIsTame(bs: seq<Byte>)
    requires !Check(bs).NotText?
    ensures Tame(bs)
    decreases |bs|
  {
    if bs != [] && UnitOf(bs).Whole? {
      TextIsTame(bs[Size(bs)..]);
    }
  }

  lemma {:induction false} TextStays(bs: seq<Byte>)
    requires Check(bs).AllText?
    ensures Lossy(bs) == bs
    decreases |bs|
  {
    if bs != [] {
      TextStays(bs[Size(bs)..]);
    }
  }

  lemma Shift(a: seq<Byte>, b: seq<Byte>, n: nat)
    requires n <= |a|
    ensures (a + b)[..n] == a[..n] && (a + b)[n..] == a[n..] + b
  {
  }

  /** What stands whole at the front does so with more behind it, and decodes the same. */
  lemma MoreBehind(a: seq<Byte>, b: seq<Byte>)
    requires a != [] && !UnitOf(a).Partial?
    ensures UnitOf(a + b) == UnitOf(a) && Size(a + b) == Size(a) && Shown(a + b) == Shown(a)
    ensures (a + b)[Size(a)..] == a[Size(a)..] + b
  {
    MoreUnit(a, b);
    Shift(a, b, Size(a));
  }

  /** Decoding the rest apart decodes all apart. */
  lemma LossyApart(a: seq<Byte>, b: seq<Byte>)
    requires a != [] && !UnitOf(a).Partial?
    requires Lossy(a[Size(a)..] + b) == Lossy(a[Size(a)..]) + Lossy(b)
    ensures Lossy(a + b) == Lossy(a) + Lossy(b)
  {
    hide UnitOf;
    MoreBehind(a, b);
    Regroup(Shown(a), Lossy(a[Size(a)..]), Lossy(b));
  }

  lemma Regroup(a: seq<Byte>, b: seq<Byte>, c: seq<Byte>)
    ensures a + (b + c) == (a + b) + c
  {
  }

  /** Text in front decodes by itself. */
  lemma {:induction false} AfterText(a: seq<Byte>, b: seq<Byte>)
    requires Check(a).AllText?
    ensures Lossy(a + b) == Lossy(a) + Lossy(b)
    decreases |a|
  {
    hide Lossy;
    if a == [] {
      assert a + b == b;
      NothingShown();
    } else {
      AfterText(a[Size(a)..], b);
      LossyApart(a, b);
    }
  }

  lemma NothingShown()
    ensures Lossy([]) == [] && forall b: seq<Byte> :: [] + b == b
  {
  }

  lemma {:induction false} TameAfterText(a: seq<Byte>, b: seq<Byte>)
    requires Check(a).AllText?
    ensures Tame(a + b) <==> Tame(b)
    decreases |a|
  {
    if a == [] {
      assert a + b == b;
    } else {
      TameAfterText(a[Size(a)..], b);
      MoreBehind(a, b);
    }
  }

  /** When every unit is one byte, a cut anywhere falls between units. */
  lemma {:induction false} CutSingle(a: seq<Byte>, b: seq<Byte>)
    requires Single(a + b)
    ensures Lossy(a + b) == Lossy(a) + Lossy(b) && Single(b)
    decreases |a|
  {
    hide Lossy;
    if a == [] {
      assert a + b == b;
      NothingShown();
    } else if UnitOf(a).Partial? {
      CutLast(a, b);
    } else {
      MoreBehind(a, b);
      CutSingle(a[1..], b);
      LossyApart(a, b);
    }
  }

  /** A cut-off unit that is one byte of a tame stream is that byte. */
  lemma CutLast(a: seq<Byte>, b: seq<Byte>)
    requires a != [] && UnitOf(a).Partial? && Single(a + b)
    ensures |a| == 1 && Lossy(a + b) == Lossy(a) + Lossy(b) && Single(b)
  {
    CutUnit(a, b);
    assert |a| == 1;
    Shift(a, b, 1);
    assert a[1..] == [] && [] + b == b;
    assert Lossy(a) == REPLACEMENT + Lossy(a[1..]) && Lossy(a[1..]) == [];
    assert Lossy(a + b) == REPLACEMENT + Lossy(b);
  }

  /** A buffer with bytes that are no character, in a tame stream, can be decoded at once. */
  lemma {:induction false} AfterInvalid(a: seq<Byte>, b: seq<Byte>)
    requires Check(a).NotText? && Tame(a + b)
    ensures Lossy(a + b) == Lossy(a) + Lossy(b) && Tame(b)
    decreases |a|
  {
    hide Lossy;
    MoreBehind(a, b);
    if UnitOf(a).Whole? {
      AfterInvalid(a[Size(a)..], b);
    } else {
      CutSingle(a[Size(a)..], b);
      SingleIsTame(b);
    }
    LossyApart(a, b);
  }

  lemma Slices(bs: seq<Byte>, n: nat, k: nat)
    requires n <= k <= |bs|
    ensures bs[n..][k - n..] == bs[k..] && bs[..k][n..] == bs[n..][..k - n]
  {
  }

  /** A buffer that ends in the middle of a character is text up to there. */
  lemma {:induction false} UpToCut(bs: seq<Byte>)
    requires Check(bs).CutOff?
    ensures var k := Check(bs).validUpTo;
            Check(bs[..k]).AllText? && UnitOf(bs[k..]).Partial?
    decreases |bs|
  {
    var k := Check(bs).validUpTo;
    if UnitOf(bs).Whole? {
      var n := Size(bs);
      UpToCut(bs[n..]);
      Slices(bs, n, k);
      FrontUnit(bs, n, k);
    } else {
      assert bs[0..] == bs && bs[..0] == [];
    }
  }

  /** The first character is the same in a front that contains it. */
  lemma FrontUnit(bs: seq<Byte>, n: nat, k: nat)
    requires bs != [] && UnitOf(bs) == Whole(n) && n <= k <= |bs|
    ensures UnitOf(bs[..k]) == Whole(n)
  {
    var a, b := bs[..k], bs[k..];
    assert a + b == bs;
    if UnitOf(a).Partial? {
      CutUnit(a, b);
    } else {
      MoreUnit(a, b);
    }
  }

  // ----- The pump -----

  /** One read of a tame stream: what is decoded now, and what is left. */
  lemma ReadOnce(buffer: seq<Byte>, rest: seq<Byte>)
    requires Tame(buffer + rest)
    ensures var n := Ready(buffer);
            && Tame(buffer[n..] + rest) && Lossy(buffer + rest) == Lossy(buffer[..n]) + Lossy(buffer[n..] + rest)
  {
    var n := Ready(buffer);
    var tail := buffer[n..] + rest;
    match Check(buffer)
    case AllText =>
      AfterText(buffer, rest);
      TameAfterText(buffer, rest);
      assert tail == rest && buffer[..n] == buffer;
    case CutOff(_) =>
      UpToCut(buffer);
      assert buffer + rest == buffer[..n] + tail;
      AfterText(buffer[..n], tail);
      TameAfterText(buffer[..n], tail);
    case NotText =>
      AfterInvalid(buffer, rest);
      assert tail == rest && buffer[..n] == buffer;
  }

  /** For a tame stream, the reads do not show: the pump's output is the stream decoded at once. */
  lemma {:induction false} PumpDecodes(carry: seq<Byte>, chunks: seq<seq<Byte>>)
    requires Tame(carry + Concat(chunks))
    ensures Pumped(carry, chunks) == Lossy(carry + Concat(chunks))
    decreases |chunks|
  {
    hide Tame, Lossy, Ready;
    if chunks == [] {
      assert carry + [] == carry;
    } else {
      var buffer, rest := carry + chunks[0], Concat(chunks[1..]);
      assert carry + Concat(chunks) == buffer + rest;
      ReadOnce(buffer, rest);
      PumpDecodes(buffer[Ready(buffer)..], chunks[1..]);
    }
  }

  /** However text is read in pieces, the pump gives back that text. */
  lemma TextIsPumped(chunks: seq<seq<Byte>>)
    requires Check(Concat(chunks)).AllText?
    ensures Pumped([], chunks) == Concat(chunks)
  {
    TextIsTame(Concat(chunks));
    TextStays(Concat(chunks));
    assert [] + Concat(chunks) == Concat(chunks);
    PumpDecodes([], chunks);
  }

  // ----- Exactly when chunking cannot be seen -----

  /** Two reads, cut at `j`. */
  function Halves(bs: seq<Byte>, j: nat): seq<seq<Byte>>
    requires j <= |bs|
  {
    [bs[..j], bs[j..]]
  }

  lemma HalvesJoin(bs: seq<Byte>, j: nat)
    requires j <= |bs|
    ensures Concat(Halves(bs, j)) == bs
  {
    var cs := Halves(bs, j);
    assert Concat([]) == [];
    assert Concat(cs[1..]) == bs[j..] + [];
    assert bs[j..] + [] == bs[j..];
    assert bs[..j] + bs[j..] == bs;
  }

  lemma PumpOne(bs: seq<Byte>)
    ensures Pumped([], [bs]) == Lossy(bs[..Ready(bs)]) + Lossy(bs[Ready(bs)..])
  {
    hide Lossy, Check;
    assert [] + bs == bs && [bs][1..] == [];
  }

  /** One read is decoded as it is. */
  lemma OneRead(bs: seq<Byte>)
    ensures Pumped([], [bs]) == Lossy(bs)
  {
    hide Lossy, Check, Pumped, UnitOf;
    var n := Ready(bs);
    PumpOne(bs);
    if Check(bs).CutOff? {
      UpToCut(bs);
      AfterText(bs[..n], bs[n..]);
      assert bs[..n] + bs[n..] == bs;
    } else {
      NothingShown();
      assert bs[..n] == bs && bs[n..] == [];
      assert Lossy(bs) + [] == Lossy(bs);
    }
  }

  /** Bytes that can only follow others are no characters. */
  lemma {:induction false} AllCont(cs: seq<Byte>, b: seq<Byte>)
    requires forall i :: 0 <= i < |cs| ==> Cont(cs[i])
    ensures |Lossy(cs + b)| == 3 * |cs| + |Lossy(b)|
    decreases |cs|
  {
    if cs == [] {
      assert cs + b == b;
    } else {
      assert UnitOf(cs + b) == Invalid(1);
      assert (cs + b)[1..] == cs[1..] + b;
      AllCont(cs[1..], b);
    }
  }

  /** The bytes of a unit after its first can only follow others. */
  lemma {:induction false} UnitConts(bs: seq<Byte>, i: nat, k: nat)
    requires bs != [] && 1 <= i <= Length(bs[0]) && i <= |bs|
    requires i <= k < match UnitFrom(bs, i) case Whole(n) => n case Invalid(n) => n case Partial => |bs|
    ensures Cont(bs[k])
    decreases Length(bs[0]) - i
  {
    assert Follows(bs, i);
    if i < k {
      UnitConts(bs, i + 1, k);
    }
  }

  /** A unit of more than one byte, behind bytes that are no character, is lost when a read ends
      inside it. */
  lemma LongUnitLost(bs: seq<Byte>)
    requires bs != [] && Size(bs) > 1
    ensures |Lossy(bs[..1])| + |Lossy(bs[1..])| > |Lossy(bs)|
  {
    var n := Size(bs);
    forall k | 1 <= k < n ensures Cont(bs[k]) {
      UnitConts(bs, 1, k);
    }
    var cs, first := bs[1..n], bs[..1];
    assert bs[1..] == cs + bs[n..];
    AllCont(cs, bs[n..]);
    assert UnitOf(first).Partial? && first[1..] == [];
    assert Lossy(first) == REPLACEMENT + Lossy(first[1..]) && Lossy(first[1..]) == [];
  }

  /** The front unit of a longer front. */
  lemma FrontOf(bs: seq<Byte>, j: nat)
    requires bs != [] && !UnitOf(bs).Partial? && Size(bs) < j <= |bs|
    ensures UnitOf(bs[..j]) == UnitOf(bs) && Size(bs[..j]) == Size(bs) && Shown(bs[..j]) == Shown(bs)
  {
    var a, b := bs[..j], bs[j..];
    assert a + b == bs;
    if UnitOf(a).Partial? {
      CutUnit(a, b);
      assert false;
    } else {
      MoreBehind(a, b);
    }
  }

  /** A cut that shows in the rest shows in the whole. */
  lemma CutFurther(bs: seq<Byte>, i: nat)
    requires bs != [] && !UnitOf(bs).Partial?
    requires 0 < i <= |bs[Size(bs)..]|
    requires var rest := bs[Size(bs)..]; |Lossy(rest[..i])| + |Lossy(rest[i..])| > |Lossy(rest)|
    ensures var j := Size(bs) + i; |Lossy(bs[..j])| + |Lossy(bs[j..])| > |Lossy(bs)|
  {
    hide UnitOf, Lossy, Shown;
    var n, j := Size(bs), Size(bs) + i;
    FrontOf(bs, j);
    Slices(bs, n, j);
    LossyLength(bs[..j]);
    LossyLength(bs);
  }

  lemma LossyLength(bs: seq<Byte>)
    requires bs != []
    ensures |Lossy(bs)| == |Shown(bs)| + |Lossy(bs[Size(bs)..])|
  {
  }

  /** Where a stream in which every unit should be one byte first has a longer one. */
  lemma {:induction false} FindLong(bs: seq<Byte>) returns (j: nat)
    requires !Single(bs)
    ensures 0 < j <= |bs| && |Lossy(bs[..j])| + |Lossy(bs[j..])| > |Lossy(bs)|
    decreases |bs|
  {
    hide Lossy;
    if Size(bs) > 1 {
      LongUnitLost(bs);
      j := 1;
    } else {
      var i := FindLong(bs[1..]);
      PartialEnds(bs);
      CutFurther(bs, i);
      j := i + 1;
    }
  }

  lemma PartialEnds(bs: seq<Byte>)
    requires bs != [] && !Single(bs) && Size(bs) == 1
    ensures !UnitOf(bs).Partial?
  {
  }

  /** Where a stream that is not tame can be cut so that it shows. */
  lemma {:induction false} FindCut(bs: seq<Byte>) returns (j: nat)
    requires !Tame(bs)
    ensures 0 < j <= |bs| && Check(bs[..j]).NotText?
    ensures |Lossy(bs[..j])| + |Lossy(bs[j..])| > |Lossy(bs)|
    decreases |bs|
  {
    hide Lossy;
    var rest := bs[Size(bs)..];
    assert !UnitOf(bs).Partial? by { NotCutOff(bs); }
    var i;
    if UnitOf(bs).Whole? {
      i := FindCut(rest);
    } else {
      i := FindLong(rest);
    }
    j := Size(bs) + i;
    CutFurther(bs, i);
    FrontOf(bs, j);
    Slices(bs, Size(bs), j);
  }

  lemma NotCutOff(bs: seq<Byte>)
    requires !Tame(bs)
    ensures bs != [] && !UnitOf(bs).Partial?
  {
  }

  /** The output of the pump is independent of how the stream is read, exactly for the streams in
      which everything after the first bytes that are no character is one byte long. */
  lemma ChunkingIsInvisibleExactly(bs: seq<Byte>)
    ensures (forall chunks :: Concat(chunks) == bs ==> Pumped([], chunks) == Lossy(bs)) <==> Tame(bs)
  {
    if Tame(bs) {
      forall chunks | Concat(chunks) == bs ensures Pumped([], chunks) == Lossy(bs) {
        assert [] + bs == bs;
        PumpDecodes([], chunks);
      }
    } else {
      var j := FindCut(bs);
      HalvesJoin(bs, j);
      PumpHalves(bs, j);
      assert Pumped([], Halves(bs, j)) != Lossy(bs);
    }
  }

  lemma PumpHalves(bs: seq<Byte>, j: nat)
    requires j <= |bs| && Check(bs[..j]).NotText?
    ensures Pumped([], Halves(bs, j)) == Lossy(bs[..j]) + Lossy(bs[j..])
  {
    var cs, a := Halves(bs, j), bs[..j];
    assert cs[1..] == [bs[j..]] && [] + a == a;
    assert a[..|a|] == a && a[|a|..] == [];
    OneRead(bs[j..]);
  }

  /** A stray byte before an accented letter: read in two pieces, the letter is lost. */
  lemma SplitLetterIsLost()
    ensures var bs: seq<Byte> := [0xFF, 0xC3, 0xA9];
            && !Tame(bs) && Lossy(bs) == REPLACEMENT + [0xC3, 0xA9]
            && Pumped([], Halves(bs, 2)) == (REPLACEMENT + REPLACEMENT) + REPLACEMENT
  {
    var bs: seq<Byte> := [0xFF, 0xC3, 0xA9];
    var rest, a, c := bs[1..], bs[..2], bs[2..];
    assert UnitOf(rest) == Whole(2) && rest[2..] == [] && rest[..2] == [0xC3, 0xA9];
    assert Lossy(rest) == [0xC3, 0xA9] + [];
    assert Lossy(bs) == REPLACEMENT + Lossy(rest);
    OneLost(a[1..]);
    assert Lossy(a) == REPLACEMENT + Lossy(a[1..]);
    OneLost(c);
    PumpHalves(bs, 2);
  }

  lemma OneLost(bs: seq<Byte>)
    requires |bs| == 1 && !UnitOf(bs).Whole?
    ensures Lossy(bs) == REPLACEMENT
  {
    assert bs[1..] == [];
    assert REPLACEMENT + Lossy(bs[1..]) == REPLACEMENT;
  }

  /** What is carried from one read to the next is a cut-off character of at most three bytes. */
  lemma CarryIsShort(carry: seq<Byte>, chunk: seq<Byte>)
    ensures var buffer := carry + chunk;
            var left := buffer[Ready(buffer)..];
            |left| <= 3 && (left != [] ==> UnitOf(left).Partial?)
  {
    var buffer := carry + chunk;
    if Check(buffer).CutOff? {
      UpToCut(buffer);
    }
  }
}
