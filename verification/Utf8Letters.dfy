/** Text is exactly the encoded characters of section 3 of RFC 3629. */
module Utf8Letters {
  import opened Utf8

  /** A character: a code point that is no surrogate. */
  predicate Scalar(cp: int) { 0 <= cp < 0xD800 || 0xE000 <= cp < 0x110000 }

  /** Its bytes: seven bits; or five, six and eight times six; the first byte says how many there are. */
  function Letter(cp: int): seq<Byte>
    requires Scalar(cp)
  {
    if cp < 0x80 then [cp]
    else if cp < 0x800 then [0xC0 + cp / 64, 0x80 + cp % 64]
    else if cp < 0x1_0000 then [0xE0 + cp / 4096, 0x80 + cp / 64 % 64, 0x80 + cp % 64]
    else [0xF0 + cp / 262144, 0x80 + cp / 4096 % 64, 0x80 + cp / 64 % 64, 0x80 + cp % 64]
  }

  /** Bytes that a character can begin with, and have all of one. */
  predicate Formed(xs: seq<Byte>) {
    && xs != [] && |xs| == Length(xs[0])
    && forall j :: 1 <= j < |xs| ==> Follows(xs, j)
  }

  lemma Three(cp: int)
    requires 0x800 <= cp < 0xD800 || 0xE000 <= cp < 0x1_0000
    ensures Formed([0xE0 + cp / 4096, 0x80 + cp / 64 % 64, 0x80 + cp % 64])
  {
    var a, b, c := cp / 4096, cp / 64 % 64, cp % 64;
    assert cp == a * 4096 + b * 64 + c;
    assert Second(0xE0 + a, 0x80 + b);
  }

  lemma Four(cp: int)
    requires 0x1_0000 <= cp < 0x110000
    ensures Formed([0xF0 + cp / 262144, 0x80 + cp / 4096 % 64, 0x80 + cp / 64 % 64, 0x80 + cp % 64])
  {
    var a, b, c, d := cp / 262144, cp / 4096 % 64, cp / 64 % 64, cp % 64;
    assert cp == a * 262144 + b * 4096 + c * 64 + d;
    assert Second(0xF0 + a, 0x80 + b);
  }

  lemma LetterIsFormed(cp: int)
    requires Scalar(cp)
    ensures Formed(Letter(cp))
  {
    hide Formed;
    if cp < 0x800 {
      Short(cp);
    } else if cp < 0x1_0000 {
      Three(cp);
    } else {
      Four(cp);
    }
  }

  lemma Short(cp: int)
    requires 0 <= cp < 0x800
    ensures Formed(Letter(cp))
  {
    assert cp == cp / 64 * 64 + cp % 64;
  }

  /** The character these bytes are. */
  function CodeOf(xs: seq<Byte>): int
    requires Formed(xs)
  {
    var x: seq<int> := xs;
    if |x| == 1 then x[0]
    else if |x| == 2 then (x[0] - 0xC0) * 64 + (x[1] - 0x80)
    else if |x| == 3 then (x[0] - 0xE0) * 4096 + (x[1] - 0x80) * 64 + (x[2] - 0x80)
    else (x[0] - 0xF0) * 262144 + (x[1] - 0x80) * 4096 + (x[2] - 0x80) * 64 + (x[3] - 0x80)
  }

  lemma TwoBack(a: int, b: int)
    requires 2 <= a < 32 && 0 <= b < 64
    ensures Scalar(a * 64 + b) && Letter(a * 64 + b) == [0xC0 + a, 0x80 + b]
  {
  }

  lemma ThreeBack(a: int, b: int, c: int)
    requires 0 <= a < 16 && 0 <= b < 64 && 0 <= c < 64 && Second(0xE0 + a, 0x80 + b)
    ensures Scalar(a * 4096 + b * 64 + c) && Letter(a * 4096 + b * 64 + c) == [0xE0 + a, 0x80 + b, 0x80 + c]
  {
    var cp := a * 4096 + b * 64 + c;
    assert cp / 64 == a * 64 + b && cp / 4096 == a;
  }

  lemma FourBack(a: int, b: int, c: int, d: int)
    requires 0 <= a < 5 && 0 <= b < 64 && 0 <= c < 64 && 0 <= d < 64 && Second(0xF0 + a, 0x80 + b)
    ensures
      var cp := a * 262144 + b * 4096 + c * 64 + d;
      Scalar(cp) && Letter(cp) == [0xF0 + a, 0x80 + b, 0x80 + c, 0x80 + d]
  {
    var cp := a * 262144 + b * 4096 + c * 64 + d;
    assert cp / 64 == a * 4096 + b * 64 + c;
    assert cp / 4096 == a * 64 + b && cp / 262144 == a;
  }

  lemma FormedIsLetter(xs: seq<Byte>)
    requires Formed(xs)
    ensures Scalar(CodeOf(xs)) && Letter(CodeOf(xs)) == xs
  {
    hide Scalar, Letter;
    if |xs| == 1 {
      OneBack(xs[0]);
    } else if |xs| == 2 {
      assert Follows(xs, 1);
      TwoBack(xs[0] - 0xC0, xs[1] - 0x80);
    } else if |xs| == 3 {
      assert Follows(xs, 1) && Follows(xs, 2);
      ThreeBack(xs[0] - 0xE0, xs[1] - 0x80, xs[2] - 0x80);
    } else {
      assert Follows(xs, 1) && Follows(xs, 2) && Follows(xs, 3);
      FourBack(xs[0] - 0xF0, xs[1] - 0x80, xs[2] - 0x80, xs[3] - 0x80);
    }
  }

  lemma OneBack(a: int)
    requires 0 <= a < 128
    ensures Scalar(a) && Letter(a) == [a]
  {
  }

  lemma {:induction false} WholeFrom(bs: seq<Byte>, i: nat)
    requires bs != [] && 1 <= i <= Length(bs[0]) && i <= |bs|
    ensures UnitFrom(bs, i).Whole? <==> Length(bs[0]) <= |bs| && forall j :: i <= j < Length(bs[0]) ==> Follows(bs, j)
    decreases Length(bs[0]) - i
  {
    hide Length, Follows;
    if i < Length(bs[0]) && i < |bs| && Follows(bs, i) {
      WholeFrom(bs, i + 1);
    }
  }

  /** What stands at the front of some bytes is a whole character exactly when they begin with a character's
      bytes. */
  lemma WholeExactly(bs: seq<Byte>, n: nat)
    requires bs != []
    ensures UnitOf(bs) == Whole(n) <==> exists cp :: Scalar(cp) && Letter(cp) <= bs && |Letter(cp)| == n
  {
    hide Length, Follows, Letter, Scalar;
    FirstByte(bs[0]);
    if Length(bs[0]) > 0 { WholeFrom(bs, 1); }
    if UnitOf(bs) == Whole(n) {
      var xs := bs[..n];
      SameFollows(bs, xs);
      FormedIsLetter(xs);
      assert xs <= bs;
    }
    if cp :| Scalar(cp) && Letter(cp) <= bs && |Letter(cp)| == n {
      LetterIsFormed(cp);
      SameFollows(bs, Letter(cp));
    }
  }

  /** Bytes that a character begins with, all of its own included. */
  ghost predicate Begins(bs: seq<Byte>) { exists cp :: Scalar(cp) && bs <= Letter(cp) }

  lemma {:induction false} PartialFrom(bs: seq<Byte>, i: nat)
    requires bs != [] && 1 <= i <= Length(bs[0]) && i <= |bs|
    ensures UnitFrom(bs, i).Partial? <==> |bs| < Length(bs[0]) && forall j :: i <= j < |bs| ==> Follows(bs, j)
    decreases Length(bs[0]) - i
  {
    hide Length, Follows;
    if i < Length(bs[0]) && i < |bs| && Follows(bs, i) {
      PartialFrom(bs, i + 1);
    }
  }

  lemma {:induction false} InvalidFrom(bs: seq<Byte>, i: nat, n: nat)
    requires bs != [] && 1 <= i <= Length(bs[0]) && i <= |bs| && UnitFrom(bs, i) == Invalid(n)
    ensures i <= n < |bs| && n < Length(bs[0]) && !Follows(bs, n) && forall j :: i <= j < n ==> Follows(bs, j)
    decreases Length(bs[0]) - i
  {
    hide Length, Follows;
    if i < Length(bs[0]) && i < |bs| && Follows(bs, i) {
      InvalidFrom(bs, i + 1, n);
    }
  }

  /** A byte that can stand after another as the second. */
  function SecondFor(a: Byte): Byte { if a == 0xE0 then 0xA0 else if a == 0xF0 then 0x90 else 0x80 }

  lemma {:induction false} CanBeFinished(bs: seq<Byte>)
    requires bs != [] && |bs| <= Length(bs[0]) && forall j :: 1 <= j < |bs| ==> Follows(bs, j)
    ensures Begins(bs)
    decreases Length(bs[0]) - |bs|
  {
    if |bs| == Length(bs[0]) {
      FormedIsLetter(bs);
      assert bs <= Letter(CodeOf(bs));
    } else {
      var more := bs + [if |bs| == 1 then SecondFor(bs[0]) else 0x80];
      SameFollows(more, bs);
      assert Follows(more, |bs|);
      CanBeFinished(more);
      var cp :| Scalar(cp) && more <= Letter(cp);
      assert bs <= more;
    }
  }

  lemma BeginsFollow(bs: seq<Byte>)
    requires bs != [] && Begins(bs)
    ensures |bs| <= Length(bs[0]) && forall j :: 1 <= j < |bs| ==> Follows(bs, j)
  {
    hide Length, Follows, Letter, Scalar;
    var cp :| Scalar(cp) && bs <= Letter(cp);
    LetterIsFormed(cp);
    SameFollows(Letter(cp), bs);
  }

  /** Bytes are cut off exactly when a character begins with them and goes on. */
  lemma PartialExactly(bs: seq<Byte>)
    requires bs != []
    ensures UnitOf(bs).Partial? <==> Begins(bs) && forall cp :: Scalar(cp) ==> Letter(cp) != bs
  {
    hide Length, Follows, Letter, Scalar, Begins;
    FirstByte(bs[0]);
    if Length(bs[0]) > 0 { PartialFrom(bs, 1); }
    if UnitOf(bs).Partial? {
      CanBeFinished(bs);
      forall cp | Scalar(cp) ensures Letter(cp) != bs {
        LetterIsFormed(cp);
      }
    }
    if Begins(bs) && forall cp :: Scalar(cp) ==> Letter(cp) != bs {
      BeginsFollow(bs);
      if |bs| == Length(bs[0]) {
        FormedIsLetter(bs);
      }
    }
  }

  /** What is no character is replaced up to where it stops to be the beginning of one, and at least one byte
      of it. */
  lemma InvalidIs(bs: seq<Byte>, n: nat)
    requires bs != [] && UnitOf(bs) == Invalid(n)
    ensures 1 <= n <= |bs| && (n == 1 || Begins(bs[..n])) && forall m: nat :: n < m <= |bs| ==> !Begins(bs[..m])
  {
    hide Length, Follows, Letter, Scalar, Begins;
    FirstByte(bs[0]);
    if Length(bs[0]) > 0 {
      InvalidFrom(bs, 1, n);
      SameFollows(bs, bs[..n]);
      CanBeFinished(bs[..n]);
    }
    forall m: nat | n < m <= |bs| ensures !Begins(bs[..m]) {
      if Begins(bs[..m]) {
        BeginsFollow(bs[..m]);
        SameFollows(bs, bs[..m]);
      }
    }
  }

  lemma InvalidExactly(bs: seq<Byte>, n: nat)
    requires bs != []
    ensures UnitOf(bs) == Invalid(n) <==>
      && !UnitOf(bs).Whole? && !UnitOf(bs).Partial?
      && 1 <= n <= |bs| && (n == 1 || Begins(bs[..n]))
      && forall m: nat :: n < m <= |bs| ==> !Begins(bs[..m])
  {
    hide Length, Follows, Letter, Scalar, Begins;
    if UnitOf(bs).Invalid? {
      InvalidIs(bs, UnitOf(bs).n);
    }
  }

  lemma FirstByte(b: Byte)
    ensures Length(b) <= 4
  {
  }

  lemma SameFollows(bs: seq<Byte>, xs: seq<Byte>)
    requires xs <= bs && xs != []
    ensures xs[0] == bs[0] && forall j :: 1 <= j < |xs| ==> (Follows(xs, j) <==> Follows(bs, j))
  {
    assert forall j :: 0 <= j < |xs| ==> xs[j] == bs[j];
  }

  // ----- Texts -----

  /** The bytes of characters, one after the other. */
  function Letters(cps: seq<int>): seq<Byte>
    requires forall i :: 0 <= i < |cps| ==> Scalar(cps[i])
  {
    if cps == [] then [] else Letter(cps[0]) + Letters(cps[1..])
  }

  lemma {:induction false} LettersAreText(cps: seq<int>)
    requires forall i :: 0 <= i < |cps| ==> Scalar(cps[i])
    ensures Check(Letters(cps)).AllText?
  {
    hide Letter, Scalar, UnitOf;
    if cps != [] {
      var bs, x := Letters(cps), Letter(cps[0]);
      LettersAreText(cps[1..]);
      LetterNotEmpty(cps[0]);
      assert x <= bs;
      WholeExactly(bs, |x|);
      assert bs[|x|..] == Letters(cps[1..]);
    }
  }

  lemma LetterNotEmpty(cp: int)
    requires Scalar(cp)
    ensures Letter(cp) != []
  {
  }

  lemma {:induction false} TextIsLetters(bs: seq<Byte>) returns (cps: seq<int>)
    requires Check(bs).AllText?
    ensures (forall i :: 0 <= i < |cps| ==> Scalar(cps[i])) && Letters(cps) == bs
    decreases |bs|
  {
    hide Letter, Scalar, UnitOf;
    if bs == [] {
      cps := [];
    } else {
      var n := UnitOf(bs).n;
      WholeExactly(bs, n);
      var cp :| Scalar(cp) && Letter(cp) <= bs && |Letter(cp)| == n;
      var rest := TextIsLetters(bs[n..]);
      cps := [cp] + rest;
      assert cps[1..] == rest && bs == bs[..n] + bs[n..];
    }
  }

  /** Bytes are text exactly when they are characters' bytes, one after the other. */
  lemma TextExactly(bs: seq<Byte>)
    ensures Check(bs).AllText? <==> exists cps :: (forall i :: 0 <= i < |cps| ==> Scalar(cps[i])) && Letters(cps) == bs
  {
    hide Letters, Check, Scalar;
    if Check(bs).AllText? {
      var cps := TextIsLetters(bs);
    }
    if cps :| (forall i :: 0 <= i < |cps| ==> Scalar(cps[i])) && Letters(cps) == bs {
      LettersAreText(cps);
    }
  }
}
