/** The output of commands: terminal.rs, and the kept end of an agent's stderr in acp.rs. */
module Terminals {
  import opened Wrappers
  import opened Utf8

  /** `is_char_boundary` */
  predicate Boundary(text: seq<Byte>, i: nat) {
    i == 0 || i == |text| || (i < |text| && !Cont(text[i]))
  }

  /** The first boundary from `i` on. */
  function NextBoundary(text: seq<Byte>, i: nat): (b: nat)
    requires i <= |text|
    ensures i <= b <= |text| && Boundary(text, b)
    decreases |text| - i
  {
    if Boundary(text, i) then i else NextBoundary(text, i + 1)
  }

  function Kept(text: seq<Byte>, limit: nat): seq<Byte> {
    if |text| > limit then text[NextBoundary(text, |text| - limit)..] else text
  }

  /** Nothing longer fits: what is kept is the longest suffix within the limit that starts at a
      character. */
  lemma {:induction false} KeptIsLongest(text: seq<Byte>, limit: nat, i: nat)
    requires i <= |text| && Boundary(text, i) && |text| - i <= limit
    ensures |Kept(text, limit)| <= limit && text[|text| - |Kept(text, limit)|..] == Kept(text, limit)
    ensures |text| - i <= |Kept(text, limit)| && Boundary(text, |text| - |Kept(text, limit)|)
  {
    if |text| > limit {
      FirstBoundary(text, |text| - limit, i);
    }
  }

  lemma {:induction false} FirstBoundary(text: seq<Byte>, from: nat, i: nat)
    requires from <= i <= |text| && Boundary(text, i)
    ensures NextBoundary(text, from) <= i
    decreases i - from
  {
    if !Boundary(text, from) {
      FirstBoundary(text, from + 1, i);
    }
  }

  /** Text, and so every piece of it that is appended, starts with a character. */
  predicate StartsWell(text: seq<Byte>) { text == [] || !Cont(text[0]) }

  lemma {:induction false} LossyStartsWell(bs: seq<Byte>)
    ensures StartsWell(Lossy(bs))
  {
    if bs != [] && UnitOf(bs).Whole? {
      assert Lossy(bs)[0] == bs[0];
    }
  }

  lemma {:induction false} SameNext(a: seq<Byte>, b: seq<Byte>, cut: nat, i: nat)
    requires cut <= |a| && Boundary(a, cut) && StartsWell(b) && cut < i <= |a + b|
    ensures NextBoundary(a + b, i) == cut + NextBoundary(a[cut..] + b, i - cut)
    decreases |a + b| - i
  {
    if !Boundary(a + b, i) {
      SameNext(a, b, cut, i + 1);
    }
  }

  /** Dropping early drops no more than dropping at the end. */
  lemma KeptTwice(a: seq<Byte>, b: seq<Byte>, limit: nat)
    requires StartsWell(a) && StartsWell(b)
    ensures Kept(Kept(a, limit) + b, limit) == Kept(a + b, limit)
  {
    if |a| > limit {
      var cut := NextBoundary(a, |a| - limit);
      var part := a[cut..] + b;
      if |part| > limit {
        SameNext(a, b, cut, |a + b| - limit);
        assert (a + b)[cut..] == part;
        var n := NextBoundary(part, |part| - limit);
        assert part[n..] == (a + b)[cut + n..];
      } else {
        KeptRest(a, b, limit, cut);
      }
    }
  }

  /** When what is left fits, nothing more is dropped. */
  lemma KeptRest(a: seq<Byte>, b: seq<Byte>, limit: nat, cut: nat)
    requires |a| > limit && cut == NextBoundary(a, |a| - limit) && StartsWell(b) && |a[cut..] + b| <= limit
    ensures Kept(a + b, limit) == a[cut..] + b
  {
    var whole := a + b;
    assert whole[cut..] == a[cut..] + b;
    assert Boundary(whole, cut) by {
      if cut < |a| { assert whole[cut] == a[cut]; } else if b != [] { assert whole[cut] == b[0]; }
    }
    FirstBoundary(whole, |whole| - limit, cut);
    var first := NextBoundary(whole, |whole| - limit);
    NoneBetween(a, b, limit, cut, first);
  }

  lemma {:induction false} SkipsTo(text: seq<Byte>, from: nat, i: nat)
    requires from <= i < |text| && i < NextBoundary(text, from)
    ensures !Boundary(text, i)
    decreases i - from
  {
    if from < i {
      SkipsTo(text, from + 1, i);
    }
  }

  lemma NoneBetween(a: seq<Byte>, b: seq<Byte>, limit: nat, cut: nat, first: nat)
    requires |a| > limit && cut == NextBoundary(a, |a| - limit)
    requires first == NextBoundary(a + b, |a + b| - limit) && first <= cut
    ensures first == cut
  {
    forall i | |a| - limit <= i < cut ensures !Boundary(a + b, i) {
      SkipsTo(a, |a| - limit, i);
      assert (a + b)[i] == a[i];
    }
  }

  // ----- Output that keeps its end -----

  /** `LocalTerminal`'s output; an agent's stderr is one, too, with a limit of 64 KiB. `all` is
      everything that was appended. */
  class Output {
    const limit: nat
    var text: seq<Byte>
    var truncated: bool
    ghost var all: seq<Byte>

    /** The text is the end of everything, and `truncated` says whether anything was dropped. */
    ghost predicate Valid()
      reads this
    {
      StartsWell(all) && text == Kept(all, limit) && (truncated <==> |all| > limit)
    }

    constructor (bytes: nat)
      ensures Valid() && limit == bytes && all == []
    {
      limit, text, truncated, all := bytes, [], false, [];
    }

    method Append(chunk: seq<Byte>)
      requires Valid() && StartsWell(chunk)
      modifies this
      ensures Valid() && all == old(all) + chunk
    {
      KeptTwice(all, chunk, limit);
      text := text + chunk;
      all := all + chunk;
      if |text| > limit {
        var cut := |text| - limit;
        ghost var from := cut;
        while !(cut == 0 || cut == |text| || !Cont(text[cut]))
          invariant from <= cut <= |text| && NextBoundary(text, cut) == NextBoundary(text, from)
          decreases |text| - cut
        {
          cut := cut + 1;
        }
        text := text[cut..];
        truncated := true;
      }
    }
  }

  /** `pump`: reads until the end, keeping a cut-off character for the next read. */
  method Pump(pieces: seq<seq<Byte>>, output: Output)
    requires output.Valid()
    modifies output
    ensures output.Valid() && output.all == old(output.all) + Pumped([], pieces)
  {
    hide Ready, Lossy;
    var pending, i := [], 0;
    assert pieces[0..] == pieces;
    while i < |pieces|
      invariant 0 <= i <= |pieces| && output.Valid()
      invariant output.all + Pumped(pending, pieces[i..]) == old(output.all) + Pumped([], pieces)
    {
      var buffer := pending + pieces[i];
      var n := Ready(buffer);
      var text := Lossy(buffer[..n]);
      LossyStartsWell(buffer[..n]);
      assert pieces[i..][0] == pieces[i] && pieces[i..][1..] == pieces[i + 1..];
      ghost var before := output.all;
      output.Append(text);
      pending := buffer[n..];
      assert before + (text + Pumped(pending, pieces[i + 1..])) == (before + text) + Pumped(pending, pieces[i + 1..]);
      i := i + 1;
    }
    assert pieces[i..] == [];
    if pending != [] {
      LossyStartsWell(pending);
      output.Append(Lossy(pending));
    } else {
      LossyNothing();
      assert output.all + [] == output.all;
    }
  }

  lemma LossyNothing()
    ensures Lossy([]) == []
  {
  }

  /** A command that writes text, read in any pieces: the terminal shows exactly the longest end of it
      that fits and starts at a character, and says whether the start was dropped. */
  method ShowOutput(pieces: seq<seq<Byte>>, limit: nat) returns (text: seq<Byte>, truncated: bool)
    requires Check(Concat(pieces)).AllText?
    ensures text == Kept(Concat(pieces), limit) && (truncated <==> |Concat(pieces)| > limit)
  {
    var output := new Output(limit);
    Pump(pieces, output);
    TextIsPumped(pieces);
    assert [] + Pumped([], pieces) == Pumped([], pieces);
    text, truncated := output.text, output.truncated;
  }

  // ----- The commands of a connection -----

  /** A running command; the way to kill it is used at most once. */
  class LocalTerminal {
    var kill: bool
    var kills: nat

    constructor ()
      ensures kill && kills == 0
    {
      kill, kills := true, 0;
    }

    method Kill()
      modifies this
      ensures !kill && kills == old(kills) + if old(kill) then 1 else 0
    {
      if kill {
        kill := false;
        kills := kills + 1;
      }
    }
  }

  /** The commands by id: `term-1`, `term-2`, … `spawned` are all ids ever given. */
  class Commands {
    var running: map<nat, LocalTerminal>
    var next: nat
    ghost var spawned: set<nat>

    /** Ids are those given, no two terminals are the same, and one that is listed can be killed. */
    ghost predicate Valid()
      reads this, running.Values
    {
      && (forall id :: id in spawned ==> 0 < id <= next)
      && running.Keys <= spawned
      && (forall id, jd :: id in running && jd in running && id != jd ==> running[id] != running[jd])
      && (forall id :: id in running ==> running[id].kill && running[id].kills == 0)
    }

    constructor ()
      ensures Valid() && running == map[] && spawned == {}
    {
      running, next, spawned := map[], 0, {};
    }

    /** Every command gets an id that no command had before, released ones included. */
    method Spawn() returns (id: nat)
      requires Valid()
      modifies this
      ensures Valid() && id !in old(spawned) && spawned == old(spawned) + {id}
      ensures id in running && fresh(running[id]) && running == old(running)[id := running[id]]
    {
      var terminal := new LocalTerminal();
      next := next + 1;
      id := next;
      running := running[id := terminal];
      spawned := spawned + {id};
    }

    /** `terminal/release`: forgets the command and kills it. */
    method Release(id: nat) returns (known: bool)
      requires Valid()
      modifies this, running.Values
      ensures Valid() && known == (id in old(running)) && running == old(running) - {id} && spawned == old(spawned)
      ensures known ==> old(running)[id].kills == 1
      ensures forall jd :: jd in running ==> running[jd].kills == old(running[jd].kills)
    {
      known := id in running;
      if known {
        var terminal := running[id];
        running := running - {id};
        terminal.Kill();
      }
    }

    /** At the end of the connection every command is killed, once. */
    method KillAll()
      requires Valid()
      modifies this, running.Values
      ensures Valid() && running == map[] && spawned == old(spawned)
      ensures forall id :: id in old(running) ==> old(running)[id].kills == 1
    {
      var left := running;
      running := map[];
      ghost var all := left;
      while left.Keys != {}
        invariant forall id :: id in left ==> id in all && left[id] == all[id]
        invariant forall id :: id in all ==> (all[id].kill <==> id in left) && all[id].kills == if id in left then 0 else 1
        modifies all.Values
        decreases |left.Keys|
      {
        var id :| id in left;
        left[id].Kill();
        left := left - {id};
      }
    }
  }
}
