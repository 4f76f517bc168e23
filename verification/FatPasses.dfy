/** What a transmission and a merge make of the ten lists, pass by pass: the steps by which the pointer
    code follows the queues on sequences. */
module FatPasses {
  import opened FatLinks
  import opened FatSpec

  lemma FatNodeIsNoTempEnd(l: Links, ls: Lists, i: nat, k: nat)
    requires Spells(l, ls) && i < MAX_FAT_LIST && k < |ls[i]|
    ensures ls[i][k] in l.prev && !TempEnd(l, ls[i][k])
  {
    Neighbours(l, ls, i, k);
  }

  lemma HeadIsFirst(l: Links, ls: Lists, i: nat)
    requires Spells(l, ls) && i < 10
    ensures l.ends[i].head == if ls[i] == [] then null else ls[i][0]
  {
    assert Chain(l, l.ends[i], ls[i]);
  }

  lemma NextInList(l: Links, ls: Lists, i: nat, k: nat)
    requires Spells(l, ls) && i < 10 && k < |ls[i]|
    ensures ls[i][k] in l.prev && l.prev[ls[i][k]] == After(ls[i], k)
  {
    assert Chain(l, l.ends[i], ls[i]);
  }

  /** The lists once fat list i has been walked. */
  function Walked(ls: Lists, i: nat, kept: seq<FatNode>, sent: seq<FatNode>): (r: Lists)
    requires |ls| == 10 && i < MAX_FAT_LIST
    ensures |r| == 10
  {
    var cut := ls[i := kept];
    if i + 1 == MAX_FAT_LIST then cut else cut[6 + i := cut[6 + i] + sent]
  }

  /** The lists once the node at (i, k) has moved to the next temporary list, or been dropped. */
  function Demoting(ls: Lists, i: nat, k: nat): (r: Lists)
    requires |ls| == 10 && i < MAX_FAT_LIST && k < |ls[i]|
    ensures |r| == 10
  {
    Walked(ls, i, ls[i][..k] + ls[i][k + 1..], [ls[i][k]])
  }

  lemma WalkedStart(ls: Lists, i: nat)
    requires |ls| == 10 && i < MAX_FAT_LIST
    ensures Walked(ls, i, [] + ls[i], []) == ls
  {
    assert [] + ls[i] == ls[i];
    assert i + 1 != MAX_FAT_LIST ==> ls[6 + i] + [] == ls[6 + i];
  }

  lemma WalkedStep(ls: Lists, i: nat, kept: seq<FatNode>, rest: seq<FatNode>, sent: seq<FatNode>)
    requires |ls| == 10 && i < MAX_FAT_LIST && rest != []
    ensures var cur := Walked(ls, i, kept + rest, sent);
            && |kept| < |cur[i]| && cur[i][|kept|] == rest[0]
            && After(cur[i], |kept|) == (if |rest| == 1 then null else rest[1])
            && Demoting(cur, i, |kept|) == Walked(ls, i, kept + rest[1..], sent + [rest[0]])
            && cur == Walked(ls, i, (kept + [rest[0]]) + rest[1..], sent)
  {
    var k := |kept|;
    assert (kept + rest)[..k] + (kept + rest)[k + 1..] == kept + rest[1..];
    assert kept + rest == (kept + [rest[0]]) + rest[1..];
    if i + 1 != MAX_FAT_LIST {
      assert (ls[6 + i] + sent) + [rest[0]] == ls[6 + i] + (sent + [rest[0]]);
    }
  }

  /** Part-way through fat list i, which a call found as part of `ls`: kept and sent so far, rest still to
      try with `at` first, w the final outcome, and `now` the lists at this point. */
  ghost predicate Reached(ls: Lists, now: Lists, i: nat, w: Pass<FatNode>, kept: seq<FatNode>,
                          rest: seq<FatNode>, sent: seq<FatNode>, left: int, stop: bool, at: FatNode?)
  {
    && |ls| == 10 && i < MAX_FAT_LIST
    && now == Walked(ls, i, kept + rest, sent)
    && at == (if rest == [] then null else rest[0])
    && Ahead(w, kept, sent, rest, PktSize, left, stop)
  }

  lemma ReachedStart(ls: Lists, i: nat, room: int)
    requires |ls| == 10 && i < MAX_FAT_LIST
    ensures Reached(ls, ls, i, Walk(ls[i], PktSize, room), [], ls[i], [], room, false,
                    if ls[i] == [] then null else ls[i][0])
  {
    WalkedStart(ls, i);
  }

  lemma ReachedStep(ls: Lists, now: Lists, i: nat, w: Pass<FatNode>, kept: seq<FatNode>, rest: seq<FatNode>,
                    sent: seq<FatNode>, left: int)
    requires rest != [] && Reached(ls, now, i, w, kept, rest, sent, left, false, rest[0])
    ensures |now| == 10 && |kept| < |now[i]| && now[i][|kept|] == rest[0]
    ensures var n, next := rest[0], After(now[i], |kept|);
      if n.pktSize < left then
        Reached(ls, Demoting(now, i, |kept|), i, w, kept, rest[1..], sent + [n],
                left - n.pktSize, left - n.pktSize < MAX_NONFAT, next)
      else
        Reached(ls, now, i, w, kept + [n], rest[1..], sent, left, false, next)
  {
    AheadStep(w, kept, sent, rest, PktSize, left);
    WalkedStep(ls, i, kept, rest, sent);
  }

  lemma DemoteSpells(l: Links, ls: Lists, i: nat, k: nat)
    requires Spells(l, ls) && i < MAX_FAT_LIST && k < |ls[i]|
    ensures ls[i][k] in l.prev && Sized(Cut(l, ls[i][k])) && Cut(l, ls[i][k]).prev.Keys == l.prev.Keys
    ensures i + 1 == MAX_FAT_LIST ==> Spells(Cut(l, ls[i][k]), Demoting(ls, i, k))
    ensures i + 1 != MAX_FAT_LIST ==> Spells(Link(Cut(l, ls[i][k]), ls[i][k], i + 1), Demoting(ls, i, k))
    ensures forall a :: 0 <= a < 10 && Cut(l, ls[i][k]).ends[a].tail != null ==>
              Cut(l, ls[i][k]).ends[a].tail in l.prev
  {
    var n := ls[i][k];
    FatNodeIsNoTempEnd(l, ls, i, k);
    CutSpells(l, ls, n);
    RemoveAt(ls, i, k);
    TempTailKnown(Cut(l, n), AllWithout(ls, n));
    if i + 1 != MAX_FAT_LIST {
      LinkSpells(Cut(l, n), AllWithout(ls, n), n, i + 1);
    }
  }

  /** The lists once the first i fat lists have had their pass. */
  function Part(ls: Lists, ps: seq<Pass<FatNode>>, i: nat): (r: Lists)
    requires |ls| == 10 && |ps| == MAX_FAT_LIST && i <= MAX_FAT_LIST
    ensures |r| == 10
  {
    seq(10, a requires 0 <= a < 10 =>
      if a < MAX_FAT_LIST then (if a < i then ps[a].kept else ls[a])
      else if 0 <= a - 6 < i then ls[a] + ps[a - 6].sent
      else ls[a])
  }

  lemma PartStart(ls: Lists, ps: seq<Pass<FatNode>>)
    requires |ls| == 10 && |ps| == MAX_FAT_LIST
    ensures Part(ls, ps, 0) == ls && Concat(SentOf(ps[..0])) == [] && ps[0..] == ps
    ensures ls[0..MAX_FAT_LIST] == Queued(ls).fat
  {
  }

  lemma PartStep(ls: Lists, ps: seq<Pass<FatNode>>, i: nat, left: int)
    requires |ls| == 10 && |ps| == MAX_FAT_LIST && i < MAX_FAT_LIST
    requires ps[i..] == Passes(ls[i..MAX_FAT_LIST], PktSize, left, false)
    ensures Part(ls, ps, i)[i] == ls[i] && ps[i] == Walk(ls[i], PktSize, left)
    ensures Walked(Part(ls, ps, i), i, ps[i].kept, ps[i].sent) == Part(ls, ps, i + 1)
    ensures ps[i + 1..] == Passes(ls[i + 1..MAX_FAT_LIST], PktSize, ps[i].left, ps[i].stop)
    ensures Concat(SentOf(ps[..i + 1])) == Concat(SentOf(ps[..i])) + ps[i].sent
  {
    PassesTail(ls[i..MAX_FAT_LIST], PktSize, left, false);
    assert ps[i..][0] == ps[i] && ps[i..][1..] == ps[i + 1..];
    assert ls[i..MAX_FAT_LIST][1..] == ls[i + 1..MAX_FAT_LIST];
    assert SentOf(ps[..i + 1]) == SentOf(ps[..i]) + [ps[i].sent];
    ConcatSnoc(SentOf(ps[..i]), ps[i].sent);
  }

  /** Lists that are never reached, once a pass has stopped, stay as they were. */
  lemma PartDone(ls: Lists, ps: seq<Pass<FatNode>>, i: nat, left: int, stop: bool)
    requires |ls| == 10 && i <= MAX_FAT_LIST && (stop || i == MAX_FAT_LIST)
    requires ps == FattenPasses(Queued(ls), PktSize)
    requires ps[i..] == Passes(ls[i..MAX_FAT_LIST], PktSize, left, stop)
    ensures Queued(Part(ls, ps, i)) == Fattened(Queued(ls), PktSize)
    ensures Concat(SentOf(ps[..i])) == Sent(Queued(ls), PktSize)
    decreases MAX_FAT_LIST - i
  {
    if i == MAX_FAT_LIST {
      assert ps[..i] == ps;
      assert Queued(Part(ls, ps, i)).tmp == Fattened(Queued(ls), PktSize).tmp;
    } else {
      var fat := ls[i..MAX_FAT_LIST];
      StoppedPasses(fat, PktSize, left, 0);
      assert ps[i..][0] == ps[i] && ps[i..][1..] == ps[i + 1..] && fat[1..] == ls[i + 1..MAX_FAT_LIST];
      assert ps[i] == Pass(ls[i], [], left, true);
      assert i + 6 < 10 ==> ls[i + 6] + ps[i].sent == ls[i + 6];
      assert Part(ls, ps, i) == Part(ls, ps, i + 1);
      assert SentOf(ps[..i + 1]) == SentOf(ps[..i]) + [ps[i].sent];
      ConcatSnoc(SentOf(ps[..i]), ps[i].sent);
      PartDone(ls, ps, i + 1, left, stop);
    }
  }

  /** i fat lists have had their pass: now the lists are `now` and `sent` has been sent. */
  ghost predicate Midway(ls: Lists, i: nat, left: int, stop: bool, now: Lists, sent: seq<FatNode>) {
    && |ls| == 10 && i <= MAX_FAT_LIST
    && var ps := FattenPasses(Queued(ls), PktSize);
       && now == Part(ls, ps, i)
       && sent == Concat(SentOf(ps[..i]))
       && ps[i..] == Passes(ls[i..MAX_FAT_LIST], PktSize, left, stop)
  }

  lemma MidwayStart(ls: Lists)
    requires |ls| == 10
    ensures Midway(ls, 0, MAX_FAT_DATA, false, ls, [])
  {
    PartStart(ls, FattenPasses(Queued(ls), PktSize));
  }

  lemma MidwayStep(ls: Lists, i: nat, left: int, now: Lists, sent: seq<FatNode>)
    requires Midway(ls, i, left, false, now, sent) && i < MAX_FAT_LIST
    ensures var w := Walk(now[i], PktSize, left);
            Midway(ls, i + 1, w.left, w.stop, Walked(now, i, w.kept, w.sent), sent + w.sent)
  {
    PartStep(ls, FattenPasses(Queued(ls), PktSize), i, left);
  }

  lemma MidwayDone(ls: Lists, i: nat, left: int, stop: bool, now: Lists, sent: seq<FatNode>)
    requires Midway(ls, i, left, stop, now, sent) && (stop || i == MAX_FAT_LIST)
    ensures Queued(now) == Fattened(Queued(ls), PktSize) && sent == Sent(Queued(ls), PktSize)
  {
    PartDone(ls, FattenPasses(Queued(ls), PktSize), i, left, stop);
  }

  function JoinedUpTo(ls: Lists, i: nat): (r: Lists)
    requires |ls| == 10 && i <= MAX_FAT_LIST
    ensures |r| == 10
    ensures i < MAX_FAT_LIST ==> Joined(r, i) == JoinedUpTo(ls, i + 1)
    ensures i == 0 ==> r == ls
    decreases MAX_FAT_LIST - i
  {
    seq(10, a requires 0 <= a < 10 =>
      if a < i then ls[a] + ls[a + MAX_FAT_LIST] else if 0 <= a - MAX_FAT_LIST < i then [] else ls[a])
  }

  lemma JoinEnds(l: Links, ls: Lists, i: nat)
    requires Spells(l, ls) && i < MAX_FAT_LIST
    ensures var f, t := l.ends[i], l.ends[MAX_FAT_LIST + i];
            && (f.head != null ==> f.tail != null && f.tail in l.prev)
            && (t.head != null ==> t.head in l.prev)
            && (t.head == null ==> t.tail == null)
  {
    var c := MAX_FAT_LIST + i;
    assert Chain(l, l.ends[i], ls[i]) && Chain(l, l.ends[c], ls[c]);
    assert ls[i] != [] ==> ls[i][|ls[i]| - 1] in l.prev;
    assert ls[c] != [] ==> ls[c][0] in l.prev;
  }
}
