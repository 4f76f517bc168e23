/** The pointer code on lists that are no longer well formed, one turn of its loop at a time, and a run
    in which two updates in a row make the server send one packet ten times. */
module FatOverrun {
  import opened FatSpec
  import opened FatLinks
  import opened FatPasses

  /** Every pointer leads to a known node. */
  ghost predicate Known(l: Links) {
    && Sized(l)
    && (forall n :: n in l.prev ==> l.prev[n] == null || l.prev[n] in l.prev)
    && (forall n :: n in l.next ==> l.next[n] == null || l.next[n] in l.prev)
    && (forall a :: 0 <= a < 10 ==> l.ends[a].head == null || l.ends[a].head in l.prev)
    && (forall a :: 0 <= a < 10 ==> l.ends[a].tail == null || l.ends[a].tail in l.prev)
  }

  lemma KnownCut(l: Links, n: FatNode)
    requires Known(l) && n in l.prev
    ensures Known(Cut(l, n)) && Cut(l, n).prev.Keys == l.prev.Keys
  {
    var c := Cut(l, n);
    assert c.prev.Keys == l.prev.Keys && c.next.Keys == l.next.Keys;
  }

  lemma KnownLink(l: Links, n: FatNode, j: nat)
    requires Known(l) && n in l.prev && j < MAX_FAT_LIST
    ensures Known(Link(l, n, j)) && Link(l, n, j).prev.Keys == l.prev.Keys
  {
    var k := Link(l, n, j);
    assert k.prev.Keys == l.prev.Keys && k.next.Keys == l.next.Keys;
  }

  lemma KnownPassed(l: Links, n: FatNode, i: nat)
    requires Known(l) && n in l.prev && i < MAX_FAT_LIST
    ensures Sized(Cut(l, n)) && Known(Passed(l, n, i)) && Passed(l, n, i).prev.Keys == l.prev.Keys
  {
    KnownCut(l, n);
    if i + 1 < MAX_FAT_LIST {
      KnownLink(Cut(l, n), n, i + 1);
    }
  }

  lemma KnownJoin(l: Links, i: nat)
    requires Known(l) && i < MAX_FAT_LIST
    ensures Known(Join(l, i))
  {
    var j := Join(l, i);
    assert j.prev.Keys == l.prev.Keys && j.next.Keys == l.next.Keys;
  }

  /** Where a call of `fatten` stands: the list it is on, the node it is about to try, the room left,
      whether it has given up, and what it has sent. */
  datatype Cursor = Cursor(l: Links, list: nat, at: FatNode?, left: int, stop: bool, sent: seq<FatNode>)

  ghost predicate Sane(c: Cursor) {
    Known(c.l) && (c.at == null || c.at in c.l.prev)
  }

  predicate Over(c: Cursor) {
    c.stop || c.list >= MAX_FAT_LIST
  }

  ghost function HeadOf(l: Links, list: nat): FatNode?
    requires Sized(l)
  {
    if list < MAX_FAT_LIST then l.ends[list].head else null
  }

  /** The node is sent and moved on; its follower was read before that. */
  ghost function Take(c: Cursor, n: FatNode): (d: Cursor)
    requires Sane(c) && c.at == n && c.list < MAX_FAT_LIST
    ensures Sane(d)
  {
    KnownPassed(c.l, n, c.list);
    var left := c.left - n.pktSize;
    Cursor(Passed(c.l, n, c.list), c.list, c.l.prev[n], left, left < MAX_NONFAT, c.sent + [n])
  }

  /** One turn of `fatten`: on to the next list, or one node tried. */
  ghost function Turn(c: Cursor): (d: Cursor)
    requires Sane(c)
    ensures Sane(d)
  {
    if Over(c) then c
    else if c.at == null then c.(list := c.list + 1, at := HeadOf(c.l, c.list + 1))
    else if c.at.pktSize < c.left then Take(c, c.at)
    else c.(at := c.l.prev[c.at])
  }

  ghost function Turns(c: Cursor, k: nat): (d: Cursor)
    requires Sane(c)
    ensures Sane(d)
    decreases k
  {
    if k == 0 then c else Turns(Turn(c), k - 1)
  }

  lemma {:induction false} TurnsSplit(c: Cursor, j: nat, k: nat)
    requires Sane(c)
    ensures Turns(c, j + k) == Turns(Turns(c, j), k)
    decreases j
  {
    if j > 0 {
      TurnsSplit(Turn(c), j - 1, k);
    }
  }

  lemma {:induction false} TurnsOver(c: Cursor, k: nat)
    requires Sane(c) && Over(c)
    ensures Turns(c, k) == c
  {
    if k > 0 {
      TurnsOver(c, k - 1);
    }
  }

  /** Where a call stands when it has just come to `list`. */
  ghost function At(l: Links, list: nat, left: int, sent: seq<FatNode>): (c: Cursor)
    requires Known(l)
    ensures Sane(c)
  {
    Cursor(l, list, HeadOf(l, list), left, false, sent)
  }

  ghost function Start(l: Links): (c: Cursor)
    requires Known(l)
    ensures Sane(c)
  {
    At(l, 0, MAX_FAT_DATA, [])
  }

  /** `fatMerge` from list j on. */
  ghost function MergeFrom(l: Links, j: nat): (r: Links)
    requires Known(l) && j <= MAX_FAT_LIST
    ensures Known(r)
    decreases MAX_FAT_LIST - j
  {
    if j == MAX_FAT_LIST then l else (KnownJoin(l, j); MergeFrom(Join(l, j), j + 1))
  }

  /** One transmission: a merge and a call of `fatten` of that many turns. */
  ghost function Transmission(l: Links, turns: nat): (c: Cursor)
    requires Known(l)
    ensures Sane(c)
  {
    Turns(Start(MergeFrom(l, 0)), turns)
  }

  /** Where the calls of `fatten` stand at the end of each of `k` transmissions in a row. */
  ghost function Transmissions(l: Links, k: nat, turns: nat): (cs: seq<Cursor>)
    requires Known(l)
    ensures |cs| == k
    decreases k
  {
    if k == 0 then []
    else [Transmission(l, turns)] + Transmissions(Transmission(l, turns).l, k - 1, turns)
  }

  // ---------------------------------------------------------------- on well-formed lists

  lemma SpellsKnown(l: Links, ls: Lists)
    requires Spells(l, ls)
    ensures Known(l)
  {
    forall n | n in l.prev
      ensures (l.prev[n] == null || l.prev[n] in l.prev) && (l.next[n] == null || l.next[n] in l.prev)
    {
      NodeFacts(l, ls, n);
    }
    TempTailKnown(l, ls);
    forall a | 0 <= a < 10 && l.ends[a].head != null
      ensures l.ends[a].head in l.prev
    {
      HeadIsFirst(l, ls, a);
      NextInList(l, ls, a, 0);
    }
  }

  /** The cursor is part-way through its list, as `Reached` says. */
  ghost predicate Along(c: Cursor, ls: Lists, now: Lists, w: Pass<FatNode>, kept: seq<FatNode>,
                        rest: seq<FatNode>, sent: seq<FatNode>, before: seq<FatNode>)
  {
    && Spells(c.l, now) && Sane(c) && c.sent == before + sent
    && Reached(ls, now, c.list, w, kept, rest, sent, c.left, c.stop, c.at)
  }

  lemma PassedSpells(l: Links, now: Lists, i: nat, k: nat)
    requires Spells(l, now) && i < MAX_FAT_LIST && k < |now[i]|
    ensures now[i][k] in l.prev && Sized(Cut(l, now[i][k]))
    ensures Spells(Passed(l, now[i][k], i), Demoting(now, i, k))
  {
    DemoteSpells(l, now, i, k);
  }

  /** Sending a node moves the cursor to the node's follower. */
  lemma TakenTurn(c: Cursor, n: FatNode)
    requires Sane(c) && !Over(c) && c.at == n && n.pktSize < c.left
    ensures Sized(Cut(c.l, n))
    ensures var left := c.left - n.pktSize;
      Turn(c) == Cursor(Passed(c.l, n, c.list), c.list, c.l.prev[n], left, left < MAX_NONFAT, c.sent + [n])
  {
    KnownPassed(c.l, n, c.list);
  }

  /** A turn in the middle of a list that sends a node. */
  lemma AlongTaken(c: Cursor, ls: Lists, now: Lists, w: Pass<FatNode>, kept: seq<FatNode>,
                   rest: seq<FatNode>, sent: seq<FatNode>, before: seq<FatNode>)
    requires Along(c, ls, now, w, kept, rest, sent, before) && rest != [] && !c.stop
    requires rest[0].pktSize < c.left
    ensures |now| == 10 && |kept| < |now[c.list]| && Turn(c).list == c.list
    ensures Along(Turn(c), ls, Demoting(now, c.list, |kept|), w, kept, rest[1..], sent + [rest[0]], before)
  {
    var n := rest[0];
    ReachedStep(ls, now, c.list, w, kept, rest, sent, c.left);
    NextInList(c.l, now, c.list, |kept|);
    PassedSpells(c.l, now, c.list, |kept|);
    TakenTurn(c, n);
    Regroup(before, sent, [n]);
  }

  /** A turn in the middle of a list that passes a node over. */
  lemma AlongKept(c: Cursor, ls: Lists, now: Lists, w: Pass<FatNode>, kept: seq<FatNode>,
                  rest: seq<FatNode>, sent: seq<FatNode>, before: seq<FatNode>)
    requires Along(c, ls, now, w, kept, rest, sent, before) && rest != [] && !c.stop
    requires rest[0].pktSize >= c.left
    ensures Turn(c).list == c.list && Along(Turn(c), ls, now, w, kept + [rest[0]], rest[1..], sent, before)
  {
    ReachedStep(ls, now, c.list, w, kept, rest, sent, c.left);
    NextInList(c.l, now, c.list, |kept|);
  }

  /** The cursor has come to the end of its list, or has given up on it. */
  ghost predicate Through(c: Cursor, ls: Lists, i: nat, w: Pass<FatNode>, before: seq<FatNode>) {
    && |ls| == 10 && i < MAX_FAT_LIST && Sane(c)
    && Spells(c.l, Walked(ls, i, w.kept, w.sent))
    && c.list == i && c.left == w.left && c.stop == w.stop && c.sent == before + w.sent
    && (c.stop || c.at == null)
  }

  lemma {:induction false} AlongToEnd(c: Cursor, ls: Lists, now: Lists, w: Pass<FatNode>, kept: seq<FatNode>,
                                      rest: seq<FatNode>, sent: seq<FatNode>, before: seq<FatNode>)
    returns (k: nat)
    requires Along(c, ls, now, w, kept, rest, sent, before)
    ensures Through(Turns(c, k), ls, c.list, w, before)
    decreases |rest|
  {
    if c.stop || rest == [] {
      AheadDone(w, kept, sent, rest, PktSize, c.left, c.stop);
      k := 0;
    } else {
      if rest[0].pktSize < c.left {
        AlongTaken(c, ls, now, w, kept, rest, sent, before);
        k := AlongToEnd(Turn(c), ls, Demoting(now, c.list, |kept|), w, kept, rest[1..], sent + [rest[0]], before);
      } else {
        AlongKept(c, ls, now, w, kept, rest, sent, before);
        k := AlongToEnd(Turn(c), ls, now, w, kept + [rest[0]], rest[1..], sent, before);
      }
      k := k + 1;
    }
  }

  /** The turns over one list are the pass over it. */
  lemma ListTurns(l: Links, now: Lists, i: nat, left: int, before: seq<FatNode>) returns (k: nat)
    requires Spells(l, now) && i < MAX_FAT_LIST
    ensures Known(l)
    ensures Through(Turns(At(l, i, left, before), k), now, i, Walk(now[i], PktSize, left), before)
  {
    SpellsKnown(l, now);
    ReachedStart(now, i, left);
    HeadIsFirst(l, now, i);
    assert before + [] == before;
    k := AlongToEnd(At(l, i, left, before), now, now, Walk(now[i], PktSize, left), [], now[i], [], before);
  }

  /** The call that found the lists as `ls` is over and has done what `fatten` does on the queues. */
  ghost predicate Finished(d: Cursor, ls: Lists, end: Lists) {
    && |ls| == 10 && |end| == 10 && Over(d) && Spells(d.l, end)
    && Queued(end) == Fattened(Queued(ls), PktSize) && d.sent == Sent(Queued(ls), PktSize)
  }

  /** Either the call is over after list i, or one more turn brings it to the next list. */
  lemma OneListDone(c: Cursor, ls: Lists, now: Lists, i: nat, left: int, sent: seq<FatNode>) returns (end: Lists)
    requires Midway(ls, i, left, false, now, sent) && i < MAX_FAT_LIST
    requires Through(c, now, i, Walk(now[i], PktSize, left), sent)
    ensures c.stop ==> Finished(c, ls, end)
    ensures !c.stop ==>
              && Spells(c.l, end) && Midway(ls, i + 1, c.left, false, end, c.sent)
              && Turns(c, 1) == At(c.l, i + 1, c.left, c.sent)
  {
    var w := Walk(now[i], PktSize, left);
    end := Walked(now, i, w.kept, w.sent);
    MidwayStep(ls, i, left, now, sent);
    if c.stop {
      MidwayDone(ls, i + 1, w.left, true, end, c.sent);
    } else {
      NextList(c, i);
    }
  }

  lemma Legs(b: Cursor, j: nat, c: Cursor, d: Cursor, m: nat)
    requires Sane(b) && Sane(c) && Turns(b, j) == c && Turns(c, 1) == d
    ensures Sane(d) && Turns(b, j + 1 + m) == Turns(d, m)
  {
    TurnsSplit(b, j, 1 + m);
    TurnsSplit(c, 1, m);
  }

  /** From the start of list i a call comes to its end as `fatten` on the queues does. */
  lemma {:induction false} CallTurns(l: Links, ls: Lists, now: Lists, i: nat, left: int, sent: seq<FatNode>)
    returns (k: nat, end: Lists)
    requires Spells(l, now) && Known(l) && Midway(ls, i, left, false, now, sent)
    ensures Finished(Turns(At(l, i, left, sent), k), ls, end)
    decreases MAX_FAT_LIST - i, 0
  {
    if i == MAX_FAT_LIST {
      MidwayDone(ls, i, left, false, now, sent);
      k, end := 0, now;
    } else {
      var b := At(l, i, left, sent);
      var j := ListTurns(l, now, i, left, sent);
      end := OneListDone(Turns(b, j), ls, now, i, left, sent);
      k := j;
      if !Turns(b, j).stop {
        k, end := OtherLists(b, j, Turns(b, j), ls, end, i);
      }
    }
  }

  /** The call goes on with the lists after list i. */
  lemma {:induction false} OtherLists(b: Cursor, j: nat, c: Cursor, ls: Lists, now: Lists, i: nat)
    returns (k: nat, end: Lists)
    requires Sane(b) && Sane(c) && Turns(b, j) == c && i < MAX_FAT_LIST
    requires Spells(c.l, now) && Midway(ls, i + 1, c.left, false, now, c.sent)
    requires Turns(c, 1) == At(c.l, i + 1, c.left, c.sent)
    ensures Finished(Turns(b, k), ls, end)
    decreases MAX_FAT_LIST - i - 1, 1
  {
    k, end := CallTurns(c.l, ls, now, i + 1, c.left, c.sent);
    Legs(b, j, c, At(c.l, i + 1, c.left, c.sent), k);
    k := j + 1 + k;
  }

  lemma NextList(c: Cursor, i: nat)
    requires Sane(c) && c.list == i < MAX_FAT_LIST && !c.stop && c.at == null
    ensures Turns(c, 1) == At(c.l, i + 1, c.left, c.sent)
  {
    assert Turns(c, 1) == Turns(Turn(c), 0);
  }

  lemma {:induction false} MergeFromSpells(l: Links, ls: Lists, i: nat)
    requires |ls| == 10 && i <= MAX_FAT_LIST && Spells(l, JoinedUpTo(ls, i))
    ensures Known(l) && Spells(MergeFrom(l, i), JoinedUpTo(ls, MAX_FAT_LIST))
    decreases MAX_FAT_LIST - i
  {
    SpellsKnown(l, JoinedUpTo(ls, i));
    if i < MAX_FAT_LIST {
      JoinSpells(l, JoinedUpTo(ls, i), i);
      MergeFromSpells(Join(l, i), ls, i + 1);
    }
  }

  /** On well-formed lists these turns are those of FatUdp: a transmission comes to its end, sends what the
      queues send, in order, and leaves the lists the queues leave. */
  lemma TransmissionIsQueued(l: Links, ls: Lists) returns (turns: nat, end: Lists)
    requires Spells(l, ls)
    ensures Known(l)
    ensures var c, q := Transmission(l, turns), Merged(Queued(ls));
      Over(c) && Spells(c.l, end) && Queued(end) == Fattened(q, PktSize) && c.sent == Sent(q, PktSize)
  {
    var m := JoinedUpTo(ls, MAX_FAT_LIST);
    MergeFromSpells(l, ls, 0);
    SpellsKnown(l, ls);
    assert Queued(m) == Merged(Queued(ls));
    MidwayStart(m);
    turns, end := CallTurns(MergeFrom(l, 0), m, m, 0, MAX_FAT_DATA, []);
  }

  // ---------------------------------------------------------------- one node tied to itself

  /** The only node is both ends of lists a and b, if those are lists; its links are both `to`. */
  ghost function Held(n: FatNode, a: int, b: int, to: FatNode?): (l: Links)
    requires to == null || to == n
    ensures Known(l) && l.prev.Keys == {n}
  {
    Links(seq(10, c => if c == a || c == b then FatList(n, n) else FatList(null, null)), map[n := to], map[n := to])
  }

  /** The node tied to itself on temporary list i; past the last list it is on none, and untied. */
  ghost function Rung(n: FatNode, i: nat): (l: Links)
    ensures Known(l) && l.prev.Keys == {n}
  {
    if i < MAX_FAT_LIST then Held(n, MAX_FAT_LIST + i, MAX_FAT_LIST + i, n) else Held(n, -1, -1, null)
  }

  lemma Unlinked(n: FatNode)
    ensures Spells(Held(n, -1, -1, null), seq(10, _ => []))
  {
  }

  /** Two updates in a row tie a node to itself. */
  lemma UpdatedTwice(n: FatNode)
    ensures var l := Rung(n, MAX_FAT_LIST);
      && Sized(Cut(l, n)) && Sized(Refresh(l, n)) && n in Refresh(l, n).prev && Sized(Cut(Refresh(l, n), n))
      && Refresh(Refresh(l, n), n) == Rung(n, 0)
  {
    var l := Rung(n, MAX_FAT_LIST);
    assert Cut(l, n) == l;
    assert Refresh(l, n) == Held(n, 5, 5, null);
    assert Cut(Held(n, 5, 5, null), n) == Held(n, 5, 5, null);
    assert Link(Held(n, 5, 5, null), n, 0).ends == Held(n, 5, 5, n).ends;
  }

  /** The merge moves the node from temporary list i to fat list i. */
  lemma JoinRung(n: FatNode, i: nat, j: nat)
    requires i < MAX_FAT_LIST && j < MAX_FAT_LIST
    ensures Join(Rung(n, i), j) == if j == i then Held(n, i, i, n) else Rung(n, i)
    ensures Join(Held(n, i, i, n), j) == Held(n, i, i, n)
  {
    if j == i {
      assert Join(Rung(n, i), j).ends == Held(n, i, i, n).ends;
    }
  }

  lemma {:induction false} MergedRung(n: FatNode, i: nat, j: nat)
    requires i < MAX_FAT_LIST && j <= MAX_FAT_LIST
    ensures MergeFrom(Held(n, i, i, n), j) == Held(n, i, i, n)
    ensures j <= i ==> MergeFrom(Rung(n, i), j) == Held(n, i, i, n)
    decreases MAX_FAT_LIST - j
  {
    if j < MAX_FAT_LIST {
      JoinRung(n, i, j);
      MergedRung(n, i, j + 1);
    }
  }

  /** Empty lists are passed over, one a turn. */
  lemma {:induction false} PassEmpty(l: Links, list: nat, k: nat, left: int, sent: seq<FatNode>)
    requires Known(l) && list + k <= MAX_FAT_LIST
    requires forall a :: list <= a < list + k ==> l.ends[a].head == null
    ensures Turns(At(l, list, left, sent), k) == At(l, list + k, left, sent)
    decreases k
  {
    if k > 0 {
      assert Turn(At(l, list, left, sent)) == At(l, list + 1, left, sent);
      PassEmpty(l, list + 1, k - 1, left, sent);
    }
  }

  /** Sending the node once unties it but leaves it on its fat list as well as on the next list. */
  lemma FirstPass(n: FatNode, i: nat)
    requires i < MAX_FAT_LIST
    ensures Sized(Cut(Held(n, i, i, n), n))
    ensures Passed(Held(n, i, i, n), n, i) == Held(n, i, if i + 1 < MAX_FAT_LIST then 6 + i else i, null)
  {
    KnownCut(Held(n, i, i, n), n);
    assert Cut(Held(n, i, i, n), n) == Held(n, i, i, null);
    assert i + 1 < MAX_FAT_LIST ==>
        Link(Held(n, i, i, null), n, i + 1).ends == Held(n, i, 6 + i, null).ends;
  }

  /** Sending it again takes it off the fat list and ties it to itself on the next one. */
  lemma SecondPass(n: FatNode, i: nat)
    requires i < MAX_FAT_LIST
    ensures var l := Held(n, i, if i + 1 < MAX_FAT_LIST then 6 + i else i, null);
      Sized(Cut(l, n)) && Passed(l, n, i) == Rung(n, i + 1)
  {
    var b := if i + 1 < MAX_FAT_LIST then 6 + i else i;
    var l := Held(n, i, b, null);
    KnownCut(l, n);
    if b == i {
      assert Cut(l, n).ends == Rung(n, 5).ends;
    } else {
      assert Cut(l, n).ends == Held(n, b, b, null).ends;
      assert Cut(l, n) == Held(n, b, b, null);
      assert Link(Held(n, b, b, null), n, i + 1).ends == Rung(n, i + 1).ends;
    }
  }

  /** The node is its own follower, so a call of `fatten` tries it twice. */
  lemma SentTwice(n: FatNode, i: nat)
    requires i < MAX_FAT_LIST && 0 < n.pktSize < 50
    ensures var left := MAX_FAT_DATA - 2 * n.pktSize;
      Turns(At(Held(n, i, i, n), i, MAX_FAT_DATA, []), 2) ==
      Cursor(Rung(n, i + 1), i, null, left, left < MAX_NONFAT, [n, n])
  {
    FirstPass(n, i);
    SecondPass(n, i);
    var b := if i + 1 < MAX_FAT_LIST then 6 + i else i;
    var c := At(Held(n, i, i, n), i, MAX_FAT_DATA, []);
    var d := Cursor(Held(n, i, b, null), i, n, MAX_FAT_DATA - n.pktSize, false, [n]);
    assert Turn(c) == d;
    assert Turns(c, 2) == Turns(d, 1) == Turns(Turn(d), 0);
    assert [n] + [n] == [n, n];
  }

  /** After the second send nothing is left to send. */
  lemma NothingLeft(l: Links, i: nat, k: nat, left: int, stop: bool, sent: seq<FatNode>)
    requires Known(l) && i + k == MAX_FAT_LIST && k > 0
    requires forall a :: 0 <= a < MAX_FAT_LIST ==> l.ends[a].head == null
    ensures var c := Turns(Cursor(l, i, null, left, stop, sent), k);
      Over(c) && c.l == l && c.sent == sent
  {
    if stop {
      TurnsOver(Cursor(l, i, null, left, stop, sent), k);
    } else {
      PassEmpty(l, i, k, left, sent);
    }
  }

  lemma ThreeLegs(l: Links, i: nat, k: nat, c: Cursor, d: Cursor)
    requires Known(l) && Sane(c) && Sane(d)
    requires Turns(Start(l), i) == c && Turns(c, 2) == d
    ensures Turns(Start(l), i + 2 + k) == Turns(d, k)
  {
    TurnsSplit(Start(l), i, 2 + k);
    TurnsSplit(c, 2, k);
  }

  /** One call of `fatten` on the node alone on fat list i. */
  lemma OneCall(n: FatNode, i: nat, k: nat)
    requires i + k == MAX_FAT_LIST && k > 0 && 0 < n.pktSize < 50
    ensures var c := Turns(Start(Held(n, i, i, n)), i + 2 + k);
      SentTwiceBy(c, n) && c.l == Rung(n, i + 1)
  {
    var l, m, left := Held(n, i, i, n), Rung(n, i + 1), MAX_FAT_DATA - 2 * n.pktSize;
    PassEmpty(l, 0, i, MAX_FAT_DATA, []);
    SentTwice(n, i);
    ThreeLegs(l, i, k, At(l, i, MAX_FAT_DATA, []), Cursor(m, i, null, left, left < MAX_NONFAT, [n, n]));
    NothingLeft(m, i, k, left, left < MAX_NONFAT, [n, n]);
  }

  /** One merge and one `fatten` send the node twice and move it up one list. */
  lemma OneRound(n: FatNode, i: nat, turns: nat)
    requires i < MAX_FAT_LIST && 0 < n.pktSize < 50 && turns == MAX_FAT_LIST + 2
    ensures var c := Transmission(Rung(n, i), turns);
      SentTwiceBy(c, n) && c.l == Rung(n, i + 1)
  {
    MergedRung(n, i, 0);
    OneCall(n, i, MAX_FAT_LIST - i);
  }

  /** The call is over and sent n twice. */
  ghost predicate SentTwiceBy(c: Cursor, n: FatNode) {
    Over(c) && c.sent == [n, n]
  }

  lemma LaterTransmissions(l: Links, m: Links, k: nat, turns: nat, r: nat)
    requires Known(l) && Known(m) && r < k && Transmission(l, turns).l == m
    ensures Transmissions(l, k, turns)[r] ==
            if r == 0 then Transmission(l, turns) else Transmissions(m, k - 1, turns)[r - 1]
  {
  }

  /** A transmission on l sends n twice and leaves m. */
  ghost predicate DoubleRound(l: Links, m: Links, turns: nat, n: FatNode) {
    Known(l) && Known(m) && SentTwiceBy(Transmission(l, turns), n) && Transmission(l, turns).l == m
  }

  lemma {:induction false} EveryRound(ls: seq<Links>, turns: nat, n: FatNode, r: nat)
    requires r + 1 < |ls| && Known(ls[0])
    requires forall i :: 0 <= i < |ls| - 1 ==> DoubleRound(ls[i], ls[i + 1], turns, n)
    ensures SentTwiceBy(Transmissions(ls[0], |ls| - 1, turns)[r], n)
    decreases r
  {
    assert DoubleRound(ls[0], ls[0 + 1], turns, n);
    LaterTransmissions(ls[0], ls[1], |ls| - 1, turns, r);
    if r > 0 {
      EveryRound(ls[1..], turns, n, r - 1);
    }
  }

  /** The states the node passes through. */
  ghost function Ladder(n: FatNode): (ls: seq<Links>)
    ensures |ls| == MAX_FAT_LIST + 1 && forall i :: 0 <= i <= MAX_FAT_LIST ==> ls[i] == Rung(n, i)
  {
    seq(MAX_FAT_LIST + 1, i requires 0 <= i => Rung(n, i))
  }

  lemma LadderRounds(n: FatNode)
    requires 0 < n.pktSize < 50
    ensures forall i :: 0 <= i < MAX_FAT_LIST ==> DoubleRound(Ladder(n)[i], Ladder(n)[i + 1], MAX_FAT_LIST + 2, n)
  {
    forall i | 0 <= i < MAX_FAT_LIST
      ensures DoubleRound(Ladder(n)[i], Ladder(n)[i + 1], MAX_FAT_LIST + 2, n)
    {
      OneRound(n, i, MAX_FAT_LIST + 2);
    }
  }

  /** From ten empty lists, a packet updated twice in a row and never again is sent ten times, twice in
      each of the next five transmissions: the bounds of FatCity.RunAfterUpdate do not hold for runs that
      update an end of a temporary list. */
  lemma UpdatedTwiceSentTenTimes(n: FatNode)
    requires 0 < n.pktSize < 50
    ensures var l := Held(n, -1, -1, null);
      && Spells(l, seq(10, _ => []))
      && Sized(Cut(l, n)) && Sized(Refresh(l, n)) && n in Refresh(l, n).prev && Sized(Cut(Refresh(l, n), n))
      && Known(Refresh(Refresh(l, n), n))
      && var cs := Transmissions(Refresh(Refresh(l, n), n), MAX_FAT_LIST, MAX_FAT_LIST + 2);
         forall r :: 0 <= r < MAX_FAT_LIST ==> SentTwiceBy(cs[r], n)
  {
    Unlinked(n);
    UpdatedTwice(n);
    LadderRounds(n);
    var cs := Transmissions(Rung(n, 0), MAX_FAT_LIST, MAX_FAT_LIST + 2);
    forall r | 0 <= r < MAX_FAT_LIST
      ensures SentTwiceBy(cs[r], n)
    {
      EveryRound(Ladder(n), MAX_FAT_LIST + 2, n, r);
    }
  }
}
