/** The fat-UDP queues as the server runs them: ten lists threaded through nodes in place. */
module FatUdp {
  import opened FatDrain
  import opened FatLinks
  import opened FatPasses
  import opened FatSpec

  class FatCity {
    const fatlist: array<FatList>
    const tmplist: array<FatList>
    ghost const nodes: set<FatNode>
    /** The ends and links in memory, as a value. */
    ghost var links: Links
    /** The ten lists, fat lists first. */
    ghost var lists: Lists
    /** Everything `fatten` has handed to the transport. */
    ghost var trace: seq<FatNode>
    var packetsSent: nat

    ghost predicate Shape() {
      fatlist.Length == MAX_FAT_LIST && tmplist.Length == MAX_FAT_LIST && fatlist != tmplist
    }

    /** The ends and links in memory are those of l. */
    ghost predicate Shows(l: Links)
      reads fatlist, tmplist, nodes
    {
      && Shape()
      && Sized(l) && l.prev.Keys == nodes
      && (forall a :: 0 <= a < MAX_FAT_LIST ==> fatlist[a] == l.ends[a])
      && (forall a :: 0 <= a < MAX_FAT_LIST ==> tmplist[a] == l.ends[MAX_FAT_LIST + a])
      && (forall n :: n in nodes ==> n.prev == l.prev[n] && n.next == l.next[n])
    }

    /** The pointers spell out the ten lists. */
    ghost predicate Valid()
      reads this, fatlist, tmplist, nodes
    {
      Shows(links) && Spells(links, lists)
    }

    ghost function Contents(): (q: Queues<FatNode>)
      requires |lists| == 10
      reads this
      ensures q.Shaped()
    {
      Queued(lists)
    }

    constructor (ghost nodes: set<FatNode>)
      requires forall n :: n in nodes ==> n.prev == null && n.next == null
      ensures Valid() && this.nodes == nodes && trace == []
      ensures lists == seq(10, _ => [])
      ensures fresh(fatlist) && fresh(tmplist)
    {
      fatlist := new FatList[MAX_FAT_LIST](_ => FatList(null, null));
      tmplist := new FatList[MAX_FAT_LIST](_ => FatList(null, null));
      this.nodes := nodes;
      links := Links(seq(10, _ => FatList(null, null)), map n | n in nodes :: null, map n | n in nodes :: null);
      lists := seq(10, _ => []);
      trace := [];
      packetsSent := 0;
    }

    /** The fat list that n heads, or MAX_FAT_LIST. */
    method HeadOf(n: FatNode) returns (i: nat)
      requires Shape()
      ensures i <= MAX_FAT_LIST && (i < MAX_FAT_LIST ==> fatlist[i].head == n)
      ensures forall j :: 0 <= j < i ==> fatlist[j].head != n
    {
      i := 0;
      while i < MAX_FAT_LIST && fatlist[i].head != n
        invariant i <= MAX_FAT_LIST
        invariant forall j :: 0 <= j < i ==> fatlist[j].head != n
      {
        i := i + 1;
      }
    }

    /** The fat list that n ends, or MAX_FAT_LIST. */
    method TailOf(n: FatNode) returns (i: nat)
      requires Shape()
      ensures i <= MAX_FAT_LIST && (i < MAX_FAT_LIST ==> fatlist[i].tail == n)
      ensures forall j :: 0 <= j < i ==> fatlist[j].tail != n
    {
      i := 0;
      while i < MAX_FAT_LIST && fatlist[i].tail != n
        invariant i <= MAX_FAT_LIST
        invariant forall j :: 0 <= j < i ==> fatlist[j].tail != n
      {
        i := i + 1;
      }
    }

    /** The part of `dequeue` that looks toward the head. */
    method CutHeadSide(n: FatNode)
      requires Shows(links) && Detachable(links, n)
      modifies `links, fatlist, nodes`next
      ensures Shows(links) && links == CutHead(old(links), n)
    {
      if n.next == null {
        var i := HeadOf(n);
        if i < MAX_FAT_LIST {
          MoveHeadBack(n, i);
        } else {
          links := CutHead(links, n);
        }
      } else {
        links := CutHead(links, n);
        if n.prev != null {
          n.prev.next := n.next;
        }
      }
    }

    method MoveHeadBack(n: FatNode, i: nat)
      requires Shows(links) && Detachable(links, n)
      requires n.next == null && i < MAX_FAT_LIST && fatlist[i].head == n
      modifies `links, fatlist, nodes`next
      ensures Shows(links) && links == CutHead(old(links), n)
    {
      links := CutHead(links, n);
      fatlist[i] := fatlist[i].(head := n.prev);
      if fatlist[i].head != null {
        fatlist[i].head.next := null;
      }
    }

    /** The part of `dequeue` that looks toward the tail. */
    method CutTailSide(n: FatNode)
      requires Shows(links) && Detachable(links, n)
      modifies `links, fatlist, nodes`prev
      ensures Shows(links) && links == CutTail(old(links), n)
    {
      if n.prev == null {
        var i := TailOf(n);
        if i < MAX_FAT_LIST {
          MoveTailForward(n, i);
        } else {
          links := CutTail(links, n);
        }
      } else {
        links := CutTail(links, n);
        if n.next != null {
          n.next.prev := n.prev;
        }
      }
    }

    method MoveTailForward(n: FatNode, i: nat)
      requires Shows(links) && Detachable(links, n)
      requires n.prev == null && i < MAX_FAT_LIST && fatlist[i].tail == n
      modifies `links, fatlist, nodes`prev
      ensures Shows(links) && links == CutTail(old(links), n)
    {
      links := CutTail(links, n);
      fatlist[i] := fatlist[i].(tail := n.next);
      if fatlist[i].tail != null {
        fatlist[i].tail.prev := null;
      }
    }

    /** Unlinks n.  The search for n's list looks at the fat lists only. */
    method Dequeue(n: FatNode)
      requires Shows(links) && Detachable(links, n)
      modifies `links, fatlist, nodes
      ensures Shows(links) && links == Cut(old(links), n)
    {
      CutInHalves(links, n);
      DetachableAfterHead(links, n);
      CutHeadSide(n);
      CutTailSide(n);
      Forget(n);
    }

    method Forget(n: FatNode)
      requires Shows(links) && n in nodes
      modifies `links, n
      ensures Shows(links)
      ensures links == Links(old(links).ends, old(links).prev[n := null], old(links).next[n := null])
    {
      n.prev, n.next := null, null;
      links := Links(links.ends, links.prev[n := null], links.next[n := null]);
    }

    /** Puts n at the tail of temporary list `list`. */
    method Enqueue(n: FatNode, list: nat)
      requires Shows(links) && n in nodes && list < MAX_FAT_LIST
      requires tmplist[list].tail != null ==> tmplist[list].tail in nodes
      modifies `links, tmplist, nodes
      ensures Shows(links) && links == Link(old(links), n, list)
    {
      links := Link(links, n, list);
      if tmplist[list].tail == null {
        tmplist[list] := FatList(n, n);
      } else {
        n.next := tmplist[list].tail;
        n.next.prev := n;
        tmplist[list] := tmplist[list].(tail := n);
      }
    }

    /** A fresh packet moves to temporary list 0.  The ten lists stay well formed exactly when the
        node was not the first or last of a temporary list. */
    method UpdateFat(n: FatNode)
      requires Valid() && n in nodes
      modifies `links, `lists, fatlist, tmplist, nodes
      ensures Shows(links)
      ensures (exists ls :: Spells(links, ls)) <==> !TempEnd(old(links), n)
      ensures !TempEnd(old(links), n) ==> Valid() && Contents() == Updated(old(Contents()), n)
      ensures Sized(Cut(old(links), n)) && links == Refresh(old(links), n)
    {
      ghost var l, ls := links, lists;
      ListsDetach(l, ls, n);
      TempTailKnown(l, ls);
      MoveToTemp(n, 0);
      if !TempEnd(l, n) {
        RefreshSpells(l, ls, n);
        lists := Refreshed(ls, n);
      } else {
        forall ls'
          ensures !Spells(links, ls')
        {
          RefreshBreaks(l, ls, n, ls');
        }
      }
    }

    /** Moves a node just sent from list i to the next temporary list, or drops it after the last. */
    method Demote(n: FatNode, i: nat, ghost k: nat)
      requires Valid() && i < MAX_FAT_LIST
      requires k < |lists[i]| && lists[i][k] == n
      modifies `links, `lists, fatlist, tmplist, nodes
      ensures Valid() && lists == Demoting(old(lists), i, k)
      ensures n in old(links).prev && Sized(Cut(old(links), n)) && links == Passed(old(links), n, i)
    {
      ghost var l, ls := links, lists;
      DemoteSpells(l, ls, i, k);
      ListsDetach(l, ls, n);
      MoveToTemp(n, i + 1);
      lists := Demoting(ls, i, k);
    }

    method MoveToTemp(n: FatNode, list: nat)
      requires Shows(links) && Detachable(links, n)
      requires Sized(Cut(links, n))
      requires forall a :: 0 <= a < 10 && Cut(links, n).ends[a].tail != null ==> Cut(links, n).ends[a].tail in nodes
      modifies `links, fatlist, tmplist, nodes
      ensures Shows(links) && Sized(Cut(old(links), n))
      ensures links == if list < MAX_FAT_LIST then Link(Cut(old(links), n), n, list) else Cut(old(links), n)
    {
      Dequeue(n);
      if list < MAX_FAT_LIST {
        Enqueue(n, list);
      }
    }

    /** Sends n if it is smaller than the room left, and finds its follower on list i. */
    method TryOne(n: FatNode, i: nat, ghost k: nat, room: int) returns (next: FatNode?, left: int, took: bool)
      requires Valid() && i < MAX_FAT_LIST
      requires k < |lists[i]| && lists[i][k] == n
      modifies `links, `lists, `trace, `packetsSent, fatlist, tmplist, nodes
      ensures Valid() && next == After(old(lists)[i], k)
      ensures took == (n.pktSize < room)
      ensures took ==>
                && left == room - n.pktSize && lists == Demoting(old(lists), i, k)
                && trace == old(trace) + [n] && packetsSent == old(packetsSent) + 1
      ensures !took ==>
                && left == room && lists == old(lists) && trace == old(trace) && packetsSent == old(packetsSent)
    {
      NextInList(links, lists, i, k);
      next := n.prev;
      left := room;
      took := n.pktSize < left;
      if took {
        trace := trace + [n];
        left := left - n.pktSize;
        packetsSent := packetsSent + 1;
        Demote(n, i, k);
      }
    }

    /** First fit over fat list i, from head to tail, with `room` bytes left. */
    method WalkList(i: nat, room: int) returns (left: int, stop: bool)
      requires Valid() && i < MAX_FAT_LIST
      modifies `links, `lists, `trace, `packetsSent, fatlist, tmplist, nodes
      ensures Valid()
      ensures var w := Walk(old(lists)[i], PktSize, room);
              && left == w.left && stop == w.stop
              && trace == old(trace) + w.sent
              && packetsSent == old(packetsSent) + |w.sent|
              && lists == Walked(old(lists), i, w.kept, w.sent)
    {
      ghost var ls := lists;
      ghost var kept: seq<FatNode>, sent: seq<FatNode>, rest: seq<FatNode> := [], [], lists[i];
      ghost var w := Walk(ls[i], PktSize, room);
      var fatp := fatlist[i].head;
      left, stop := room, false;
      HeadIsFirst(links, lists, i);
      ReachedStart(ls, i, room);
      while fatp != null && !stop
        invariant Valid()
        invariant Reached(ls, lists, i, w, kept, rest, sent, left, stop, fatp)
        invariant trace == old(trace) + sent && packetsSent == old(packetsSent) + |sent|
        decreases |rest|
      {
        ReachedStep(ls, lists, i, w, kept, rest, sent, left);
        ghost var n := rest[0];
        var took;
        fatp, left, took := TryOne(fatp, i, |kept|, left);
        rest := rest[1..];
        if took {
          sent := sent + [n];
          stop := left < MAX_NONFAT;
        } else {
          kept := kept + [n];
        }
      }
      AheadDone(w, kept, sent, rest, PktSize, left, stop);
    }

    /** Adds up to MAX_FAT_DATA bytes of queued packets to a transmission: first fit, list by list,
        each packet sent moving to the next temporary list. */
    method Fatten()
      requires Valid()
      modifies `links, `lists, `trace, `packetsSent, fatlist, tmplist, nodes
      ensures Valid()
      ensures Contents() == Fattened(old(Contents()), PktSize)
      ensures trace == old(trace) + Sent(old(Contents()), PktSize)
      ensures packetsSent == old(packetsSent) + |Sent(old(Contents()), PktSize)|
    {
      ghost var ls := lists;
      ghost var sent: seq<FatNode> := [];
      var i, left, stop := 0, MAX_FAT_DATA, false;
      MidwayStart(ls);
      while i < MAX_FAT_LIST && !stop
        invariant Valid() && 0 <= i <= MAX_FAT_LIST
        invariant Midway(ls, i, left, stop, lists, sent)
        invariant trace == old(trace) + sent && packetsSent == old(packetsSent) + |sent|
        decreases MAX_FAT_LIST - i
      {
        left, stop, sent := PassOver(i, left, ls, sent, old(trace));
        i := i + 1;
      }
      MidwayDone(ls, i, left, stop, lists, sent);
    }

    /** The pass over fat list i, as part of the call of `fatten` that found the lists as `ls`. */
    method PassOver(i: nat, room: int, ghost ls: Lists, ghost before: seq<FatNode>, ghost start: seq<FatNode>)
      returns (left: int, stop: bool, ghost sent: seq<FatNode>)
      requires Valid() && i < MAX_FAT_LIST
      requires Midway(ls, i, room, false, lists, before) && trace == start + before
      modifies `links, `lists, `trace, `packetsSent, fatlist, tmplist, nodes
      ensures Valid()
      ensures Midway(ls, i + 1, left, stop, lists, sent)
      ensures trace == start + sent && packetsSent == old(packetsSent) + |sent| - |before|
    {
      MidwayStep(ls, i, room, lists, before);
      ghost var more := Walk(lists[i], PktSize, room).sent;
      Regroup(start, before, more);
      sent := before + more;
      left, stop := WalkList(i, room);
    }

    /** Appends every temporary list to its fat list and empties it. */
    method FatMerge()
      requires Valid()
      modifies `links, `lists, fatlist, tmplist, nodes
      ensures Valid()
      ensures Contents() == Merged(old(Contents()))
    {
      ghost var ls := lists;
      var i := 0;
      while i < MAX_FAT_LIST
        invariant Valid() && 0 <= i <= MAX_FAT_LIST
        invariant lists == JoinedUpTo(ls, i)
      {
        MergeList(i);
        i := i + 1;
      }
      assert Contents() == Merged(Queued(ls));
    }

    method MergeList(i: nat)
      requires Valid() && i < MAX_FAT_LIST
      modifies `links, `lists, fatlist, tmplist, nodes
      ensures Valid() && lists == Joined(old(lists), i)
      ensures links == Join(old(links), i)
    {
      JoinSpells(links, lists, i);
      JoinEnds(links, lists, i);
      Hook(i);
      lists := Joined(lists, i);
    }

    method Hook(i: nat)
      requires Shows(links) && i < MAX_FAT_LIST
      requires fatlist[i].head != null && tmplist[i].head != null ==>
                 && fatlist[i].tail != null && fatlist[i].tail in nodes && tmplist[i].head in nodes
      requires tmplist[i].head == null ==> tmplist[i].tail == null
      modifies `links, fatlist, tmplist, nodes
      ensures Shows(links) && links == Join(old(links), i)
    {
      links := Join(links, i);
      if tmplist[i].head == null {
        return;
      }
      if fatlist[i].head == null {
        fatlist[i] := tmplist[i];
      } else {
        tmplist[i].head.next := fatlist[i].tail;
        fatlist[i].tail.prev := tmplist[i].head;
        fatlist[i] := fatlist[i].(tail := tmplist[i].tail);
      }
      tmplist[i] := FatList(null, null);
    }

    /** Starting over for a client: every node is unlinked and the fat lists are emptied, but the
        temporary lists are forgotten about. */
    method Reset(all: seq<FatNode>)
      requires Valid() && forall n :: n in nodes <==> n in all
      modifies `links, `lists, fatlist, nodes
      ensures Shows(links)
      ensures (exists ls :: Spells(links, ls)) <==> TempsAtMostOne(old(links))
      ensures TempsAtMostOne(old(links)) ==> Valid() && lists == ClearedLists(old(lists))
    {
      ghost var l, ls := links, lists;
      Unlink(all);
      if TempsAtMostOne(l) {
        ClearedSpells(l, ls);
        lists := ClearedLists(ls);
      } else {
        forall ls'
          ensures !Spells(links, ls')
        {
          ClearedBreaks(l, ls, ls');
        }
      }
    }

    method Unlink(all: seq<FatNode>)
      requires Shows(links) && forall n :: n in nodes <==> n in all
      modifies `links, fatlist, nodes
      ensures Shows(links) && links == Cleared(old(links))
    {
      ghost var cleared := Cleared(links);
      links := cleared;
      for i := 0 to |all|
        invariant links == cleared
        invariant forall j :: 0 <= j < i ==> all[j].prev == null && all[j].next == null
      {
        all[i].prev, all[i].next := null, null;
      }
      for i := 0 to MAX_FAT_LIST
        invariant links == cleared
        invariant forall n :: n in nodes ==> n.prev == null && n.next == null
        invariant forall j :: 0 <= j < i ==> fatlist[j] == FatList(null, null)
      {
        fatlist[i] := FatList(null, null);
      }
    }

    // -------------------------------------------------------------- whole runs

    /** One operation on the real lists is the operation on the queues, unless it updates an end of a
        temporary list. */
    method Step(op: Op<FatNode>)
      requires Valid() && (op.Update? ==> op.node in nodes && !AtTempEnd(Contents(), op.node))
      modifies `links, `lists, `trace, `packetsSent, fatlist, tmplist, nodes
      ensures Valid()
      ensures Contents() == Apply(old(Contents()), op, PktSize)
      ensures trace == old(trace) + StepSent(old(Contents()), op, PktSize)
    {
      match op {
        case Update(n) =>
          TempEndIff(links, lists, n);
          UpdateFat(n);
        case Fatten => Fatten();
        case Merge => FatMerge();
      }
    }

    /** The run updates nodes of this server only, and none at an end of a temporary list. */
    ghost predicate Serviceable(q: Queues<FatNode>, ops: seq<Op<FatNode>>)
      requires q.Shaped()
    {
      (forall k :: 0 <= k < |ops| && ops[k].Update? ==> ops[k].node in nodes) && Clean(q, ops, PktSize)
    }

    lemma ServiceableStep(q: Queues<FatNode>, ops: seq<Op<FatNode>>)
      requires q.Shaped() && ops != [] && Serviceable(q, ops)
      ensures ops[0].Update? ==> ops[0].node in nodes && !AtTempEnd(q, ops[0].node)
      ensures Serviceable(Apply(q, ops[0], PktSize), ops[1..])
    {
    }

    /** A run of updates, transmissions and merges on the real lists is the run of the queues, as long
        as no update meets an end of a temporary list. */
    method Run(ops: seq<Op<FatNode>>)
      requires Valid() && Serviceable(Contents(), ops)
      modifies `links, `lists, `trace, `packetsSent, fatlist, tmplist, nodes
      ensures Valid()
      ensures Contents() == FatSpec.Run(old(Contents()), ops, PktSize)
      ensures trace == old(trace) + RunSent(old(Contents()), ops, PktSize)
      decreases |ops|
    {
      if ops == [] {
        return;
      }
      ghost var q, sent := Contents(), trace;
      ServiceableStep(q, ops);
      RunSentStep(q, ops, PktSize, sent);
      Step(ops[0]);
      Run(ops[1..]);
    }

    /** Between two clean updates of x the server resends it at most MAX_FAT_LIST times, and at most once
        in any one transmission. */
    method RunAfterUpdate(x: FatNode, ops: seq<Op<FatNode>>)
      requires Valid() && x in nodes && !AtTempEnd(Contents(), x)
      requires Update(x) !in ops && Serviceable(Updated(Contents(), x), ops)
      modifies `links, `lists, `trace, `packetsSent, fatlist, tmplist, nodes
      ensures Valid() && old(trace) <= trace
      ensures Count(trace[|old(trace)|..], x) <= MAX_FAT_LIST
      ensures Count(Sent(Contents(), PktSize), x) <= 1
    {
      SpelledOnce(links, lists, x);
      ResentAtMostFiveTimes(Contents(), ops, PktSize, x);
      TempEndIff(links, lists, x);
      UpdateFat(x);
      Run(ops);
    }

    lemma RoundsServiceable(q: Queues<FatNode>, n: nat)
      requires q.Shaped()
      ensures Serviceable(q, Rounds(n))
      decreases n
    {
      if n > 0 {
        var ops: seq<Op<FatNode>> := Rounds(n);
        assert ops[0] == Merge && ops[1..][0] == Op.Fatten && ops[1..][1..] == Rounds(n - 1);
        RoundsServiceable(Fattened(Merged(q), PktSize), n - 1);
      }
    }

    /** Left alone for long enough, the server sends each of its small packets exactly as often as it still
        may be sent, and no packet too large for a transmission. */
    method LeftAlone(n: nat)
      requires Valid() && n >= Work(Contents(), PktSize)
      modifies `links, `lists, `trace, `packetsSent, fatlist, tmplist, nodes
      ensures Valid() && old(trace) <= trace
      ensures forall x: FatNode :: x in nodes ==>
                Count(trace[|old(trace)|..], x) ==
                if Small(x, PktSize) then Resends(old(Contents()), x) else 0
    {
      ghost var q, before := Contents(), trace;
      RoundsServiceable(q, n);
      Run(Rounds(n));
      forall x: FatNode | x in nodes
        ensures Count(trace[|before|..], x) == if Small(x, PktSize) then Resends(q, x) else 0
      {
        EverySmallPacketIsResent(q, PktSize, n, x);
        assert trace[|before|..] == RunSent(q, Rounds(n), PktSize);
      }
    }
  }
}
