/** The pointers behind the ten queues, as a value: the two ends of each list and, for every node,
    its `prev` (toward the tail) and its `next` (toward the head).  Lists 0 to 4 are the fat lists,
    5 to 9 the temporary ones. */
module FatLinks {
  import opened FatSpec

  class FatNode {
    const pktSize: nat
    var prev: FatNode?
    var next: FatNode?

    constructor (pktSize: nat)
      ensures this.pktSize == pktSize && prev == null && next == null
    {
      this.pktSize := pktSize;
      prev, next := null, null;
    }
  }

  function PktSize(n: FatNode): nat {
    n.pktSize
  }

  datatype FatList = FatList(head: FatNode?, tail: FatNode?)

  datatype Links = Links(ends: seq<FatList>, prev: map<FatNode, FatNode?>, next: map<FatNode, FatNode?>)

  type Lists = seq<seq<FatNode>>

  ghost predicate NoRepeat(s: seq<FatNode>) {
    forall i, j :: 0 <= i < j < |s| ==> s[i] != s[j]
  }

  ghost predicate Apart(s: seq<FatNode>, t: seq<FatNode>) {
    forall i, j :: 0 <= i < |s| && 0 <= j < |t| ==> s[i] != t[j]
  }

  /** No node occurs twice over all the lists. */
  ghost predicate Distinct(ls: Lists) {
    && (forall a {:trigger NoRepeat(ls[a])} :: 0 <= a < |ls| ==> NoRepeat(ls[a]))
    && (forall a, b {:trigger Apart(ls[a], ls[b])} ::
          0 <= a < |ls| && 0 <= b < |ls| && a != b ==> Apart(ls[a], ls[b]))
  }

  ghost predicate OnNone(ls: Lists, n: FatNode) {
    forall a :: 0 <= a < |ls| ==> n !in ls[a]
  }

  ghost predicate Sized(l: Links) {
    |l.ends| == 10 && l.prev.Keys == l.next.Keys
  }

  /** The node after s[i], toward the tail. */
  function After(s: seq<FatNode>, i: nat): FatNode?
    requires i < |s|
  {
    if i == |s| - 1 then null else s[i + 1]
  }

  /** The node before s[i], toward the head. */
  function Before(s: seq<FatNode>, i: nat): FatNode?
    requires i < |s|
  {
    if i == 0 then null else s[i - 1]
  }

  function EndsOf(s: seq<FatNode>): FatList {
    if s == [] then FatList(null, null) else FatList(s[0], s[|s| - 1])
  }

  /** The two ends e and the links of the nodes of s spell out the list s. */
  ghost predicate Chain(l: Links, e: FatList, s: seq<FatNode>)
    requires Sized(l)
  {
    && e == EndsOf(s)
    && (forall i {:trigger l.prev[s[i]]} {:trigger s[i] in l.prev} ::
          0 <= i < |s| ==> s[i] in l.prev && l.prev[s[i]] == After(s, i))
    && (forall i {:trigger l.next[s[i]]} {:trigger s[i] in l.next} ::
          0 <= i < |s| ==> s[i] in l.next && l.next[s[i]] == Before(s, i))
  }

  /** The ten lists are well formed and hold exactly what ls says; every other node is unlinked. */
  ghost predicate Spells(l: Links, ls: Lists) {
    && Sized(l)
    && |ls| == 10
    && Distinct(ls)
    && (forall a {:trigger Chain(l, l.ends[a], ls[a])} :: 0 <= a < 10 ==> Chain(l, l.ends[a], ls[a]))
    && (forall n {:trigger OnNone(ls, n)} :: n in l.prev && OnNone(ls, n) ==> l.prev[n] == null && l.next[n] == null)
  }

  /** n is the first or the last node of some temporary list. */
  predicate TempEnd(l: Links, n: FatNode)
    requires |l.ends| == 10
  {
    exists j :: MAX_FAT_LIST <= j < 10 && (l.ends[j].head == n || l.ends[j].tail == n)
  }

  predicate FatHead(l: Links, n: FatNode)
    requires |l.ends| == 10
  {
    exists j :: 0 <= j < MAX_FAT_LIST && l.ends[j].head == n
  }

  predicate FatTail(l: Links, n: FatNode)
    requires |l.ends| == 10
  {
    exists j :: 0 <= j < MAX_FAT_LIST && l.ends[j].tail == n
  }

  /** What `dequeue` does to the pointers.  It looks for n among the ends of the fat lists only. */
  ghost function Cut(l: Links, n: FatNode): Links
    requires Sized(l) && n in l.prev
  {
    var p, x := l.prev[n], l.next[n];
    var ends := seq(10, a requires 0 <= a < 10 =>
      if a < MAX_FAT_LIST then
        FatList(if x == null && l.ends[a].head == n then p else l.ends[a].head,
                if p == null && l.ends[a].tail == n then x else l.ends[a].tail)
      else l.ends[a]);
    var next := if p != null && (x != null || FatHead(l, n)) then l.next[p := x] else l.next;
    var prev := if x != null && (p != null || FatTail(l, n)) then l.prev[x := p] else l.prev;
    Links(ends, prev[n := null], next[n := null])
  }

  /** The half of `dequeue` that looks toward the head: n's list loses its head, or n's follower
      gets a new `next`. */
  ghost function CutHead(l: Links, n: FatNode): Links
    requires Sized(l) && n in l.prev
  {
    var p, x := l.prev[n], l.next[n];
    Links(
      seq(10, a requires 0 <= a < 10 =>
        if a < MAX_FAT_LIST && x == null && l.ends[a].head == n then l.ends[a].(head := p) else l.ends[a]),
      l.prev,
      if p != null && (x != null || FatHead(l, n)) then l.next[p := x] else l.next)
  }

  /** The half that looks toward the tail. */
  ghost function CutTail(l: Links, n: FatNode): Links
    requires |l.ends| == 10 && n in l.prev && n in l.next
  {
    var p, x := l.prev[n], l.next[n];
    Links(
      seq(10, a requires 0 <= a < 10 =>
        if a < MAX_FAT_LIST && p == null && l.ends[a].tail == n then l.ends[a].(tail := x) else l.ends[a]),
      if x != null && (p != null || FatTail(l, n)) then l.prev[x := p] else l.prev,
      l.next)
  }

  lemma CutInHalves(l: Links, n: FatNode)
    requires Sized(l) && n in l.prev && l.prev[n] != n && l.next[n] != n
    ensures var t := CutTail(CutHead(l, n), n);
            Cut(l, n) == Links(t.ends, t.prev[n := null], t.next[n := null])
  {
    var h := CutHead(l, n);
    forall a | 0 <= a < MAX_FAT_LIST
      ensures h.ends[a].tail == l.ends[a].tail
    {
    }
    assert FatTail(h, n) == FatTail(l, n);
    assert CutTail(h, n).ends == Cut(l, n).ends;
  }

  /** What `enqueue` does to the pointers: n becomes the tail of temporary list j. */
  ghost function Link(l: Links, n: FatNode, j: nat): Links
    requires Sized(l) && n in l.prev && j < MAX_FAT_LIST
  {
    var a := MAX_FAT_LIST + j;
    var t := l.ends[a].tail;
    if t == null then
      l.(ends := l.ends[a := FatList(n, n)])
    else
      Links(l.ends[a := l.ends[a].(tail := n)], l.prev[t := n], l.next[n := t])
  }

  /** What `fatMerge` does for list i: hook the temporary list on behind the fat list and empty it. */
  ghost function Join(l: Links, i: nat): Links
    requires Sized(l) && i < MAX_FAT_LIST
  {
    var f, t := l.ends[i], l.ends[MAX_FAT_LIST + i];
    if t.head == null then
      l
    else if f.head == null then
      l.(ends := l.ends[i := t][MAX_FAT_LIST + i := FatList(null, null)])
    else if f.tail == null then
      l
    else
      Links(l.ends[i := f.(tail := t.tail)][MAX_FAT_LIST + i := FatList(null, null)],
            l.prev[f.tail := t.head], l.next[t.head := f.tail])
  }

  /** What `dequeue` needs of the pointers: n's neighbours are other known nodes, and n is an end of
      at most one fat list on each side. */
  ghost predicate Detachable(l: Links, n: FatNode) {
    && Sized(l) && n in l.prev
    && (l.prev[n] != null ==> l.prev[n] in l.prev && l.prev[n] != n)
    && (l.next[n] != null ==> l.next[n] in l.prev && l.next[n] != n)
    && (forall a, b :: 0 <= a < MAX_FAT_LIST && 0 <= b < MAX_FAT_LIST && a != b && l.ends[a].head == n ==>
          l.ends[b].head != n)
    && (forall a, b :: 0 <= a < MAX_FAT_LIST && 0 <= b < MAX_FAT_LIST && a != b && l.ends[a].tail == n ==>
          l.ends[b].tail != n)
  }

  lemma DetachableAfterHead(l: Links, n: FatNode)
    requires Detachable(l, n)
    ensures Sized(CutHead(l, n)) && n in CutHead(l, n).prev
    ensures Detachable(CutHead(l, n), n)
  {
    var h := CutHead(l, n);
    assert h.next.Keys == l.next.Keys;
    assert forall a :: 0 <= a < MAX_FAT_LIST ==> h.ends[a].tail == l.ends[a].tail;
    assert forall a :: 0 <= a < MAX_FAT_LIST ==> h.ends[a].head == n ==> l.ends[a].head == n;
  }

  // ---------------------------------------------------------------- one chain

  lemma ChainEnds(l: Links, e: FatList, s: seq<FatNode>, k: nat)
    requires Sized(l) && Chain(l, e, s) && NoRepeat(s) && k < |s|
    ensures s[k] in l.prev && s[k] in l.next
    ensures l.prev[s[k]] == After(s, k) && l.next[s[k]] == Before(s, k)
    ensures e.head == s[k] <==> k == 0
    ensures e.tail == s[k] <==> k == |s| - 1
  {
  }

  lemma ChainForeign(l: Links, e: FatList, s: seq<FatNode>, n: FatNode)
    requires Sized(l) && Chain(l, e, s) && n !in s
    ensures e.head != n && e.tail != n
  {
  }

  /** Links that agree on the nodes of s spell the same chain. */
  lemma ChainFrame(l: Links, l': Links, e: FatList, s: seq<FatNode>)
    requires Sized(l) && Sized(l') && Chain(l, e, s) && l.prev.Keys == l'.prev.Keys
    requires forall i :: 0 <= i < |s| ==>
               s[i] in l.prev && l'.prev[s[i]] == l.prev[s[i]] && l'.next[s[i]] == l.next[s[i]]
    ensures Chain(l', e, s)
  {
  }

  lemma CutIndex(s: seq<FatNode>, k: nat, i: nat)
    requires k < |s| && i < |s| - 1
    ensures var s', j := s[..k] + s[k + 1..], if i < k then i else i + 1;
            && s'[i] == s[j]
            && After(s', i) == (if j == k - 1 then After(s, k) else After(s, j))
            && Before(s', i) == if j == k + 1 then Before(s, k) else Before(s, j)
  {
  }

  /** Cutting s[k] out of a chain: its neighbours point past it, and the ends move if it was one. */
  lemma ChainCut(l: Links, l': Links, e: FatList, s: seq<FatNode>, k: nat)
    requires Sized(l) && Sized(l') && Chain(l, e, s) && k < |s| && l.prev.Keys == l'.prev.Keys
    requires forall j :: 0 <= j < |s| && j != k ==>
      s[j] in l.prev && l'.prev[s[j]] == if j == k - 1 then After(s, k) else After(s, j)
    requires forall j :: 0 <= j < |s| && j != k ==>
      s[j] in l.prev && l'.next[s[j]] == if j == k + 1 then Before(s, k) else Before(s, j)
    ensures Chain(l', EndsOf(s[..k] + s[k + 1..]), s[..k] + s[k + 1..])
  {
    var s' := s[..k] + s[k + 1..];
    forall i | 0 <= i < |s'|
      ensures s'[i] in l'.prev && l'.prev[s'[i]] == After(s', i) && l'.next[s'[i]] == Before(s', i)
    {
      CutIndex(s, k, i);
    }
  }

  /** A node's neighbours are other known nodes; an end of a list has none on that side. */
  lemma NodeFacts(l: Links, ls: Lists, n: FatNode)
    requires Spells(l, ls) && n in l.prev
    ensures l.prev[n] != null ==> l.prev[n] in l.prev && l.prev[n] != n && l.prev[n] != l.next[n]
    ensures l.next[n] != null ==> l.next[n] in l.next && l.next[n] != n
  {
    if OnNone(ls, n) {
      assert l.prev[n] == null && l.next[n] == null;
    } else {
      var c :| 0 <= c < 10 && n in ls[c];
      var s := ls[c];
      var k :| 0 <= k < |s| && s[k] == n;
      assert Chain(l, l.ends[c], s) && NoRepeat(s);
      assert l.prev[n] == After(s, k) && l.next[n] == Before(s, k);
      assert k > 0 ==> s[k - 1] in l.prev;
      assert k < |s| - 1 ==> s[k + 1] in l.prev;
    }
  }

  /** No node is an end of two lists. */
  lemma OneEnd(l: Links, ls: Lists, n: FatNode, a: nat, b: nat)
    requires Spells(l, ls) && a < 10 && b < 10 && a != b
    ensures l.ends[a].head == n ==> l.ends[b].head != n
    ensures l.ends[a].tail == n ==> l.ends[b].tail != n
  {
    assert Chain(l, l.ends[a], ls[a]) && Chain(l, l.ends[b], ls[b]) && Apart(ls[a], ls[b]);
  }

  lemma ListsDetach(l: Links, ls: Lists, n: FatNode)
    requires Spells(l, ls) && n in l.prev
    ensures Detachable(l, n)
  {
    NodeFacts(l, ls, n);
    forall a, b | 0 <= a < MAX_FAT_LIST && 0 <= b < MAX_FAT_LIST && a != b
      ensures l.ends[a].head == n ==> l.ends[b].head != n
      ensures l.ends[a].tail == n ==> l.ends[b].tail != n
    {
      OneEnd(l, ls, n, a, b);
    }
  }

  lemma TempTailKnown(l: Links, ls: Lists)
    requires Spells(l, ls)
    ensures forall a :: 0 <= a < 10 && l.ends[a].tail != null ==> l.ends[a].tail in l.prev
  {
    forall a | 0 <= a < 10 && l.ends[a].tail != null
      ensures l.ends[a].tail in l.prev
    {
      assert Chain(l, l.ends[a], ls[a]);
      assert ls[a][|ls[a]| - 1] in l.prev;
    }
  }

  // ---------------------------------------------------------------- taking a node out

  lemma {:induction false} WithoutAt(s: seq<FatNode>, k: nat)
    requires k < |s| && forall j :: 0 <= j < k ==> s[j] != s[k]
    ensures Without(s, s[k]) == s[..k] + s[k + 1..]
  {
    if k > 0 {
      WithoutAt(s[1..], k - 1);
      assert s[1..][..k - 1] == s[1..k] && s[1..][k..] == s[k + 1..];
      assert [s[0]] + s[1..k] == s[..k];
    }
  }

  /** Taking the node at (c, k) out leaves every other list, and the order, alone. */
  lemma RemoveAt(ls: Lists, c: nat, k: nat)
    requires Distinct(ls) && c < |ls| && k < |ls[c]|
    ensures AllWithout(ls, ls[c][k]) == ls[c := ls[c][..k] + ls[c][k + 1..]]
    ensures OnNone(AllWithout(ls, ls[c][k]), ls[c][k])
  {
    assert NoRepeat(ls[c]);
    WithoutAt(ls[c], k);
    forall a | 0 <= a < |ls| && a != c
      ensures ls[c][k] !in ls[a]
    {
      assert Apart(ls[c], ls[a]);
    }
  }

  lemma RemoveKeepsDistinct(ls: Lists, c: nat, k: nat)
    requires Distinct(ls) && c < |ls| && k < |ls[c]|
    ensures Distinct(ls[c := ls[c][..k] + ls[c][k + 1..]])
  {
    var s' := ls[c][..k] + ls[c][k + 1..];
    var ls' := ls[c := s'];
    forall a | 0 <= a < |ls'|
      ensures NoRepeat(ls'[a])
    {
      assert NoRepeat(ls[a]);
    }
    forall a, b | 0 <= a < |ls| && 0 <= b < |ls| && a != b
      ensures Apart(ls'[a], ls'[b])
    {
      assert Apart(ls[a], ls[b]);
    }
  }

  /** Where a listed node sits decides what its links are and which ends it is. */
  lemma Neighbours(l: Links, ls: Lists, c: nat, k: nat)
    requires Spells(l, ls) && c < 10 && k < |ls[c]|
    ensures ls[c][k] in l.prev && l.prev[ls[c][k]] == After(ls[c], k) && l.next[ls[c][k]] == Before(ls[c], k)
    ensures forall a :: 0 <= a < 10 ==> (l.ends[a].head == ls[c][k] <==> a == c && k == 0)
    ensures forall a :: 0 <= a < 10 ==> (l.ends[a].tail == ls[c][k] <==> a == c && k == |ls[c]| - 1)
  {
    assert Chain(l, l.ends[c], ls[c]) && NoRepeat(ls[c]);
    ChainEnds(l, l.ends[c], ls[c], k);
    forall a | 0 <= a < 10 && a != c
      ensures l.ends[a].head != ls[c][k] && l.ends[a].tail != ls[c][k]
    {
      assert Chain(l, l.ends[a], ls[a]) && Apart(ls[c], ls[a]);
      ChainForeign(l, l.ends[a], ls[a], ls[c][k]);
    }
  }

  /** l' is l with s[k] cut out of the list s. */
  ghost predicate CutOut(l: Links, l': Links, s: seq<FatNode>, k: nat)
    requires k < |s|
  {
    var n, p, x := s[k], After(s, k), Before(s, k);
    && Sized(l) && Sized(l') && l'.prev.Keys == l.prev.Keys
    && l'.prev == (if x != null then l.prev[x := p] else l.prev)[n := null]
    && l'.next == (if p != null then l.next[p := x] else l.next)[n := null]
  }

  /** What cutting a listed node changes, said in terms of its list. */
  lemma CutEffect(l: Links, ls: Lists, c: nat, k: nat)
    requires Spells(l, ls) && c < 10 && k < |ls[c]|
    requires ls[c][k] in l.prev && !TempEnd(l, ls[c][k])
    ensures var l' := Cut(l, ls[c][k]);
            && CutOut(l, l', ls[c], k)
            && l'.ends == l.ends[c := EndsOf(ls[c][..k] + ls[c][k + 1..])]
  {
    var n, s := ls[c][k], ls[c];
    Neighbours(l, ls, c, k);
    assert Chain(l, l.ends[c], s);
    if k > 0 {
      assert s[k - 1] in l.prev;
    }
    if k < |s| - 1 {
      assert s[k + 1] in l.prev;
    }
    if c >= MAX_FAT_LIST {
      assert 0 < k < |s| - 1;
    }
  }

  lemma ApartFromNeighbours(s: seq<FatNode>, k: nat, t: seq<FatNode>)
    requires k < |s| && Apart(s, t)
    ensures forall i :: 0 <= i < |t| ==> t[i] != s[k] && After(s, k) != t[i] && Before(s, k) != t[i]
  {
  }

  lemma CutHere(l: Links, l': Links, s: seq<FatNode>, k: nat)
    requires k < |s| && CutOut(l, l', s, k) && Chain(l, EndsOf(s), s) && NoRepeat(s)
    ensures Chain(l', EndsOf(s[..k] + s[k + 1..]), s[..k] + s[k + 1..])
  {
    ChainCut(l, l', EndsOf(s), s, k);
  }

  lemma CutElsewhere(l: Links, l': Links, s: seq<FatNode>, k: nat, e: FatList, t: seq<FatNode>)
    requires k < |s| && CutOut(l, l', s, k) && Chain(l, e, t) && Apart(s, t)
    ensures Chain(l', e, t)
  {
    ApartFromNeighbours(s, k, t);
    ChainFrame(l, l', e, t);
  }

  lemma CutChain(l: Links, ls: Lists, c: nat, k: nat, a: nat)
    requires Spells(l, ls) && c < 10 && k < |ls[c]| && a < 10
    requires ls[c][k] in l.prev && !TempEnd(l, ls[c][k])
    ensures var l' := Cut(l, ls[c][k]);
            && Sized(l')
            && Chain(l', l'.ends[a], if a == c then ls[c][..k] + ls[c][k + 1..] else ls[a])
  {
    var l', s := Cut(l, ls[c][k]), ls[c];
    CutEffect(l, ls, c, k);
    assert Chain(l, l.ends[a], ls[a]) && NoRepeat(s);
    if a == c {
      CutHere(l, l', s, k);
    } else {
      assert Apart(s, ls[a]);
      CutElsewhere(l, l', s, k, l.ends[a], ls[a]);
    }
  }

  /** `dequeue` removes exactly n and keeps the order, unless n is an end of a temporary list. */
  lemma CutSpells(l: Links, ls: Lists, n: FatNode)
    requires Spells(l, ls) && n in l.prev && !TempEnd(l, n)
    ensures Spells(Cut(l, n), AllWithout(ls, n)) && OnNone(AllWithout(ls, n), n)
    ensures Cut(l, n).prev.Keys == l.prev.Keys
  {
    var l', ls' := Cut(l, n), AllWithout(ls, n);
    if OnNone(ls, n) {
      UnlistedIsNoEnd(l, ls, n);
      assert ls' == ls;
    } else {
      var c :| 0 <= c < 10 && n in ls[c];
      var k :| 0 <= k < |ls[c]| && ls[c][k] == n;
      CutListed(l, ls, c, k);
    }
  }

  lemma CutListed(l: Links, ls: Lists, c: nat, k: nat)
    requires Spells(l, ls) && c < 10 && k < |ls[c]|
    requires ls[c][k] in l.prev && !TempEnd(l, ls[c][k])
    ensures Spells(Cut(l, ls[c][k]), AllWithout(ls, ls[c][k])) && OnNone(AllWithout(ls, ls[c][k]), ls[c][k])
    ensures Cut(l, ls[c][k]).prev.Keys == l.prev.Keys
  {
    var n := ls[c][k];
    var l', ls' := Cut(l, n), AllWithout(ls, n);
    RemoveAt(ls, c, k);
    RemoveKeepsDistinct(ls, c, k);
    CutEffect(l, ls, c, k);
    forall a | 0 <= a < 10
      ensures Chain(l', l'.ends[a], ls'[a])
    {
      CutChain(l, ls, c, k, a);
    }
    forall m | m in l'.prev && OnNone(ls', m)
      ensures l'.prev[m] == null && l'.next[m] == null
    {
      CutUnlisted(ls, c, k, m);
      if m != n {
        assert OnNone(ls, m);
        NotANeighbour(ls, c, k, m);
      }
    }
  }

  lemma NotANeighbour(ls: Lists, c: nat, k: nat, m: FatNode)
    requires c < |ls| && k < |ls[c]| && OnNone(ls, m)
    ensures After(ls[c], k) != m && Before(ls[c], k) != m
  {
    assert m !in ls[c];
  }

  lemma CutUnlisted(ls: Lists, c: nat, k: nat, m: FatNode)
    requires c < |ls| && k < |ls[c]| && OnNone(ls[c := ls[c][..k] + ls[c][k + 1..]], m)
    ensures m == ls[c][k] || OnNone(ls, m)
  {
    var s, s' := ls[c], ls[c][..k] + ls[c][k + 1..];
    var ls' := ls[c := s'];
    forall a | 0 <= a < |ls| && m != s[k]
      ensures m !in ls[a]
    {
      assert m !in ls'[a];
      if a == c {
        assert s == s[..k] + [s[k]] + s[k + 1..];
      }
    }
  }

  lemma UnlistedIsNoEnd(l: Links, ls: Lists, n: FatNode)
    requires Spells(l, ls) && n in l.prev && OnNone(ls, n)
    ensures !TempEnd(l, n) && !FatHead(l, n) && !FatTail(l, n) && Cut(l, n) == l
  {
    forall a | 0 <= a < 10
      ensures l.ends[a].head != n && l.ends[a].tail != n
    {
      assert Chain(l, l.ends[a], ls[a]);
      ChainForeign(l, l.ends[a], ls[a], n);
    }
    assert Cut(l, n).ends == l.ends;
  }

  // ---------------------------------------------------------------- adding a node

  lemma AppendKeepsDistinct(ls: Lists, c: nat, t: seq<FatNode>)
    requires Distinct(ls) && c < |ls| && NoRepeat(t)
    requires forall a {:trigger Apart(ls[a], t)} :: 0 <= a < |ls| ==> Apart(ls[a], t)
    ensures Distinct(ls[c := ls[c] + t])
  {
    var ls' := ls[c := ls[c] + t];
    forall a | 0 <= a < |ls'|
      ensures NoRepeat(ls'[a])
    {
      assert NoRepeat(ls[a]) && Apart(ls[a], t);
    }
    forall a, b | 0 <= a < |ls| && 0 <= b < |ls| && a != b
      ensures Apart(ls'[a], ls'[b])
    {
      assert Apart(ls[a], ls[b]) && Apart(ls[a], t) && Apart(ls[b], t);
    }
  }

  /** `enqueue` adds an unlinked node at the tail of its temporary list. */
  lemma LinkSpells(l: Links, ls: Lists, n: FatNode, j: nat)
    requires Spells(l, ls) && n in l.prev && OnNone(ls, n) && j < MAX_FAT_LIST
    ensures var c := MAX_FAT_LIST + j; Spells(Link(l, n, j), ls[c := ls[c] + [n]])
    ensures Link(l, n, j).prev.Keys == l.prev.Keys
  {
    var c := MAX_FAT_LIST + j;
    var l', ls' := Link(l, n, j), ls[c := ls[c] + [n]];
    var s := ls[c];
    assert Chain(l, l.ends[c], s);
    assert forall a {:trigger Apart(ls[a], [n])} :: 0 <= a < 10 ==> n !in ls[a] && Apart(ls[a], [n]);
    AppendKeepsDistinct(ls, c, [n]);
    assert s != [] ==> s[|s| - 1] in l.prev;
    forall a | 0 <= a < 10
      ensures Chain(l', l'.ends[a], ls'[a])
    {
      assert Chain(l, l.ends[a], ls[a]) && NoRepeat(ls[a]);
      if a != c {
        assert Apart(s, ls[a]);
        assert s != [] ==> s[|s| - 1] !in ls[a];
        ChainFrame(l, l', l.ends[a], ls[a]);
      } else {
        ChainLink(l, l', s, n);
      }
    }
    forall m | m in l'.prev && OnNone(ls', m)
      ensures l'.prev[m] == null && l'.next[m] == null
    {
      assert m !in ls'[c];
      assert OnNone(ls, m) by {
        forall a | 0 <= a < 10
          ensures m !in ls[a]
        {
          assert m !in ls'[a];
        }
      }
    }
  }

  lemma ChainLink(l: Links, l': Links, s: seq<FatNode>, n: FatNode)
    requires Sized(l) && Sized(l') && Chain(l, EndsOf(s), s) && NoRepeat(s) && n !in s
    requires n in l.prev && n in l.next && l.prev[n] == null && l.next[n] == null
    requires l'.prev == if s == [] then l.prev else l.prev[s[|s| - 1] := n]
    requires l'.next == if s == [] then l.next else l.next[n := s[|s| - 1]]
    ensures Chain(l', EndsOf(s + [n]), s + [n])
  {
    var s' := s + [n];
    forall i | 0 <= i < |s'|
      ensures s'[i] in l'.prev && l'.prev[s'[i]] == After(s', i)
      ensures s'[i] in l'.next && l'.next[s'[i]] == Before(s', i)
    {
      if i < |s| {
        assert s'[i] == s[i];
        ChainEnds(l, EndsOf(s), s, i);
      }
    }
  }

  // ---------------------------------------------------------------- a fresh packet

  /** The queues the ten lists stand for. */
  function Queued(ls: Lists): (q: Queues<FatNode>)
    requires |ls| == 10
    ensures q.Shaped()
  {
    Queues(ls[..MAX_FAT_LIST], ls[MAX_FAT_LIST..])
  }

  /** `updateFat` on pointers: dequeue, then enqueue on temporary list 0. */
  ghost function Refresh(l: Links, n: FatNode): Links
    requires Sized(l) && n in l.prev && Sized(Cut(l, n))
  {
    Link(Cut(l, n), n, 0)
  }

  /** What sending a node of fat list i does to the pointers. */
  ghost function Passed(l: Links, n: FatNode, i: nat): Links
    requires Sized(l) && n in l.prev && Sized(Cut(l, n)) && i < MAX_FAT_LIST
  {
    if i + 1 < MAX_FAT_LIST then Link(Cut(l, n), n, i + 1) else Cut(l, n)
  }

  /** For a node at an end of a temporary list, `dequeue` only forgets the node's own links. */
  lemma CutTempEnd(l: Links, ls: Lists, n: FatNode)
    requires Spells(l, ls) && n in l.prev && TempEnd(l, n)
    ensures Cut(l, n) == Links(l.ends, l.prev[n := null], l.next[n := null])
  {
    var c :| MAX_FAT_LIST <= c < 10 && (l.ends[c].head == n || l.ends[c].tail == n);
    assert Chain(l, l.ends[c], ls[c]);
    var k := if l.ends[c].head == n then 0 else |ls[c]| - 1;
    assert ls[c][k] == n;
    Neighbours(l, ls, c, k);
    assert Cut(l, n).ends == l.ends;
  }

  /** In well-formed lists the tail of the first temporary list ends no other list, and its link
      toward the head is proper. */
  lemma TempTail(l: Links, ls: Lists, c: nat)
    requires Spells(l, ls) && MAX_FAT_LIST <= c < 10 && l.ends[5].tail != null
    ensures var n := l.ends[5].tail;
            && (c != 5 ==> l.ends[c].head != n && l.ends[c].tail != n)
            && n in l.next && l.next[n] != n && (l.ends[5].head == n ==> l.next[n] == null)
  {
    assert Chain(l, l.ends[5], ls[5]) && NoRepeat(ls[5]);
    var k := |ls[5]| - 1;
    assert l.next[ls[5][k]] == Before(ls[5], k);
    if c != 5 {
      assert Chain(l, l.ends[c], ls[c]) && Apart(ls[5], ls[c]);
    }
  }

  /** Refreshing a node at an end of a temporary list leaves lists that nothing describes: the node
      ends two lists at once, points at itself, or heads a list that goes on past it. */
  lemma RefreshBreaks(l: Links, ls: Lists, n: FatNode, ls': Lists)
    requires Spells(l, ls) && n in l.prev && TempEnd(l, n) && Sized(Cut(l, n))
    ensures !Spells(Refresh(l, n), ls')
  {
    CutTempEnd(l, ls, n);
    var l' := Refresh(l, n);
    var c :| MAX_FAT_LIST <= c < 10 && (l.ends[c].head == n || l.ends[c].tail == n);
    assert Chain(l, l.ends[5], ls[5]);
    if Spells(l', ls') {
      TempTail(l', ls', c);
    }
  }

  /** `updateFat` leaves ten well-formed lists if and only if the node is not the first or last of
      a temporary list; it then does exactly what the queues promise. */
  lemma RefreshWellFormedIff(l: Links, ls: Lists, n: FatNode)
    requires Spells(l, ls) && n in l.prev
    ensures Sized(Cut(l, n))
    ensures (exists ls' :: Spells(Refresh(l, n), ls')) <==> !TempEnd(l, n)
    ensures !TempEnd(l, n) ==>
              exists ls' :: Spells(Refresh(l, n), ls') && Queued(ls') == Updated(Queued(ls), n)
  {
    if TempEnd(l, n) {
      CutTempEnd(l, ls, n);
      forall ls'
        ensures !Spells(Refresh(l, n), ls')
      {
        RefreshBreaks(l, ls, n, ls');
      }
    } else {
      RefreshSpells(l, ls, n);
    }
  }

  function Refreshed(ls: Lists, n: FatNode): (r: Lists)
    requires |ls| == 10
    ensures |r| == 10 && Queued(r) == Updated(Queued(ls), n)
  {
    var out := AllWithout(ls, n);
    assert AllWithout(ls, n)[..MAX_FAT_LIST] == AllWithout(ls[..MAX_FAT_LIST], n);
    assert AllWithout(ls, n)[MAX_FAT_LIST..] == AllWithout(ls[MAX_FAT_LIST..], n);
    out[MAX_FAT_LIST := out[MAX_FAT_LIST] + [n]]
  }

  lemma RefreshSpells(l: Links, ls: Lists, n: FatNode)
    requires Spells(l, ls) && n in l.prev && !TempEnd(l, n)
    ensures Sized(Cut(l, n)) && Spells(Refresh(l, n), Refreshed(ls, n))
  {
    CutSpells(l, ls, n);
    LinkSpells(Cut(l, n), AllWithout(ls, n), n, 0);
  }

  // ---------------------------------------------------------------- merging

  /** l' is l with the list t hooked on behind the list s. */
  ghost predicate HookedOn(l: Links, l': Links, s: seq<FatNode>, t: seq<FatNode>)
    requires s != [] && t != []
  {
    && Sized(l) && Sized(l') && l'.prev.Keys == l.prev.Keys
    && l'.prev == l.prev[s[|s| - 1] := t[0]] && l'.next == l.next[t[0] := s[|s| - 1]]
  }

  lemma ChainJoin(l: Links, l': Links, s: seq<FatNode>, t: seq<FatNode>)
    requires s != [] && t != [] && HookedOn(l, l', s, t)
    requires Chain(l, EndsOf(s), s) && Chain(l, EndsOf(t), t) && NoRepeat(s) && NoRepeat(t) && Apart(s, t)
    ensures Chain(l', EndsOf(s + t), s + t)
  {
    var u := s + t;
    forall i | 0 <= i < |u|
      ensures u[i] in l'.prev && l'.prev[u[i]] == After(u, i)
      ensures u[i] in l'.next && l'.next[u[i]] == Before(u, i)
    {
      if i < |s| {
        assert u[i] == s[i];
        ChainEnds(l, EndsOf(s), s, i);
        assert s[i] != t[0];
      } else {
        assert u[i] == t[i - |s|];
        ChainEnds(l, EndsOf(t), t, i - |s|);
        assert s[|s| - 1] != u[i];
      }
    }
  }

  lemma JoinElsewhere(l: Links, l': Links, s: seq<FatNode>, t: seq<FatNode>, e: FatList, u: seq<FatNode>)
    requires s != [] && t != [] && HookedOn(l, l', s, t) && Chain(l, e, u) && Apart(s, u) && Apart(t, u)
    ensures Chain(l', e, u)
  {
    ChainFrame(l, l', e, u);
  }

  lemma JoinEffect(l: Links, ls: Lists, i: nat)
    requires Spells(l, ls) && i < MAX_FAT_LIST
    ensures var s, t := ls[i], ls[MAX_FAT_LIST + i];
            && (s != [] && t != [] ==> HookedOn(l, Join(l, i), s, t))
            && (s == [] || t == [] ==> Join(l, i).prev == l.prev && Join(l, i).next == l.next)
            && Join(l, i).ends == l.ends[i := EndsOf(s + t)][MAX_FAT_LIST + i := FatList(null, null)]
  {
    var c, s, t := MAX_FAT_LIST + i, ls[i], ls[MAX_FAT_LIST + i];
    assert Chain(l, l.ends[i], s) && Chain(l, l.ends[c], t);
    assert s + [] == s && [] + t == t;
    if s != [] && t != [] {
      assert s[|s| - 1] in l.prev && t[0] in l.next;
    }
  }

  function Joined(ls: Lists, i: nat): (r: Lists)
    requires |ls| == 10 && i < MAX_FAT_LIST
    ensures |r| == 10
  {
    ls[i := ls[i] + ls[MAX_FAT_LIST + i]][MAX_FAT_LIST + i := []]
  }

  lemma JoinKeepsDistinct(ls: Lists, i: nat)
    requires |ls| == 10 && Distinct(ls) && i < MAX_FAT_LIST
    ensures Distinct(Joined(ls, i))
  {
    var c, r := MAX_FAT_LIST + i, Joined(ls, i);
    forall a | 0 <= a < 10
      ensures NoRepeat(r[a])
    {
      assert NoRepeat(ls[a]) && NoRepeat(ls[c]) && Apart(ls[i], ls[c]);
    }
    forall a, b | 0 <= a < 10 && 0 <= b < 10 && a != b
      ensures Apart(r[a], r[b])
    {
      assert a != b ==> Apart(ls[a], ls[b]);
      assert a != c ==> Apart(ls[a], ls[c]);
      assert b != c ==> Apart(ls[c], ls[b]);
    }
  }

  lemma JoinChain(l: Links, ls: Lists, i: nat, a: nat)
    requires Spells(l, ls) && i < MAX_FAT_LIST && a < 10
    ensures Sized(Join(l, i)) && Join(l, i).prev.Keys == l.prev.Keys
    ensures Chain(Join(l, i), Join(l, i).ends[a], Joined(ls, i)[a])
  {
    var c, l', s, t := MAX_FAT_LIST + i, Join(l, i), ls[i], ls[MAX_FAT_LIST + i];
    JoinEffect(l, ls, i);
    assert Chain(l, l.ends[i], s) && Chain(l, l.ends[c], t) && Chain(l, l.ends[a], ls[a]);
    assert s + [] == s && [] + t == t;
    if s != [] && t != [] {
      if a == i {
        assert Apart(s, t) && NoRepeat(s) && NoRepeat(t);
        ChainJoin(l, l', s, t);
      } else if a != c {
        assert Apart(s, ls[a]) && Apart(t, ls[a]);
        JoinElsewhere(l, l', s, t, l.ends[a], ls[a]);
      }
    }
  }

  /** Hooking one temporary list on behind its fat list. */
  lemma JoinSpells(l: Links, ls: Lists, i: nat)
    requires Spells(l, ls) && i < MAX_FAT_LIST
    ensures Spells(Join(l, i), Joined(ls, i)) && Join(l, i).prev.Keys == l.prev.Keys
  {
    var c, l', r := MAX_FAT_LIST + i, Join(l, i), Joined(ls, i);
    JoinKeepsDistinct(ls, i);
    forall a | 0 <= a < 10
      ensures Sized(l') && l'.prev.Keys == l.prev.Keys && Chain(l', l'.ends[a], r[a])
    {
      JoinChain(l, ls, i, a);
    }
    assert Chain(l', l'.ends[0], r[0]);
    forall m | m in l'.prev && OnNone(r, m)
      ensures l'.prev[m] == null && l'.next[m] == null
    {
      JoinedHolds(ls, i, m);
      assert OnNone(ls, m);
      assert Chain(l, l.ends[i], ls[i]) && Chain(l, l.ends[c], ls[c]);
      assert m !in ls[i] && m !in ls[c];
    }
  }

  lemma JoinedHolds(ls: Lists, i: nat, m: FatNode)
    requires |ls| == 10 && i < MAX_FAT_LIST && OnNone(Joined(ls, i), m)
    ensures OnNone(ls, m)
  {
    var r := Joined(ls, i);
    assert m !in r[i];
    forall a | 0 <= a < 10
      ensures m !in ls[a]
    {
      assert m !in r[a];
    }
  }

  // ---------------------------------------------------------------- starting over

  /** What a client reset does: every node is unlinked and the fat lists are emptied, but the ends of
      the temporary lists stay. */
  ghost function Cleared(l: Links): Links
    requires Sized(l)
  {
    Links(seq(10, a requires 0 <= a < 10 => if a < MAX_FAT_LIST then FatList(null, null) else l.ends[a]),
          map n | n in l.prev :: null, map n | n in l.next :: null)
  }

  predicate TempsAtMostOne(l: Links)
    requires |l.ends| == 10
  {
    forall a :: MAX_FAT_LIST <= a < 10 ==> l.ends[a].head == l.ends[a].tail
  }

  function ClearedLists(ls: Lists): (r: Lists)
    requires |ls| == 10
    ensures |r| == 10
  {
    seq(10, a requires 0 <= a < 10 => if a < MAX_FAT_LIST then [] else ls[a])
  }

  lemma ClearedSpells(l: Links, ls: Lists)
    requires Spells(l, ls) && TempsAtMostOne(l)
    ensures Spells(Cleared(l), ClearedLists(ls))
  {
    var l', r := Cleared(l), ClearedLists(ls);
    forall a | 0 <= a < 10
      ensures NoRepeat(r[a]) && Chain(l', l'.ends[a], r[a])
    {
      assert Chain(l, l.ends[a], ls[a]) && NoRepeat(ls[a]);
    }
    forall a, b | 0 <= a < 10 && 0 <= b < 10 && a != b
      ensures Apart(r[a], r[b])
    {
      assert Apart(ls[a], ls[b]);
    }
  }

  lemma ClearedIsShort(l: Links, ls: Lists, ls': Lists, a: nat)
    requires Spells(l, ls) && Spells(Cleared(l), ls') && MAX_FAT_LIST <= a < 10
    ensures l.ends[a].head == l.ends[a].tail
  {
    var l', s := Cleared(l), ls'[a];
    assert Chain(l', l'.ends[a], s);
    if s != [] {
      assert l'.prev[s[0]] == After(s, 0);
    }
  }

  lemma ClearedBreaks(l: Links, ls: Lists, ls': Lists)
    requires Spells(l, ls) && !TempsAtMostOne(l)
    ensures !Spells(Cleared(l), ls')
  {
    var a :| MAX_FAT_LIST <= a < 10 && l.ends[a].head != l.ends[a].tail;
    if Spells(Cleared(l), ls') {
      ClearedIsShort(l, ls, ls', a);
    }
  }

  /** A reset leaves ten well-formed lists if and only if no temporary list holds two nodes. */
  lemma ResetWellFormedIff(l: Links, ls: Lists)
    requires Spells(l, ls)
    ensures (exists ls' :: Spells(Cleared(l), ls')) <==> TempsAtMostOne(l)
    ensures TempsAtMostOne(l) <==> forall a :: MAX_FAT_LIST <= a < 10 ==> |ls[a]| <= 1
  {
    forall a | MAX_FAT_LIST <= a < 10
      ensures l.ends[a].head == l.ends[a].tail <==> |ls[a]| <= 1
    {
      assert Chain(l, l.ends[a], ls[a]) && NoRepeat(ls[a]);
    }
    if TempsAtMostOne(l) {
      ClearedSpells(l, ls);
    } else {
      forall ls'
        ensures !Spells(Cleared(l), ls')
      {
        ClearedBreaks(l, ls, ls');
      }
    }
  }

  // ---------------------------------------------------------------- one copy of each node

  lemma {:induction false} CountNoRepeat(s: seq<FatNode>, n: FatNode)
    requires NoRepeat(s)
    ensures Count(s, n) == if n in s then 1 else 0
  {
    if s != [] {
      assert s == [s[0]] + s[1..];
      CountNoRepeat(s[1..], n);
      assert s[0] !in s[1..];
    }
  }

  /** Well-formed lists hold each node at most once, so the bounds proved for runs of the queues apply
      to them. */
  lemma SpelledOnce(l: Links, ls: Lists, n: FatNode)
    requires Spells(l, ls)
    ensures Copies(Queued(ls), n) <= 1
  {
    var c := seq(10, a requires 0 <= a < 10 => Count(ls[a], n));
    forall a | 0 <= a < 10
      ensures c[a] <= 1
    {
      assert NoRepeat(ls[a]);
      CountNoRepeat(ls[a], n);
    }
    forall a, b | 0 <= a < 10 && 0 <= b < 10 && a != b
      ensures c[a] + c[b] <= 1
    {
      assert Apart(ls[a], ls[b]) && NoRepeat(ls[a]) && NoRepeat(ls[b]);
      CountNoRepeat(ls[a], n);
      CountNoRepeat(ls[b], n);
    }
    TenAtMostOne(c);
    TenCopies(ls, n, c);
  }

  lemma TenCopies(ls: Lists, n: FatNode, c: seq<nat>)
    requires |ls| == 10 && |c| == 10 && forall a :: 0 <= a < 10 ==> c[a] == Count(ls[a], n)
    ensures Copies(Queued(ls), n) == c[0] + c[1] + c[2] + c[3] + c[4] + c[5] + c[6] + c[7] + c[8] + c[9]
  {
  }

  lemma TenAtMostOne(c: seq<nat>)
    requires |c| == 10 && forall a :: 0 <= a < 10 ==> c[a] <= 1
    requires forall a, b :: 0 <= a < 10 && 0 <= b < 10 && a != b ==> c[a] + c[b] <= 1
    ensures c[0] + c[1] + c[2] + c[3] + c[4] + c[5] + c[6] + c[7] + c[8] + c[9] <= 1
  {
    if a :| 0 <= a < 10 && c[a] == 1 {
      assert forall b :: 0 <= b < 10 && b != a ==> c[b] == 0;
    }
  }

  /** On well-formed pointers the ends of the temporary lists are their first and last packets. */
  lemma TempEndIff(l: Links, ls: Lists, n: FatNode)
    requires Spells(l, ls)
    ensures TempEnd(l, n) <==> AtTempEnd(Queued(ls), n)
  {
    var q := Queued(ls);
    forall j | 0 <= j < MAX_FAT_LIST
      ensures l.ends[MAX_FAT_LIST + j] == EndsOf(q.tmp[j])
    {
      assert Chain(l, l.ends[MAX_FAT_LIST + j], ls[MAX_FAT_LIST + j]);
    }
    if TempEnd(l, n) {
      var a :| MAX_FAT_LIST <= a < 10 && (l.ends[a].head == n || l.ends[a].tail == n);
      assert l.ends[MAX_FAT_LIST + (a - MAX_FAT_LIST)] == EndsOf(q.tmp[a - MAX_FAT_LIST]);
    }
  }
}
