/** The list of a team's players after a conquest, by insertion into an array. */
module Ranking {

  datatype Player = Player(team: int, free: bool, planets: int, armies: int, resources: int, dooshes: int)
  {
    function Score(): int {
      30 * planets + armies + 8 * resources + 5 * dooshes
    }
  }

  /** A line of the list: which player it is, and its score. */
  datatype Line = Line(who: nat, score: int)

  predicate Listed(p: Player, team: int) {
    p.team == team && !p.free
  }

  /** The lines of the players before n on the team, in slot order. */
  function Lines(ps: seq<Player>, team: int, n: nat): (r: seq<Line>)
    requires n <= |ps|
    ensures |r| <= n
    ensures forall i :: 0 <= i < |r| ==> r[i].who < n
  {
    if n == 0 then []
    else if Listed(ps[n - 1], team) then Lines(ps, team, n - 1) + [Line(n - 1, ps[n - 1].Score())]
    else Lines(ps, team, n - 1)
  }

  /** a stands before b: more points, or as many and a lower slot. */
  predicate Before(a: Line, b: Line) {
    a.score > b.score || (a.score == b.score && a.who < b.who)
  }

  ghost predicate InOrder(s: seq<Line>) {
    forall a, b :: 0 <= a < b < |s| ==> Before(s[a], s[b])
  }

  /** Where the search for a smaller score stops. */
  function Place(s: seq<Line>, score: int, k: nat): (r: nat)
    requires k <= |s|
    ensures k <= r <= |s|
    ensures forall j :: k <= j < r ==> s[j].score >= score
    ensures r < |s| ==> s[r].score < score
    decreases |s| - k
  {
    if k == |s| || s[k].score < score then k else Place(s, score, k + 1)
  }

  function Insert(s: seq<Line>, x: Line): seq<Line> {
    var k := Place(s, x.score, 0);
    s[..k] + [x] + s[k..]
  }

  function Ranked(ps: seq<Player>, team: int, n: nat): seq<Line>
    requires n <= |ps|
  {
    if n == 0 then []
    else if Listed(ps[n - 1], team) then Insert(Ranked(ps, team, n - 1), Line(n - 1, ps[n - 1].Score()))
    else Ranked(ps, team, n - 1)
  }

  lemma InsertKeepsOrder(s: seq<Line>, x: Line)
    requires InOrder(s) && forall i :: 0 <= i < |s| ==> s[i].who < x.who
    ensures InOrder(Insert(s, x))
    ensures forall i :: 0 <= i <= |s| ==> Insert(s, x)[i].who <= x.who
  {
    var k := Place(s, x.score, 0);
    var r := Insert(s, x);
    forall a, b | 0 <= a < b < |r|
      ensures Before(r[a], r[b])
    {
      if a == k {
        assert r[b] == s[b - 1];
        assert k < b - 1 ==> Before(s[k], s[b - 1]);
      }
    }
  }

  lemma InsertAdds(s: seq<Line>, x: Line)
    ensures multiset(Insert(s, x)) == multiset(s) + multiset{x}
    ensures |Insert(s, x)| == |s| + 1
  {
    var k := Place(s, x.score, 0);
    assert s == s[..k] + s[k..];
  }

  lemma {:induction false} RankedInOrder(ps: seq<Player>, team: int, n: nat)
    requires n <= |ps|
    ensures InOrder(Ranked(ps, team, n)) && |Ranked(ps, team, n)| <= n
    ensures forall i :: 0 <= i < |Ranked(ps, team, n)| ==> Ranked(ps, team, n)[i].who < n
  {
    if n > 0 {
      RankedInOrder(ps, team, n - 1);
      var s, x := Ranked(ps, team, n - 1), Line(n - 1, ps[n - 1].Score());
      InsertKeepsOrder(s, x);
      InsertAdds(s, x);
    }
  }

  lemma {:induction false} RankedHoldsTeam(ps: seq<Player>, team: int, n: nat)
    requires n <= |ps|
    ensures multiset(Ranked(ps, team, n)) == multiset(Lines(ps, team, n))
  {
    if n > 0 {
      RankedHoldsTeam(ps, team, n - 1);
      var s, x := Ranked(ps, team, n - 1), Line(n - 1, ps[n - 1].Score());
      InsertAdds(s, x);
      assert multiset(Lines(ps, team, n - 1) + [x]) == multiset(Lines(ps, team, n - 1)) + multiset{x};
    }
  }

  lemma SameHead(s: seq<Line>, t: seq<Line>)
    requires InOrder(s) && InOrder(t) && multiset(s) == multiset(t) && s != []
    ensures t != [] && s[0] == t[0]
  {
    assert s[0] in multiset(t);
    HeadIsFirst(t, s[0]);
    assert t[0] in multiset(s);
    HeadIsFirst(s, t[0]);
  }

  lemma HeadIsFirst(s: seq<Line>, x: Line)
    requires InOrder(s) && x in s
    ensures x == s[0] || Before(s[0], x)
  {
    var i :| 0 <= i < |s| && s[i] == x;
  }

  /** There is only one ordered list of given lines. */
  lemma {:induction false} OrderIsUnique(s: seq<Line>, t: seq<Line>)
    requires InOrder(s) && InOrder(t) && multiset(s) == multiset(t)
    ensures s == t
    decreases |s|
  {
    if s == [] {
      assert |multiset(t)| == 0;
    } else {
      SameHead(s, t);
      TailMultiset(s);
      TailMultiset(t);
      OrderIsUnique(s[1..], t[1..]);
      assert s == [s[0]] + s[1..] && t == [t[0]] + t[1..];
    }
  }

  lemma TailMultiset(s: seq<Line>)
    requires s != []
    ensures multiset(s[1..]) == multiset(s) - multiset{s[0]}
  {
    assert s == [s[0]] + s[1..];
  }

  /** The list is the one that holds exactly the team's players, by falling score, ties in slot order. */
  lemma RankedIsStableSort(ps: seq<Player>, team: int, s: seq<Line>)
    ensures s == Ranked(ps, team, |ps|) <==> InOrder(s) && multiset(s) == multiset(Lines(ps, team, |ps|))
  {
    RankedInOrder(ps, team, |ps|);
    RankedHoldsTeam(ps, team, |ps|);
    if InOrder(s) && multiset(s) == multiset(Lines(ps, team, |ps|)) {
      OrderIsUnique(s, Ranked(ps, team, |ps|));
    }
  }

  /** Fills winners with the ranked list; it is one longer than the number of slots, as making room
      copies one record beyond the list. */
  method DisplayBest(players: seq<Player>, team: int, winners: array<Line>) returns (number: nat)
    requires winners.Length == |players| + 1
    modifies winners
    ensures number <= |players|
    ensures winners[..number] == Ranked(players, team, |players|)
  {
    number := 0;
    var i := 0;
    while i < |players|
      invariant 0 <= i <= |players| && number <= i
      invariant winners[..number] == Ranked(players, team, i)
    {
      if Listed(players[i], team) {
        InsertLine(winners, number, Line(i, players[i].Score()));
        number := number + 1;
      }
      i := i + 1;
    }
  }

  method InsertLine(winners: array<Line>, number: nat, x: Line)
    requires number + 1 < winners.Length
    modifies winners
    ensures winners[..number + 1] == Insert(old(winners[..number]), x)
  {
    ghost var s := winners[..number];
    var k := 0;
    while k < number && winners[k].score >= x.score
      invariant 0 <= k <= number
      invariant Place(s, x.score, k) == Place(s, x.score, 0)
    {
      k := k + 1;
    }
    MakeRoom(winners, number, k);
    winners[k] := x;
    assert winners[..number + 1] == s[..k] + [x] + s[k..];
  }

  /** Moves the lines from k on, and the record after the last, up by one. */
  method MakeRoom(winners: array<Line>, number: nat, k: nat)
    requires k <= number && number + 1 < winners.Length
    modifies winners
    ensures forall j :: 0 <= j < k ==> winners[j] == old(winners[j])
    ensures forall j :: k < j <= number + 1 ==> winners[j] == old(winners[j - 1])
  {
    var l: int := number;
    while l >= k
      invariant k - 1 <= l <= number
      invariant forall j :: 0 <= j <= l ==> winners[j] == old(winners[j])
      invariant forall j :: l + 1 < j <= number + 1 ==> winners[j] == old(winners[j - 1])
    {
      winners[l + 1] := winners[l];
      l := l - 1;
    }
  }
}
