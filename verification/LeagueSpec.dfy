/** League play on values: two captains negotiate empires, names and times, the daemon runs the clock,
    and both captains together can pause it. */
module LeagueSpec {

  datatype Option<T> = None | Some(value: T)

  const TICKSPERSEC := 10
  const NUMTEAM := 4
  const NAMESIZE := 32

  function Seconds(s: int): int { TICKSPERSEC * s }
  function Minutes(m: int): int { 60 * Seconds(m) }

  /** index is the empire chosen, or -1; captain a player number, or -1. */
  datatype Club = Club(
    index: int, captain: int, name: string, ready: bool, desirePause: bool,
    regulation: int, overtime: int, maxPlayers: int, galaxyReset: bool, restart: bool)

  datatype Side = Home | Away

  /** phase is 1 while the captains prepare, 2 in the warm-up, 3 in regulation play. */
  datatype League = League(
    phase: int, left: int, home: Club, away: Club, awayPassed: int,
    paused: int, pauseFuse: int, newGalaxy: bool,
    regulation: int, overtime: int, perTeam: int)
  {
    function Mine(s: Side): Club {
      if s == Home then home else away
    }

    function Other(s: Side): Club {
      if s == Home then away else home
    }

    function With(s: Side, c: Club): League {
      if s == Home then this.(home := c) else this.(away := c)
    }

    function WithOther(s: Side, c: Club): League {
      if s == Home then this.(away := c) else this.(home := c)
    }
  }

  datatype Order =
    | Choose(i: int)
    | Pass(r1: nat, r2: nat)
    | Start(arg: Option<int>)
    | Restart(arg: Option<int>)
    | NewGalaxy(arg: Option<int>)
    | TeamName(name: string)
    | Time(reg: Option<int>, over: Option<int>)
    | Captain(arg: Option<int>, lapsed: bool)
    | MaxPlayer(mp: Option<int>)
    | Pause
    | Continue

  // ---------------------------------------------------------------- the negotiation

  predicate IsCaptain(l: League, s: Side, me: nat) {
    l.Mine(s).captain == me
  }

  /** Whether the captain of side s may choose empire i now. */
  predicate MayChoose(l: League, s: Side, i: int) {
    var my, other := l.Mine(s), l.Other(s);
    && l.phase == 1
    && !((my.ready || other.ready) && my.index >= 0)
    && (if other.index >= 0 then i != other.index
        else if s == Home then l.awayPassed != 0
        else !(my.index >= 0 && l.awayPassed == 0) && l.awayPassed != 1)
    && i != my.index
    && i >= 0
  }

  function DoChoose(l: League, s: Side, i: int): League {
    if MayChoose(l, s, i) then l.With(s, l.Mine(s).(index := i)) else l
  }

  predicate MayPass(l: League, s: Side) {
    l.phase == 1 && !(s == Away && l.awayPassed != 0) && !(s == Home && l.awayPassed == 0) && l.awayPassed <= 1
  }

  /** A draw from the empires other than one already taken. */
  function Skip(r: int, taken: int): int {
    if taken >= 0 && r >= taken then r + 1 else r
  }

  function HomeDrawn(l: League, r: nat): League {
    if l.home.index >= 0 then l
    else l.With(Home, l.home.(index := if l.away.index < 0 then r % 4 else Skip(r % 3, l.away.index)))
  }

  function AwayDrawn(l: League, r: nat): League {
    if l.away.index >= 0 then l else l.With(Away, l.away.(index := Skip(r % 3, l.home.index)))
  }

  function DoPass(l: League, s: Side, r1: nat, r2: nat): League {
    if !MayPass(l, s) then l
    else
      var p := l.(awayPassed := l.awayPassed + 1);
      if p.awayPassed <= 1 then p else AwayDrawn(HomeDrawn(p, r1), r2)
  }

  predicate ReallyReady(c: Club) {
    c.index >= 0 && c.name != ""
  }

  /** Play starts once the other side stands ready too. */
  function Joined(p: League, s: Side): League {
    var other := p.Other(s);
    if !other.ready then p
    else if !ReallyReady(other) then p.WithOther(s, other.(ready := false))
    else p.(phase := 2, left := 60 * TICKSPERSEC)
  }

  function DoStart(l: League, s: Side, arg: Option<int>): League {
    if l.phase != 1 then l
    else if arg == Some(0) || !ReallyReady(l.Mine(s)) then l.With(s, l.Mine(s).(ready := false))
    else
      Joined(l.With(s, l.Mine(s).(ready := true)), s)
  }

  function Afresh(l: League): League {
    l.(awayPassed := 0,
       home := l.home.(index := -1, ready := false, restart := false),
       away := l.away.(index := -1, ready := false, restart := false))
  }

  predicate Yes(arg: Option<int>) {
    arg.None? || arg.value != 0
  }

  function DoRestart(l: League, s: Side, arg: Option<int>): League {
    if l.phase != 1 then l
    else
      var p := l.With(s, l.Mine(s).(restart := Yes(arg)));
      if p.home.restart && p.away.restart then Afresh(p) else p
  }

  function DoNewGalaxy(l: League, s: Side, arg: Option<int>): League {
    if l.phase != 1 || l.home.ready || l.away.ready then l
    else
      var p := l.With(s, l.Mine(s).(galaxyReset := Yes(arg)));
      if p.home.galaxyReset && p.away.galaxyReset then
        Afresh(p.(newGalaxy := true, home := p.home.(galaxyReset := false),
                  away := p.away.(galaxyReset := false)))
      else p
  }

  function Clip(name: string): string {
    if |name| < NAMESIZE then name else name[..NAMESIZE - 1]
  }

  function DoTeamName(l: League, s: Side, name: string): League {
    if l.phase != 1 || name == "" then l else l.With(s, l.Mine(s).(name := Clip(name)))
  }

  /** The first number is stored before the second is parsed. */
  function DoTime(l: League, s: Side, reg: Option<int>, over: Option<int>): League {
    if l.phase != 1 || l.Other(s).ready || reg.None? then l
    else
      var p := l.With(s, l.Mine(s).(regulation := reg.value));
      if over.None? then p
      else
        var q := p.With(s, p.Mine(s).(overtime := over.value));
        if q.home.regulation == q.away.regulation && q.home.overtime == q.away.overtime
        then q.(regulation := q.home.regulation, overtime := q.home.overtime) else q
  }

  function DoCaptain(l: League, s: Side, me: nat, arg: Option<int>, lapsed: bool): League {
    if Yes(arg) then
      if l.Mine(s).captain < 0 || lapsed then l.With(s, l.Mine(s).(captain := me)) else l
    else if IsCaptain(l, s, me) then l.With(s, l.Mine(s).(captain := -1))
    else l
  }

  function DoMaxPlayer(l: League, s: Side, mp: Option<int>): League {
    if mp.None? || mp.value < 1 then l
    else
      var p := l.With(s, l.Mine(s).(maxPlayers := mp.value));
      if p.home.maxPlayers == p.away.maxPlayers then p.(perTeam := mp.value) else p
  }

  // ---------------------------------------------------------------- pause and clock

  function DoPause(l: League, s: Side): League {
    var p := l.With(s, l.Mine(s).(desirePause := true));
    (if p.home.desirePause && p.away.desirePause then p.(paused := Seconds(10)) else p).(pauseFuse := 0)
  }

  function DoContinue(l: League, s: Side): League {
    l.With(s, l.Mine(s).(desirePause := false)).(pauseFuse := 0)
  }

  predicate Calm(l: League) {
    !l.home.desirePause && !l.away.desirePause
  }

  function Reminded(l: League): League {
    l.(pauseFuse := if l.pauseFuse + 1 > Seconds(15) then 0 else l.pauseFuse + 1)
  }

  function HandlePause(l: League): League {
    if l.paused != 0 then
      if Calm(l) then l.(paused := l.paused - 1) else Reminded(l)
    else if Calm(l) then l
    else Reminded(l)
  }

  /** The game is updated in this tick. */
  predicate Live(l: League) {
    HandlePause(l).paused == 0
  }

  function StartTourn(l: League): League {
    l.(phase := l.phase + 1, left := Minutes(l.regulation))
  }

  function EndTourn(l: League): League {
    l.(phase := 1)
  }

  function UdTourny(l: League): League {
    if l.phase == 0 || l.phase == 1 then l
    else
      var p := l.(left := l.left - 1);
      if p.phase == 2 && p.left <= 0 then StartTourn(p)
      else if p.phase == 3 && p.left <= 0 then EndTourn(p)
      else p
  }

  /** One tick of the daemon, as far as the league goes. */
  function DoTick(l: League): League {
    var p := HandlePause(l);
    if p.paused == 0 then UdTourny(p) else p
  }

  // ---------------------------------------------------------------- steps and runs

  /** Orders that anyone may give; all others are for captains. */
  predicate Public(o: Order) {
    o.Captain? || (o.MaxPlayer? && o.mp.None?)
  }

  /** The command parser knows five empires, nobody's among them. */
  predicate Spoken(o: Order) {
    o.Choose? ==> -1 <= o.i < NUMTEAM
  }

  function Obey(l: League, me: nat, s: Side, o: Order): League {
    if !Public(o) && !IsCaptain(l, s, me) then l
    else
      match o
      case Choose(i) => DoChoose(l, s, i)
      case Pass(r1, r2) => DoPass(l, s, r1, r2)
      case Start(arg) => DoStart(l, s, arg)
      case Restart(arg) => DoRestart(l, s, arg)
      case NewGalaxy(arg) => DoNewGalaxy(l, s, arg)
      case TeamName(name) => DoTeamName(l, s, name)
      case Time(reg, over) => DoTime(l, s, reg, over)
      case Captain(arg, lapsed) => DoCaptain(l, s, me, arg, lapsed)
      case MaxPlayer(mp) => DoMaxPlayer(l, s, mp)
      case Pause => DoPause(l, s)
      case Continue => DoContinue(l, s)
  }

  datatype Step =
    | Command(me: nat, side: Side, order: Order)
    | Tick
    | Conquest

  predicate Lawful(s: Step) {
    s.Command? ==> Spoken(s.order)
  }

  function Do(l: League, s: Step): League {
    match s
    case Command(me, side, o) => Obey(l, me, side, o)
    case Tick => DoTick(l)
    case Conquest => EndTourn(l)
  }

  function Run(l: League, run: seq<Step>): League
    decreases run
  {
    if run == [] then l else Run(Do(l, run[0]), run[1..])
  }

  // ---------------------------------------------------------------- what negotiation keeps

  predicate Empire(i: int) {
    -1 <= i < NUMTEAM
  }

  /** The rules of the negotiation. */
  predicate Fair(l: League) {
    && 1 <= l.phase <= 3
    && Empire(l.home.index) && Empire(l.away.index)
    && (l.home.index >= 0 && l.away.index >= 0 ==> l.home.index != l.away.index)
    && 0 <= l.awayPassed <= 2
    && (l.home.index >= 0 && l.away.index < 0 ==> l.awayPassed >= 1)
    && (l.awayPassed == 2 ==> l.home.index >= 0 && l.away.index >= 0)
    && (l.home.ready ==> ReallyReady(l.home))
    && (l.away.ready ==> ReallyReady(l.away))
    && (l.phase >= 2 ==> l.home.ready && l.away.ready)
    && 0 <= l.paused <= Seconds(10)
  }

  /** What the captains agreed on. */
  datatype Terms = Terms(
    home: int, away: int, homeName: string, awayName: string, awayPassed: int, regulation: int)

  function TermsOf(l: League): Terms {
    Terms(l.home.index, l.away.index, l.home.name, l.away.name, l.awayPassed, l.regulation)
  }

  /** What no order but a start moves: the phase and its clock.  What no order moves in play: the terms.
      What no order but a pause moves: the pause. */
  ghost predicate Frame(l: League, q: League) {
    && q.paused == l.paused
    && (l.phase != 1 ==> q.phase == l.phase && q.left == l.left && TermsOf(q) == TermsOf(l))
  }

  lemma ChooseKeeps(l: League, s: Side, i: int)
    ensures Fair(l) && -1 <= i < NUMTEAM ==> Fair(DoChoose(l, s, i))
    ensures Frame(l, DoChoose(l, s, i))
  {
  }

  lemma PassKeeps(l: League, s: Side, r1: nat, r2: nat)
    ensures Fair(l) ==> Fair(DoPass(l, s, r1, r2))
    ensures Frame(l, DoPass(l, s, r1, r2))
  {
    assert 0 <= r1 % 3 < 3 && 0 <= r1 % 4 < 4 && 0 <= r2 % 3 < 3;
  }

  lemma StartKeeps(l: League, s: Side, arg: Option<int>)
    ensures Fair(l) ==> Fair(DoStart(l, s, arg))
    ensures Frame(l, DoStart(l, s, arg))
  {
  }

  lemma RestartKeeps(l: League, s: Side, arg: Option<int>)
    ensures Fair(l) ==> Fair(DoRestart(l, s, arg))
    ensures Frame(l, DoRestart(l, s, arg))
  {
  }

  lemma NewGalaxyKeeps(l: League, s: Side, arg: Option<int>)
    ensures Fair(l) ==> Fair(DoNewGalaxy(l, s, arg))
    ensures Frame(l, DoNewGalaxy(l, s, arg))
  {
  }

  lemma TeamNameKeeps(l: League, s: Side, name: string)
    ensures Fair(l) ==> Fair(DoTeamName(l, s, name))
    ensures Frame(l, DoTeamName(l, s, name))
  {
  }

  lemma TimeKeeps(l: League, s: Side, reg: Option<int>, over: Option<int>)
    ensures Fair(l) ==> Fair(DoTime(l, s, reg, over))
    ensures Frame(l, DoTime(l, s, reg, over))
  {
  }

  lemma CaptainKeeps(l: League, s: Side, me: nat, arg: Option<int>, lapsed: bool)
    ensures Fair(l) ==> Fair(DoCaptain(l, s, me, arg, lapsed))
    ensures Frame(l, DoCaptain(l, s, me, arg, lapsed))
  {
  }

  lemma MaxPlayerKeeps(l: League, s: Side, mp: Option<int>)
    ensures Fair(l) ==> Fair(DoMaxPlayer(l, s, mp))
    ensures Frame(l, DoMaxPlayer(l, s, mp))
  {
  }

  lemma PauseKeeps(l: League, s: Side)
    ensures Fair(l) ==> Fair(DoPause(l, s)) && Fair(DoContinue(l, s))
    ensures Frame(l, DoContinue(l, s))
    ensures DoPause(l, s).paused in {l.paused, Seconds(10)} && Frame(l, DoPause(l, s).(paused := l.paused))
  {
  }

  /** What an order may do to the phase, the clock, the terms and the pause. */
  ghost predicate Orderly(l: League, q: League, o: Order) {
    && (o.Pause? || q.paused == l.paused)
    && (q.paused == l.paused || q.paused == Seconds(10))
    && Frame(l, q.(paused := l.paused))
  }

  lemma ObeyFrame(l: League, me: nat, s: Side, o: Order)
    ensures Orderly(l, Obey(l, me, s, o), o)
  {
    match o
    case Choose(i) => ChooseKeeps(l, s, i);
    case Pass(r1, r2) => PassKeeps(l, s, r1, r2);
    case Start(arg) => StartKeeps(l, s, arg);
    case Restart(arg) => RestartKeeps(l, s, arg);
    case NewGalaxy(arg) => NewGalaxyKeeps(l, s, arg);
    case TeamName(name) => TeamNameKeeps(l, s, name);
    case Time(reg, over) => TimeKeeps(l, s, reg, over);
    case Captain(arg, lapsed) => CaptainKeeps(l, s, me, arg, lapsed);
    case MaxPlayer(mp) => MaxPlayerKeeps(l, s, mp);
    case Pause => PauseKeeps(l, s);
    case Continue => PauseKeeps(l, s);
  }

  lemma ObeyKeepsFair(l: League, me: nat, s: Side, o: Order)
    requires Fair(l) && Spoken(o)
    ensures Fair(Obey(l, me, s, o))
  {
    match o
    case Choose(i) => ChooseKeeps(l, s, i);
    case Pass(r1, r2) => PassKeeps(l, s, r1, r2);
    case Start(arg) => StartKeeps(l, s, arg);
    case Restart(arg) => RestartKeeps(l, s, arg);
    case NewGalaxy(arg) => NewGalaxyKeeps(l, s, arg);
    case TeamName(name) => TeamNameKeeps(l, s, name);
    case Time(reg, over) => TimeKeeps(l, s, reg, over);
    case Captain(arg, lapsed) => CaptainKeeps(l, s, me, arg, lapsed);
    case MaxPlayer(mp) => MaxPlayerKeeps(l, s, mp);
    case Pause => PauseKeeps(l, s);
    case Continue => PauseKeeps(l, s);
  }

  lemma TickKeepsFair(l: League)
    requires Fair(l)
    ensures Fair(DoTick(l)) && Fair(EndTourn(l))
  {
  }

  /** No command, tick or conquest breaks the rules. */
  lemma DoKeepsFair(l: League, s: Step)
    requires Fair(l) && Lawful(s)
    ensures Fair(Do(l, s))
  {
    match s
    case Command(me, side, o) => ObeyKeepsFair(l, me, side, o);
    case Tick => TickKeepsFair(l);
    case Conquest => TickKeepsFair(l);
  }

  lemma {:induction false} RunsKeepFair(l: League, run: seq<Step>)
    requires Fair(l) && forall k {:trigger run[k]} :: 0 <= k < |run| ==> Lawful(run[k])
    ensures Fair(Run(l, run))
    decreases run
  {
    if run != [] {
      DoKeepsFair(l, run[0]);
      RunsKeepFair(Do(l, run[0]), run[1..]);
    }
  }

  /** A start order was given by a captain whose side was ready with the other's. */
  ghost predicate Begun(l: League, q: League, side: Side) {
    && l.phase == 1 && q.phase == 2 && q.left == 60 * TICKSPERSEC
    && l.Other(side).ready && ReallyReady(q.home) && ReallyReady(q.away)
  }

  lemma OrderPhases(l: League, me: nat, side: Side, o: Order)
    requires Fair(l) && Spoken(o)
    ensures var q := Obey(l, me, side, o);
      q.phase != l.phase ==>
        Begun(l, q, side) && o.Start? && o.arg != Some(0) && IsCaptain(l, side, me)
  {
    ObeyFrame(l, me, side, o);
    if l.phase == 1 {
      match o
      case Start(arg) => StartPhases(l, side, arg);
      case Choose(_) =>
      case Pass(_, _) =>
      case Restart(_) =>
      case NewGalaxy(_) =>
      case TeamName(_) =>
      case Time(_, _) =>
      case Captain(_, _) =>
      case MaxPlayer(_) =>
      case Pause =>
      case Continue =>
    }
  }

  lemma StartPhases(l: League, s: Side, arg: Option<int>)
    requires Fair(l)
    ensures DoStart(l, s, arg).phase != l.phase ==> Begun(l, DoStart(l, s, arg), s) && arg != Some(0)
  {
  }

  lemma TickPhases(l: League)
    requires Fair(l)
    ensures var q := DoTick(l);
      q.phase != l.phase ==>
        || (l.phase == 2 && q.phase == 3 && l.left <= 1 && q.left == Minutes(l.regulation))
        || (l.phase == 3 && q.phase == 1 && l.left <= 1)
  {
  }

  /** The phases follow each other in order, and play is entered only from a start that a captain asked
      for when the other side was ready, with an empire and a name for each. */
  lemma PhasesInOrder(l: League, s: Step)
    requires Fair(l) && Lawful(s)
    ensures var q := Do(l, s);
      q.phase != l.phase ==>
        match s
        case Command(me, side, o) =>
          Begun(l, q, side) && o.Start? && o.arg != Some(0) && IsCaptain(l, side, me)
        case Tick =>
          || (l.phase == 2 && q.phase == 3 && l.left <= 1 && q.left == Minutes(l.regulation))
          || (l.phase == 3 && q.phase == 1 && l.left <= 1)
        case Conquest => q.phase == 1
  {
    match s
    case Command(me, side, o) => OrderPhases(l, me, side, o);
    case Tick => TickPhases(l);
    case Conquest =>
  }

  /** Play goes on through the whole run. */
  predicate InPlay(l: League, run: seq<Step>)
    decreases run
  {
    l.phase >= 2 && (run == [] || InPlay(Do(l, run[0]), run[1..]))
  }

  lemma TermsKept(l: League, s: Step)
    requires l.phase >= 2
    ensures TermsOf(Do(l, s)) == TermsOf(l)
  {
    if s.Command? {
      ObeyFrame(l, s.me, s.side, s.order);
      assert TermsOf(Do(l, s)) == TermsOf(Do(l, s).(paused := l.paused));
    }
  }

  /** Nothing anyone does during play changes an empire, a name or the length of the game. */
  lemma {:induction false} TermsFrozen(l: League, run: seq<Step>)
    requires InPlay(l, run)
    ensures TermsOf(Run(l, run)) == TermsOf(l)
    decreases run
  {
    if run != [] {
      TermsKept(l, run[0]);
      TermsFrozen(Do(l, run[0]), run[1..]);
    }
  }

  // ---------------------------------------------------------------- the turn rules

  /** Home cannot take or pass anything before Away has taken an empire or passed the choice. */
  lemma HomeWaitsForAway(l: League, me: nat, o: Order)
    requires Fair(l) && l.home.index < 0 && l.away.index < 0 && l.awayPassed == 0 && Spoken(o)
    ensures Obey(l, me, Home, o).home.index < 0 && Obey(l, me, Home, o).awayPassed == 0
  {
  }

  /** Who holds the choice cannot use it twice: with an empire taken and none passed, Away cannot take
      another until Home has answered; having passed, Away cannot take one until Home has. */
  lemma AwayWaitsForHome(l: League, me: nat, o: Order)
    requires Fair(l) && l.home.index < 0 && Spoken(o) && !o.Restart? && !o.NewGalaxy?
    requires (l.away.index >= 0 && l.awayPassed == 0) || l.awayPassed == 1
    ensures Obey(l, me, Away, o).away.index == l.away.index
  {
  }

  // ---------------------------------------------------------------- the negotiation cannot get stuck

  predicate Led(l: League) {
    l.home.captain >= 0 && l.away.captain >= 0
  }

  function Bit(b: bool): nat {
    if b then 1 else 0
  }

  /** How many orders are missing before play can start. */
  function Missing(l: League): (n: nat)
    ensures n <= 6
  {
    if l.phase >= 2 then 0
    else Bit(l.home.index < 0) + Bit(l.away.index < 0) + Bit(l.home.name == "") + Bit(l.away.name == "")
         + (if l.home.ready && l.away.ready then 1 else Bit(!l.home.ready) + Bit(!l.away.ready))
  }

  function Free(taken: int): int {
    if taken == 0 then 1 else 0
  }

  function Next(l: League): Step
    requires Led(l)
  {
    var h, a := l.home.captain, l.away.captain;
    if l.home.index < 0 && l.away.index < 0 then
      if l.awayPassed == 0 then Command(a, Away, Choose(0)) else Command(h, Home, Choose(0))
    else if l.away.index < 0 then Command(a, Away, Choose(Free(l.home.index)))
    else if l.home.index < 0 then Command(h, Home, Choose(Free(l.away.index)))
    else if l.home.name == "" then Command(h, Home, TeamName("home"))
    else if l.away.name == "" then Command(a, Away, TeamName("away"))
    else if !l.home.ready then Command(h, Home, Start(None))
    else Command(a, Away, Start(None))
  }

  lemma NextChooses(l: League)
    requires Fair(l) && Led(l) && l.phase == 1 && (l.home.index < 0 || l.away.index < 0)
    ensures Lawful(Next(l)) && Led(Do(l, Next(l))) && Missing(Do(l, Next(l))) < Missing(l)
  {
    var s := Next(l);
    assert MayChoose(l, s.side, s.order.i);
    assert Do(l, s) == l.With(s.side, l.Mine(s.side).(index := s.order.i));
  }

  lemma NextNames(l: League)
    requires Fair(l) && Led(l) && l.phase == 1 && l.home.index >= 0 && l.away.index >= 0
    requires l.home.name == "" || l.away.name == ""
    ensures Lawful(Next(l)) && Led(Do(l, Next(l))) && Missing(Do(l, Next(l))) < Missing(l)
  {
    var s := Next(l);
    assert Do(l, s) == l.With(s.side, l.Mine(s.side).(name := s.order.name));
  }

  lemma NextStarts(l: League)
    requires Fair(l) && Led(l) && l.phase == 1 && ReallyReady(l.home) && ReallyReady(l.away)
    ensures Lawful(Next(l)) && Led(Do(l, Next(l))) && Missing(Do(l, Next(l))) < Missing(l)
  {
    var s := Next(l);
    assert Do(l, s) == DoStart(l, s.side, None);
  }

  lemma NextAdvances(l: League)
    requires Fair(l) && Led(l) && l.phase == 1
    ensures Lawful(Next(l)) && Fair(Do(l, Next(l))) && Led(Do(l, Next(l)))
    ensures Missing(Do(l, Next(l))) < Missing(l)
  {
    if l.home.index < 0 || l.away.index < 0 {
      NextChooses(l);
    } else if l.home.name == "" || l.away.name == "" {
      NextNames(l);
    } else {
      NextStarts(l);
    }
    DoKeepsFair(l, Next(l));
  }

  function Path(l: League): seq<Step>
    requires Fair(l) && Led(l)
    decreases Missing(l)
  {
    if l.phase >= 2 then [] else NextAdvances(l); [Next(l)] + Path(Do(l, Next(l)))
  }

  /** Whatever the captains have done so far, they can still start: from every state of the negotiation
      at most six lawful orders lead into play. */
  lemma {:induction false} NegotiationNeverStuck(l: League)
    requires Fair(l) && Led(l)
    ensures Run(l, Path(l)).phase >= 2 && |Path(l)| <= Missing(l) <= 6
    ensures forall k :: 0 <= k < |Path(l)| ==> Lawful(Path(l)[k])
    decreases Missing(l)
  {
    if l.phase < 2 {
      NextAdvances(l);
      NegotiationNeverStuck(Do(l, Next(l)));
      assert Path(l)[1..] == Path(Do(l, Next(l)));
    }
  }

  // ---------------------------------------------------------------- the clock

  /** The ticks of a run in which the game is updated. */
  function LiveTicks(l: League, run: seq<Step>): nat
    decreases run
  {
    if run == [] then 0 else Bit(run[0].Tick? && Live(l)) + LiveTicks(Do(l, run[0]), run[1..])
  }

  /** The live ticks left until time is up. */
  function Remaining(l: League): int {
    var play := if Minutes(l.regulation) < 1 then 1 else Minutes(l.regulation);
    if l.phase == 2 then l.left + play
    else if l.phase == 3 then (if l.left < 1 then 1 else l.left)
    else 0
  }

  predicate Timed(l: League) {
    l.phase == 3 || (l.phase == 2 && l.left >= 1)
  }

  lemma StepTakesItsTime(l: League, s: Step)
    requires Timed(l) && !s.Conquest?
    ensures var spent := Bit(s.Tick? && Live(l));
      && (spent < Remaining(l) ==> Timed(Do(l, s)) && Remaining(Do(l, s)) == Remaining(l) - spent)
      && (spent == Remaining(l) ==> Do(l, s).phase == 1)
  {
    match s
    case Command(me, side, o) =>
      ObeyFrame(l, me, side, o);
      OrderTakesNoTime(l, Obey(l, me, side, o));
    case Tick => TickTakesItsTime(l);
  }

  lemma OrderTakesNoTime(l: League, q: League)
    requires Timed(l) && Frame(l, q.(paused := l.paused))
    ensures Timed(q) && Remaining(q) == Remaining(l)
  {
    assert TermsOf(q) == TermsOf(q.(paused := l.paused));
  }

  lemma TickTakesItsTime(l: League)
    requires Timed(l)
    ensures var spent := Bit(Live(l));
      && (spent < Remaining(l) ==> Timed(DoTick(l)) && Remaining(DoTick(l)) == Remaining(l) - spent)
      && (spent == Remaining(l) ==> DoTick(l).phase == 1)
  {
  }

  /** Without a conquest, play goes on for exactly the remaining number of live ticks, whatever orders
      and pauses fall in between: it has not ended before, and the last live tick ends it. */
  lemma {:induction false} PlayLastsExactly(l: League, run: seq<Step>)
    requires Timed(l) && forall k {:trigger run[k]} :: 0 <= k < |run| ==> !run[k].Conquest?
    ensures var q := Run(l, run);
      LiveTicks(l, run) < Remaining(l) ==>
        && InPlay(l, run)
        && Timed(q) && Remaining(q) == Remaining(l) - LiveTicks(l, run)
        && (Remaining(q) == 1 && Live(q) ==> Do(q, Tick).phase == 1)
    decreases run
  {
    if run == [] {
      StepTakesItsTime(l, Tick);
    } else {
      StepTakesItsTime(l, run[0]);
      if LiveTicks(l, run) < Remaining(l) {
        PlayLastsExactly(Do(l, run[0]), run[1..]);
      }
    }
  }

  /** From the start order it is one minute of warm-up and then the agreed minutes of play. */
  lemma StartSetsTheClock(l: League, me: nat, s: Side, arg: Option<int>)
    requires Fair(l) && l.phase == 1 && Obey(l, me, s, Start(arg)).phase == 2 && l.regulation >= 1
    ensures Timed(Obey(l, me, s, Start(arg)))
    ensures Remaining(Obey(l, me, s, Start(arg))) == Minutes(1 + l.regulation)
  {
  }

  // ---------------------------------------------------------------- the pause

  /** The ticks of a run in which neither side wishes to pause. */
  function CalmTicks(l: League, run: seq<Step>): nat
    decreases run
  {
    if run == [] then 0 else Bit(run[0].Tick? && Calm(l)) + CalmTicks(Do(l, run[0]), run[1..])
  }

  lemma PauseUnanimous(l: League, me: nat, s: Side)
    requires IsCaptain(l, s, me) && l.Other(s).desirePause
    ensures Obey(l, me, s, Pause).paused == Seconds(10) == 100
  {
  }

  /** A paused game stays suspended until as many calm ticks have passed as the counter says: no tick
      before that updates the game, and unless someone asks for a pause again the next calm tick after
      all but one of them does. */
  lemma {:induction false} PauseHolds(l: League, run: seq<Step>)
    requires 0 < l.paused <= Seconds(10) && CalmTicks(l, run) < l.paused
    ensures var q := Run(l, run);
      && LiveTicks(l, run) == 0
      && l.paused - CalmTicks(l, run) <= q.paused <= Seconds(10)
      && ((forall k :: 0 <= k < |run| ==> !(run[k].Command? && run[k].order.Pause?)) ==>
            q.paused == l.paused - CalmTicks(l, run) && (q.paused == 1 && Calm(q) ==> Live(q)))
    decreases run
  {
    if run != [] {
      PauseStep(l, run[0]);
      PauseHolds(Do(l, run[0]), run[1..]);
      if forall k :: 0 <= k < |run| ==> !(run[k].Command? && run[k].order.Pause?) {
        assert !(run[0].Command? && run[0].order.Pause?);
        forall k | 0 <= k < |run| - 1
          ensures !(run[1..][k].Command? && run[1..][k].order.Pause?)
        {
          assert run[1..][k] == run[k + 1];
        }
      }
    }
  }

  lemma PauseStep(l: League, s: Step)
    requires 0 < l.paused <= Seconds(10)
    ensures var q, spent := Do(l, s), Bit(s.Tick? && Calm(l));
      && (spent < l.paused ==> !(s.Tick? && Live(l)))
      && l.paused - spent <= q.paused <= Seconds(10)
      && (!(s.Command? && s.order.Pause?) ==> q.paused == l.paused - spent)
  {
    if s.Command? {
      ObeyFrame(l, s.me, s.side, s.order);
    }
  }

  /** While the game is paused the clock of play stands still. */
  lemma {:induction false} PausedClockStands(l: League, run: seq<Step>)
    requires Timed(l) && 0 < l.paused <= Seconds(10) && CalmTicks(l, run) < l.paused
    requires forall k {:trigger run[k]} :: 0 <= k < |run| ==> !run[k].Conquest?
    ensures Timed(Run(l, run)) && Remaining(Run(l, run)) == Remaining(l)
    decreases run
  {
    if run != [] {
      PauseStep(l, run[0]);
      StepTakesItsTime(l, run[0]);
      PausedClockStands(Do(l, run[0]), run[1..]);
    }
  }
}
