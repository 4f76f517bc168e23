/** League play on the shared status record, updated in place by the captains' commands and the
    daemon's ticks. */
module LeaguePlay {
  import opened LeagueSpec

  class TeamSheet {
    var index: int
    var captain: int
    var name: string
    var ready: bool
    var desirePause: bool
    var regulation: int
    var overtime: int
    var maxPlayers: int
    var galaxyReset: bool
    var restart: bool

    /** A side before anyone has done anything. */
    constructor (regulation: int, overtime: int, maxPlayers: int)
      ensures Value() == Club(-1, -1, "", false, false, regulation, overtime, maxPlayers, false, false)
    {
      index, captain, name, ready, desirePause := -1, -1, "", false, false;
      this.regulation, this.overtime, this.maxPlayers := regulation, overtime, maxPlayers;
      galaxyReset, restart := false, false;
    }

    ghost function Value(): Club
      reads this
    {
      Club(index, captain, name, ready, desirePause, regulation, overtime, maxPlayers, galaxyReset, restart)
    }

    predicate IsReady()
      reads this
      ensures IsReady() == ReallyReady(Value())
    {
      index >= 0 && name != ""
    }
  }

  class Status2 {
    var league: int
    var leagueTicksLeft: int
    const home: TeamSheet
    const away: TeamSheet
    var awayPassed: int
    var paused: int
    var pauseMsgFuse: int
    var newGalaxy: bool
    var regulationMinutes: int
    var overtimeMinutes: int
    var playersPerTeam: int

    /** The daemon configured for league play: the negotiation has not begun, and its rules hold. */
    constructor (regulation: int, overtime: int, perTeam: int)
      ensures Valid() && fresh(home) && fresh(away)
      ensures Fair(Value()) && Value().phase == 1
    {
      league, leagueTicksLeft := 1, 0;
      home := new TeamSheet(regulation, overtime, perTeam);
      away := new TeamSheet(regulation, overtime, perTeam);
      awayPassed, paused, pauseMsgFuse, newGalaxy := 0, 0, 0, false;
      regulationMinutes, overtimeMinutes, playersPerTeam := regulation, overtime, perTeam;
    }

    predicate Valid() {
      home != away
    }

    ghost function Value(): League
      reads this, home, away
    {
      League(league, leagueTicksLeft, home.Value(), away.Value(), awayPassed, paused, pauseMsgFuse,
             newGalaxy, regulationMinutes, overtimeMinutes, playersPerTeam)
    }

    function Team(s: Side): TeamSheet {
      if s == Home then home else away
    }

    function Rival(s: Side): TeamSheet {
      if s == Home then away else home
    }

    // -------------------------------------------------------------- commands

    method ChooseEmpire(s: Side, i: int)
      requires Valid()
      modifies this, home, away
      ensures Value() == DoChoose(old(Value()), s, i)
    {
      var myteam, otherteam := Team(s), Rival(s);
      if league != 1 {
        return;
      }
      if (myteam.ready || otherteam.ready) && myteam.index >= 0 {
        return;
      }
      if otherteam.index >= 0 {
        if i == otherteam.index {
          return;
        }
      } else if s == Home {
        if awayPassed == 0 {
          return;
        }
      } else if myteam.index >= 0 && awayPassed == 0 {
        return;
      } else if awayPassed == 1 {
        return;
      }
      if i == myteam.index {
        return;
      }
      if i < 0 {
        return;
      }
      myteam.index := i;
    }

    method PassChoice(s: Side, r1: nat, r2: nat)
      requires Valid()
      modifies this, home, away
      ensures Value() == DoPass(old(Value()), s, r1, r2)
    {
      if league != 1 {
        return;
      }
      if s == Away && awayPassed != 0 {
        return;
      } else if s == Home && awayPassed == 0 {
        return;
      } else if awayPassed > 1 {
        return;
      }
      awayPassed := awayPassed + 1;
      if awayPassed > 1 {
        DrawEmpires(r1, r2);
      }
    }

    /** The computer chooses for whoever has not. */
    method DrawEmpires(r1: nat, r2: nat)
      requires Valid()
      modifies home, away
      ensures Value() == AwayDrawn(HomeDrawn(old(Value()), r1), r2)
    {
      DrawHome(r1);
      assert home.index >= 0;
      if away.index < 0 {
        away.index := r2 % 3;
        if away.index >= home.index {
          away.index := away.index + 1;
        }
      }
    }

    method DrawHome(r: nat)
      requires Valid()
      modifies home
      ensures Value() == HomeDrawn(old(Value()), r) && home.index >= 0
    {
      if home.index < 0 {
        home.index := r % (if away.index < 0 then 4 else 3);
        if away.index >= 0 && home.index >= away.index {
          home.index := home.index + 1;
        }
      }
    }

    method StartPlay(s: Side, arg: Option<int>)
      requires Valid()
      modifies this, home, away
      ensures Value() == DoStart(old(Value()), s, arg)
    {
      if league != 1 {
        return;
      }
      var myteam := Team(s);
      if arg.Some? && arg.value == 0 {
        myteam.ready := false;
        return;
      }
      myteam.ready := true;
      if !myteam.IsReady() {
        myteam.ready := false;
        return;
      }
      JoinIn(s);
    }

    /** Starts the warm-up if the other side stands ready too. */
    method JoinIn(s: Side)
      requires Valid()
      modifies this, home, away
      ensures Value() == Joined(old(Value()), s)
    {
      var otherteam := Rival(s);
      if otherteam.ready && !otherteam.IsReady() {
        otherteam.ready := false;
      }
      if otherteam.ready {
        league := 2;
        leagueTicksLeft := 60 * TICKSPERSEC;
      }
    }

    method Forget()
      requires Valid()
      modifies this, home, away
      ensures Value() == Afresh(old(Value()))
    {
      awayPassed := 0;
      home.index, away.index := -1, -1;
      home.ready, away.ready := false, false;
      home.restart, away.restart := false, false;
    }

    method RestartSelection(s: Side, arg: Option<int>)
      requires Valid()
      modifies this, home, away
      ensures Value() == DoRestart(old(Value()), s, arg)
    {
      if league != 1 {
        return;
      }
      Team(s).restart := Yes(arg);
      if home.restart && away.restart {
        Forget();
      }
    }

    method WishNewGalaxy(s: Side, arg: Option<int>)
      requires Valid()
      modifies this, home, away
      ensures Value() == DoNewGalaxy(old(Value()), s, arg)
    {
      if league != 1 {
        return;
      }
      if home.ready || away.ready {
        return;
      }
      Team(s).galaxyReset := Yes(arg);
      if home.galaxyReset && away.galaxyReset {
        newGalaxy := true;
        home.galaxyReset, away.galaxyReset := false, false;
        Forget();
      }
    }

    method NameTeam(s: Side, name: string)
      requires Valid()
      modifies home, away
      ensures Value() == DoTeamName(old(Value()), s, name)
    {
      if league != 1 {
        return;
      }
      if name == "" {
        return;
      }
      Team(s).name := Clip(name);
    }

    method SetTime(s: Side, reg: Option<int>, over: Option<int>)
      requires Valid()
      modifies this, home, away
      ensures Value() == DoTime(old(Value()), s, reg, over)
    {
      if league != 1 {
        return;
      }
      if Rival(s).ready {
        return;
      }
      if reg.None? {
        return;
      }
      Team(s).regulation := reg.value;
      if over.None? {
        return;
      }
      Team(s).overtime := over.value;
      if home.regulation == away.regulation && home.overtime == away.overtime {
        regulationMinutes, overtimeMinutes := home.regulation, home.overtime;
      }
    }

    method ChangeCaptain(me: nat, s: Side, arg: Option<int>, lapsed: bool)
      requires Valid()
      modifies home, away
      ensures Value() == DoCaptain(old(Value()), s, me, arg, lapsed)
    {
      var myteam := Team(s);
      if Yes(arg) {
        if myteam.captain < 0 || lapsed {
          myteam.captain := me;
        }
      } else if myteam.captain == me {
        myteam.captain := -1;
      }
    }

    method LimitPlayers(s: Side, mp: Option<int>)
      requires Valid()
      modifies this, home, away
      ensures Value() == DoMaxPlayer(old(Value()), s, mp)
    {
      if mp.None? || mp.value < 1 {
        return;
      }
      Team(s).maxPlayers := mp.value;
      if home.maxPlayers == away.maxPlayers {
        playersPerTeam := mp.value;
      }
    }

    method WishPause(s: Side)
      requires Valid()
      modifies this, home, away
      ensures Value() == DoPause(old(Value()), s)
    {
      Team(s).desirePause := true;
      if home.desirePause && away.desirePause {
        paused := Seconds(10);
      }
      pauseMsgFuse := 0;
    }

    method WishContinue(s: Side)
      requires Valid()
      modifies this, home, away
      ensures Value() == DoContinue(old(Value()), s)
    {
      Team(s).desirePause := false;
      pauseMsgFuse := 0;
    }

    /** A league command of player me, whose side is s. */
    method ParseLeague(me: nat, s: Side, o: Order)
      requires Valid() && Spoken(o)
      modifies this, home, away
      ensures Value() == Obey(old(Value()), me, s, o)
      ensures old(Fair(Value())) ==> Fair(Value())
      ensures Orderly(old(Value()), Value(), o)
    {
      ObeyFrame(Value(), me, s, o);
      if Fair(Value()) {
        ObeyKeepsFair(Value(), me, s, o);
      }
      var isCaptain := Team(s).captain == me;
      if !isCaptain && !Public(o) {
        return;
      }
      match o
      case Choose(i) => ChooseEmpire(s, i);
      case Pass(r1, r2) => PassChoice(s, r1, r2);
      case Start(arg) => StartPlay(s, arg);
      case Restart(arg) => RestartSelection(s, arg);
      case NewGalaxy(arg) => WishNewGalaxy(s, arg);
      case TeamName(name) => NameTeam(s, name);
      case Time(reg, over) => SetTime(s, reg, over);
      case Captain(arg, lapsed) => ChangeCaptain(me, s, arg, lapsed);
      case MaxPlayer(mp) => LimitPlayers(s, mp);
      case Pause => WishPause(s);
      case Continue => WishContinue(s);
    }

    // -------------------------------------------------------------- the daemon

    method HandlePauseGoop()
      requires Valid()
      modifies this
      ensures Value() == HandlePause(old(Value()))
    {
      if paused != 0 {
        if !home.desirePause && !away.desirePause {
          paused := paused - 1;
        } else {
          pauseMsgFuse := pauseMsgFuse + 1;
          if pauseMsgFuse > Seconds(15) {
            pauseMsgFuse := 0;
          }
        }
      } else {
        if !home.desirePause && !away.desirePause {
          return;
        }
        pauseMsgFuse := pauseMsgFuse + 1;
        if pauseMsgFuse > Seconds(15) {
          pauseMsgFuse := 0;
        }
      }
    }

    method UdTourny()
      requires Valid()
      modifies this
      ensures Value() == LeagueSpec.UdTourny(old(Value()))
    {
      if league == 0 {
        return;
      }
      if league == 1 {
        return;
      }
      leagueTicksLeft := leagueTicksLeft - 1;
      if league == 2 {
        if leagueTicksLeft <= 0 {
          league := league + 1;
          leagueTicksLeft := Minutes(regulationMinutes);
        }
      } else if league == 3 {
        if leagueTicksLeft <= 0 {
          league := 1;
        }
      }
    }

    /** One tick: live says whether the game was updated. */
    method Move() returns (live: bool)
      requires Valid()
      modifies this
      ensures Value() == DoTick(old(Value()))
      ensures live == Live(old(Value()))
      ensures old(Fair(Value())) ==> Fair(Value())
    {
      if Fair(Value()) {
        TickKeepsFair(Value());
      }
      HandlePauseGoop();
      live := paused == 0;
      if live {
        UdTourny();
      }
    }
  }
}
