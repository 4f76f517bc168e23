/** The entry queue on values.  Processes that cannot get into the game take a ticket; the shared
    `wait` says whose turn it is.  A process runs undisturbed between two sleeps. */
module QueueSpec {

  datatype Request = ReqFree | ReqWho | ReqDead

  datatype Side = Neither | Home | Away

  datatype Slot = Slot(free: bool, side: Side)

  /** The game's limits: league play, and the slots kept back for testers. */
  datatype Limits = Limits(league: bool, testers: nat)

  datatype Shared = Shared(wait: nat, count: nat, number: nat, request: Request, answer: int, slots: seq<Slot>)

  /** Where a process is: in one of its three sleeps, in the game at a slot, or gone. */
  datatype Phase = Asleep | Correcting | Claiming | InGame(slot: nat) | Gone

  datatype Local = Local(
    phase: Phase, ticket: nat, overload: bool, side: Side,
    waits: int, oldwait: int, pseudocount: int,
    myRequest: nat, lastRequest: Request, lastNumber: nat, reqCount: int,
    dying: bool, slot: int)
  {
    predicate Live() {
      phase.Asleep? || phase.Correcting? || phase.Claiming?
    }

    /** Still in line: not about to leave, nor already served. */
    predicate Waiting() {
      Live() && !dying
    }
  }

  datatype Outcome = Outcome(sh: Shared, me: Local)

  // ---------------------------------------------------------------- finding a slot

  /** Slots in use by players of one side, among the first n. */
  function SideCount(slots: seq<Slot>, side: Side, n: nat): nat
    requires n <= |slots|
  {
    if n == 0 then 0
    else SideCount(slots, side, n - 1) + if !slots[n - 1].free && slots[n - 1].side == side then 1 else 0
  }

  /** The lowest free slot from i up to n, or -1. */
  function LowestFree(slots: seq<Slot>, i: nat, n: int): (k: int)
    requires n <= |slots|
    ensures k == -1 || (i <= k < n && slots[k].free)
    ensures k == -1 <==> forall j :: i <= j < n ==> !slots[j].free
    ensures forall j :: i <= j < k ==> !slots[j].free
    decreases n - i
  {
    if i >= n then -1 else if slots[i].free then i else LowestFree(slots, i + 1, n)
  }

  /** The highest free slot below n, or -1. */
  function HighestFree(slots: seq<Slot>, n: nat): (k: int)
    requires n <= |slots|
    ensures k == -1 || (0 <= k < n && slots[k].free)
    ensures k == -1 <==> forall j :: 0 <= j < n ==> !slots[j].free
  {
    if n == 0 then -1 else if slots[n - 1].free then n - 1 else HighestFree(slots, n - 1)
  }

  /** The slot a player may take: testers search down from the top, others up from the bottom of what
      is not kept back, and in league play only while their side holds less than half. */
  function FindSlot(slots: seq<Slot>, lim: Limits, overload: bool, side: Side): (k: int)
    ensures k == -1 || (0 <= k < |slots| && slots[k].free)
  {
    if overload then
      HighestFree(slots, |slots|)
    else if lim.league && SideCount(slots, side, |slots|) * 2 >= |slots| - lim.testers then
      -1
    else
      LowestFree(slots, 0, |slots| - lim.testers)
  }

  function Take(slots: seq<Slot>, k: nat): (r: seq<Slot>)
    requires k < |slots|
    ensures |r| == |slots|
  {
    slots[k := slots[k].(free := false)]
  }

  // ---------------------------------------------------------------- one process

  /** The top of the loop: a process whose client is gone leaves; any other sleeps. */
  function Top(sh: Shared, me: Local, dead: bool): Outcome {
    if !dead then
      Outcome(sh, me.(phase := Asleep))
    else if sh.count > 0 && me.ticket == sh.count - 1 then
      Outcome(sh.(count := sh.count - 1), me.(phase := Gone))
    else if me.ticket == sh.wait then
      Outcome(sh.(wait := sh.wait + 1), me.(phase := Gone))
    else
      Outcome(sh, me.(phase := Gone))
  }

  /** Joining: straight into the game when nobody is thought to be waiting and there is room (testers
      always try); otherwise a ticket and the top of the loop.  The difference between ticket and turn is
      unsigned, so it is below one only when they are equal. */
  function Arrive(sh: Shared, lim: Limits, overload: bool, side: Side, dead: bool): Outcome {
    var k := FindSlot(sh.slots, lim, overload, side);
    var me := Local(Asleep, sh.count, overload, side, 0, -1, if sh.count == sh.wait then 0 else -1,
                    0, ReqFree, 0, 0, false, -1);
    if (overload || sh.wait == sh.count) && k >= 0 then
      Outcome(sh.(slots := Take(sh.slots, k)), me.(phase := InGame(k), slot := k))
    else
      Top(sh.(count := sh.count + 1), me, dead)
  }

  /** A request of one's own runs out: a leaver leaves, an asker reads the answer. */
  function Complete(sh: Shared, me: Local): Outcome {
    if me.myRequest == 0 then
      Outcome(sh, me)
    else
      var me1 := me.(myRequest := me.myRequest - 1);
      if me1.myRequest != 0 then
        Outcome(sh, me1)
      else if me1.dying && sh.request.ReqDead? then
        Outcome(sh.(request := ReqFree), me1.(phase := if me1.slot >= 0 then InGame(me1.slot) else Gone))
      else
        Outcome(sh.(request := ReqFree),
                me1.(pseudocount := sh.answer, dying := me1.dying || sh.answer > 18))
  }

  /** Posting a request, when the channel is free. */
  function Post(sh: Shared, me: Local): Outcome {
    var o :=
      if me.dying && sh.request.ReqFree? then
        Outcome(sh.(request := ReqDead, number := me.ticket), me.(myRequest := 4))
      else
        Outcome(sh, me);
    if o.me.pseudocount == -1 && o.sh.request.ReqFree? then
      Outcome(o.sh.(request := ReqWho, number := o.me.ticket, answer := 0), o.me.(myRequest := 4))
    else
      o
  }

  /** Reacting to somebody else's request; one seen nine times running is cleared away. */
  function Listen(sh: Shared, me: Local): Outcome {
    if sh.request.ReqFree? || me.myRequest != 0 then
      Outcome(sh, me)
    else if sh.request == me.lastRequest && sh.number == me.lastNumber then
      var me1 := me.(reqCount := me.reqCount + 1);
      Outcome(if me1.reqCount > 8 then sh.(request := ReqFree) else sh, me1)
    else
      var me1 := me.(lastRequest := sh.request, lastNumber := sh.number, reqCount := 1);
      if sh.request.ReqWho? then
        Outcome(if me1.ticket < me1.lastNumber then sh.(answer := sh.answer + 1) else sh, me1)
      else
        Outcome(sh, if me1.ticket > me1.lastNumber && me1.pseudocount != -1
                    then me1.(pseudocount := me1.pseudocount - 1) else me1)
  }

  /** The last part of the loop: take a slot on one's own turn; otherwise, after seeing the same turn
      five times with a slot free, claim the turn. */
  function Compete(sh: Shared, me: Local, lim: Limits, dead: bool): Outcome {
    var k := FindSlot(sh.slots, lim, me.overload, me.side);
    if me.dying || k < 0 then
      Top(sh, me, dead)
    else if me.ticket == sh.wait then
      Top(sh.(slots := Take(sh.slots, k), wait := sh.wait + 1), me.(slot := k, dying := true), dead)
    else
      var waits := if me.oldwait == sh.wait then me.waits + 1 else 1;
      var me1 := me.(waits := waits, oldwait := sh.wait);
      if waits == 5 then
        Outcome(sh.(wait := me.ticket), me1.(phase := Claiming))
      else
        Top(sh, me1, dead)
  }

  /** The state in which a woken process looks at whose turn it is, unless it has left by then. */
  function Heard(sh: Shared, me: Local): Outcome {
    var c := Complete(sh, me);
    if !c.me.Live() then
      c
    else
      var p := Post(c.sh, c.me);
      Listen(p.sh, p.me)
  }

  /** The look at the turn: correct it if it has gone too high, else compete. */
  function Look(h: Outcome, lim: Limits, dead: bool): Outcome {
    if !h.me.Live() then
      h
    else if h.sh.wait > h.me.ticket && !h.me.dying then
      Outcome(h.sh.(wait := h.me.ticket), h.me.(phase := Correcting))
    else
      Compete(h.sh, h.me, lim, dead)
  }

  /** From the one-second sleep to the next sleep. */
  function Wake(sh: Shared, me: Local, lim: Limits, dead: bool): Outcome {
    if sh.count == 0 then Outcome(sh, me.(phase := Gone)) else Look(Heard(sh, me), lim, dead)
  }

  /** From any of the three sleeps to the next. */
  function Resume(sh: Shared, me: Local, lim: Limits, dead: bool): Outcome
    requires me.Live()
  {
    match me.phase
    case Asleep => Wake(sh, me, lim, dead)
    case Correcting => Compete(sh, me, lim, dead)
    case Claiming => Top(sh, me.(waits := 0), dead)
  }

  // ---------------------------------------------------------------- the whole queue

  datatype Queue = Queue(sh: Shared, procs: seq<Local>)

  datatype Step =
    | Join(overload: bool, side: Side, dead: bool)
    | Go(p: nat, dead: bool)
    | Leave(p: nat)
    | Reclaim(k: nat)

  predicate Holds(me: Local, k: int) {
    me.slot == k && k >= 0 && !me.phase.Gone?
  }

  ghost predicate Consistent(q: Queue) {
    && (forall p {:trigger q.procs[p]} :: 0 <= p < |q.procs| ==>
          var me := q.procs[p];
          && (me.Live() ==> me.ticket < q.sh.count)
          && (me.phase.InGame? ==> me.slot == me.phase.slot)
          && (me.Waiting() ==> me.slot == -1)
          && (me.phase.Correcting? || me.phase.Claiming? ==> !me.dying)
          && -1 <= me.slot < |q.sh.slots|
          && (me.slot >= 0 && !me.phase.Gone? ==> !q.sh.slots[me.slot].free))
    && (forall p, r {:trigger q.procs[p], q.procs[r]} ::
          0 <= p < |q.procs| && 0 <= r < |q.procs| && p != r ==>
            && (q.procs[p].Live() && q.procs[r].Live() ==> q.procs[p].ticket != q.procs[r].ticket)
            && (q.procs[p].slot >= 0 && !q.procs[p].phase.Gone? && !q.procs[r].phase.Gone? ==>
                  q.procs[p].slot != q.procs[r].slot))
  }

  /** Who can do what: processes in the game leave it, and the daemon reclaims only slots that no
      process holds. */
  ghost predicate Possible(q: Queue, s: Step) {
    match s
    case Join(_, _, _) => true
    case Go(p, _) => p < |q.procs| && q.procs[p].Live()
    case Leave(p) => p < |q.procs| && q.procs[p].phase.InGame? && 0 <= q.procs[p].slot < |q.sh.slots|
    case Reclaim(k) => k < |q.sh.slots| && forall p :: 0 <= p < |q.procs| ==> !Holds(q.procs[p], k)
  }

  function Free(sh: Shared, k: nat): Shared
    requires k < |sh.slots|
  {
    sh.(slots := sh.slots[k := sh.slots[k].(free := true)])
  }

  function Do(q: Queue, s: Step, lim: Limits): Queue
    requires Possible(q, s)
  {
    match s
    case Join(overload, side, dead) =>
      var o := Arrive(q.sh, lim, overload, side, dead);
      Queue(o.sh, q.procs + [o.me])
    case Go(p, dead) =>
      var o := Resume(q.sh, q.procs[p], lim, dead);
      Queue(o.sh, q.procs[p := o.me])
    case Leave(p) =>
      Queue(Free(q.sh, q.procs[p].slot), q.procs[p := q.procs[p].(phase := Gone)])
    case Reclaim(k) =>
      Queue(Free(q.sh, k), q.procs)
  }

  // ---------------------------------------------------------------- what one process may change

  /** The process took a free slot, and it was its turn. */
  ghost predicate Serves(sh: Shared, me: Local, o: Outcome) {
    && me.Waiting() && me.ticket == sh.wait
    && o.me.dying && 0 <= o.me.slot < |sh.slots| && sh.slots[o.me.slot].free
    && o.sh.slots == Take(sh.slots, o.me.slot)
  }

  /** Everything the rest of the queue needs to know about one stretch of running. */
  ghost predicate Lawful(sh: Shared, me: Local, o: Outcome) {
    var sh', me' := o.sh, o.me;
    && me'.ticket == me.ticket
    // the slots: at most one is taken, by a waiting process on its own turn
    && |sh'.slots| == |sh.slots|
    && ((sh'.slots == sh.slots && me'.slot == me.slot) || Serves(sh, me, o))
    // the counter: only the newest ticket is given back, by a process that is gone
    && (sh'.count == sh.count || (sh'.count == sh.count - 1 && me.ticket == sh'.count && me'.phase.Gone?))
    // whose turn it is
    && (sh'.wait == sh.wait
        || (sh'.wait == sh.wait + 1 && me.ticket == sh.wait && !me'.Waiting())
        || (sh'.wait == me.ticket && me'.Waiting()))
    && (me.dying ==> me'.dying)
    && (me'.phase.Correcting? || me'.phase.Claiming? ==> !me'.dying)
    && (me'.phase.InGame? ==> me'.slot == me'.phase.slot && me.dying)
    && (me'.Live() ==> me.Live())
  }

  lemma TopLawful(sh: Shared, me: Local, dead: bool)
    requires me.Live() && me.ticket < sh.count
    ensures var o := Top(sh, me, dead);
            && o.sh.slots == sh.slots && o.me == me.(phase := o.me.phase)
            && (o.me.phase.Asleep? || o.me.phase.Gone?)
            && (o.sh.count == sh.count || (o.sh.count == sh.count - 1 && me.ticket == o.sh.count && o.me.phase.Gone?))
            && (o.sh.wait == sh.wait || (o.sh.wait == sh.wait + 1 && me.ticket == sh.wait && o.me.phase.Gone?))
  {
  }

  lemma CompeteLawful(sh: Shared, me: Local, lim: Limits, dead: bool)
    requires me.Live() && me.ticket < sh.count && (me.Waiting() ==> me.slot == -1)
    ensures Lawful(sh, me, Compete(sh, me, lim, dead))
  {
  }

  /** The request channel never touches turns, tickets or slots. */
  ghost predicate Quiet(sh: Shared, me: Local, o: Outcome) {
    && o.sh.wait == sh.wait && o.sh.count == sh.count && o.sh.slots == sh.slots
    && o.me.ticket == me.ticket && o.me.slot == me.slot && (me.dying ==> o.me.dying)
    && o.me.overload == me.overload && o.me.side == me.side
    && o.me.waits == me.waits && o.me.oldwait == me.oldwait
    && (o.me.phase == me.phase || o.me.phase.Gone? || (me.dying && me.slot >= 0 && o.me.phase == InGame(me.slot)))
  }

  lemma RequestsQuiet(sh: Shared, me: Local)
    ensures Quiet(sh, me, Complete(sh, me))
    ensures Quiet(sh, me, Post(sh, me)) && Post(sh, me).me.phase == me.phase && Post(sh, me).me.dying == me.dying
    ensures Quiet(sh, me, Listen(sh, me)) && Listen(sh, me).me.phase == me.phase && Listen(sh, me).me.dying == me.dying
  {
  }

  lemma HeardQuiet(sh: Shared, me: Local)
    ensures Quiet(sh, me, Heard(sh, me))
  {
    var c := Complete(sh, me);
    RequestsQuiet(sh, me);
    RequestsQuiet(c.sh, c.me);
    var p := Post(c.sh, c.me);
    RequestsQuiet(p.sh, p.me);
  }

  lemma WakeLawful(sh: Shared, me: Local, lim: Limits, dead: bool)
    requires me.phase.Asleep? && me.ticket < sh.count && (me.Waiting() ==> me.slot == -1)
    ensures Lawful(sh, me, Wake(sh, me, lim, dead))
  {
    HeardQuiet(sh, me);
    LookLawful(sh, me, Heard(sh, me), lim, dead);
  }

  lemma LookLawful(sh: Shared, me: Local, h: Outcome, lim: Limits, dead: bool)
    requires me.phase.Asleep? && me.ticket < sh.count && (me.Waiting() ==> me.slot == -1) && Quiet(sh, me, h)
    ensures Lawful(sh, me, Look(h, lim, dead))
  {
    if h.me.Live() {
      CompeteLawful(h.sh, h.me, lim, dead);
    }
  }

  lemma ResumeLawful(sh: Shared, me: Local, lim: Limits, dead: bool)
    requires me.Live() && me.ticket < sh.count && (me.Waiting() ==> me.slot == -1)
    requires me.phase.Correcting? || me.phase.Claiming? ==> !me.dying
    ensures Lawful(sh, me, Resume(sh, me, lim, dead))
  {
    match me.phase
    case Asleep => WakeLawful(sh, me, lim, dead);
    case Correcting => CompeteLawful(sh, me, lim, dead);
    case Claiming => TopLawful(sh, me.(waits := 0), dead);
  }

  // ---------------------------------------------------------------- safety over every run

  lemma GoConsistent(q: Queue, p: nat, dead: bool, lim: Limits)
    requires Consistent(q) && Possible(q, Go(p, dead))
    ensures Consistent(Do(q, Go(p, dead), lim))
  {
    var me := q.procs[p];
    var o := Resume(q.sh, me, lim, dead);
    ResumeLawful(q.sh, me, lim, dead);
    var q' := Do(q, Go(p, dead), lim);
    assert Lawful(q.sh, me, o);
    forall r, t | 0 <= r < |q'.procs| && 0 <= t < |q'.procs| && r != t
      ensures q'.procs[r].Live() && q'.procs[t].Live() ==> q'.procs[r].ticket != q'.procs[t].ticket
      ensures q'.procs[r].slot >= 0 && !q'.procs[r].phase.Gone? && !q'.procs[t].phase.Gone? ==>
                q'.procs[r].slot != q'.procs[t].slot
    {
      assert q.procs[r] == q.procs[r] && q.procs[t] == q.procs[t];
    }
  }

  lemma JoinConsistent(q: Queue, overload: bool, side: Side, dead: bool, lim: Limits)
    requires Consistent(q)
    ensures Consistent(Do(q, Join(overload, side, dead), lim))
  {
    var q' := Do(q, Join(overload, side, dead), lim);
    forall r, t | 0 <= r < |q'.procs| && 0 <= t < |q'.procs| && r != t
      ensures q'.procs[r].Live() && q'.procs[t].Live() ==> q'.procs[r].ticket != q'.procs[t].ticket
      ensures q'.procs[r].slot >= 0 && !q'.procs[r].phase.Gone? && !q'.procs[t].phase.Gone? ==>
                q'.procs[r].slot != q'.procs[t].slot
    {
      assert r < |q.procs| ==> q'.procs[r] == q.procs[r];
      assert t < |q.procs| ==> q'.procs[t] == q.procs[t];
    }
  }

  /** Tickets of live processes are distinct and below the counter, and no slot is held twice; every
      step keeps it so. */
  lemma DoConsistent(q: Queue, s: Step, lim: Limits)
    requires Consistent(q) && Possible(q, s)
    ensures Consistent(Do(q, s, lim))
  {
    match s
    case Join(overload, side, dead) => JoinConsistent(q, overload, side, dead, lim);
    case Go(p, dead) => GoConsistent(q, p, dead, lim);
    case Leave(p) =>
      var me := q.procs[p];
    case Reclaim(k) =>
  }

  /** A run: every step possible where it is taken. */
  ghost predicate Feasible(q: Queue, steps: seq<Step>, lim: Limits)
    decreases |steps|
  {
    steps == [] || (Possible(q, steps[0]) && Feasible(Do(q, steps[0], lim), steps[1..], lim))
  }

  ghost function Run(q: Queue, steps: seq<Step>, lim: Limits): Queue
    requires Feasible(q, steps, lim)
    decreases |steps|
  {
    if steps == [] then q else Run(Do(q, steps[0], lim), steps[1..], lim)
  }

  /** Over every run live tickets are pairwise distinct and below the counter, and no slot is held by
      two processes. */
  lemma {:induction false} RunsKeepTickets(q: Queue, steps: seq<Step>, lim: Limits)
    requires Consistent(q) && Feasible(q, steps, lim)
    ensures Consistent(Run(q, steps, lim))
    decreases |steps|
  {
    if steps != [] {
      DoConsistent(q, steps[0], lim);
      RunsKeepTickets(Do(q, steps[0], lim), steps[1..], lim);
    }
  }

  // ---------------------------------------------------------------- whose turn it is

  /** r is waiting and its turn has not been passed over. */
  predicate InLine(q: Queue, r: nat) {
    r < |q.procs| && q.procs[r].Waiting() && q.sh.wait <= q.procs[r].ticket
  }

  /** The step is a claim of the turn by process p. */
  ghost predicate Claims(q: Queue, s: Step, p: nat, lim: Limits)
    requires Possible(q, s)
  {
    s.Go? && s.p == p && Do(q, s, lim).procs[p].phase.Claiming?
  }

  /** The step lets somebody into the game ahead of r: a process with a higher ticket takes a slot, or
      a newcomer (other than a tester) walks straight in. */
  ghost predicate PassesOver(q: Queue, s: Step, r: nat, lim: Limits)
    requires Possible(q, s) && r < |q.procs|
  {
    match s
    case Go(p, dead) =>
      q.procs[p].ticket > q.procs[r].ticket && Serves(q.sh, q.procs[p], Resume(q.sh, q.procs[p], lim, dead))
    case Join(overload, side, dead) => !overload && Arrive(q.sh, lim, overload, side, dead).me.phase.InGame?
    case Leave(_) => false
    case Reclaim(_) => false
  }

  /** The step is a claim of the turn by a process other than r with a higher ticket. */
  ghost predicate Overtakes(q: Queue, s: Step, r: nat, lim: Limits)
    requires Possible(q, s) && r < |q.procs|
  {
    s.Go? && s.p != r && Claims(q, s, s.p, lim) && q.procs[s.p].ticket > q.procs[r].ticket
  }

  /** One step costs a waiting process its place in line exactly when it is a claim by a higher ticket;
      even then nobody gets in ahead of it in that step. */
  lemma TurnKeptIff(q: Queue, s: Step, r: nat, lim: Limits)
    requires Consistent(q) && Possible(q, s) && InLine(q, r)
    ensures var q' := Do(q, s, lim);
            && r < |q'.procs| && !PassesOver(q, s, r, lim)
            && (q'.procs[r].Waiting() ==> (InLine(q', r) <==> !Overtakes(q, s, r, lim)))
  {
    assert q.procs[r].ticket < q.sh.count;
    if s.Go? {
      var me := q.procs[s.p];
      ResumeLawful(q.sh, me, lim, s.dead);
      if s.p != r {
        assert q.procs[s.p].Live() && q.procs[r].Live();
        ResumeClaims(q.sh, me, lim, s.dead);
      }
    }
  }

  /** A stretch that ends in a claim has set the turn to the claimer's own ticket; one that ends waiting
      with the turn raised is such a claim. */
  ghost predicate ClaimsProperly(sh: Shared, me: Local, o: Outcome) {
    && (o.me.phase.Claiming? ==> o.sh.wait == me.ticket && me.Waiting())
    && (o.sh.wait > sh.wait && o.me.Waiting() ==> o.me.phase.Claiming?)
  }

  lemma CompeteClaims(sh: Shared, me: Local, lim: Limits, dead: bool)
    requires me.Live() && !me.phase.Claiming? && me.ticket < sh.count
    ensures ClaimsProperly(sh, me, Compete(sh, me, lim, dead))
  {
  }

  lemma LookClaims(sh: Shared, me: Local, h: Outcome, lim: Limits, dead: bool)
    requires me.phase.Asleep? && me.ticket < sh.count && Quiet(sh, me, h)
    ensures ClaimsProperly(sh, me, Look(h, lim, dead))
  {
    if h.me.Live() {
      CompeteClaims(h.sh, h.me, lim, dead);
    }
  }

  lemma ResumeClaims(sh: Shared, me: Local, lim: Limits, dead: bool)
    requires me.Live() && me.ticket < sh.count
    ensures ClaimsProperly(sh, me, Resume(sh, me, lim, dead))
  {
    match me.phase
    case Asleep =>
      HeardQuiet(sh, me);
      LookClaims(sh, me, Heard(sh, me), lim, dead);
    case Correcting => CompeteClaims(sh, me, lim, dead);
    case Claiming =>
  }

  /** As long as r waits, no process with a higher ticket claims the turn. */
  ghost predicate Unchallenged(q: Queue, steps: seq<Step>, r: nat, lim: Limits)
    requires Feasible(q, steps, lim) && r < |q.procs|
    decreases |steps|
  {
    steps == [] || !q.procs[r].Waiting() ||
    (!Overtakes(q, steps[0], r, lim) && |Do(q, steps[0], lim).procs| >= |q.procs| &&
     Unchallenged(Do(q, steps[0], lim), steps[1..], r, lim))
  }

  /** As long as r waits, it is in line. */
  ghost predicate StaysInLine(q: Queue, steps: seq<Step>, r: nat, lim: Limits)
    requires Feasible(q, steps, lim) && r < |q.procs|
    decreases |steps|
  {
    !q.procs[r].Waiting() ||
    (InLine(q, r) &&
     (steps == [] ||
      (|Do(q, steps[0], lim).procs| >= |q.procs| && StaysInLine(Do(q, steps[0], lim), steps[1..], r, lim))))
  }

  /** While r waits, no step of the run passes it over. */
  ghost predicate NeverPassedOver(q: Queue, steps: seq<Step>, r: nat, lim: Limits)
    requires Feasible(q, steps, lim) && r < |q.procs|
    decreases |steps|
  {
    steps == [] || !q.procs[r].Waiting() ||
    (!PassesOver(q, steps[0], r, lim) && |Do(q, steps[0], lim).procs| >= |q.procs| &&
     NeverPassedOver(Do(q, steps[0], lim), steps[1..], r, lim))
  }

  lemma {:induction false} LeavingIsFinal(q: Queue, steps: seq<Step>, r: nat, lim: Limits)
    requires Consistent(q) && Feasible(q, steps, lim) && r < |q.procs| && !q.procs[r].Waiting()
    ensures r < |Run(q, steps, lim).procs| && !Run(q, steps, lim).procs[r].Waiting()
    decreases |steps|
  {
    if steps != [] {
      DoConsistent(q, steps[0], lim);
      if steps[0].Go? {
        ResumeLawful(q.sh, q.procs[steps[0].p], lim, steps[0].dead);
      }
      LeavingIsFinal(Do(q, steps[0], lim), steps[1..], r, lim);
    }
  }

  lemma {:induction false} GoneStaysInLine(q: Queue, steps: seq<Step>, r: nat, lim: Limits)
    requires Consistent(q) && Feasible(q, steps, lim) && r < |q.procs| && !q.procs[r].Waiting()
    ensures StaysInLine(q, steps, r, lim) && Unchallenged(q, steps, r, lim)
  {
  }

  /** First come, first served, with its exact condition: a process in line stays in line for as long as
      it waits if and only if no process with a higher ticket claims the turn meanwhile. */
  lemma {:induction false} StaysInLineIff(q: Queue, steps: seq<Step>, r: nat, lim: Limits)
    requires Consistent(q) && Feasible(q, steps, lim) && InLine(q, r)
    ensures StaysInLine(q, steps, r, lim) <==> Unchallenged(q, steps, r, lim)
    decreases |steps|
  {
    if steps != [] {
      var q1 := Do(q, steps[0], lim);
      TurnKeptIff(q, steps[0], r, lim);
      DoConsistent(q, steps[0], lim);
      if q1.procs[r].Waiting() {
        if InLine(q1, r) {
          StaysInLineIff(q1, steps[1..], r, lim);
        }
      } else {
        GoneStaysInLine(q1, steps[1..], r, lim);
        ClaimKeepsWaiting(q, steps[0], r, lim);
      }
    }
  }

  /** A claim by another process leaves r waiting. */
  lemma ClaimKeepsWaiting(q: Queue, s: Step, r: nat, lim: Limits)
    requires Possible(q, s) && r < |q.procs| && q.procs[r].Waiting()
    ensures Overtakes(q, s, r, lim) ==> Do(q, s, lim).procs[r] == q.procs[r]
  {
  }

  /** Nobody gets in ahead of a process in line unless a higher ticket has claimed the turn first. */
  lemma {:induction false} UnchallengedNotOvertaken(q: Queue, steps: seq<Step>, r: nat, lim: Limits)
    requires Consistent(q) && Feasible(q, steps, lim) && InLine(q, r)
    requires Unchallenged(q, steps, r, lim)
    ensures NeverPassedOver(q, steps, r, lim)
    ensures var q' := Run(q, steps, lim);
            r < |q'.procs| && (q'.procs[r].Waiting() ==> InLine(q', r))
    decreases |steps|
  {
    if steps != [] {
      var q1 := Do(q, steps[0], lim);
      TurnKeptIff(q, steps[0], r, lim);
      DoConsistent(q, steps[0], lim);
      if q1.procs[r].Waiting() {
        UnchallengedNotOvertaken(q1, steps[1..], r, lim);
      } else {
        LeavingIsFinal(q1, steps[1..], r, lim);
      }
    }
  }

  /** Waking up puts a process in line. */
  lemma WakePutsInLine(q: Queue, r: nat, dead: bool, lim: Limits)
    requires Consistent(q) && Possible(q, Go(r, dead)) && q.procs[r].phase.Asleep?
    ensures var q' := Do(q, Go(r, dead), lim);
            q'.procs[r].Waiting() ==> InLine(q', r)
  {
    var me := q.procs[r];
    HeardQuiet(q.sh, me);
    ResumeLawful(q.sh, me, lim, dead);
  }

  /** r wakes at some point of the run, and from then on no higher ticket claims the turn. */
  ghost predicate WakesUnchallenged(q: Queue, steps: seq<Step>, r: nat, lim: Limits)
    requires Feasible(q, steps, lim) && r < |q.procs|
    decreases |steps|
  {
    steps != [] && |Do(q, steps[0], lim).procs| >= |q.procs| &&
    ((steps[0].Go? && steps[0].p == r && q.procs[r].phase.Asleep? &&
      Unchallenged(Do(q, steps[0], lim), steps[1..], r, lim)) ||
     WakesUnchallenged(Do(q, steps[0], lim), steps[1..], r, lim))
  }

  /** The queue corrects itself: after any run in which r woke up and no higher ticket has claimed the
      turn since, whatever the turn was before, it is no later than r's ticket. */
  lemma {:induction false} OneRoundSettles(q: Queue, steps: seq<Step>, r: nat, lim: Limits)
    requires Consistent(q) && Feasible(q, steps, lim) && r < |q.procs|
    requires WakesUnchallenged(q, steps, r, lim)
    ensures var q' := Run(q, steps, lim);
            r < |q'.procs| && (q'.procs[r].Waiting() ==> q'.sh.wait <= q'.procs[r].ticket)
    decreases |steps|
  {
    var q1 := Do(q, steps[0], lim);
    DoConsistent(q, steps[0], lim);
    if WakesUnchallenged(q1, steps[1..], r, lim) {
      OneRoundSettles(q1, steps[1..], r, lim);
    } else {
      WakePutsInLine(q, r, steps[0].dead, lim);
      if q1.procs[r].Waiting() {
        UnchallengedNotOvertaken(q1, steps[1..], r, lim);
      } else {
        LeavingIsFinal(q1, steps[1..], r, lim);
      }
    }
  }

  /** The condition is needed: a process p that has seen r's turn four times, with a slot free and no
      request about, claims the turn, and if r sleeps through p's next two stretches p gets in first. */
  lemma SleeperIsOvertaken(q: Queue, p: nat, r: nat, lim: Limits)
    requires Consistent(q) && p < |q.procs| && InLine(q, r) && p != r
    requires q.procs[p].phase.Asleep? && !q.procs[p].dying && q.procs[p].ticket > q.procs[r].ticket
    requires q.procs[p].waits == 4 && q.procs[p].oldwait == q.sh.wait
    requires q.sh.request.ReqFree? && q.procs[p].myRequest == 0 && q.procs[p].pseudocount >= 0
    requires FindSlot(q.sh.slots, lim, q.procs[p].overload, q.procs[p].side) >= 0
    requires q.sh.wait < q.procs[p].ticket
    ensures Possible(q, Go(p, false))
    ensures var q1 := Do(q, Go(p, false), lim);
            && Claims(q, Go(p, false), p, lim) && Possible(q1, Go(p, false))
            && var q2 := Do(q1, Go(p, false), lim);
               && Possible(q2, Go(p, false)) && PassesOver(q2, Go(p, false), r, lim)
  {
    assert q.procs[p].ticket < q.sh.count;
    var q1 := Do(q, Go(p, false), lim);
    assert q1.procs[p].phase.Claiming? && q1.sh == q.sh.(wait := q.procs[p].ticket);
    var q2 := Do(q1, Go(p, false), lim);
    assert q2.sh == q1.sh && q2.procs[p] == q1.procs[p].(phase := Asleep, waits := 0);
    var o := Resume(q2.sh, q2.procs[p], lim, false);
    assert o.me.dying;
  }

  // ---------------------------------------------------------------- how often a turn is claimed

  /** Patience used up so far. */
  function Patience(me: Local): int {
    if me.phase.Claiming? then 0 else me.waits
  }

  ghost function ClaimCount(q: Queue, steps: seq<Step>, p: nat, lim: Limits): nat
    requires Feasible(q, steps, lim)
    decreases |steps|
  {
    if steps == [] then 0
    else (if Claims(q, steps[0], p, lim) then 1 else 0) + ClaimCount(Do(q, steps[0], lim), steps[1..], p, lim)
  }

  /** How often p comes out of a sleep and looks at the turn. */
  ghost function LookCount(q: Queue, steps: seq<Step>, p: nat, lim: Limits): nat
    requires Feasible(q, steps, lim)
    decreases |steps|
  {
    if steps == [] then 0
    else
      (if steps[0].Go? && steps[0].p == p && !q.procs[p].phase.Claiming? then 1 else 0) +
      LookCount(Do(q, steps[0], lim), steps[1..], p, lim)
  }

  /** What one look at the turn does to patience. */
  ghost predicate Spends(me: Local, o: Local, look: int) {
    && 0 <= Patience(o) <= 4
    && (if o.phase.Claiming? then 5 else 0) + Patience(o) <= Patience(me) + look
  }

  lemma CompeteSpends(sh: Shared, me: Local, lim: Limits, dead: bool)
    requires !me.phase.Claiming? && 0 <= me.waits <= 4
    ensures Spends(me, Compete(sh, me, lim, dead).me, 1)
  {
  }

  lemma WakeSpends(sh: Shared, me: Local, lim: Limits, dead: bool)
    requires me.phase.Asleep? && 0 <= me.waits <= 4
    ensures Spends(me, Wake(sh, me, lim, dead).me, 1)
  {
    var h := Heard(sh, me);
    HeardQuiet(sh, me);
    if sh.count != 0 && h.me.Live() {
      CompeteSpends(h.sh, h.me, lim, dead);
    }
  }

  lemma PatienceStep(sh: Shared, me: Local, lim: Limits, dead: bool)
    requires me.Live() && 0 <= Patience(me) <= 4
    ensures Spends(me, Resume(sh, me, lim, dead).me, if me.phase.Claiming? then 0 else 1)
  {
    match me.phase
    case Asleep => WakeSpends(sh, me, lim, dead);
    case Correcting => CompeteSpends(sh, me, lim, dead);
    case Claiming =>
  }

  /** A process claims the turn at most once in five looks: over any run five times its claims, plus
      the patience it has left over, are covered by its looks and the patience it began with. */
  lemma {:induction false} ClaimsAreRare(q: Queue, steps: seq<Step>, p: nat, lim: Limits)
    requires Feasible(q, steps, lim) && p < |q.procs| && 0 <= Patience(q.procs[p]) <= 4
    ensures p < |Run(q, steps, lim).procs|
    ensures 5 * ClaimCount(q, steps, p, lim) + Patience(Run(q, steps, lim).procs[p]) <=
            Patience(q.procs[p]) + LookCount(q, steps, p, lim)
    decreases |steps|
  {
    if steps != [] {
      if steps[0].Go? && steps[0].p == p {
        PatienceStep(q.sh, q.procs[p], lim, steps[0].dead);
      }
      ClaimsAreRare(Do(q, steps[0], lim), steps[1..], p, lim);
    }
  }
}
