# A verified model of a Netrek game server

This project models the parts of the Paradise Netrek server whose correctness rests on state shared by
many actors: a daemon that ticks the galaxy ten times a second, and one server process for each client.
Arrays of records stand for the shared memory, random draws and the outcomes of geometry are arbitrary
inputs, and every statement holds for any number of players and planets and for every draw.  Each part
has a specification on values with its theorems, and the code itself, updated in place, proved equal to
the specification.

- **Retransmission queues** (`FatSpec`, `FatLinks`, `FatPasses`, `FatDrain`, `FatUdp`, `FatOverrun`): ten
  intrusive doubly linked lists refine ten sequences, as long as they stay well formed.
- **Docking** (`DockSpec`, `DockSteps`, `DockRuns`, `Docking`): ships and bases that point at each other
  through overloaded fields.
- **Entry queue** (`QueueSpec`, `EntryQueue`): waiting processes that take tickets, correct each other and
  sleep in between.
- **Planets and conquest** (`PlanetSpec`, `ConquestSpec`, `ConquestRuns`, `Conquest`): beaming, bombing,
  growth, popping, revolts, scouting, surrender, and the counts kept of them.
- **League play** (`LeagueSpec`, `LeaguePlay`): two captains negotiate, a clock runs, both can pause it.
- **Torpedoes** (`TorpSpec`, `Torps`), **integer arithmetic** (`IntMath`), **sweeps and rankings**
  (`Sweeps`, `Ranking`), **damage and fuel** (`Damage`), **steering and speed** (`Helm`), and
  **construction** (`Shipyards`); `Arith` holds the arithmetic they share.

`dafny verify dfyconfig.toml` checks everything.

## Where the code does not do what it seems to promise

Each of these is a theorem with its exact condition.

- `updateFat` leaves the lists ill formed when the node is the head or tail of a temporary list, because
  `dequeue` looks for the ends of fat lists only; a node inside a temporary list is harmless.  Runs
  without such an update resend a packet at most five times; two updates in a row make it ten.
- A client reset empties the fat lists and leaves the temporary ones pointing at nodes that have been
  reset; this is harmless unless a temporary list holds two nodes.
- A dead ship can still dock until its client's first interrupt masks the input, and the end of a league
  game puts docked ships on the outfit screen; entering the game overwrites the docking fields and keeps
  the docking invariant exactly when the slot is tied to nobody.
- A waiting process keeps its place in line exactly as long as nobody with a higher ticket claims the
  turn; one that sleeps through such a claim can be overtaken.
- The "all died" branch of pop scheme 1 can run, contrary to its comment, on a planet that has become
  empty since it was listed.
- `pbomb` uses an unset number for a bomber that cannot bomb armies; a negative one makes timers grow.
- `ihypot` is exact for all sides up to eleven and no further, where its comment says a thousand.
- A player's count of torpedoes is set to nothing when everybody is blown up at once or the game is
  over, and on entering the game, which a player who left by becoming an observer or joining the
  tournament queue does without waiting for its torpedoes; if any is still in flight, the player can
  fire into the next player's record.  After a death the game waits, and the counts stay true.
- A docked ship with a full tank hands its own recharge to the base; only the rest of docked refuelling
  keeps the fuel in the two tanks.
- The armies of a vanished player are put on a planet without telling its owner's record.
- Erosion above one half can make damage negative, and hull damage can kill more armies than are aboard,
  though only when it destroys the ship.
- A ship out of fuel that may not move at all is told to creep at warp one and stopped below it.
- A ship is granted without counting those of its type that are still blowing up, whose loss is charged
  later, and two pilots can be allowed the last ship at once.
- A team that has surrendered loses whatever it retakes at the next minute that finds it with enough ships
  and few planets, for the rest of the game; if it is one of the two largest the game is over instead.

## Model

| member | source | states |
|---|---|---|
| FatUdp.FatCity.UpdateFat | src/ntserv/fatudp.c:257-259 | moving a fresh packet to temporary list 0: if and only if its node is not an end of a temporary list, the ten lists stay well formed, and they are then the old lists without the node, with the node appended to temporary list 0 |
| FatUdp.FatCity.Dequeue | src/ntserv/fatudp.c:86-150 | unlinks exactly one node: both ends and all neighbour links are those of the lists without it; the search for its list looks at the fat lists only |
| FatUdp.FatCity.HeadOf | src/ntserv/fatudp.c:106-112 | the fat list whose head the node is, or none |
| FatUdp.FatCity.TailOf | src/ntserv/fatudp.c:123-129 | the fat list whose tail the node is, or none |
| FatUdp.FatCity.CutHeadSide | src/ntserv/fatudp.c:104-119 | the half of unlinking that mends the head, or the follower |
| FatUdp.FatCity.CutTailSide | src/ntserv/fatudp.c:121-136 | the half of unlinking that mends the tail, or the predecessor |
| FatUdp.FatCity.Enqueue | src/ntserv/fatudp.c:157-174 | the node becomes the tail of the given temporary list |
| FatUdp.FatCity.Fatten | src/ntserv/fatudp.c:280-332 | one transmission: the lists become those of first fit on sequences, and the trace grows by exactly the packets first fit picks, in order |
| FatUdp.FatCity.WalkList | src/ntserv/fatudp.c:292-322 | one list: what is kept, sent and left over are those of first fit on that list |
| FatUdp.FatCity.TryOne | src/ntserv/fatudp.c:301-320 | one packet: skipped if it does not fit strictly, else sent, charged and moved one temporary list up, or dropped from the last |
| FatUdp.FatCity.Demote | src/ntserv/fatudp.c:308-315 | a sent node leaves its list for the next temporary list, or all lists |
| FatUdp.FatCity.FatMerge | src/ntserv/fatudp.c:340-368 | each fat list becomes old list then temporary list; every temporary list is empty |
| FatUdp.FatCity.MergeList | src/ntserv/fatudp.c:345-362 | the merge of one pair of lists |
| FatUdp.FatCity.Reset | src/ntserv/fatudp.c:66-72 | a client reset: well formed afterwards if and only if no temporary list held two nodes |
| FatLinks.CutSpells | src/ntserv/fatudp.c:86-150 | on links: unlinking a node that is no end of a temporary list spells the same ten lists without it |
| FatLinks.LinkSpells | src/ntserv/fatudp.c:157-174 | on links: appending to a temporary list spells that list with the node at its tail |
| FatLinks.RefreshWellFormedIff | src/ntserv/fatudp.c:257-259 | updateFat keeps the lists well formed if and only if the node is not the head or tail of a temporary list |
| FatLinks.RefreshBreaks | src/ntserv/fatudp.c:104-136 | a node that is an end of a temporary list leaves that list dangling when it is updated |
| FatLinks.JoinSpells | src/ntserv/fatudp.c:345-362 | on links: the merge spells fat list followed by temporary list, and an empty temporary list |
| FatLinks.ResetWellFormedIff | src/ntserv/fatudp.c:66-72 | resetting the fat lists alone leaves well-formed lists if and only if no temporary list holds two nodes |
| FatPasses.DemoteSpells | src/ntserv/fatudp.c:308-315 | on links: a sent node moves from the middle of its list to the next temporary list and from no other |
| FatLinks.SpelledOnce | src/ntserv/fatudp.c:86-174 | well-formed links put each node on at most one of the ten lists, once |
| FatSpec.WalkBudget | src/ntserv/fatudp.c:290-320 | a pass spends exactly what it sends, stays under the room it had, and stops exactly when less than ten bytes are left |
| FatSpec.WalkMaximal | src/ntserv/fatudp.c:301-320 | a pass skips nothing that would still have fitted |
| FatSpec.WalkSplits | src/ntserv/fatudp.c:292-322 | what a pass keeps and sends is what it was given: nothing lost, nothing twice |
| FatSpec.PassesAreOneWalk | src/ntserv/fatudp.c:291-323 | going list by list is one first fit over all lists written one after the other |
| FatSpec.FattenFirstFit | src/ntserv/fatudp.c:262-332 | one call sends in (list, position) order, each packet at most once, strictly under a hundred bytes, and is maximal: either under ten bytes are left or every packet left on a fat list is at least as large as the room |
| FatSpec.FattenConserves | src/ntserv/fatudp.c:306-315 | each send of a packet uses up exactly one of its remaining resends |
| FatSpec.MergeConserves | src/ntserv/fatudp.c:340-368 | merging changes no packet's remaining resends |
| FatSpec.UpdateRefills | src/ntserv/fatudp.c:257-259 | an update gives a packet its five resends back |
| FatSpec.UpdateLeavesOthers | src/ntserv/fatudp.c:257-259 | an update of one packet leaves every other packet's remaining resends alone |
| FatSpec.RunKeepsSingle | src/ntserv/fatudp.c:257-368 | over every run of the queues (which clean runs of the pointers are, by FatUdp.FatCity.Run) a packet is on at most one of the ten lists, once |
| FatSpec.RunConserves | src/ntserv/fatudp.c:281-368 | in runs of the queues, between two updates of a packet, the resends made and the resends left add up to those at the start |
| FatSpec.ResentAtMostFiveTimes | src/ntserv/fatudp.c:308-315 | in every run of the queues a packet is resent at most MAX_FAT_LIST times between two updates, and at most once in one transmission |
| FatLinks.TempEndIff | src/ntserv/fatudp.c:104-136 | on well-formed pointers the nodes whose update breaks the lists are exactly the first and last packets of the temporary lists |
| FatUdp.FatCity.Step | src/ntserv/fatudp.c:257-368 | in place: an update, transmission or merge of the real lists is that of the queues, unless it updates an end of a temporary list |
| FatUdp.FatCity.Run | src/ntserv/fatudp.c:257-368 | in place: every run of the real lists in which no update meets an end of a temporary list is the run of the queues, packet by packet sent |
| FatUdp.FatCity.RunAfterUpdate | src/ntserv/fatudp.c:308-315 | in place: in such a run the real lists resend an updated packet at most MAX_FAT_LIST times before its next update, and at most once in one transmission |
| FatOverrun.UpdatedTwiceSentTenTimes | src/ntserv/fatudp.c:86-368 | the condition is needed: from empty lists, a packet of less than fifty bytes updated twice in a row is tied to itself and sent ten times, twice in each of the next five transmissions |
| FatOverrun.SentTwice | src/ntserv/fatudp.c:297-320 | a node that is its own follower on a fat list is sent twice by one call and ends up tied to itself on the next temporary list |
| FatOverrun.TransmissionIsQueued | src/ntserv/fatudp.c:281-368 | on well-formed lists the same turns of the loops, taken one at a time, come to an end, send what the queues send, in order, and leave the lists the queues leave |
| FatDrain.FattenSendsIff | src/ntserv/fatudp.c:287-322 | a transmission sends something if and only if some fat list holds a packet of less than a hundred bytes |
| FatDrain.FattenWorks | src/ntserv/fatudp.c:301-315 | each packet sent uses up one of the resends left to the small packets, and nothing else does |
| FatDrain.LargeNeverSent | src/ntserv/fatudp.c:301 | in no run is a packet of a hundred bytes or more sent |
| FatDrain.EverySmallPacketIsResent | src/ntserv/fatudp.c:281-368 | without updates each small packet is resent exactly as often as it still may be, within as many merges and transmissions as there are resends in all |
| FatUdp.FatCity.LeftAlone | src/ntserv/fatudp.c:281-368 | in place: the real lists, left without updates for that long, send each small packet exactly as often as it still may be sent |
| Docking.UndockPlayer | src/common/plutil.c:55-76 | in place: the ship and its base both let go, the base counts one less, a jump ship gets credit; the docking invariant is kept |
| Docking.BaseUndock | src/common/plutil.c:79-97 | in place: the base lets go of the ship at one port |
| Docking.DockTo | src/common/plutil.c:130-145 | in place: undock first, then both sides point at each other |
| Docking.ClearOut | src/common/plutil.c:182-189 | in place: the ship leaves its base and sends off all its guests |
| Docking.Evaporate | src/common/plutil.c:176-196 | in place: a ship put on the outfit screen is untied first, from everybody, and the docking invariant is kept |
| Docking.ShipExplode | src/daemon/player.c:363-377 | in place: an exploding ship is untied, and dead when its timer has run out; the docking invariant is kept |
| Docking.NearestPort | src/common/orbit.c:182-200 | the loop finds the vacant port with the least distance, the first of equals |
| Docking.NewDock | src/common/orbit.c:166-207 | in place: docks at the nearest vacant port if the base permits |
| Docking.OrbitKey | src/common/orbit.c:61-159 | in place: the orbit key undocks, then docks at the first base near enough or goes into orbit; the docking invariant is kept |
| Docking.SetSpeed | src/common/interface.c:127-138 | in place: a speed command undocks unless the base is too fast; the docking invariant is kept |
| Docking.SetCourse | src/common/interface.c:244-258 | in place: a course command undocks unless the base is too fast, and leaves orbit; the docking invariant is kept |
| Docking.DeclareWar | src/common/interface.c:717-759 | in place: war parts ship and base of hostile teams; the docking invariant is kept |
| Docking.DockPermission | src/ntserv/socket.c:2614-2634 | in place: switching docking off or on; the docking invariant is kept |
| Docking.Refit | src/common/interface.c:813-885 | in place: a refit unties guests, and takes the new hull; the docking invariant is kept |
| Docking.TractorOff | src/daemon/player.c:988-1007 | in place: a docked ship pulled off its base ruins the port; the docking invariant is kept |
| Docking.RepairDockingRing | src/daemon/player.c:422-440 | in place: ruined ports are repaired as hull damage goes down; the docking invariant is kept |
| DockSpec.UndockPlayerMutual | src/common/plutil.c:55-76 | undocking keeps the docking invariant and unties the ship |
| DockSpec.BaseUndockMutual | src/common/plutil.c:79-97 | letting a guest go keeps the docking invariant |
| DockSpec.DockToMutual | src/common/plutil.c:130-145 | docking at a vacant port keeps the docking invariant |
| DockSpec.KickAllClears | src/common/plutil.c:182-189 | after sending off everybody no ship is docked at the base and it counts no guests |
| DockSpec.KickSendsOffChosen | src/common/interface.c:737-758 | sending off the chosen guests unties exactly those; every other ship is as it was |
| DockSteps.NearestVacantIsNearest | src/common/orbit.c:182-200 | a port is found if and only if one is vacant, and none vacant is nearer, or as near with a lower number |
| DockSteps.RepairRingEffect | src/daemon/player.c:422-440 | repair leaves exactly one ruined port for each ten points of hull damage, or all there were |
| DockRuns.ClearOutEffect | src/common/plutil.c:176-190 | leaving space keeps the invariant and leaves the ship tied to nobody |
| DockRuns.DeclareWarSeparates | src/common/interface.c:737-758 | after a declaration no docked pair of newly hostile teams is left on either side, and every other mooring stands |
| DockRuns.RepairRingKeeps | src/daemon/player.c:422-440 | repairing ports keeps the docking invariant |
| DockRuns.RefitKeeps | src/common/interface.c:813-885 | a refit keeps the docking invariant |
| DockRuns.TractorOffKeeps | src/daemon/player.c:988-1007 | pulling a ship off its base keeps the docking invariant, the ruined port included |
| DockRuns.OrbitKeyKeeps | src/common/orbit.c:61-159 | the orbit key keeps the docking invariant |
| DockRuns.EnterKeepsMutualIff | src/common/enter.c:304-340 | entering the game, which overwrites the docking fields, keeps the docking invariant if and only if the slot is tied to nobody |
| DockRuns.DoKeepsMutualIff | src/common/plutil.c:55-196 | every modelled step keeps the invariant (a ship is docked to a base at a port if and only if the port holds it, bases and orbiting ships are never docked, the count is the number of occupied ports), except entering a tied slot |
| DockRuns.UntiedEntriesKeepDocking | src/common/plutil.c:55-196 | the docking invariant over every run of the steps, dead ships that dock and observers included, in which each entry finds its slot untied |
| DockRuns.RunsKeepDocking | src/common/plutil.c:55-196 | over every run in which entering players come from outside space, observers do not start docked and only ships in space dock, the docking invariant holds and both parties of every mooring are in space |
| DockRuns.GuestCount | src/common/plutil.c:88-143 | the count a base keeps is the number of different ships docked at it |
| DockRuns.DockThenUndock | src/common/plutil.c:55-145 | undocking is the inverse of docking |
| DockRuns.EndgameInSpaceIff | src/daemon/conquer.c:440-453 | the end of a game leaves docked ships on the outfit screen: both parties of every mooring are still in space if and only if nobody was docked |
| DockRuns.EndgameThenEnterBreaks | src/daemon/conquer.c:440-453 | a concrete fleet whose invariant breaks when the slot of a docked ship is entered after the end of a league game, by its next player once its own has had to leave, or by its own |
| DockRuns.DeadOrbitThenEnterBreaks | src/ntserv/socket.c:1752-1794 | a concrete fleet in which a dead ship docks, and the invariant breaks on re-entry; the orbit key is obeyed only until the first interrupt after the death masks the input (src/ntserv/redraw.c:574-576) |
| EntryQueue.Status.AllocateSlot | src/ntserv/findslot.c:51-90 | in place: the slot found is the specified one, and is taken only when asked |
| EntryQueue.Waiter.constructor | src/ntserv/findslot.c:189-223 | arriving: in at once, or a ticket and the top of the loop, where a dead client gives its ticket back |
| EntryQueue.Waiter.Loop | src/ntserv/findslot.c:209-232 | the top of the loop down to its sleep, a dead client leaving included |
| EntryQueue.Waiter.FinishRequest | src/ntserv/findslot.c:236-251 | a request of one's own that has run out |
| EntryQueue.Waiter.PostRequest | src/ntserv/findslot.c:252-265 | posting a departure or a question |
| EntryQueue.Waiter.HearOthers | src/ntserv/findslot.c:266-293 | reacting to another's request, or clearing a stale one |
| EntryQueue.Waiter.TryForSlot | src/ntserv/findslot.c:294-330 | correcting the turn, taking a slot on one's turn, or losing patience and claiming it |
| EntryQueue.Waiter.Proceed | src/ntserv/findslot.c:209-332 | from one sleep to the next, whichever sleep the process is in |
| QueueSpec.ResumeLawful | src/ntserv/findslot.c:209-332 | every stretch of running between two sleeps touches the shared record only in the lawful ways; in particular a slot is taken only by a waiting process whose ticket is the one being served |
| QueueSpec.RunsKeepTickets | src/ntserv/findslot.c:189-332 | over every interleaving, live tickets are pairwise distinct and below the counter, and no slot is held by two processes |
| QueueSpec.TurnKeptIff | src/ntserv/findslot.c:294-330 | a step costs a waiting process its place in line if and only if it is a claim of the turn by a process with a higher ticket; even then nobody gets past it in that step |
| QueueSpec.StaysInLineIff | src/ntserv/findslot.c:294-330 | first come, first served with its exact condition: over every run a process in line stays in line for as long as it waits if and only if no process with a higher ticket claims the turn meanwhile |
| QueueSpec.UnchallengedNotOvertaken | src/ntserv/findslot.c:294-330 | over every run without such a claim nobody gets in ahead of a process in line |
| QueueSpec.WakePutsInLine | src/ntserv/findslot.c:294-299 | a process that wakes up corrects a turn set past its ticket |
| QueueSpec.OneRoundSettles | src/ntserv/findslot.c:294-299 | self-correction: after any run in which a process woke and no higher ticket has claimed the turn since, the turn is no later than its ticket, whatever it was before |
| QueueSpec.SleeperIsOvertaken | src/ntserv/findslot.c:322-327 | the condition is needed: a process that loses patience gets in before one that sleeps through the claim |
| QueueSpec.ResumeClaims | src/ntserv/findslot.c:294-330 | a stretch of running that ends waiting with the turn raised is a claim, and a claim sets the turn to the ticket of the claiming process |
| QueueSpec.ClaimsAreRare | src/ntserv/findslot.c:313-328 | a process claims at most once in five looks, over every run |
| PlanetSpec.PopOneKeepsOwner | src/daemon/planets.c:1049-1094 | pop scheme 0 never empties a planet and never changes its owner, so its "all died" branch is dead |
| PlanetSpec.PopOneIff | src/daemon/planets.c:1062-1083 | scheme 0 grows a planet exactly when the draw succeeds, the air is not poison and there is room, and shrinks it exactly when the draw succeeds on poison with four armies or more |
| PlanetSpec.FacilitiesAppearOnTime | src/daemon/planets.c:343-401 | left in peace, with no starbase in orbit, a planet has each facility its ground allows exactly from the growth on at which its timer, gaining half its armies each time, reaches the facility's value; under the starbase-only setting the yard timer stops at the repair value |
| PlanetSpec.SiegeBreaks | src/daemon/planets.c:544-622 | when every bombing knocks off something, as many bombings as there are armies above four and points on the longest timer leave at most four armies and no facility, and still the owner and an army |
| PlanetSpec.PopTwoDesertsIff | src/daemon/planets.c:1098-1160 | pop scheme 1 takes its "all died" branch exactly when the planet was empty and drew no growth, which can happen, contrary to the comment; never on an owned planet |
| PlanetSpec.BombSpares | src/daemon/planets.c:544-622 | bombing never removes the last army, adds none, keeps the owner, spares facilities while more than four armies stand, and keeps the planet sound |
| PlanetSpec.BombYardSpares | src/daemon/planets.c:599-622 | bombing the yard keeps shipyards on a timer of at least the repair value and repair stations on a positive one |
| PlanetSpec.GrowSound | src/daemon/planets.c:343-402 | growth keeps owner and armies, and facilities on running timers |
| PlanetSpec.GrowthKeepsCouplingIff | src/daemon/planets.c:343-402 | growth keeps facilities on running timers exactly for settings with positive times and a shipyard time no less than the repair time |
| PlanetSpec.PopOneSound | src/daemon/planets.c:1049-1094 | pop scheme 0 keeps the planet sound, the owner's record included |
| PlanetSpec.PopTwoSound | src/daemon/planets.c:1098-1160 | pop scheme 1 keeps the planet sound |
| PlanetSpec.BeamSound | src/daemon/player.c:92-271 | beaming up, down, and onto foreign planets keeps the planet sound |
| PlanetSpec.RevoltSound | src/daemon/planets.c:762-849 | a visit of the revolution keeps the planet sound |
| PlanetSpec.ScoutSound | src/common/plutil.c:147-171 | scouting never disturbs the owner's own record, and the scouting team knows the planet afterwards |
| PlanetSpec.KnockedIsPositive | src/daemon/planets.c:546-548 | the armies a bomber knocks off are the rounded quotient, never negative |
| PlanetSpec.BombKeepsNoYardIff | src/daemon/planets.c:599-622 | bombing keeps shipyards and over-long timers away unless it reaches the repair timer with a negative number, which the unset variable of a bomber that cannot bomb armies allows |
| PlanetSpec.GrowKeepsNoYard | src/daemon/planets.c:369-401 | under the starbase-only setting growth without a starbase builds no shipyard and takes no timer past the repair value |
| PlanetSpec.RevolutionTakesSixteenVisits | src/daemon/planets.c:773-826 | unrelieved unrest on two armies kills one at the eighth visit and frees the planet exactly at the sixteenth |
| ConquestSpec.TopTwoAreLargest | src/daemon/conquer.c:169-194 | the two sides of the game are different teams, and no team has more ships than either |
| ConquestSpec.CheckWinCounts | src/daemon/conquer.c:397-410 | after a recount every team's count is the number of planets it owns |
| ConquestSpec.BeamKeepsCrews | src/daemon/player.c:65-283 | beaming overfills no ship and no base, and takes no army a ship does not have |
| ConquestRuns.DoKeepsSound | src/daemon/planets.c:315-1160 | one daemon step keeps every planet sound: armies not negative, at least one on an owned planet, the owner's record equal to the planet but for the redraw mark, facilities on running timers |
| ConquestRuns.RunsKeepSound | src/daemon/planets.c:315-1160 | every planet stays sound over every run, in which ships also move, dock, press their beam keys, lose armies, die and are replaced |
| ConquestRuns.GhostKeepsSoundIff | src/daemon/daemonII.c:784-806 | when a vanished player's armies are put on a planet of its team every planet stays sound if and only if there were none, as nobody tells the owner's record |
| ConquestRuns.DoKeepsCounted | src/daemon/conquer.c:466-472 | true planet counts stay true after every step, and any step that changes an owner makes them true |
| ConquestRuns.RunsKeepCounted | src/daemon/conquer.c:397-410 | planet counts equal the planets owned after every step of every run, wherever the ships fly |
| ConquestRuns.DoRecountsOrKeepsOwners | src/daemon/conquer.c:466-472 | every step that changes an owner ends in a recount |
| ConquestRuns.OwnersPassThroughNobody | src/daemon/player.c:173-271 | a planet gets an owner only when a ship of that team lands on it empty and unowned, and then holds one army; it loses an owner only to nobody |
| ConquestRuns.LandingTolls | src/daemon/player.c:193-271 | a landing costs nothing on an empty planet, two armies when a defender falls, one when none does |
| ConquestRuns.BeamTolls | src/daemon/player.c:65-283 | a turn of beaming takes away exactly its toll; friendly and docked transfers conserve the armies |
| ConquestRuns.FerryRunTolls | src/daemon/player.c:1158-1173 | over every run in which ships fly, load, carry, land, are hit and are lost, the armies in the galaxy fall by exactly the tolls of the invasions and the armies lost with ships |
| ConquestRuns.RunsKeepNoYards | src/daemon/planets.c:369-401 | with starbase-only shipyards and no starbase in orbit, no shipyard appears and no timer passes the repair value in any run without a negative draw |
| ConquestRuns.SurrenderIsFinal | src/daemon/conquer.c:286-312 | a clock of minus one stays there for the rest of the game, and each later minute takes whatever planets the team has if and only if it finds it with enough ships and few planets |
| ConquestRuns.RunningOutEndsGameIff | src/daemon/conquer.c:286-312 | when a clock runs out the game goes on if and only if the team is neither of the two largest and neither of those is down to the planets of a conquest |
| ConquestRuns.ClockRunsOut | src/daemon/conquer.c:282-312 | a team below the mark keeps its planets for every minute but the last of its clock, and has none after it |
| Conquest.Galaxy.RefreshTeamPlanetCounts | src/daemon/conquer.c:397-410 | the counting loop gives every team the number of planets it owns, and the count before |
| Conquest.Galaxy.Genocide | src/daemon/conquer.c:159-200 | the compare-and-swap cascade yields the specified pair, and says whether one of them is conquered |
| Conquest.Galaxy.CheckSurrender | src/daemon/conquer.c:227-259 | starting and stopping a surrender clock |
| Conquest.Galaxy.CheckWin | src/daemon/conquer.c:466-500 | in place: recount, surrender clocks and the end of the game; the counts are true afterwards |
| Conquest.Galaxy.UdSurrend | src/daemon/conquer.c:286-312 | in place: one team's minute of the surrender clock, planets neutralized when it runs out; planets stay sound and counts true |
| Conquest.Galaxy.BeamMeUpScotty | src/daemon/player.c:65-144 | in place: beaming up from a planet or a base |
| Conquest.Galaxy.BeamDown | src/daemon/player.c:154-284 | in place: beaming down to a friend, a foe or a base |
| Conquest.Galaxy.Storm | src/daemon/player.c:193-271 | in place: one army against the defenders of a foreign planet |
| Conquest.Galaxy.Beam | src/daemon/player.c:1158-1173 | in place: one pass over all ships is the fold of single turns, and keeps planets sound and counts true |
| Conquest.Galaxy.GrowPlanets | src/daemon/planets.c:314-403 | in place: starbase boosts, then growth of every owned planet |
| Conquest.Galaxy.BoostOrbited | src/daemon/planets.c:329-339 | in place: each starbase in orbit boosts its planet once and marks it |
| Conquest.Galaxy.BlastResource | src/daemon/planets.c:476-491 | in place: a facility is destroyed and both teams learn it |
| Conquest.Galaxy.PBomb | src/daemon/planets.c:517-622 | in place: one bomber's turn, with the draw it leaves behind for the next |
| Conquest.Galaxy.PopOnePlanet1 | src/daemon/planets.c:1048-1094 | in place: pop scheme 0 |
| Conquest.Galaxy.PopOnePlanet2 | src/daemon/planets.c:1098-1160 | in place: pop scheme 1, with its recount |
| Conquest.Galaxy.RevoltAt | src/daemon/planets.c:762-849 | in place: the revolution's visit, with its recount |
| Conquest.Galaxy.ScoutPlanet | src/common/plutil.c:164-170 | in place: what a scouting team learns |
| LeaguePlay.Status2.constructor | src/daemon/daemonII.c:603-648 | league play begins with the rules of the negotiation holding |
| LeaguePlay.Status2.ChooseEmpire | src/ntserv/message.c:1368-1419 | in place: choosing an empire |
| LeaguePlay.Status2.PassChoice | src/ntserv/message.c:1538-1578 | in place: passing the choice |
| LeaguePlay.Status2.DrawEmpires | src/ntserv/message.c:1562-1577 | in place: the computer chooses for whoever has not |
| LeaguePlay.Status2.StartPlay | src/ntserv/message.c:1580-1623 | in place: the start order |
| LeaguePlay.Status2.RestartSelection | src/ntserv/message.c:1625-1655 | in place: the wish to start over |
| LeaguePlay.Status2.WishNewGalaxy | src/ntserv/message.c:1742-1787 | in place: the wish for a new galaxy |
| LeaguePlay.Status2.NameTeam | src/ntserv/message.c:1661-1680 | in place: naming a team |
| LeaguePlay.Status2.SetTime | src/ntserv/message.c:1482-1536 | in place: agreeing on times; the first number is kept even when the second does not parse |
| LeaguePlay.Status2.ChangeCaptain | src/ntserv/message.c:1431-1480 | in place: becoming and ceasing to be captain |
| LeaguePlay.Status2.LimitPlayers | src/ntserv/message.c:1827-1867 | in place: agreeing on the number of players |
| LeaguePlay.Status2.WishPause | src/ntserv/message.c:1790-1810 | in place: the wish to pause |
| LeaguePlay.Status2.WishContinue | src/ntserv/message.c:1812-1826 | in place: the wish to continue |
| LeaguePlay.Status2.ParseLeague | src/ntserv/message.c:1313-1868 | in place: a league command, captains' orders for captains only; it keeps the rules of the negotiation, and in play the terms |
| LeaguePlay.Status2.HandlePauseGoop | src/daemon/daemonII.c:232-278 | in place: the countdown of a pause |
| LeaguePlay.Status2.UdTourny | src/daemon/tourny.c:426-476 | in place: the tournament clock and its phases |
| LeaguePlay.Status2.Move | src/daemon/daemonII.c:361-445 | in place: one tick; the game is updated exactly when no pause is left, and the rules of the negotiation are kept |
| LeagueSpec.DoKeepsFair | src/ntserv/message.c:1368-1787 | every command, tick and conquest keeps the rules: empires in range and different, Home never before Away but by a pass, two passes give both an empire, ready means empire and name, play means both ready |
| LeagueSpec.RunsKeepFair | src/ntserv/message.c:1368-1787 | the rules of the negotiation hold over every sequence of commands and ticks |
| LeagueSpec.PhasesInOrder | src/ntserv/message.c:1580-1623 | the phases follow each other in order, and play is entered only by a captain's start with the other side ready, an empire and a name for each |
| LeagueSpec.TermsFrozen | src/ntserv/message.c:1376-1383 | nothing anyone does during play changes an empire, a name, a pass or the length of the game |
| LeagueSpec.HomeWaitsForAway | src/ntserv/message.c:1391-1396 | Home can neither take nor pass anything before Away has |
| LeagueSpec.AwayWaitsForHome | src/ntserv/message.c:1397-1405 | Away cannot use the choice twice, nor after passing it, before Home has answered |
| LeagueSpec.NegotiationNeverStuck | src/ntserv/message.c:1368-1626 | from every state of the negotiation with two captains at most six lawful orders lead into play |
| LeagueSpec.PlayLastsExactly | src/daemon/tourny.c:439-471 | without a conquest play goes on for exactly the remaining number of live ticks, whatever orders and pauses fall in between, and the last one ends it |
| LeagueSpec.StartSetsTheClock | src/ntserv/message.c:1612-1620 | a start sets one minute of warm-up and the agreed minutes of play |
| LeagueSpec.PauseUnanimous | src/ntserv/message.c:1790-1800 | the second captain's wish pauses for a hundred ticks |
| LeagueSpec.PauseHolds | src/daemon/daemonII.c:232-247 | no tick updates the game before as many calm ticks as the counter says, and unless a pause is asked for again the next one does |
| LeagueSpec.PausedClockStands | src/daemon/daemonII.c:366-445 | the clock of play stands still during a pause |
| Torps.TorpBay.NTorp | src/common/torp.c:67-164 | in place: the guards, the search and the shot; true counts stay true, and then no record of another player is touched |
| Torps.TorpBay.DetOthers | src/common/detonate.c:59-99 | in place: detonating the near and hostile torpedoes of others |
| Torps.TorpBay.UdTorps | src/daemon/weapons.c:420-510 | in place: one tick of all records and counts |
| Torps.TorpBay.UdTorp | src/daemon/weapons.c:428-508 | in place: the switch over the states of one record |
| Torps.TorpBay.DetMine | src/ntserv/socket.c:2264-2317 | in place: putting out one's own torpedo |
| TorpSpec.ShotFindsRoom | src/common/torp.c:82-143 | the pigeonhole: with true counts, passing the guard means the search ends at a free record of the player's own band |
| TorpSpec.FireKeepsBandedIff | src/common/torp.c:82-149 | firing keeps the counts true exactly when the kind is not the free one; the range check would let that through, and no caller sends it |
| TorpSpec.DetKeepsBanded | src/common/detonate.c:75-99 | detonating keeps the counts true |
| TorpSpec.TickKeepsBanded | src/daemon/weapons.c:428-508 | a tick keeps the counts true |
| TorpSpec.EnterKeepsBandedIff | src/common/enter.c:406 | setting a player's count to nothing, as entering does, keeps the counts true exactly when it is nothing already |
| TorpSpec.RebirthKeepsBanded | src/ntserv/redraw.c:577-580 | with true counts a player who has died comes back, once its count is nothing, with true counts |
| TorpSpec.EnterOwes | src/common/plutil.c:198-215 | with everybody blown up at once, each count is short by the torpedoes that were in flight |
| TorpSpec.ShotStaysIff | src/common/torp.c:82-143 | when counts are short, a shot that passes the guards stays in its player's band if and only if the band is not full, which true counts imply |
| TorpSpec.ForgottenTorpsOverrun | src/ntserv/main.c:486-515 | a player with torpedoes in flight whose count is set to nothing can fill its band and then fire into the record of the next player |
| TorpSpec.RunsKeepBanded | src/common/torp.c:82-157 | over every run of shots, detonations, ticks, returns from death and entries with a count of nothing, every count is the number of records in use in its band |
| TorpSpec.RankFalls | src/daemon/weapons.c:428-508 | a rank of state and fuse falls at every tick and is raised by no other step while the record is in use |
| TorpSpec.EveryTorpedoEnds | src/daemon/weapons.c:428-508 | every torpedo is gone within as many ticks as its rank, in every run |
| TorpSpec.FlightEnds | src/daemon/weapons.c:428-508 | a torpedo in flight with fuse f is gone within f + 12 ticks |
| IntMath.Root | src/common/imath.c:30-46 | a definition of the integer square root by r*r <= n < (r+1)*(r+1) |
| IntMath.Isqrt | src/common/imath.c:47-58 | the sum of odd numbers gives exactly the integer square root; zero for negative arguments |
| IntMath.IsqrtFitsIff | src/common/imath.c:47-58 | the largest sum formed fits a 32-bit int exactly for arguments below 46340 squared |
| IntMath.IHypot | src/common/imath.c:176-193 | branch and table arithmetic compute the specified distance, never above the true one |
| IntMath.HypotBound | src/common/imath.c:176-193 | the result squared never exceeds x*x+y*y, and the true distance is less than the result plus one plus two thousandths of the longer side; signs and order do not matter |
| IntMath.HypotOnAxis | src/common/imath.c:176-193 | along an axis the distance is exact |
| IntMath.HypotExactIff | src/common/imath.c:61-69 | the comment claims exact results up to a thousand: all distances of sides up to a length are exact, rounded down, if and only if that length is at most eleven |
| IntMath.HypotInexact | src/common/imath.c:64-66 | the first pair that fails: five and twelve give twelve, not thirteen |
| IntMath.HypotFitsIff | src/common/imath.c:192 | every intermediate value fits a 32-bit int for all sides up to a length exactly when that is at most 1518729 |
| Sweeps.FillPlanets | src/daemon/planets.c:409-425 | the list holds the matching planets, shuffled by the draws |
| Sweeps.ShufflePlanets | src/daemon/planets.c:419-424 | the swap loop computes the shuffle of the draws |
| Sweeps.ShuffledPermutes | src/daemon/planets.c:419-424 | a shuffle is a permutation |
| Sweeps.EveryOrderDrawn | src/daemon/planets.c:419-424 | the shuffle reaches exactly the permutations: every order can be drawn |
| Sweeps.MatchingIsExact | src/daemon/planets.c:414-417 | the list holds each matching planet once and nothing else |
| Sweeps.SweepIsFair | src/daemon/planets.c:831-849 | after any number of calls every planet has been visited as often as there have been full rounds, or once more; after full rounds exactly as often |
| Sweeps.Revolution.Next | src/daemon/planets.c:839-845 | in place: the next planet of the sweep, with a new shuffle when the list is used up |
| Ranking.DisplayBest | src/daemon/conquer.c:108-134 | the insertion loops build the ranked list in place, within an array one longer than the number of slots |
| Ranking.InsertLine | src/daemon/conquer.c:118-130 | in place: one player is inserted after all with at least its score |
| Ranking.MakeRoom | src/daemon/conquer.c:125-126 | in place: the lines from a place on move up by one |
| Ranking.RankedIsStableSort | src/daemon/conquer.c:108-134 | the list is the one that holds exactly the team's players by falling score, ties in slot order |
| Damage.Victim.InflictDamage | src/daemon/dutil.c:159-249 | in place: a hit on shields, hull, cargo and hull size; a kill is reported exactly when the damage reaches the hull; shields and hull lose exactly the hit, and a survivor keeps a proper number of armies |
| Damage.Victim.HitShields | src/daemon/dutil.c:168-190 | in place: what shields absorb and what comes through |
| Damage.Victim.KillCargo | src/daemon/dutil.c:194-228 | in place: armies killed by hull damage |
| Damage.Victim.Erode | src/daemon/dutil.c:230-246 | in place: the loop of half-point tosses takes the eroded points off damage and hull alike |
| Damage.PenetratedBounds | src/daemon/dutil.c:174-177 | what penetrates is between nothing and the whole hit |
| Damage.HitConserves | src/daemon/dutil.c:168-249 | shields plus hull fall by exactly the damage, for all draws, shields up or down, and the ship is lost exactly when the rest of the hit reaches its hull |
| Damage.DamagePositiveIff | src/daemon/dutil.c:230-246 | erosion never makes damage negative exactly when its rate is at most a half |
| Damage.ArmiesSurviveIff | src/daemon/dutil.c:194-211 | whatever the draws, a hit leaves no negative number of armies exactly when damage beyond half times armies is below half times armies plus one |
| Damage.EvenHullKeepsCargo | src/daemon/dutil.c:194-211 | a ship with an even hull that is not overkilled keeps a proper number of armies |
| Damage.SurvivorKeepsCargo | src/daemon/dutil.c:159-249 | whatever the draws, a ship that outlives a hit has lost no more armies than it carried: only a hit that destroys the ship kills more |
| Damage.DoRefuel | src/daemon/player.c:525-563 | in place: one tick of a docked ship - a load, a missile for a full patrol ship, or its own recharge, with what overflows going to the base; tanks within their limits stay so |
| Damage.RefuelTotal | src/daemon/player.c:525-563 | what a tick makes of the fuel in two tanks within their limits: nothing while the ship has room; a full patrol ship's missile costs the base its price; any other full ship's recharge goes to the base as far as that has room |
| Damage.RefuelConservesIff | src/daemon/player.c:525-563 | a tick keeps the fuel in the two tanks if and only if a ship with room draws nothing, or fits it, or the base has room for the rest; a full patrol ship has its missiles or they are free; any other full ship regains nothing or the base is full |
| Damage.RefuelKeepsTanks | src/daemon/player.c:525-563 | neither tank overflows, the base is not taken below its minimum by more than a load, a full ship stays full |
| Damage.DockedTanks | src/daemon/player.c:525-563 | after n ticks docked the ship holds all the loads the base could give or its tank could take, and the two tanks together what they held, plus a recharge for every tick that found the ship full as far as the base has room, or, for a patrol ship, less its missiles |
| Damage.DockedFuelConservedIff | src/daemon/player.c:525-563 | over n ticks docked the fuel in the two tanks stays the same if and only if no tick finds the ship full, or a patrol ship has its missiles or they are free, or another ship regains nothing or both tanks began full |
| Helm.Ship.Turn | src/daemon/player.c:708-743 | in place: one tick of turning; the way to the wanted heading is shorter by the whole steps gained |
| Helm.Ship.TurnTicks | src/daemon/player.c:729-741 | in place: turning by whole ticks the shorter way |
| Helm.Ship.AlterSpeed | src/daemon/player.c:888-946 | in place: one tick of the speed, which moves toward the wanted one |
| Helm.Ship.ShiftSpeed | src/daemon/player.c:926-946 | in place: whole thousandths go into the speed |
| Helm.TurnShortens | src/daemon/player.c:729-741 | a turn shortens the circular distance by exactly its ticks, or ends on the heading: it never overshoots |
| Helm.SteadyTurn | src/daemon/player.c:721-742 | at a steady speed no thousandth is lost: after n ticks the way to the wanted heading is shorter by all it has gained in whole steps, and gone once they cover it |
| Helm.SpeedTowardWanted | src/daemon/player.c:888-946 | a tick moves the speed toward the wanted one with less than a step in hand, and not past it exactly unless a dry ship that may not move is stopped below the creep it is told to keep |
| Helm.SteadyGain | src/daemon/player.c:913-941 | under full power the speed after n ticks is all that was gained in whole steps, or the wanted speed |
| Shipyards.Fleet.AllowedShip | src/common/interface.c:943-977 | the counting loop and the two checks on number and timer |
| Shipyards.Fleet.EnterShip | src/common/enter.c:304 | in place: a ship granted is boarded, taking allowed-then-enter as one step |
| Shipyards.Fleet.DoRefit | src/common/interface.c:856-871 | in place: a refit, the pilot's own ship not counted |
| Shipyards.Fleet.CauseKaboom | src/daemon/dutil.c:124-129 | in place: a ship begins to blow up and no longer counts as flying |
| Shipyards.Fleet.LastExplosion | src/daemon/player.c:378-390 | in place: the last of an explosion charges the yard |
| Shipyards.Fleet.ShipbuildTimers | src/daemon/daemonII.c:91-100 | in place: a minute off every running timer |
| Shipyards.DoKeepsWithin | src/common/interface.c:955-960 | no step lets a team fly more ships of a type than allowed, whatever the timers |
| Shipyards.RunsKeepWithin | src/common/interface.c:955-960 | the number of ships of a type stays within its limit over every run |
| Shipyards.GrantKeepsFundedIff | src/common/interface.c:963-966 | a ship the check allows keeps timers plus ships within the capacity of the yards if and only if the check would still allow it with the ships of that type blowing up, which it does not look at, counted as minutes to build |
| Shipyards.RefitKeepsFundedIff | src/common/interface.c:856-871 | the same for a refit, the pilot's own ship not counted |
| Shipyards.DoKeepsFundedIff | src/common/interface.c:943-977 | a step keeps timers plus ships within capacity if and only if there is room for the ship it grants |
| Shipyards.RunsKeepFunded | src/common/interface.c:963-966 | timers plus flying and exploding ships stay within capacity over every run in which each ship granted has room beside those blowing up |
| Shipyards.WindowOverdraws | src/daemon/player.c:378-390 | the window: one lost ship replaced before its death is charged claims two ships' worth |
| Shipyards.TwoGrantsIff | src/common/interface.c:955-966 | of two pilots who both ask before either boards the team keeps within the number if and only if neither is allowed or there was room for two; when the second asks after the first has boarded it always does |

## Left out

- Sockets, packets, forking, signals, log and MOTD files, messages: a sent packet is an entry in a trace.
- Ghostbusting (but for `GhostKeepsSoundIff`), god controls, freed slots: they bypass the protocols on purpose.
- Galaxy generators and `redraw.c`: any initial state that meets the stated invariants is allowed.
- Positions, distances, tracking, phasers, planet fire, terrain: whether something is near, hits or dies is an input.
- Fighters and missiles: their counts are not kept by the code, and no count or conservation holds for them.
- Ship tables, sysdef parsing, ratings, rank and clue checks, statistics of kills, bombing and planets: data or plain sums.
- Planet flags are modelled as named booleans, so a facility's two bits are taken to agree.
- Widths of C integers are modelled only where a theorem is about them (`IsqrtFitsIff`, `HypotFitsIff`); tickets and counters are unbounded.
- LeaguePlay.Status2.ParseLeague: the parser is modelled from its tokens on; its replies, the tokens that only print, changing sides and freeing a slot are not.
- FatUdp.FatCity.UpdateFat: starts at the step that moves the node; finding the node for a packet by its type is a table look-up.
- QueueSpec.RunsKeepTickets: the reset of the ticket counter by a dying daemon, and the wrap-around of unsigned tickets, are not steps of the runs.
- EntryQueue.Waiter.Proceed: the stretches between two sleeps are atomic, as no process yields inside them.
- Docking.DockTo: the position and heading a docked ship is given are not modelled.
- Docking.ShipExplode: sets the status last, where the code sets it before untying; the untying does not read it.
- DockRuns.RunsKeepDocking: leaves out the runs in which a dead ship docks or an observer enters docked; `UntiedEntriesKeepDocking` covers those.
- Docking.TractorOff: the damage of being pulled off is always ten; what `inflict_damage` adds to it, erosion and killed cargo, is in `Damage`.
- ConquestSpec.BeamKeepsCrews: ships that carry fighters, whose armies are counted in missiles, are left out.
- PlanetSpec.PopOneSound: the multipliers are exact decimals where the code rounds them to single precision.
- ConquestRuns.FerryRunTolls: armies killed beyond those aboard are not counted; a hit that kills more destroys the ship (`SurvivorKeepsCargo`), which then counts as replaced.
- ConquestRuns.RunsKeepSound: a vanished player's armies are not put on a planet in these runs, see `GhostKeepsSoundIff`; where a ship may go and which beam keys its captain may press are arbitrary.
- FatOverrun.UpdatedTwiceSentTenTimes: `fatten` on ill-formed lists is modelled on values, one turn of its loops at a time (`TransmissionIsQueued` ties these turns to the queues); a cycle of packets that do not fit would keep it busy for ever.
- ConquestRuns.RunsKeepCounted: after a conquest the daemon leaves, so the second recount of the end of the game is not a step.
- LeagueSpec.PlayLastsExactly: overtime is not implemented by the code; the end of a game by conquest is a step of its own.
- IntMath.HypotBound: the table of 1001 entries is given by its law, the rounded-down hypotenuse of its index and a thousand.
- Damage.HitConserves: penetration and erosion are real numbers, not single precision; armies aboard a hull of fewer than two points are excluded, as the code then divides by zero.
- Damage.DoRefuel: the three docked branches of the fuel step and the overflow; costs of the tick, refuelling at planets, and the base's own tick are not modelled.
- Helm.Ship.AlterSpeed: fuel, engine heat and the choice between impulse, warp and afterburner are inputs, given as limits.
- Shipyards.Fleet.AllowedShip: rank, defenders and planets needed are one input, and mass-produced types and league set-up, which skip the checks, are left out.
- Torps.TorpBay.NTorp: heat, repair, cloak, warp and docking checks are one input; plasma torpedoes work alike and are left out.
- PlanetSpec.FacilitiesAppearOnTime: growth without a starbase in orbit; a starbase's boost is covered by `GrowSound`.
- Conquest.Galaxy.PopOnePlanet1: which planet pops, by sweep or by a weighted draw between two teams, is an input.
- Torps.TorpBay.DetMine: putting out all of one's torpedoes at once is the single case repeated.
