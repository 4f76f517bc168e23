/** The code a process runs to get into the game, on the shared status block and its own locals. */
module EntryQueue {
  import opened QueueSpec

  class Status {
    var wait: nat
    var count: nat
    var number: nat
    var request: Request
    var answer: int
    const slots: array<Slot>

    ghost function View(): Shared
      reads this, slots
    {
      Shared(wait, count, number, request, answer, slots[..])
    }

    constructor (slots: array<Slot>)
      ensures this.slots == slots && View() == Shared(0, 0, 0, ReqFree, 0, slots[..])
    {
      this.slots := slots;
      wait, count, number, request, answer := 0, 0, 0, ReqFree, 0;
    }

    /** Looks for a slot, and takes it when `allocate` is set. */
    method AllocateSlot(lim: Limits, overload: bool, side: Side, allocate: bool) returns (k: int)
      modifies slots
      ensures k == FindSlot(old(slots[..]), lim, overload, side)
      ensures slots[..] == if allocate && k >= 0 then Take(old(slots[..]), k) else old(slots[..])
    {
      ghost var s := slots[..];
      if overload {
        var i := slots.Length - 1;
        while i >= 0
          invariant -1 <= i < slots.Length && slots[..] == s
          invariant HighestFree(s, slots.Length) == HighestFree(s, i + 1)
          decreases i
        {
          if slots[i].free {
            if allocate {
              slots[i] := slots[i].(free := false);
            }
            return i;
          }
          i := i - 1;
        }
        return -1;
      }
      if lim.league {
        var used := 0;
        for i := 0 to slots.Length
          invariant used == SideCount(s, side, i)
        {
          if !slots[i].free && slots[i].side == side {
            used := used + 1;
          }
        }
        if used * 2 >= slots.Length - lim.testers {
          return -1;
        }
      }
      var i := 0;
      while i < slots.Length - lim.testers
        invariant 0 <= i <= slots.Length && slots[..] == s
        invariant LowestFree(s, 0, slots.Length - lim.testers) == LowestFree(s, i, slots.Length - lim.testers)
      {
        if slots[i].free {
          if allocate {
            slots[i] := slots[i].(free := false);
          }
          return i;
        }
        i := i + 1;
      }
      return -1;
    }
  }

  class Waiter {
    const status: Status
    const lim: Limits
    const overload: bool
    const side: Side
    var phase: Phase
    var ticket: nat
    var waits: int
    var oldwait: int
    var pseudocount: int
    var myRequest: nat
    var lastRequest: Request
    var lastNumber: nat
    var reqCount: int
    var dying: bool
    var slot: int

    ghost function View(): Local
      reads this
    {
      Local(phase, ticket, overload, side, waits, oldwait, pseudocount, myRequest, lastRequest, lastNumber,
            reqCount, dying, slot)
    }

    constructor (status: Status, lim: Limits, overload: bool, side: Side, dead: bool)
      modifies status, status.slots
      ensures this.status == status && this.lim == lim && this.overload == overload && this.side == side
      ensures Outcome(status.View(), View()) == Arrive(old(status.View()), lim, overload, side, dead)
    {
      this.status, this.lim, this.overload, this.side := status, lim, overload, side;
      phase, ticket, waits, oldwait := Asleep, status.count, 0, -1;
      pseudocount := if status.count == status.wait then 0 else -1;
      myRequest, lastRequest, lastNumber, reqCount, dying, slot := 0, ReqFree, 0, 0, false, -1;
      new;
      if !overload && status.wait != status.count {
        status.count := status.count + 1;
      } else {
        var k := status.AllocateSlot(lim, overload, side, true);
        if k >= 0 {
          phase, slot := InGame(k), k;
          return;
        }
        status.count := status.count + 1;
      }
      Loop(dead);
    }

    /** The top of the loop, down to the one-second sleep. */
    method Loop(dead: bool)
      modifies this, status
      ensures Outcome(status.View(), View()) == Top(old(status.View()), old(View()), dead)
    {
      if dead {
        phase := Gone;
        if status.count > 0 && ticket == status.count - 1 {
          status.count := status.count - 1;
          return;
        }
        if ticket == status.wait {
          status.wait := status.wait + 1;
        }
        return;
      }
      phase := Asleep;
    }

    /** A request of one's own that has run out. */
    method FinishRequest()
      requires phase.Asleep?
      modifies this, status
      ensures Outcome(status.View(), View()) == Complete(old(status.View()), old(View()))
    {
      if myRequest != 0 {
        myRequest := myRequest - 1;
        if myRequest == 0 {
          if dying && status.request.ReqDead? {
            status.request := ReqFree;
            phase := if slot >= 0 then InGame(slot) else Gone;
            return;
          }
          pseudocount := status.answer;
          status.request := ReqFree;
          if pseudocount > 18 {
            dying := true;
          }
        }
      }
    }

    method PostRequest()
      modifies this, status
      ensures Outcome(status.View(), View()) == Post(old(status.View()), old(View()))
    {
      if dying && status.request.ReqFree? {
        status.request := ReqDead;
        status.number := ticket;
        myRequest := 4;
      }
      if pseudocount == -1 && status.request.ReqFree? {
        status.request := ReqWho;
        status.number := ticket;
        status.answer := 0;
        myRequest := 4;
      }
    }

    method HearOthers()
      modifies this, status
      ensures Outcome(status.View(), View()) == Listen(old(status.View()), old(View()))
    {
      if !status.request.ReqFree? && myRequest == 0 {
        if status.request == lastRequest && status.number == lastNumber {
          reqCount := reqCount + 1;
          if reqCount > 8 {
            status.request := ReqFree;
          }
        } else {
          lastRequest := status.request;
          lastNumber := status.number;
          reqCount := 1;
          if lastRequest.ReqWho? {
            if ticket < lastNumber {
              status.answer := status.answer + 1;
            }
          } else if lastRequest.ReqDead? {
            if ticket > lastNumber && pseudocount != -1 {
              pseudocount := pseudocount - 1;
            }
          }
        }
      }
    }

    /** Requests: finishing one's own, posting one, reacting to another's. */
    method Requests() returns (left: bool)
      requires phase.Asleep?
      modifies this, status
      ensures Outcome(status.View(), View()) == Heard(old(status.View()), old(View()))
      ensures left == !View().Live()
    {
      FinishRequest();
      if phase.InGame? || phase.Gone? {
        return true;
      }
      PostRequest();
      HearOthers();
      RequestsQuiet(old(status.View()), old(View()));
      return false;
    }

    /** Taking a slot on one's turn, or losing patience. */
    method TryForSlot(dead: bool)
      modifies this, status, status.slots
      ensures Outcome(status.View(), View()) == Compete(old(status.View()), old(View()), lim, dead)
    {
      if dying {
        Loop(dead);
        return;
      }
      if ticket == status.wait {
        var k := status.AllocateSlot(lim, overload, side, true);
        if k < 0 {
          Loop(dead);
          return;
        }
        status.wait := status.wait + 1;
        slot := k;
        dying := true;
        Loop(dead);
      } else {
        WatchTurn(dead);
      }
    }

    /** Somebody else's turn with a slot free: at the fifth look at the same turn, claim it. */
    method WatchTurn(dead: bool)
      requires !dying && ticket != status.wait
      modifies this, status, status.slots
      ensures Outcome(status.View(), View()) == Compete(old(status.View()), old(View()), lim, dead)
    {
      var k := status.AllocateSlot(lim, overload, side, false);
      if k < 0 {
        Loop(dead);
        return;
      }
      if oldwait == status.wait {
        waits := waits + 1;
      } else {
        oldwait := status.wait;
        waits := 1;
      }
      if waits == 5 {
        status.wait := ticket;
        phase := Claiming;
        return;
      }
      Loop(dead);
    }

    /** Runs on from whichever sleep the process is in to the next one. */
    method Proceed(dead: bool)
      requires View().Live()
      modifies this, status, status.slots
      ensures Outcome(status.View(), View()) == Resume(old(status.View()), old(View()), lim, dead)
    {
      if phase.Claiming? {
        waits := 0;
        Loop(dead);
        return;
      }
      if phase.Asleep? {
        if status.count == 0 {
          phase := Gone;
          return;
        }
        var left := Requests();
        if left {
          return;
        }
        if status.wait > ticket && !dying {
          status.wait := ticket;
          phase := Correcting;
          return;
        }
      }
      TryForSlot(dead);
    }
  }
}
