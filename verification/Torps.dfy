/** Torpedoes in the shared arrays, updated in place. */
module Torps {
  import opened TorpSpec

  class TorpBay {
    const torps: array<Torp>
    const gunners: array<Gunner>

    constructor (torps: array<Torp>, gunners: array<Gunner>)
      ensures this.torps == torps && this.gunners == gunners
    {
      this.torps, this.gunners := torps, gunners;
    }

    ghost function Value(): Bay
      reads torps, gunners
    {
      Bay(torps[..], gunners[..])
    }

    /** Player p fires a torpedo of the given kind. */
    method NTorp(p: nat, kind: int, fuse: int, cleared: bool)
      requires p < gunners.Length && Shaped(Value())
      requires Fires(Value(), p, cleared) ==>
                 Search(torps[..], MAXTORP * p, MAXTORP * p + MAXTORP) < torps.Length
      modifies torps, gunners
      ensures Value() == Fire(old(Value()), p, kind, fuse, cleared)
      ensures kind != 0 && old(Banded(Value())) ==> Banded(Value())
      ensures old(Banded(Value())) ==>
                forall i :: 0 <= i < torps.Length && i / MAXTORP != p ==> torps[i] == old(torps[i])
    {
      ghost var was := Value();
      if !cleared {
        return;
      }
      if gunners[p].ntorp == MAXTORP {
        return;
      }
      if gunners[p].fuel < gunners[p].cost {
        return;
      }
      if Banded(was) {
        ShotFindsRoom(was, p, cleared);
        FireKeepsBandedIff(was, p, kind, fuse, cleared);
      }
      gunners[p] := gunners[p].(ntorp := gunners[p].ntorp + 1, fuel := gunners[p].fuel - gunners[p].cost);
      var i := MAXTORP * p;
      while i < MAXTORP * p + MAXTORP && torps[i].status != TFree
        invariant MAXTORP * p <= i <= MAXTORP * p + MAXTORP <= torps.Length
        invariant Search(torps[..], i, MAXTORP * p + MAXTORP) ==
                  Search(torps[..], MAXTORP * p, MAXTORP * p + MAXTORP)
        decreases MAXTORP * p + MAXTORP - i
      {
        i := i + 1;
      }
      torps[i] := torps[i].(status := Kind(kind), fuse := fuse, owner := p);
    }

    /** Player p detonates the moving torpedoes of others that are near and hostile. */
    method DetOthers(p: nat, near: int -> bool, cleared: bool)
      requires p < gunners.Length && Shaped(Value())
      modifies torps, gunners
      ensures Value() == Det(old(Value()), p, near, cleared)
      ensures old(Banded(Value())) ==> Banded(Value())
    {
      if Banded(Value()) {
        DetKeepsBanded(Value(), p, near, cleared);
      }
      if gunners[p].fuel < gunners[p].detCost || !cleared {
        return;
      }
      gunners[p] := gunners[p].(fuel := gunners[p].fuel - gunners[p].detCost);
      ghost var was, crews := torps[..], gunners[..];
      var h := 0;
      while h < gunners.Length
        invariant 0 <= h <= gunners.Length && gunners[..] == crews
        invariant forall k :: 0 <= k < MAXTORP * h ==> torps[k] == DetTorps(was, p, near)[k]
        invariant forall k :: MAXTORP * h <= k < torps.Length ==> torps[k] == was[k]
      {
        if h != p {
          DetBand(p, h, near);
        }
        h := h + 1;
      }
      assert torps[..] == DetTorps(was, p, near);
    }

    method DetBand(p: nat, h: nat, near: int -> bool)
      requires MAXTORP * h + MAXTORP <= torps.Length && h != p
      modifies torps
      ensures forall k :: MAXTORP * h <= k < MAXTORP * h + MAXTORP ==>
                torps[k] == DetTorps(old(torps[..]), p, near)[k]
      ensures forall k :: 0 <= k < torps.Length && !(MAXTORP * h <= k < MAXTORP * h + MAXTORP) ==>
                torps[k] == old(torps[k])
    {
      var i := MAXTORP * h;
      while i < MAXTORP * h + MAXTORP
        invariant MAXTORP * h <= i <= MAXTORP * h + MAXTORP
        invariant forall k :: MAXTORP * h <= k < i ==> torps[k] == DetTorps(old(torps[..]), p, near)[k]
        invariant forall k :: 0 <= k < torps.Length && !(MAXTORP * h <= k < i) ==> torps[k] == old(torps[k])
      {
        if torps[i].Moving() && near(i) {
          torps[i] := torps[i].(whodet := p);
          torps[i] := torps[i].(status := TDet);
        }
        i := i + 1;
      }
    }

    /** The daemon's tick over all records. */
    method UdTorps(hits: int -> bool)
      modifies torps, gunners
      ensures Value() == TickFrom(old(Value()), hits, 0)
      ensures old(Banded(Value())) ==> Banded(Value())
    {
      if Banded(Value()) {
        TickKeepsBanded(Value(), hits, 0);
      }
      var i := 0;
      while i < torps.Length
        invariant 0 <= i <= torps.Length
        invariant TickFrom(Value(), hits, i) == TickFrom(old(Value()), hits, 0)
      {
        ghost var b := Value();
        var freed := UdTorp(i, hits(i));
        assert torps[..] == b.torps[i := TickTorp(b.torps[i], hits(i))];
        var o := torps[i].owner;
        if freed && 0 <= o < gunners.Length {
          gunners[o] := gunners[o].(ntorp := gunners[o].ntorp - 1);
        }
        assert gunners[..] ==
               if Freed(b.torps[i], hits(i)) then Release(b.gunners, b.torps[i].owner) else b.gunners;
        i := i + 1;
      }
    }

    /** The switch over the states of one record. */
    method UdTorp(i: nat, hits: bool) returns (freed: bool)
      requires i < torps.Length
      modifies torps
      ensures torps[..] == old(torps[..])[i := TickTorp(old(torps[i]), hits)]
      ensures freed == Freed(old(torps[i]), hits) && torps[i].owner == old(torps[i]).owner
    {
      freed := false;
      match torps[i].status
      case TFree =>
      case TOff =>
        torps[i] := torps[i].(status := TFree);
        freed := true;
      case TDet => Explode(i);
      case TExplode => freed := Burn(i);
      case TMove =>
        freed := Burn(i);
        if !freed && hits { Explode(i); }
      case TStraight =>
        freed := Burn(i);
        if !freed && hits { Explode(i); }
    }

    /** Runs the fuse down by one and frees the record if it had run out. */
    method Burn(i: nat) returns (out: bool)
      requires i < torps.Length
      modifies torps
      ensures out == (old(torps[i]).fuse <= 0)
      ensures torps[..] == old(torps[..])[i :=
                old(torps[i]).(fuse := old(torps[i]).fuse - 1,
                               status := if out then TFree else old(torps[i]).status)]
    {
      out := torps[i].fuse <= 0;
      torps[i] := torps[i].(fuse := torps[i].fuse - 1);
      if out {
        torps[i] := torps[i].(status := TFree);
      }
    }

    method Explode(i: nat)
      requires i < torps.Length
      modifies torps
      ensures torps[..] == old(torps[..])[i := Exploded(old(torps[i]))]
    {
      torps[i] := torps[i].(status := TExplode);
      torps[i] := torps[i].(fuse := EXPLOSION);
    }

    /** Player p puts out its torpedo i. */
    method DetMine(p: nat, i: nat)
      requires i < torps.Length
      modifies torps
      ensures Value() == Off(old(Value()), p, i)
      ensures old(Banded(Value())) ==> Banded(Value())
    {
      if Banded(Value()) {
        DoKeepsBanded(Value(), PutOut(p, i));
      }
      if torps[i].owner != p {
        return;
      }
      if torps[i].Moving() {
        torps[i] := torps[i].(status := TOff);
      }
    }
  }
}
