/** The media relay between two legs (internal/media/relay.go): forwarding, hold, and giving the ports back. */
module Relay {
  import opened Basics
  import opened CallMachine
  import E = Endpoint
  import PortPool

  /** Which legs are blocked, and which hear music. */
  datatype View = View(blocked: Pair<bool>, playing: Pair<bool>)

  const OPEN := View(Pair(false, false), Pair(false, false))

  function Held(v: View, holder: Leg, music: bool): View {
    var other: Leg := 1 - holder;
    View(Pair(true, true), if music then v.playing.With(other, true) else v.playing)
  }

  class Relay {
    const caller: E.Leg
    const callee: E.Leg
    const pool: PortPool.Pool
    var blocked: Pair<bool>
    var playing: Pair<bool>
    var closed: bool

    ghost predicate Valid()
      reads this
    {
      && caller != callee && caller.pool == callee.pool == pool
      && pool as object != caller && pool as object != callee
      && (this as object) !in {caller, callee, pool}
    }

    ghost function State(): View
      reads this
    {
      View(blocked, playing)
    }

    function LegAt(side: Leg): E.Leg { if side == 0 then caller else callee }

    constructor (caller: E.Leg, callee: E.Leg, pool: PortPool.Pool)
      requires caller != callee && caller.pool == callee.pool == pool
      requires pool as object != caller && pool as object != callee
      ensures Valid() && State() == OPEN && !closed
      ensures this.caller == caller && this.callee == callee && this.pool == pool
    {
      this.caller, this.callee, this.pool := caller, callee, pool;
      blocked, playing, closed := Pair(false, false), Pair(false, false), false;
    }

    /** NewRelay: two legs on the first two pairs that bind, or none and every pair back in the queue. */
    static method Create(pool: PortPool.Pool, first: nat -> bool, second: nat -> bool) returns (r: Option<Relay>)
      modifies pool
      ensures var w := PortPool.Ports(old(pool.free), []);
              && pool.free == PortPool.Run(w, PortPool.RelayOps(w, first, second)).free
              && (r.Some? <==> |PortPool.RelayOps(w, first, second)| == 2)
              && (r.Some? ==>
                && fresh(r.value) && r.value.Valid() && r.value.State() == OPEN && !r.value.closed
                && fresh(r.value.caller) && fresh(r.value.callee) && r.value.pool == pool
                && !r.value.caller.closed && !r.value.callee.closed
                && PortPool.Run(w, PortPool.RelayOps(w, first, second)).made
                   == [PortPool.Endpoint(r.value.caller.port, true), PortPool.Endpoint(r.value.callee.port, true)])
    {
      ghost var w := PortPool.Ports(pool.free, []);
      ghost var w1 := PortPool.Step(w, PortPool.Open(first));
      CreateRuns(w, first, second);
      var p := pool.Allocate(first);
      if p.None? { return None; }
      var a := new E.Leg(pool, p.value);
      var q := pool.Allocate(second);
      if q.None? {
        a.Close();
        return None;
      }
      var b := new E.Leg(pool, q.value);
      var relay := new Relay(a, b, pool);
      return Some(relay);
    }

    /** One packet read on a leg: it goes out to the other leg's peer unless that leg is blocked. */
    method Forward(side: Leg, p: E.Packet) returns (sent: Option<E.AddrPort>)
      requires Valid()
      modifies LegAt(side)
      ensures LegAt(side).View() == E.Received(old(LegAt(side).View()), p)
      ensures var to: Leg := 1 - side;
              sent == if E.Accepts(old(LegAt(side).View()), p) && !blocked.At(to) then PeerOf(to, p.isRtcp) else None
    {
      var to: Leg := 1 - side;
      var delivered := LegAt(side).Receive(p);
      if !delivered || blocked.At(to) { return None; }
      sent := if p.isRtcp then LegAt(to).rtcp.peer else LegAt(to).rtp.peer;
    }

    ghost function PeerOf(side: Leg, isRtcp: bool): Option<E.AddrPort>
      reads LegAt(side)
    {
      if isRtcp then LegAt(side).rtcp.peer else LegAt(side).rtp.peer
    }

    method Hold(holder: Leg, music: bool)
      modifies this
      ensures State() == Held(old(State()), holder, music) && closed == old(closed)
    {
      var other: Leg := 1 - holder;
      blocked := blocked.With(holder, true);
      blocked := blocked.With(other, true);
      if !playing.At(other) && music {
        playing := playing.With(other, true);
      }
    }

    method Resume()
      modifies this
      ensures State() == OPEN && closed == old(closed)
    {
      for i := 0 to 2
        invariant forall j: Leg | j < i :: !playing.At(j)
        invariant closed == old(closed)
      {
        var leg: Leg := i;
        if playing.At(leg) {
          playing := playing.With(leg, false);
        }
      }
      assert !playing.At(0) && !playing.At(1);
      blocked := blocked.With(0, false);
      blocked := blocked.With(1, false);
    }

    /** Safe to call more than once: each leg's pair goes back once. */
    method Close()
      requires Valid()
      modifies this, caller, callee, pool
      ensures closed && (old(closed) ==> State() == old(State()) && pool.free == old(pool.free))
      ensures !old(closed) ==>
                && State() == OPEN && caller.closed && callee.closed
                && pool.free == old(pool.free)
                  + (if old(caller.closed) then [] else [caller.port])
                  + (if old(callee.closed) then [] else [callee.port])
    {
      if closed { return; }
      closed := true;
      Resume();
      caller.Close();
      callee.Close();
    }
  }

  lemma CreateRuns(w: PortPool.Ports, first: nat -> bool, second: nat -> bool)
    requires w.made == []
    ensures var k := PortPool.Failures(|w.free|, first);
            var free1 := PortPool.Rotated(w.free, k);
            var k2 := PortPool.Failures(|free1|, second);
            var free2 := PortPool.Rotated(free1, k2);
            PortPool.Run(w, PortPool.RelayOps(w, first, second)).free ==
            if k == |w.free| then w.free else if k2 == |free1| then free1 + [w.free[k]] else free2
    ensures var k := PortPool.Failures(|w.free|, first);
            var free1 := PortPool.Rotated(w.free, k);
            var k2 := PortPool.Failures(|free1|, second);
            k < |w.free| && k2 < |free1| ==>
              PortPool.Run(w, PortPool.RelayOps(w, first, second)).made
              == [PortPool.Endpoint(w.free[k], true), PortPool.Endpoint(free1[k2], true)]
  {
    var k := PortPool.Failures(|w.free|, first);
    var a, b := PortPool.Open(first), PortPool.Open(second);
    var w1 := PortPool.Step(w, a);
    if k == |w.free| {
      assert [a][1..] == [];
    } else if PortPool.Failures(|w1.free|, second) == |w1.free| {
      PortPool.RunTwo(w, a, b, [PortPool.Close(0)]);
      assert [PortPool.Close(0)][1..] == [];
    } else {
      PortPool.RunTwo(w, a, b, []);
      assert [a, b] + [] == [a, b];
    }
  }
}
