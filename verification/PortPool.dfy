/** The RTP port pool (internal/media/pool.go): a queue of free even ports; RTCP is the next odd one. */
module PortPool {
  import opened Basics

  // ---- the queue ----

  /** The pairs of a range, from an even port on. */
  function EvenPorts(port: nat, max: nat): (ps: seq<nat>)
    decreases max - port
  {
    if port + 1 <= max then [port] + EvenPorts(port + 2, max) else []
  }

  function InitialPorts(min: nat, max: nat): seq<nat> {
    EvenPorts(if min % 2 == 1 then min + 1 else min, max)
  }

  /** The number of bind failures before the first success, at most n. binds(i) tells whether the i-th try succeeds. */
  function Failures(n: nat, binds: nat -> bool): (k: nat)
    ensures k <= n && (forall i | 0 <= i < k :: !binds(i)) && (k < n ==> binds(k))
  {
    FailuresFrom(0, n, binds)
  }

  function FailuresFrom(i: nat, n: nat, binds: nat -> bool): (k: nat)
    requires i <= n
    ensures i <= k <= n && (forall j | i <= j < k :: !binds(j)) && (k < n ==> binds(k))
    decreases n - i
  {
    if i == n || binds(i) then i else FailuresFrom(i + 1, n, binds)
  }

  /** The queue after k failures and a success: failed pairs went to the back, in order. */
  function Rotated(free: seq<nat>, k: nat): seq<nat>
    requires k <= |free|
  {
    if k < |free| then free[k + 1..] + free[..k] else free
  }

  /** One turn of the queue: the first in front is tried, and put back at the end. */
  lemma TurnOnce(all: seq<nat>, i: nat)
    requires i < |all|
    ensures var free := all[i..] + all[..i];
            && free[0] == all[i] && free[1..] == all[i + 1..] + all[..i]
            && free[1..] + [all[i]] == all[i + 1..] + all[..i + 1]
  {}

  class Pool {
    var free: seq<nat>

    constructor (min: nat, max: nat)
      ensures free == InitialPorts(min, max)
    {
      free := [];
      new;
      var port := if min % 2 == 1 then min + 1 else min;
      while port + 1 <= max
        invariant free + EvenPorts(port, max) == InitialPorts(min, max)
        decreases max - port
      {
        ghost var before := free;
        free := free + [port];
        assert before + ([port] + EvenPorts(port + 2, max)) == free + EvenPorts(port + 2, max);
        port := port + 2;
      }
      assert free + [] == free;
    }

    /** Try each queued pair once; the first that binds is handed out, and exhaustion leaves the queue as it was. */
    method Allocate(binds: nat -> bool) returns (port: Option<nat>)
      modifies this
      ensures var k := Failures(|old(free)|, binds);
              && free == Rotated(old(free), k)
              && port == if k < |old(free)| then Some(old(free)[k]) else None
    {
      var tries := |free|;
      var n := |free|;
      ghost var all := free;
      while tries > 0
        invariant 0 <= tries <= n == |all|
        invariant free == all[n - tries..] + all[..n - tries]
        invariant forall i | 0 <= i < n - tries :: !binds(i)
      {
        var i := n - tries;
        var p := free[0];
        TurnOnce(all, i);
        free := free[1..];
        if binds(i) {
          assert Failures(n, binds) == i;
          return Some(p);
        }
        free := free + [p];
        tries := tries - 1;
      }
      assert free == all;
      return None;
    }

    method Release(port: nat)
      modifies this
      ensures free == old(free) + [port]
    {
      free := free + [port];
    }
  }

  // ---- the initial range ----

  lemma {:induction false} EvenPortsAre(port: nat, max: nat)
    requires port % 2 == 0
    ensures |EvenPorts(port, max)| == if port + 1 <= max then (max - port + 1) / 2 else 0
    ensures forall i | 0 <= i < |EvenPorts(port, max)| :: EvenPorts(port, max)[i] == port + 2 * i
    decreases max - port
  {
    if port + 1 <= max {
      EvenPortsAre(port + 2, max);
    }
  }

  /** The pairs are exactly those in the range that begin on an even port, ascending; never more than 32256. */
  lemma InitialPortsAre(min: nat, max: nat)
    ensures NoDuplicates(InitialPorts(min, max))
    ensures forall i, j | 0 <= i < j < |InitialPorts(min, max)| :: InitialPorts(min, max)[i] < InitialPorts(min, max)[j]
    ensures forall p :: p in InitialPorts(min, max) <==> p % 2 == 0 && min <= p && p + 1 <= max
    ensures 1024 <= min && max <= 65535 ==> |InitialPorts(min, max)| <= 32256
  {
    var first, ps := if min % 2 == 1 then min + 1 else min, InitialPorts(min, max);
    EvenPortsAre(first, max);
    forall p: nat | p % 2 == 0 && min <= p && p + 1 <= max ensures p in ps {
      var i := (p - first) / 2;
      assert ps[i] == p;
    }
  }

  // ---- all endpoints of the PBX ----

  /** The pool and every endpoint ever made, by number: its pair, and whether it is still open. */
  datatype Ports = Ports(free: seq<nat>, made: seq<Endpoint>)

  datatype Endpoint = Endpoint(port: nat, open: bool)

  /** What callers do: make an endpoint (bind results as given), or close one, any number of times. */
  datatype Op = Open(binds: nat -> bool) | Close(id: nat)

  function Step(w: Ports, op: Op): Ports {
    match op
    case Open(binds) =>
      var k := Failures(|w.free|, binds);
      if k < |w.free| then Ports(Rotated(w.free, k), w.made + [Endpoint(w.free[k], true)]) else w
    case Close(id) =>
      if id < |w.made| && w.made[id].open then
        Ports(w.free + [w.made[id].port], w.made[id := w.made[id].(open := false)])
      else w
  }

  function Run(w: Ports, ops: seq<Op>): Ports
    decreases |ops|
  {
    if ops == [] then w else Run(Step(w, ops[0]), ops[1..])
  }

  ghost predicate Held(w: Ports, p: nat) {
    exists i | 0 <= i < |w.made| :: w.made[i].open && w.made[i].port == p
  }

  /** Free and held pairs partition the initial ones, none twice. */
  ghost predicate Partition(w: Ports, initial: seq<nat>) {
    && NoDuplicates(w.free)
    && (forall i, j | 0 <= i < j < |w.made| :: w.made[i].open && w.made[j].open ==> w.made[i].port != w.made[j].port)
    && (forall p :: p in w.free ==> !Held(w, p))
    && (forall p :: p in initial <==> p in w.free || Held(w, p))
  }

  lemma RotatedMembers(free: seq<nat>, k: nat)
    requires k < |free| && NoDuplicates(free)
    ensures NoDuplicates(Rotated(free, k))
    ensures forall p :: p in Rotated(free, k) <==> p in free && p != free[k]
  {
    var r := Rotated(free, k);
    assert forall i | 0 <= i < |r| ::
        r[i] == if i < |free| - k - 1 then free[k + 1 + i] else free[i - (|free| - k - 1)];
    forall p | p in free && p != free[k] ensures p in r {
      var i :| 0 <= i < |free| && free[i] == p;
      assert i < k ==> r[|free| - k - 1 + i] == p;
      assert i > k ==> r[i - k - 1] == p;
    }
  }

  lemma OpenKeepsPartition(w: Ports, binds: nat -> bool, initial: seq<nat>)
    requires Partition(w, initial)
    ensures Partition(Step(w, Open(binds)), initial)
  {
    var k := Failures(|w.free|, binds);
    if k < |w.free| {
      var w' := Step(w, Open(binds));
      var port := w.free[k];
      RotatedMembers(w.free, k);
      assert forall i | 0 <= i < |w.made| :: w'.made[i] == w.made[i];
      assert w'.made[|w.made|] == Endpoint(port, true);
      assert port in w.free && !Held(w, port);
      forall p ensures Held(w', p) <==> Held(w, p) || p == port {
        if Held(w, p) {
          var i :| 0 <= i < |w.made| && w.made[i].open && w.made[i].port == p;
          assert w'.made[i].open && w'.made[i].port == p;
        }
      }
      forall i | 0 <= i < |w.made| && w.made[i].open ensures w.made[i].port != port {
        assert Held(w, w.made[i].port);
      }
    }
  }

  lemma CloseKeepsPartition(w: Ports, id: nat, initial: seq<nat>)
    requires Partition(w, initial)
    ensures Partition(Step(w, Close(id)), initial)
  {
    if id < |w.made| && w.made[id].open {
      var w' := Step(w, Close(id));
      var port := w.made[id].port;
      assert Held(w, port);
      assert w'.free[|w.free|] == port && forall i | 0 <= i < |w.free| :: w'.free[i] == w.free[i];
      forall i | 0 <= i < |w.free| ensures w.free[i] != port { assert w.free[i] in w.free; }
      forall p ensures Held(w', p) <==> Held(w, p) && p != port {
        if Held(w, p) && p != port {
          var i :| 0 <= i < |w.made| && w.made[i].open && w.made[i].port == p;
          assert w'.made[i].open && w'.made[i].port == p;
        }
        if Held(w', p) {
          var i :| 0 <= i < |w'.made| && w'.made[i].open && w'.made[i].port == p;
          assert w.made[i].open && w.made[i].port == p && i != id;
        }
      }
      assert forall p :: p in w'.free <==> p in w.free || p == port;
    }
  }

  /** Ports are conserved along every run of openings, failures and repeated closes. */
  lemma {:induction false} RunKeepsPartition(w: Ports, ops: seq<Op>, initial: seq<nat>)
    requires Partition(w, initial)
    ensures Partition(Run(w, ops), initial)
    decreases |ops|
  {
    if ops != [] {
      match ops[0] {
        case Open(binds) => OpenKeepsPartition(w, binds, initial);
        case Close(id) => CloseKeepsPartition(w, id, initial);
      }
      RunKeepsPartition(Step(w, ops[0]), ops[1..], initial);
    }
  }

  /** In particular from the start, and no two open endpoints ever share a pair. */
  lemma PortsConserved(min: nat, max: nat, ops: seq<Op>)
    ensures Partition(Run(Ports(InitialPorts(min, max), []), ops), InitialPorts(min, max))
  {
    InitialPortsAre(min, max);
    RunKeepsPartition(Ports(InitialPorts(min, max), []), ops, InitialPorts(min, max));
  }

  // ---- rotation ----

  /** The pairs a step tried to bind. */
  function Tried(w: Ports, op: Op): set<nat> {
    match op
    case Close(_) => {}
    case Open(binds) =>
      var k := Failures(|w.free|, binds);
      var tried := w.free[..if k < |w.free| then k + 1 else k];
      set p | p in tried
  }

  function TriedIn(w: Ports, ops: seq<Op>): set<nat>
    decreases |ops|
  {
    if ops == [] then {} else Tried(w, ops[0]) + TriedIn(Step(w, ops[0]), ops[1..])
  }

  /** The pairs queued before x. */
  ghost predicate Ahead(free: seq<nat>, y: nat, x: nat) {
    exists i, j | 0 <= i < j < |free| :: free[i] == y && free[j] == x
  }

  lemma UntriedStays(w: Ports, op: Op, x: nat, y: nat)
    requires NoDuplicates(w.free) && Ahead(w.free, y, x) && x !in Tried(w, op)
    ensures y in Tried(w, op) || Ahead(Step(w, op).free, y, x)
  {
    hide Failures, NoDuplicates;
    var i, j :| 0 <= i < j < |w.free| && w.free[i] == y && w.free[j] == x;
    var w' := Step(w, op);
    match op {
      case Close(id) => assert w'.free[i] == y && w'.free[j] == x;
      case Open(binds) =>
        var k := Failures(|w.free|, binds);
        var n := if k < |w.free| then k + 1 else k;
        assert forall m | 0 <= m < n :: w.free[..n][m] == w.free[m];
        if i >= n {
          assert w'.free[i - k - 1] == y && w'.free[j - k - 1] == x;
        }
    }
  }

  lemma TriedInOrder(w: Ports, op: Op, x: nat, y: nat)
    requires NoDuplicates(w.free) && Ahead(w.free, y, x) && x in Tried(w, op)
    ensures y in Tried(w, op)
  {
    var i, j :| 0 <= i < j < |w.free| && w.free[i] == y && w.free[j] == x;
    var k := Failures(|w.free|, op.binds);
    var n := if k < |w.free| then k + 1 else k;
    var m :| 0 <= m < n && w.free[..n][m] == x;
    assert m == j;
    assert w.free[..n][i] == y;
  }

  /**
   A queued pair comes up only after every pair queued before it was tried: along any run, when x is tried for
   the first time, each y that was ahead of it has been tried too.
   */
  lemma {:induction false} RotationIsFair(w: Ports, initial: seq<nat>, ops: seq<Op>, last: Op, x: nat, y: nat)
    requires Partition(w, initial) && Ahead(w.free, y, x)
    requires x !in TriedIn(w, ops) && x in Tried(Run(w, ops), last)
    ensures y in TriedIn(w, ops) + Tried(Run(w, ops), last)
    decreases |ops|
  {
    if ops == [] {
      TriedInOrder(w, last, x, y);
    } else {
      UntriedStays(w, ops[0], x, y);
      RunKeepsPartition(w, [ops[0]], initial);
      assert [ops[0]][1..] == [];
      assert Run(w, [ops[0]]) == Step(w, ops[0]);
      if y !in Tried(w, ops[0]) {
        RotationIsFair(Step(w, ops[0]), initial, ops[1..], last, x, y);
      }
    }
  }

  // ---- relays ----

  /** NewRelay: two endpoints, or none; a failure on the second leg closes the first again. */
  function RelayOps(w: Ports, first: nat -> bool, second: nat -> bool): seq<Op> {
    if Failures(|w.free|, first) == |w.free| then [Open(first)]
    else
      var w' := Step(w, Open(first));
      if Failures(|w'.free|, second) == |w'.free| then [Open(first), Open(second), Close(|w.made|)]
      else [Open(first), Open(second)]
  }

  lemma RunTwo(w: Ports, a: Op, b: Op, rest: seq<Op>)
    ensures Run(w, [a, b] + rest) == Run(Step(Step(w, a), b), rest)
  {
    assert ([a, b] + rest)[1..] == [b] + rest && ([b] + rest)[1..] == rest;
  }

  /** A relay that cannot be made leaves exactly the pairs free that were free before, and holds nothing. */
  lemma FailedRelayHoldsNothing(w: Ports, initial: seq<nat>, first: nat -> bool, second: nat -> bool, p: nat)
    requires Partition(w, initial)
    requires |RelayOps(w, first, second)| != 2
    ensures var w' := Run(w, RelayOps(w, first, second));
            (p in w'.free <==> p in w.free) && (Held(w', p) <==> Held(w, p))
  {
    var w1 := Step(w, Open(first));
    var k := Failures(|w.free|, first);
    if k == |w.free| {
      assert [Open(first)][1..] == [];
      assert Run(w, [Open(first)]) == w;
    } else {
      var id := |w.made|;
      RunTwo(w, Open(first), Open(second), [Close(id)]);
      assert [Close(id)][1..] == [];
      var w' := Step(w1, Close(id));
      assert Run(w, RelayOps(w, first, second)) == w';
      RotatedMembers(w.free, k);
      assert forall i | 0 <= i < |w1.free| :: w'.free[i] == w1.free[i];
      assert w'.free[|w1.free|] == w.free[k];
      assert forall i | 0 <= i < |w.made| :: w'.made[i] == w.made[i];
      assert !w'.made[id].open && |w'.made| == id + 1;
      assert p in w'.free <==> p in w1.free || p == w.free[k];
      if Held(w', p) {
        var i :| 0 <= i < |w'.made| && w'.made[i].open && w'.made[i].port == p;
        assert w.made[i].open && w.made[i].port == p;
      }
      if Held(w, p) {
        var i :| 0 <= i < |w.made| && w.made[i].open && w.made[i].port == p;
        assert w'.made[i].open && w'.made[i].port == p;
      }
    }
  }
}
