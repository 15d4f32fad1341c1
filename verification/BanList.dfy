/**
 Banning password guessers (internal/security/banlist.go): failures and bans are pruned as they are met and swept now
 and then, and still every answer is the one the full history calls for.
 */
module BanList {
  import opened Basics
  import opened Netip

  /** A trusted network: the first bits of the address. */
  datatype Prefix = Prefix(addr: Addr, bits: nat)

  function Power(n: nat): (p: nat)
    ensures p > 0
  {
    if n == 0 then 1 else 2 * Power(n - 1)
  }

  function Number(a: Addr): nat { ((a.a * 256 + a.b) * 256 + a.c) * 256 + a.d }

  predicate Contains(p: Prefix, ip: Addr) {
    p.bits <= 32 && Number(p.addr) / Power(32 - p.bits) == Number(ip) / Power(32 - p.bits)
  }

  function Octet(a: Addr, k: nat): nat
    requires k < 4
  {
    [a.a, a.b, a.c, a.d][k]
  }

  /** Bit i of an address, the highest of the first octet being bit 0. */
  function Bit(a: Addr, i: nat): nat
    requires i < 32
  {
    Octet(a, i / 8) / [128, 64, 32, 16, 8, 4, 2, 1][i % 8] % 2
  }

  lemma DivideTwice(x: nat, p: nat, q: nat)
    requires p > 0 && q > 0
    ensures p * q > 0 && x / (p * q) == x / p / q
  {
    Nested(x, p, q, x / p, x % p, x / p / q, x / p % q, p * q);
  }

  lemma Nested(x: nat, p: nat, q: nat, y: nat, r: nat, z: nat, t: nat, n: nat)
    requires x == y * p + r && r < p && y == z * q + t && t < q && n == p * q
    ensures n > 0 && x / n == z
  {
    Regroup(z, t, r, p, q);
    QuotientUnique(x, n, z, t * p + r);
  }

  lemma Regroup(z: nat, t: nat, r: nat, p: nat, q: nat)
    requires t < q && r < p
    ensures (z * q + t) * p + r == z * (p * q) + (t * p + r) && t * p + r < p * q
  {
    assert (z * q + t) * p == z * q * p + t * p;
    assert z * q * p == z * (p * q);
    assert t * p <= (q - 1) * p == p * q - p;
  }

  lemma QuotientUnique(x: nat, n: nat, z: nat, t: nat)
    requires n > 0 && t < n && x == z * n + t
    ensures x / n == z
  {
    var d := x / n - z;
    assert d * n == t - x % n by {
      assert x == (x / n) * n + x % n;
    }
  }

  lemma {:induction false} PowerSum(i: nat, j: nat)
    ensures Power(i + j) == Power(i) * Power(j)
  {
    if i > 0 { PowerSum(i - 1, j); }
  }

  /** The table of powers: 2 to the 7 - r, and whole octets. */
  lemma PowersAre(r: nat)
    requires r < 8
    ensures Power(7 - r) == [128, 64, 32, 16, 8, 4, 2, 1][r] && Power(8) == 256 && Power(16) == 65536
    ensures Power(24) == 16777216 && Power(32) == 4294967296 && Power(0) == 1
  {
    assert Power(4) == 16 && Power(8) == 256;
    PowerSum(8, 8);
    PowerSum(8, 16);
    PowerSum(16, 16);
    assert Power(0) == 1 && Power(1) == 2 && Power(2) == 4 && Power(3) == 8;
    assert Power(4) == 16 && Power(5) == 32 && Power(6) == 64 && Power(7) == 128;
  }

  /** The octets up to the k-th, as a number. */
  lemma OctetsUpTo(a: Addr, k: nat)
    requires k < 4
    ensures exists m: nat :: Number(a) / Power(24 - 8 * k) == 256 * m + Octet(a, k)
  {
    PowersAre(0);
    var n := Number(a);
    if k == 0 {
      assert n / Power(24) == 256 * 0 + Octet(a, 0);
    } else if k == 1 {
      assert n / Power(16) == 256 * a.a + Octet(a, 1);
    } else if k == 2 {
      assert n / Power(8) == 256 * (a.a * 256 + a.b) + Octet(a, 2);
    } else {
      assert n / Power(0) == 256 * ((a.a * 256 + a.b) * 256 + a.c) + Octet(a, 3);
    }
  }

  lemma BitOfNumber(a: Addr, i: nat)
    requires i < 32
    ensures Number(a) / Power(31 - i) % 2 == Bit(a, i)
  {
    hide Power;
    var k, r := i / 8, i % 8;
    OctetsUpTo(a, k);
    PowersAre(r);
    PowerSum(24 - 8 * k, 7 - r);
    DivideTwice(Number(a), Power(24 - 8 * k), Power(7 - r));
    assert 24 - 8 * k + (7 - r) == 31 - i;
    var m: nat :| Number(a) / Power(24 - 8 * k) == 256 * m + Octet(a, k);
    OctetBit(m, Octet(a, k), r);
  }

  /** Whole octets before it do not change a bit. */
  lemma OctetShift(m: nat, o: nat, p: nat, h: nat, q: nat, t: nat)
    requires p * (2 * h) == 256 && o == q * p + t && t < p
    ensures (256 * m + o) / p == 2 * (h * m) + q
  {
    assert 2 * (h * m) * p == p * (2 * h) * m == 256 * m;
    assert (2 * (h * m) + q) * p == 2 * (h * m) * p + q * p;
    QuotientUnique(256 * m + o, p, 2 * (h * m) + q, t);
  }

  lemma OctetBit(m: nat, o: nat, r: nat)
    requires r < 8
    ensures var p := [128, 64, 32, 16, 8, 4, 2, 1][r]; (256 * m + o) / p % 2 == o / p % 2
  {
    var p, h := [128, 64, 32, 16, 8, 4, 2, 1][r], [1, 2, 4, 8, 16, 32, 64, 128][r];
    assert p * (2 * h) == 256;
    OctetShift(m, o, p, h, o / p, o % p);
  }

  /** The first n bits of two addresses are the same number exactly if they agree one by one. */
  lemma {:induction false} FirstBits(a: Addr, b: Addr, n: nat)
    requires n <= 32
    ensures Number(a) / Power(32 - n) == Number(b) / Power(32 - n) <==> forall i | 0 <= i < n :: Bit(a, i) == Bit(b, i)
  {
    hide Number, Bit;
    if n == 0 {
      PowersAre(0);
      NumberBounded(a);
      NumberBounded(b);
    } else {
      FirstBits(a, b, n - 1);
      BitOfNumber(a, n - 1);
      BitOfNumber(b, n - 1);
      DivideTwice(Number(a), Power(32 - n), 2);
      DivideTwice(Number(b), Power(32 - n), 2);
      assert Power(32 - (n - 1)) == Power(32 - n) * 2;
    }
  }

  lemma NumberBounded(a: Addr)
    ensures Number(a) < 4294967296
  {}

  /** An address begins with the same bits, up to the length of the prefix. */
  ghost predicate Begins(ip: Addr, p: Prefix) {
    p.bits <= 32 && forall i | 0 <= i < p.bits :: Bit(p.addr, i) == Bit(ip, i)
  }

  /** A prefix of n bits covers exactly the addresses that begin with the same n bits. */
  lemma ContainsIff(p: Prefix, ip: Addr)
    ensures Contains(p, ip) <==> Begins(ip, p)
  {
    hide Number, Bit, Power;
    if p.bits <= 32 { FirstBits(p.addr, ip, p.bits); }
  }

  datatype Config = Config(threshold: int, window: int, duration: int, trusted: seq<Prefix>) {
    predicate Trusts(ip: Addr) { exists i | 0 <= i < |trusted| :: Contains(trusted[i], ip) }
  }

  /** An address is trusted exactly if it begins with all the bits of one of the configured prefixes. */
  lemma TrustsIff(cfg: Config, ip: Addr)
    ensures cfg.Trusts(ip) <==>
            exists n :: 0 <= n < |cfg.trusted| && Begins(ip, cfg.trusted[n])
  {
    hide Begins, Contains;
    forall n | 0 <= n < |cfg.trusted| ensures Contains(cfg.trusted[n], ip) <==> Begins(ip, cfg.trusted[n]) {
      ContainsIff(cfg.trusted[n], ip);
    }
  }

  datatype State = State(failures: map<Addr, seq<int>>, banned: map<Addr, int>)

  const EMPTY := State(map[], map[])

  /** The times after a cutoff. */
  function After(ts: seq<int>, cutoff: int): seq<int> {
    if ts == [] then []
    else After(ts[..|ts| - 1], cutoff) + if ts[|ts| - 1] > cutoff then [ts[|ts| - 1]] else []
  }

  function FailuresOf(s: State, ip: Addr): seq<int> { if ip in s.failures then s.failures[ip] else [] }

  // ---- the operations, on values ----

  function Failed(cfg: Config, s: State, ip: Addr, now: int): (State, bool) {
    if cfg.threshold <= 0 || cfg.Trusts(ip) then (s, false)
    else
      var kept := After(FailuresOf(s, ip), now - cfg.window) + [now];
      if |kept| >= cfg.threshold then (State(s.failures - {ip}, s.banned[ip := now + cfg.duration]), true)
      else (s.(failures := s.failures[ip := kept]), false)
  }

  /** An expired ban is dropped when it is met. */
  function Asked(s: State, ip: Addr, now: int): (State, bool) {
    if ip !in s.banned then (s, false)
    else if now > s.banned[ip] then (s.(banned := s.banned - {ip}), false)
    else (s, true)
  }

  function Banned(cfg: Config, s: State, ip: Addr, now: int): (State, bool) {
    if cfg.Trusts(ip) then (s, false) else (s.(banned := s.banned[ip := now + cfg.duration]), true)
  }

  function Current(s: State, now: int): map<Addr, int> {
    map ip | ip in s.banned && now < s.banned[ip] :: s.banned[ip]
  }

  predicate Stale(ts: seq<int>, cutoff: int) { ts == [] || ts[|ts| - 1] < cutoff }

  function Swept(cfg: Config, s: State, now: int): State {
    State(map ip | ip in s.failures && !Stale(s.failures[ip], now - cfg.window) :: s.failures[ip],
          map ip | ip in s.banned && !(now > s.banned[ip]) :: s.banned[ip])
  }

  // ---- the list, as an object ----

  class BanList {
    const cfg: Config
    var failures: map<Addr, seq<int>>
    var banned: map<Addr, int>

    ghost function View(): State
      reads this
    {
      State(failures, banned)
    }

    constructor (cfg: Config)
      ensures this.cfg == cfg && View() == EMPTY
    {
      this.cfg, failures, banned := cfg, map[], map[];
    }

    method IsTrusted(ip: Addr) returns (trusted: bool)
      ensures trusted == cfg.Trusts(ip)
    {
      for i := 0 to |cfg.trusted|
        invariant forall k | 0 <= k < i :: !Contains(cfg.trusted[k], ip)
      {
        if Contains(cfg.trusted[i], ip) { return true; }
      }
      return false;
    }

    method IsBanned(ip: Addr, now: int) returns (yes: bool)
      modifies this
      ensures (View(), yes) == Asked(old(View()), ip, now)
    {
      if ip !in banned { return false; }
      if now > banned[ip] {
        banned := banned - {ip};
        return false;
      }
      return true;
    }

    /** The stored failures are filtered in place. */
    method Fail(ip: Addr, now: int) returns (ban: bool)
      modifies this
      ensures (View(), ban) == Failed(cfg, old(View()), ip, now)
    {
      var trusted := IsTrusted(ip);
      if cfg.threshold <= 0 || trusted { return false; }
      var cutoff := now - cfg.window;
      var ts := if ip in failures then failures[ip] else [];
      var kept: seq<int> := [];
      for i := 0 to |ts|
        invariant kept == After(ts[..i], cutoff)
      {
        assert ts[..i + 1][..i] == ts[..i];
        if ts[i] > cutoff { kept := kept + [ts[i]]; }
      }
      assert ts[..|ts|] == ts;
      kept := kept + [now];
      if |kept| >= cfg.threshold {
        failures := failures - {ip};
        banned := banned[ip := now + cfg.duration];
        return true;
      }
      failures := failures[ip := kept];
      return false;
    }

    method Succeed(ip: Addr)
      modifies this
      ensures View() == old(View()).(failures := old(failures) - {ip})
    {
      failures := failures - {ip};
    }

    method BanNow(ip: Addr, now: int) returns (ban: bool)
      modifies this
      ensures (View(), ban) == Banned(cfg, old(View()), ip, now)
    {
      var trusted := IsTrusted(ip);
      if trusted { return false; }
      banned := banned[ip := now + cfg.duration];
      return true;
    }

    method Unban(ip: Addr)
      modifies this
      ensures View() == State(old(failures) - {ip}, old(banned) - {ip})
    {
      banned := banned - {ip};
      failures := failures - {ip};
    }

    method Active(now: int) returns (bans: map<Addr, int>)
      ensures bans == Current(View(), now)
    {
      bans := map[];
      var todo := banned.Keys;
      while todo != {}
        invariant todo <= banned.Keys
        invariant forall ip :: ip in bans <==> ip in banned && ip !in todo && now < banned[ip]
        invariant forall ip | ip in bans :: bans[ip] == banned[ip]
        decreases todo
      {
        var ip :| ip in todo;
        todo := todo - {ip};
        if now < banned[ip] { bans := bans[ip := banned[ip]]; }
      }
    }

    /** Entries are deleted while the maps are walked. */
    method Sweep(now: int)
      modifies this
      ensures View() == Swept(cfg, old(View()), now)
      ensures forall ip :: ip in banned <==> ip in old(banned) && now <= old(banned)[ip]
      ensures forall ip :: ip in failures <==>
                ip in old(failures) && var ts := old(failures)[ip]; ts != [] && now - ts[|ts| - 1] <= cfg.window
    {
      var todo := banned.Keys;
      while todo != {}
        invariant failures == old(failures) && todo <= banned.Keys <= old(banned.Keys)
        invariant forall ip :: ip in banned <==> ip in old(banned) && (ip in todo || !(now > old(banned)[ip]))
        invariant forall ip | ip in banned :: banned[ip] == old(banned)[ip]
        decreases todo
      {
        var ip :| ip in todo;
        todo := todo - {ip};
        if now > banned[ip] { banned := banned - {ip}; }
      }
      var cutoff := now - cfg.window;
      ghost var swept := Swept(cfg, old(View()), now);
      assert banned == swept.banned;
      todo := failures.Keys;
      while todo != {}
        invariant banned == swept.banned && todo <= failures.Keys <= old(failures.Keys)
        invariant forall ip ::
            ip in failures <==> ip in old(failures) && (ip in todo || !Stale(old(failures)[ip], cutoff))
        invariant forall ip | ip in failures :: failures[ip] == old(failures)[ip]
        decreases todo
      {
        var ip :| ip in todo;
        todo := todo - {ip};
        var ts := failures[ip];
        if |ts| == 0 || ts[|ts| - 1] < cutoff { failures := failures - {ip}; }
      }
      assert failures == swept.failures;
    }
  }

  // ---- what the history says ----

  datatype Op =
    Fail(ip: Addr) | Succeed(ip: Addr) | BanNow(ip: Addr) | Unban(ip: Addr) | IsBanned(ip: Addr) | Active | Sweep

  datatype Event = Event(now: int, op: Op)

  datatype Answer = Done | Said(yes: bool) | Bans(bans: map<Addr, int>)

  function Step(cfg: Config, s: State, e: Event): (State, Answer) {
    match e.op
    case Fail(ip) => var (t, b) := Failed(cfg, s, ip, e.now); (t, Said(b))
    case Succeed(ip) => (s.(failures := s.failures - {ip}), Done)
    case BanNow(ip) => var (t, b) := Banned(cfg, s, ip, e.now); (t, Said(b))
    case Unban(ip) => (State(s.failures - {ip}, s.banned - {ip}), Done)
    case IsBanned(ip) => var (t, b) := Asked(s, ip, e.now); (t, Said(b))
    case Active => (s, Bans(Current(s, e.now)))
    case Sweep => (Swept(cfg, s, e.now), Done)
  }

  function Run(cfg: Config, es: seq<Event>): State {
    if es == [] then EMPTY else Step(cfg, Run(cfg, es[..|es| - 1]), es[|es| - 1]).0
  }

  /** The clock never goes back. */
  ghost predicate Monotone(es: seq<Event>) {
    forall i, j | 0 <= i < j < |es| :: es[i].now <= es[j].now
  }

  /** Every failure since the last reset: a success, an unban, or a failure that banned. Nothing is pruned. */
  function Since(cfg: Config, es: seq<Event>, ip: Addr): seq<int>
    decreases |es|, 0
  {
    if es == [] then []
    else
      var before, e := es[..|es| - 1], es[|es| - 1];
      match e.op
      case Fail(x) =>
        if x != ip || cfg.threshold <= 0 || cfg.Trusts(ip) then Since(cfg, before, ip)
        else if Reached(cfg, before, ip, e.now) then []
        else Since(cfg, before, ip) + [e.now]
      case Succeed(x) => if x == ip then [] else Since(cfg, before, ip)
      case Unban(x) => if x == ip then [] else Since(cfg, before, ip)
      case _ => Since(cfg, before, ip)
  }

  /** With a failure now, those since the last reset and inside the window reach the threshold. */
  predicate Reached(cfg: Config, before: seq<Event>, ip: Addr, now: int)
    decreases |before|, 1
  {
    Recent(Since(cfg, before, ip), now, cfg.window) + 1 >= cfg.threshold
  }

  /** How many of the times are less than a window ago. */
  function Recent(ts: seq<int>, now: int, window: int): nat {
    if ts == [] then 0 else Recent(ts[..|ts| - 1], now, window) + if now - ts[|ts| - 1] < window then 1 else 0
  }

  /** The end of the last ban, if it was not lifted. */
  function Until(cfg: Config, es: seq<Event>, ip: Addr): Option<int> {
    if es == [] then None
    else
      var before, e := es[..|es| - 1], es[|es| - 1];
      match e.op
      case Fail(x) =>
        if x == ip && cfg.threshold > 0 && !cfg.Trusts(ip) && Reached(cfg, before, ip, e.now)
        then Some(e.now + cfg.duration)
        else Until(cfg, before, ip)
      case BanNow(x) => if x == ip && !cfg.Trusts(ip) then Some(e.now + cfg.duration) else Until(cfg, before, ip)
      case Unban(x) => if x == ip then None else Until(cfg, before, ip)
      case _ => Until(cfg, before, ip)
  }

  /** The answer the history calls for. */
  ghost predicate Right(cfg: Config, before: seq<Event>, e: Event, a: Answer) {
    match e.op
    case Fail(ip) => a == Said(cfg.threshold > 0 && !cfg.Trusts(ip) && Reached(cfg, before, ip, e.now))
    case BanNow(ip) => a == Said(!cfg.Trusts(ip))
    case IsBanned(ip) => var u := Until(cfg, before, ip); a == Said(u.Some? && e.now <= u.value)
    case Active =>
      a.Bans? && forall ip ::
        var u := Until(cfg, before, ip);
        (ip in a.bans <==> u.Some? && e.now < u.value) && (ip in a.bans ==> a.bans[ip] == u.value)
    case _ => a == Done
  }

  // ---- filtering by time ----

  ghost predicate Sorted(ts: seq<int>) {
    forall i, j | 0 <= i < j < |ts| :: ts[i] <= ts[j]
  }

  lemma {:induction false} AfterAfter(ts: seq<int>, c: int, d: int)
    requires c <= d
    ensures After(After(ts, c), d) == After(ts, d)
  {
    if ts != [] {
      var init, last := ts[..|ts| - 1], ts[|ts| - 1];
      AfterAfter(init, c, d);
      assert After(init, c) + [] == After(init, c) && After(init, d) + [] == After(init, d);
      if last > c { AfterMore(After(init, c), last, d); }
    }
  }

  lemma {:induction false} AfterCounts(ts: seq<int>, now: int, window: int)
    ensures |After(ts, now - window)| == Recent(ts, now, window)
  {
    if ts != [] {
      AfterCounts(ts[..|ts| - 1], now, window);
    }
  }

  lemma AfterMore(ts: seq<int>, t: int, c: int)
    ensures After(ts + [t], c) == After(ts, c) + if t > c then [t] else []
  {
    assert (ts + [t])[..|ts|] == ts;
  }

  lemma {:induction false} AfterSorted(ts: seq<int>, c: int, now: int)
    requires Sorted(ts) && forall i | 0 <= i < |ts| :: ts[i] <= now
    ensures Sorted(After(ts, c)) && |After(ts, c)| <= |ts|
    ensures forall i | 0 <= i < |After(ts, c)| :: After(ts, c)[i] <= now
  {
    if ts != [] {
      AfterSorted(ts[..|ts| - 1], c, ts[|ts| - 1]);
    }
  }

  lemma {:induction false} NoneAfter(ts: seq<int>, c: int)
    requires forall i | 0 <= i < |ts| :: ts[i] <= c
    ensures After(ts, c) == []
  {
    if ts != [] {
      NoneAfter(ts[..|ts| - 1], c);
    }
  }

  // ---- the list agrees with the history ----

  function Stored(s: State, ip: Addr): Option<seq<int>> { if ip in s.failures then Some(s.failures[ip]) else None }

  function Ban(s: State, ip: Addr): Option<int> { if ip in s.banned then Some(s.banned[ip]) else None }

  function Times(stored: Option<seq<int>>): seq<int> { if stored.Some? then stored.value else [] }

  /** What is stored shows the window's failures as the history does, is in order, and is short of the threshold. */
  ghost predicate FailuresAgree(cfg: Config, stored: Option<seq<int>>, full: seq<int>, now: int) {
    var ts := Times(stored);
    && (stored.Some? ==> 0 < |ts| < cfg.threshold)
    && Sorted(ts) && (forall i | 0 <= i < |ts| :: ts[i] <= now)
    && After(ts, now - cfg.window) == After(full, now - cfg.window)
  }

  /** A ban on the list is the history's; one that is not has expired. */
  ghost predicate BansAgree(ban: Option<int>, until: Option<int>, now: int) {
    if ban.Some? then until == ban else until.Some? ==> until.value < now
  }

  ghost predicate Agrees(cfg: Config, s: State, es: seq<Event>, ip: Addr, now: int) {
    && FailuresAgree(cfg, Stored(s, ip), Since(cfg, es, ip), now)
    && BansAgree(Ban(s, ip), Until(cfg, es, ip), now)
    && (cfg.Trusts(ip) ==> ip !in s.failures && ip !in s.banned)
  }

  lemma LaterFailures(cfg: Config, stored: Option<seq<int>>, full: seq<int>, now: int, later: int)
    requires FailuresAgree(cfg, stored, full, now) && now <= later
    ensures FailuresAgree(cfg, stored, full, later)
  {
    hide After, Sorted;
    AfterAfter(Times(stored), now - cfg.window, later - cfg.window);
    AfterAfter(full, now - cfg.window, later - cfg.window);
  }

  /** One more failure: counted alike, and kept alike. */
  lemma FailureAgrees(cfg: Config, stored: Option<seq<int>>, full: seq<int>, now: int)
    requires FailuresAgree(cfg, stored, full, now)
    ensures var kept := After(Times(stored), now - cfg.window) + [now];
            && |kept| == Recent(full, now, cfg.window) + 1
            && (|kept| < cfg.threshold ==> FailuresAgree(cfg, Some(kept), full + [now], now))
  {
    hide After, Sorted, Recent;
    var c := now - cfg.window;
    AfterCounts(full, now, cfg.window);
    var recent := After(Times(stored), c);
    AfterSorted(Times(stored), c, now);
    AfterAfter(Times(stored), c, c);
    AfterMore(recent, now, c);
    AfterMore(full, now, c);
    SortedMore(recent, now);
    assert forall i | 0 <= i < |recent| :: (recent + [now])[i] == recent[i];
  }

  lemma SortedMore(ts: seq<int>, t: int)
    requires Sorted(ts) && forall i | 0 <= i < |ts| :: ts[i] <= t
    ensures Sorted(ts + [t])
  {}

  /** A swept entry had nothing left in the window. */
  lemma SweptAgrees(cfg: Config, stored: Option<seq<int>>, full: seq<int>, now: int)
    requires FailuresAgree(cfg, stored, full, now) && Stale(Times(stored), now - cfg.window)
    ensures FailuresAgree(cfg, None, full, now)
  {
    NoneAfter(Times(stored), now - cfg.window);
    NoneAfter([], now - cfg.window);
  }

  lemma NoFailures(cfg: Config, now: int)
    ensures FailuresAgree(cfg, None, [], now)
  {}

  lemma {:induction false} FailElsewhere(cfg: Config, s: State, es: seq<Event>, x: Addr, ip: Addr, now: int)
    requires Agrees(cfg, s, es, ip, now) && (x != ip || cfg.threshold <= 0 || cfg.Trusts(ip))
    ensures Agrees(cfg, Failed(cfg, s, x, now).0, es + [Event(now, Fail(x))], ip, now)
  {
    hide After, Contains, FailuresAgree, Reached;
    assert (es + [Event(now, Fail(x))])[..|es|] == es;
  }

  lemma {:induction false} FailHere(cfg: Config, s: State, es: seq<Event>, ip: Addr, now: int)
    requires Agrees(cfg, s, es, ip, now) && cfg.threshold > 0 && !cfg.Trusts(ip)
    ensures Agrees(cfg, Failed(cfg, s, ip, now).0, es + [Event(now, Fail(ip))], ip, now)
    ensures Failed(cfg, s, ip, now).1 == Reached(cfg, es, ip, now)
  {
    hide After, Recent, FailuresAgree, Config.Trusts;
    var full := Since(cfg, es, ip);
    var after := es + [Event(now, Fail(ip))];
    assert after[..|es|] == es && after[|es|] == Event(now, Fail(ip));
    assert FailuresOf(s, ip) == Times(Stored(s, ip));
    FailureAgrees(cfg, Stored(s, ip), full, now);
    NoFailures(cfg, now);
    assert Since(cfg, after, ip) == if Reached(cfg, es, ip, now) then [] else full + [now];
  }

  lemma SweepStep(cfg: Config, s: State, es: seq<Event>, ip: Addr, now: int)
    requires Agrees(cfg, s, es, ip, now)
    ensures Agrees(cfg, Swept(cfg, s, now), es + [Event(now, Sweep)], ip, now)
  {
    hide After, Recent, Contains, FailuresAgree;
    assert (es + [Event(now, Sweep)])[..|es|] == es;
    if Stored(s, ip).Some? && Stale(Times(Stored(s, ip)), now - cfg.window) {
      SweptAgrees(cfg, Stored(s, ip), Since(cfg, es, ip), now);
    }
  }

  lemma {:induction false} BanStep(cfg: Config, s: State, es: seq<Event>, x: Addr, ip: Addr, now: int)
    requires Agrees(cfg, s, es, ip, now)
    ensures Agrees(cfg, Banned(cfg, s, x, now).0, es + [Event(now, BanNow(x))], ip, now)
  {
    hide After, Recent, Contains, FailuresAgree;
    assert (es + [Event(now, BanNow(x))])[..|es|] == es;
  }

  lemma {:induction false} ClearStep(cfg: Config, s: State, es: seq<Event>, e: Event, ip: Addr)
    requires Agrees(cfg, s, es, ip, e.now) && (e.op.Succeed? || e.op.Unban?)
    ensures Agrees(cfg, Step(cfg, s, e).0, es + [e], ip, e.now)
  {
    hide After, Recent, Contains, FailuresAgree;
    assert (es + [e])[..|es|] == es;
    NoFailures(cfg, e.now);
  }

  lemma {:induction false} AskStep(cfg: Config, s: State, es: seq<Event>, e: Event, ip: Addr)
    requires Agrees(cfg, s, es, ip, e.now) && (e.op.IsBanned? || e.op.Active?)
    ensures Agrees(cfg, Step(cfg, s, e).0, es + [e], ip, e.now)
  {
    hide After, Recent, Contains, FailuresAgree;
    assert (es + [e])[..|es|] == es;
  }

  lemma {:induction false} StepAgrees(cfg: Config, s: State, es: seq<Event>, e: Event, ip: Addr)
    requires Agrees(cfg, s, es, ip, e.now)
    ensures Agrees(cfg, Step(cfg, s, e).0, es + [e], ip, e.now)
  {
    hide Agrees, Failed, Swept, Banned, Asked;
    assert e == Event(e.now, e.op);
    match e.op {
      case Fail(x) =>
        if x == ip && cfg.threshold > 0 && !cfg.Trusts(ip) {
          FailHere(cfg, s, es, ip, e.now);
        } else {
          FailElsewhere(cfg, s, es, x, ip, e.now);
        }
      case BanNow(x) => BanStep(cfg, s, es, x, ip, e.now);
      case Succeed(_) => ClearStep(cfg, s, es, e, ip);
      case Unban(_) => ClearStep(cfg, s, es, e, ip);
      case IsBanned(_) => AskStep(cfg, s, es, e, ip);
      case Active => AskStep(cfg, s, es, e, ip);
      case Sweep => SweepStep(cfg, s, es, ip, e.now);
    }
  }

  lemma {:induction false} LaterAgrees(cfg: Config, s: State, es: seq<Event>, ip: Addr, now: int, later: int)
    requires Agrees(cfg, s, es, ip, now) && now <= later
    ensures Agrees(cfg, s, es, ip, later)
  {
    hide FailuresAgree;
    LaterFailures(cfg, Stored(s, ip), Since(cfg, es, ip), now, later);
  }

  lemma {:induction false} RunAgrees(cfg: Config, es: seq<Event>, ip: Addr, now: int)
    requires Monotone(es) && (es != [] ==> es[|es| - 1].now <= now)
    ensures Agrees(cfg, Run(cfg, es), es, ip, now)
  {
    hide Agrees, Step;
    if es == [] {
      NothingYet(cfg, ip, now);
    } else {
      var before, e := es[..|es| - 1], es[|es| - 1];
      assert before + [e] == es;
      RunAgrees(cfg, before, ip, e.now);
      StepAgrees(cfg, Run(cfg, before), before, e, ip);
      LaterAgrees(cfg, Run(cfg, es), es, ip, e.now, now);
    }
  }

  lemma NothingYet(cfg: Config, ip: Addr, now: int)
    ensures Agrees(cfg, EMPTY, [], ip, now)
  {}

  /**
   Under a clock that never goes back, after any run every operation gives the answer the full history calls for: a
   failure bans if and only if, with it, those since the last reset inside the window reach the threshold; an address
   is banned, and listed, just as long as its last ban that was not lifted runs.
   */
  lemma AnswersAreRight(cfg: Config, es: seq<Event>, e: Event)
    requires Monotone(es + [e])
    ensures Right(cfg, es, e, Step(cfg, Run(cfg, es), e).1)
  {
    hide After, Recent, Since, Until;
    MonotoneBefore(es, e);
    var s := Run(cfg, es);
    match e.op {
      case Fail(ip) =>
        RunAgrees(cfg, es, ip, e.now);
        assert FailuresOf(s, ip) == Times(Stored(s, ip));
        FailureAgrees(cfg, Stored(s, ip), Since(cfg, es, ip), e.now);
      case IsBanned(ip) =>
        RunAgrees(cfg, es, ip, e.now);
      case Active =>
        forall ip ensures BansAgree(Ban(s, ip), Until(cfg, es, ip), e.now) { RunAgrees(cfg, es, ip, e.now); }
      case _ =>
    }
  }

  lemma MonotoneBefore(es: seq<Event>, e: Event)
    requires Monotone(es + [e])
    ensures Monotone(es) && (es != [] ==> es[|es| - 1].now <= e.now)
  {
    assert forall i | 0 <= i < |es| :: (es + [e])[i] == es[i];
    assert (es + [e])[|es|] == e;
  }

  /** Stored lists are never empty and always shorter than the threshold, and a trusted address is nowhere. */
  lemma StoredListsAreShort(cfg: Config, es: seq<Event>, ip: Addr)
    requires Monotone(es)
    ensures var s := Run(cfg, es);
            && (ip in s.failures ==> 0 < |s.failures[ip]| < cfg.threshold)
            && (cfg.Trusts(ip) ==> ip !in s.failures && ip !in s.banned)
  {
    RunAgrees(cfg, es, ip, if es == [] then 0 else es[|es| - 1].now);
  }

  // ---- sweeping ----

  lemma {:induction false} HistoryIgnoresSweep(cfg: Config, a: seq<Event>, now: int, b: seq<Event>, ip: Addr)
    ensures Since(cfg, a + [Event(now, Sweep)] + b, ip) == Since(cfg, a + b, ip)
    ensures Until(cfg, a + [Event(now, Sweep)] + b, ip) == Until(cfg, a + b, ip)
  {
    hide After;
    var sweep := [Event(now, Sweep)];
    if b == [] {
      assert a + sweep + b == a + sweep && (a + sweep)[..|a|] == a && a + b == a;
    } else {
      var init := b[..|b| - 1];
      HistoryIgnoresSweep(cfg, a, now, init, ip);
      assert (a + sweep + b)[..|a + sweep + b| - 1] == a + sweep + init && (a + b)[..|a + b| - 1] == a + init;
    }
  }

  lemma {:induction false} RightIsUnique(cfg: Config, es: seq<Event>, fs: seq<Event>, e: Event, x: Answer, y: Answer)
    requires forall ip :: Since(cfg, es, ip) == Since(cfg, fs, ip) && Until(cfg, es, ip) == Until(cfg, fs, ip)
    requires Right(cfg, es, e, x) && Right(cfg, fs, e, y)
    ensures x == y
  {
    hide After, Recent, Since, Until;
    match e.op {
      case Fail(ip) => assert Since(cfg, es, ip) == Since(cfg, fs, ip);
      case IsBanned(ip) => assert Until(cfg, es, ip) == Until(cfg, fs, ip);
      case Active =>
        forall ip ensures (ip in x.bans <==> ip in y.bans) && (ip in x.bans ==> x.bans[ip] == y.bans[ip]) {
          assert Until(cfg, es, ip) == Until(cfg, fs, ip);
        }
        assert x.bans == y.bans;
      case _ =>
    }
  }

  lemma MonotoneWithout(a: seq<Event>, x: Event, b: seq<Event>, e: Event)
    requires Monotone(a + [x] + b + [e])
    ensures Monotone(a + b + [e])
  {
    var long, short := a + [x] + b + [e], a + b + [e];
    assert forall i | 0 <= i < |short| :: short[i] == long[if i < |a| then i else i + 1];
  }

  /** Sweeping at any time changes no later answer. */
  lemma SweepIsInvisible(cfg: Config, a: seq<Event>, now: int, b: seq<Event>, e: Event)
    requires Monotone(a + [Event(now, Sweep)] + b + [e])
    ensures Step(cfg, Run(cfg, a + [Event(now, Sweep)] + b), e).1 == Step(cfg, Run(cfg, a + b), e).1
  {
    hide Since, Until, Step, Run, Right;
    var swept := a + [Event(now, Sweep)] + b;
    MonotoneWithout(a, Event(now, Sweep), b, e);
    AnswersAreRight(cfg, swept, e);
    AnswersAreRight(cfg, a + b, e);
    forall ip ensures Since(cfg, swept, ip) == Since(cfg, a + b, ip) && Until(cfg, swept, ip) == Until(cfg, a + b, ip) {
      HistoryIgnoresSweep(cfg, a, now, b, ip);
    }
    RightIsUnique(cfg, swept, a + b, e, Step(cfg, Run(cfg, swept), e).1, Step(cfg, Run(cfg, a + b), e).1);
  }
}
