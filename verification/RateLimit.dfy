/**
 The fixed-window rate limiter of the auth endpoints (backend/app/middleware/rate_limit.py) over a Redis that is
 available: INCR creates a missing key at 1, EXPIRE gives it a lifetime, an expired key is missing.

 INCR and EXPIRE are two awaited commands. `lag` is the time between them; other requests that arrive in between only
 increment a key that cannot expire yet, so the key lives until `lag + window` after the INCR that created it.
 */
module RateLimit {
  import opened Integers
  import opened Options

  /** The two settings. Times are in milliseconds, in which Redis expires keys. */
  datatype Config = Config(limit: nat, window: nat)

  /** 5 requests, 60 seconds. */
  const Default := Config(5, 60_000)

  type Count = n: nat | n > 0 witness 1

  /**
   A Redis key: its value and the first moment at which it is gone, if it has been given a lifetime. Redis keeps a key
   through the last millisecond of its lifetime.
   */
  datatype Counter = Counter(count: Count, expiry: Option<int>)

  type Store = map<string, Counter>

  datatype Request = Request(ip: string, time: int, lag: nat)

  // ---------- The code ----------

  predicate Alive(store: Store, ip: string, now: int) {
    ip in store && (store[ip].expiry == None || now < store[ip].expiry.value)
  }

  /** The counter after the request: INCR, and EXPIRE when the count is 1. */
  function Bump(cfg: Config, store: Store, r: Request): Counter {
    if Alive(store, r.ip, r.time) then store[r.ip].(count := store[r.ip].count + 1)
    else Counter(1, Some(r.time + r.lag + cfg.window + 1))
  }

  function Step(cfg: Config, store: Store, r: Request): Store {
    store[r.ip := Bump(cfg, store, r)]
  }

  predicate Allows(cfg: Config, store: Store, r: Request) {
    Bump(cfg, store, r).count <= cfg.limit
  }

  /** The state after a trace of requests, starting from an empty Redis. */
  function Run(cfg: Config, rs: seq<Request>): Store {
    if rs == [] then map[] else Step(cfg, Run(cfg, rs[..|rs| - 1]), rs[|rs| - 1])
  }

  class Limiter {
    const cfg: Config
    var store: Store

    constructor (cfg: Config)
      ensures this.cfg == cfg && store == map[]
    {
      this.cfg := cfg;
      store := map[];
    }

    /** INCR: an expired key counts as missing; a new key has no lifetime yet. */
    method Incr(key: string, now: int) returns (count: Count)
      modifies this
      ensures store == old(store)[key := if old(Alive(store, key, now)) then Counter(count, old(store[key].expiry))
                                         else Counter(1, None)]
      ensures count == if old(Alive(store, key, now)) then old(store[key].count) + 1 else 1
    {
      if Alive(store, key, now) {
        count := store[key].count + 1;
        store := store[key := Counter(count, store[key].expiry)];
      } else {
        count := 1;
        store := store[key := Counter(1, None)];
      }
    }

    /** EXPIRE: gives the key a lifetime, in milliseconds, from now on. */
    method Expire(key: string, now: int, lifetime: nat)
      requires key in store
      modifies this
      ensures store == old(store)[key := old(store[key]).(expiry := Some(now + lifetime + 1))]
    {
      store := store[key := store[key].(expiry := Some(now + lifetime + 1))];
    }

    /** The dependency of the auth endpoints; the source raises 429 where this returns false. */
    method AuthRateLimit(r: Request) returns (allowed: bool)
      modifies this
      ensures store == Step(cfg, old(store), r)
      ensures allowed == Allows(cfg, old(store), r)
    {
      var count := Incr(r.ip, r.time);
      if count == 1 {
        Expire(r.ip, r.time + r.lag, cfg.window);
      }
      allowed := count <= cfg.limit;
    }
  }

  // ---------- What a trace admits ----------

  /** The clock does not run backwards. */
  predicate Monotone(rs: seq<Request>) {
    forall i, j :: 0 <= i < j < |rs| ==> rs[i].time <= rs[j].time
  }

  predicate Falls(r: Request, ip: string, from: int, to: int) {
    r.ip == ip && from <= r.time < to
  }

  /** How many requests of `ip` arrived in the half-open interval. */
  function Arrived(rs: seq<Request>, ip: string, from: int, to: int): nat {
    if rs == [] then 0 else
    Arrived(rs[..|rs| - 1], ip, from, to) + if Falls(rs[|rs| - 1], ip, from, to) then 1 else 0
  }

  /** How many of them were let through. */
  function Admitted(cfg: Config, rs: seq<Request>, ip: string, from: int, to: int): nat {
    if rs == [] then 0 else
    var init, r := rs[..|rs| - 1], rs[|rs| - 1];
    Admitted(cfg, init, ip, from, to) + if Falls(r, ip, from, to) && Allows(cfg, Run(cfg, init), r) then 1 else 0
  }

  /** When the latest counter of `ip` was created. */
  function WindowStart(cfg: Config, rs: seq<Request>, ip: string): (start: Option<int>)
    ensures start.Some? <==> ip in Run(cfg, rs)
  {
    if rs == [] then None else
    var init, r := rs[..|rs| - 1], rs[|rs| - 1];
    if r.ip == ip && !Alive(Run(cfg, init), ip, r.time) then Some(r.time) else WindowStart(cfg, init, ip)
  }

  lemma {:induction false} NothingBefore(cfg: Config, rs: seq<Request>, ip: string, from: int, to: int)
    requires forall i :: 0 <= i < |rs| && rs[i].ip == ip ==> rs[i].time < from
    ensures Admitted(cfg, rs, ip, from, to) == 0 && Arrived(rs, ip, from, to) == 0
  {
    if rs != [] {
      NothingBefore(cfg, rs[..|rs| - 1], ip, from, to);
    }
  }

  /** The requests before a moment. */
  function Before(rs: seq<Request>, t: int): seq<Request> {
    if rs == [] || rs[|rs| - 1].time < t then rs else Before(rs[..|rs| - 1], t)
  }

  /** How much of the window alive at `from` is used up; 0 if none is alive. */
  function UsedAt(cfg: Config, rs: seq<Request>, ip: string, from: int): nat {
    var store := Run(cfg, Before(rs, from));
    if Alive(store, ip, from) then store[ip].count else 0
  }

  /** When that window closes; `from` if none is alive. */
  function ClosesAt(cfg: Config, rs: seq<Request>, ip: string, from: int): int {
    var store := Run(cfg, Before(rs, from));
    if Alive(store, ip, from) && store[ip].expiry.Some? then store[ip].expiry.value else from
  }

  /** Arrivals of the interval that meet the window alive at its start, and those that come after it has closed. */
  function ArrivedOld(cfg: Config, rs: seq<Request>, ip: string, from: int): nat {
    Arrived(rs, ip, from, Min(ClosesAt(cfg, rs, ip, from), from + cfg.window))
  }

  function ArrivedNew(cfg: Config, rs: seq<Request>, ip: string, from: int): nat {
    Arrived(rs, ip, ClosesAt(cfg, rs, ip, from), from + cfg.window)
  }

  lemma {:induction false} HasExpiry(cfg: Config, rs: seq<Request>, ip: string)
    ensures ip in Run(cfg, rs) ==> Run(cfg, rs)[ip].expiry.Some?
  {
    if rs != [] {
      HasExpiry(cfg, rs[..|rs| - 1], ip);
    }
  }

  /**
   What an interval of one window length has admitted so far, and the counter that explains it: `used` and `closes`
   describe the window alive at its start, `sooner` and `later` count the arrivals before and after that has closed.
   */
  ghost predicate Explains(cfg: Config, store: Store, ip: string, from: int, used: nat, closes: int,
                           sooner: nat, later: nat, admitted: nat) {
    && (if used > 0 then closes > from else closes == from && sooner == 0)
    && admitted == Min(Max(0, cfg.limit - used), sooner) + Min(cfg.limit, later)
    && (if later > 0 then
          ip in store && store[ip].count == later && store[ip].expiry.Some? && store[ip].expiry.value >= from + cfg.window
        else if used > 0 then ip in store && store[ip] == Counter(used + sooner, Some(closes))
        else !Alive(store, ip, from))
  }

  lemma ExplainsStep(cfg: Config, store: Store, r: Request, from: int, used: nat, closes: int,
                     sooner: nat, later: nat, admitted: nat)
    requires Explains(cfg, store, r.ip, from, used, closes, sooner, later, admitted)
    requires from <= r.time < from + cfg.window
    requires later > 0 ==> closes <= r.time
    ensures Explains(cfg, Step(cfg, store, r), r.ip, from, used, closes,
                     sooner + (if r.time < closes then 1 else 0), later + (if closes <= r.time then 1 else 0),
                     admitted + if Allows(cfg, store, r) then 1 else 0)
  {
  }

  lemma {:induction false} NoneSince(rs: seq<Request>, ip: string, from: int, to: int)
    requires Arrived(rs, ip, from, to) > 0
    ensures exists i :: 0 <= i < |rs| && rs[i].time >= from
  {
    if !Falls(rs[|rs| - 1], ip, from, to) {
      NoneSince(rs[..|rs| - 1], ip, from, to);
      var i :| 0 <= i < |rs| - 1 && rs[..|rs| - 1][i].time >= from;
      assert rs[i].time >= from;
    }
  }

  lemma ExplainsOther(cfg: Config, store: Store, r: Request, ip: string, from: int, used: nat, closes: int,
                      sooner: nat, later: nat, admitted: nat)
    requires Explains(cfg, store, ip, from, used, closes, sooner, later, admitted) && r.ip != ip
    ensures Explains(cfg, Step(cfg, store, r), ip, from, used, closes, sooner, later, admitted)
  {
  }

  ghost predicate Explained(cfg: Config, rs: seq<Request>, ip: string, from: int) {
    Explains(cfg, Run(cfg, rs), ip, from, UsedAt(cfg, rs, ip, from), ClosesAt(cfg, rs, ip, from),
             ArrivedOld(cfg, rs, ip, from), ArrivedNew(cfg, rs, ip, from),
             Admitted(cfg, rs, ip, from, from + cfg.window))
  }

  lemma ExplainedBefore(cfg: Config, rs: seq<Request>, ip: string, from: int)
    requires forall i :: 0 <= i < |rs| ==> rs[i].time < from
    ensures Explained(cfg, rs, ip, from)
  {
    var closes, to := ClosesAt(cfg, rs, ip, from), from + cfg.window;
    HasExpiry(cfg, rs, ip);
    NothingBefore(cfg, rs, ip, from, to);
    NothingBefore(cfg, rs, ip, from, Min(closes, to));
    NothingBefore(cfg, rs, ip, closes, to);
  }

  lemma LaterMeansClosed(cfg: Config, rs: seq<Request>, ip: string, from: int)
    requires Monotone(rs) && rs != [] && ArrivedNew(cfg, rs[..|rs| - 1], ip, from) > 0
    ensures ClosesAt(cfg, rs[..|rs| - 1], ip, from) <= rs[|rs| - 1].time
  {
    var init, closes := rs[..|rs| - 1], ClosesAt(cfg, rs[..|rs| - 1], ip, from);
    NoneSince(init, ip, closes, from + cfg.window);
    var i :| 0 <= i < |init| && init[i].time >= closes;
    assert rs[i].time <= rs[|rs| - 1].time;
  }

  /** What one more request of the interval adds to the counts. */
  lemma CountsStep(cfg: Config, rs: seq<Request>, ip: string, from: int)
    requires rs != [] && from <= rs[|rs| - 1].time < from + cfg.window
    ensures var init, r, to := rs[..|rs| - 1], rs[|rs| - 1], from + cfg.window;
      var own := if r.ip == ip then 1 else 0; var closes := ClosesAt(cfg, init, ip, from);
      && UsedAt(cfg, rs, ip, from) == UsedAt(cfg, init, ip, from) && ClosesAt(cfg, rs, ip, from) == closes
      && ArrivedOld(cfg, rs, ip, from) == ArrivedOld(cfg, init, ip, from) + (if r.time < closes then own else 0)
      && ArrivedNew(cfg, rs, ip, from) == ArrivedNew(cfg, init, ip, from) + (if closes <= r.time then own else 0)
      && Admitted(cfg, rs, ip, from, to) ==
         Admitted(cfg, init, ip, from, to) + if Allows(cfg, Run(cfg, init), r) then own else 0
  {
    assert Before(rs, from) == Before(rs[..|rs| - 1], from);
    hide Before, Run, Allows;
  }

  lemma ExplainedStep(cfg: Config, rs: seq<Request>, ip: string, from: int)
    requires Monotone(rs) && rs != [] && from <= rs[|rs| - 1].time < from + cfg.window
    requires Explained(cfg, rs[..|rs| - 1], ip, from)
    ensures Explained(cfg, rs, ip, from)
  {
    hide Explains, Before, Monotone, Step, Allows, UsedAt, ClosesAt, ArrivedOld, ArrivedNew, Admitted;
    var init, r, to := rs[..|rs| - 1], rs[|rs| - 1], from + cfg.window;
    CountsStep(cfg, rs, ip, from);
    var used, closes := UsedAt(cfg, rs, ip, from), ClosesAt(cfg, rs, ip, from);
    if r.ip == ip {
      if ArrivedNew(cfg, init, ip, from) > 0 {
        LaterMeansClosed(cfg, rs, ip, from);
      }
      ExplainsStep(cfg, Run(cfg, init), r, from, used, closes, ArrivedOld(cfg, init, ip, from),
                   ArrivedNew(cfg, init, ip, from), Admitted(cfg, init, ip, from, to));
    } else {
      ExplainsOther(cfg, Run(cfg, init), r, ip, from, used, closes, ArrivedOld(cfg, init, ip, from),
                    ArrivedNew(cfg, init, ip, from), Admitted(cfg, init, ip, from, to));
    }
  }

  lemma {:induction false} AlwaysExplained(cfg: Config, rs: seq<Request>, ip: string, from: int)
    requires Monotone(rs) && forall i :: 0 <= i < |rs| ==> rs[i].time < from + cfg.window
    ensures Explained(cfg, rs, ip, from)
  {
    hide Explained;
    if rs != [] && rs[|rs| - 1].time >= from {
      AlwaysExplained(cfg, rs[..|rs| - 1], ip, from);
      ExplainedStep(cfg, rs, ip, from);
    } else {
      assert forall i :: 0 <= i < |rs| ==> rs[i].time <= rs[|rs| - 1].time;
      ExplainedBefore(cfg, rs, ip, from);
    }
  }

  /**
   Exactly how many requests an interval of one window length admits, from the counter alive at its start and the
   arrivals alone: what that counter has left, and then one limit more.
   */
  lemma {:induction false} IntervalClosedForm(cfg: Config, rs: seq<Request>, ip: string, from: int)
    requires Monotone(rs)
    ensures Admitted(cfg, rs, ip, from, from + cfg.window) ==
      Min(Max(0, cfg.limit - UsedAt(cfg, rs, ip, from)), ArrivedOld(cfg, rs, ip, from))
      + Min(cfg.limit, ArrivedNew(cfg, rs, ip, from))
  {
    if rs == [] || rs[|rs| - 1].time < from + cfg.window {
      assert forall i :: 0 <= i < |rs| ==> rs[i].time <= rs[|rs| - 1].time;
      AlwaysExplained(cfg, rs, ip, from);
    } else {
      IntervalClosedForm(cfg, rs[..|rs| - 1], ip, from);
    }
  }

  /**
   The exact condition for an interval of one window length to keep the promised limit. It keeps it whenever no window
   is alive at its start.
   */
  lemma WithinLimitIff(cfg: Config, rs: seq<Request>, ip: string, from: int)
    requires Monotone(rs)
    ensures var left := Max(0, cfg.limit - UsedAt(cfg, rs, ip, from));
      Admitted(cfg, rs, ip, from, from + cfg.window) <= cfg.limit <==>
        Min(left, ArrivedOld(cfg, rs, ip, from)) + Min(cfg.limit, ArrivedNew(cfg, rs, ip, from)) <= cfg.limit
    ensures !Alive(Run(cfg, Before(rs, from)), ip, from) ==>
      Admitted(cfg, rs, ip, from, from + cfg.window) <= cfg.limit
  {
    IntervalClosedForm(cfg, rs, ip, from);
    if !Alive(Run(cfg, Before(rs, from)), ip, from) {
      NothingBetween(rs, ip, from, from);
    }
  }

  lemma {:induction false} NothingBetween(rs: seq<Request>, ip: string, from: int, to: int)
    requires to <= from
    ensures Arrived(rs, ip, from, to) == 0
  {
    if rs != [] {
      NothingBetween(rs[..|rs| - 1], ip, from, to);
    }
  }

  /** Over any trace, any interval of one window length, however it is aligned, admits fewer than twice the limit. */
  lemma BurstBound(cfg: Config, rs: seq<Request>, ip: string, from: int)
    requires cfg.limit > 0 && Monotone(rs)
    ensures Admitted(cfg, rs, ip, from, from + cfg.window) <= 2 * cfg.limit - 1
  {
    IntervalClosedForm(cfg, rs, ip, from);
    WithinLimitIff(cfg, rs, ip, from);
  }

  /** `count` requests of one address at one moment. */
  function Burst(ip: string, time: int, count: nat): seq<Request> {
    seq(count, i => Request(ip, time, 0))
  }

  lemma AdmitsOne(cfg: Config, rs: seq<Request>, r: Request, from: int, to: int)
    requires Alive(Run(cfg, rs), r.ip, r.time) && Run(cfg, rs)[r.ip].count < cfg.limit && from <= r.time < to
    ensures var store := Run(cfg, rs);
      && Run(cfg, rs + [r]) == store[r.ip := Counter(store[r.ip].count + 1, store[r.ip].expiry)]
      && Admitted(cfg, rs + [r], r.ip, from, to) == Admitted(cfg, rs, r.ip, from, to) + 1
  {
    assert (rs + [r])[..|rs + [r]| - 1] == rs;
  }

  lemma {:induction false} BurstIsAdmitted(cfg: Config, rs: seq<Request>, ip: string, time: int, n: nat, from: int, to: int)
    requires Alive(Run(cfg, rs), ip, time) && Run(cfg, rs)[ip].count + n <= cfg.limit
    requires from <= time < to
    ensures var after := rs + Burst(ip, time, n);
      && Run(cfg, after) == Run(cfg, rs)[ip := Counter(Run(cfg, rs)[ip].count + n, Run(cfg, rs)[ip].expiry)]
      && Admitted(cfg, after, ip, from, to) == Admitted(cfg, rs, ip, from, to) + n
  {
    hide Run, Admitted;
    if n == 0 {
      assert rs + Burst(ip, time, n) == rs;
    } else {
      BurstIsAdmitted(cfg, rs, ip, time, n - 1, from, to);
      AdmitsOne(cfg, rs + Burst(ip, time, n - 1), Request(ip, time, 0), from, to);
      assert rs + Burst(ip, time, n) == rs + Burst(ip, time, n - 1) + [Request(ip, time, 0)];
    }
  }

  /** A whole window's worth of requests of one address, sent at two moments. */
  function FillWindow(cfg: Config, ip: string, first: int, rest: int): seq<Request>
    requires cfg.limit > 0
  {
    [Request(ip, first, 0)] + Burst(ip, rest, cfg.limit - 1)
  }

  lemma FillIsAdmitted(cfg: Config, rs: seq<Request>, ip: string, first: int, rest: int, from: int, to: int)
    requires cfg.limit > 0 && !Alive(Run(cfg, rs), ip, first)
    requires from <= rest < to && first <= rest <= first + cfg.window
    ensures var after := rs + FillWindow(cfg, ip, first, rest);
      && Run(cfg, after) == Run(cfg, rs)[ip := Counter(cfg.limit, Some(first + cfg.window + 1))]
      && Admitted(cfg, after, ip, from, to) ==
         Admitted(cfg, rs, ip, from, to) + cfg.limit - 1 + if from <= first then 1 else 0
  {
    hide Run, Admitted;
    var r := Request(ip, first, 0);
    OpensWindow(cfg, rs, r, from, to);
    BurstIsAdmitted(cfg, rs + [r], ip, rest, cfg.limit - 1, from, to);
    assert rs + FillWindow(cfg, ip, first, rest) == rs + [r] + Burst(ip, rest, cfg.limit - 1);
  }

  /** With the default settings, which promise 5 requests a minute, any minute admits at most 9. */
  lemma NineAMinute(rs: seq<Request>, ip: string, from: int)
    requires Monotone(rs)
    ensures Admitted(Default, rs, ip, from, from + 60_000) <= 9
  {
    BurstBound(Default, rs, ip, from);
  }

  /** One request, the rest of its window at the last moment, then a whole new window. */
  function TightTrace(cfg: Config, ip: string): seq<Request>
    requires cfg.limit > 0
  {
    FillWindow(cfg, ip, 0, cfg.window) + FillWindow(cfg, ip, cfg.window + 1, cfg.window + 1)
  }

  lemma TightTraceIsMonotone(cfg: Config, ip: string)
    requires cfg.limit > 0 && cfg.window > 1
    ensures Monotone(TightTrace(cfg, ip))
  {
    var rs := TightTrace(cfg, ip);
    forall i | 0 <= i < |rs|
      ensures rs[i].time == if i == 0 then 0 else if i < cfg.limit then cfg.window else cfg.window + 1
    {
    }
  }

  /** The bound is reached, for every limit and window. */
  lemma BurstBoundIsTight(cfg: Config, ip: string)
    requires cfg.limit > 0 && cfg.window > 1
    ensures Monotone(TightTrace(cfg, ip))
    ensures Admitted(cfg, TightTrace(cfg, ip), ip, 2, 2 + cfg.window) == 2 * cfg.limit - 1
  {
    TightTraceIsMonotone(cfg, ip);
    assert Run(cfg, []) == map[] && Admitted(cfg, [], ip, 2, 2 + cfg.window) == 0;
    hide Monotone, FillWindow, Run, Admitted;
    var full := FillWindow(cfg, ip, 0, cfg.window);
    assert full == [] + full;
    FillIsAdmitted(cfg, [], ip, 0, cfg.window, 2, 2 + cfg.window);
    FillIsAdmitted(cfg, full, ip, cfg.window + 1, cfg.window + 1, 2, 2 + cfg.window);
  }

  /** With the default settings the nine are reached. */
  lemma NineIsReached(ip: string)
    ensures Monotone(TightTrace(Default, ip)) && Admitted(Default, TightTrace(Default, ip), ip, 2, 2 + 60_000) == 9
  {
    BurstBoundIsTight(Default, ip);
  }

  lemma OpensWindow(cfg: Config, rs: seq<Request>, r: Request, from: int, to: int)
    requires !Alive(Run(cfg, rs), r.ip, r.time) && cfg.limit > 0
    ensures var after := rs + [r];
      && Run(cfg, after) == Run(cfg, rs)[r.ip := Counter(1, Some(r.time + r.lag + cfg.window + 1))]
      && Admitted(cfg, after, r.ip, from, to) ==
         Admitted(cfg, rs, r.ip, from, to) + if from <= r.time < to then 1 else 0
  {
    assert (rs + [r])[..|rs + [r]| - 1] == rs;
  }

  // ---------- Which requests are refused ----------

  /** Every request of `ip` came before its latest counter expires, and that counter has admitted its first `limit`. */
  ghost predicate Spent(cfg: Config, rs: seq<Request>, ip: string, to: int) {
    var store := Run(cfg, rs);
    ip in store ==>
      && store[ip].expiry.Some?
      && (forall i :: 0 <= i < |rs| && rs[i].ip == ip ==> rs[i].time < store[ip].expiry.value)
      && rs != [] && WindowStart(cfg, rs, ip).value <= rs[|rs| - 1].time
      && Admitted(cfg, rs, ip, WindowStart(cfg, rs, ip).value, to) == Min(store[ip].count, cfg.limit)
  }

  lemma {:induction false} Untouched(cfg: Config, rs: seq<Request>, ip: string)
    requires ip !in Run(cfg, rs)
    ensures forall i :: 0 <= i < |rs| ==> rs[i].ip != ip
  {
    if rs != [] {
      Untouched(cfg, rs[..|rs| - 1], ip);
    }
  }

  lemma {:induction false} AlwaysSpent(cfg: Config, rs: seq<Request>, ip: string, to: int)
    requires cfg.window > 0 && Monotone(rs)
    requires forall i :: 0 <= i < |rs| ==> rs[i].time < to
    ensures Spent(cfg, rs, ip, to)
  {
    if rs != [] {
      var init, r := rs[..|rs| - 1], rs[|rs| - 1];
      AlwaysSpent(cfg, init, ip, to);
      assert forall i :: 0 <= i < |init| ==> init[i] == rs[i] && rs[i].time <= r.time;
      assert init != [] ==> init[|init| - 1] == rs[|rs| - 2];
      if r.ip == ip && !Alive(Run(cfg, init), ip, r.time) {
        if ip !in Run(cfg, init) {
          Untouched(cfg, init, ip);
        }
        NothingBefore(cfg, init, ip, r.time, to);
      }
    }
  }

  /**
   A request is refused exactly when the counter of its address is still alive and has already admitted `limit`
   requests: every window admits its first `limit` requests and no others.
   */
  lemma RefusedIff(cfg: Config, rs: seq<Request>, r: Request)
    requires cfg.window > 0 && cfg.limit > 0 && Monotone(rs + [r])
    ensures var store := Run(cfg, rs);
      !Allows(cfg, store, r) <==>
        && Alive(store, r.ip, r.time)
        && Admitted(cfg, rs, r.ip, WindowStart(cfg, rs, r.ip).value, r.time + 1) == cfg.limit
  {
    var all := rs + [r];
    forall i | 0 <= i < |rs|
      ensures rs[i].time < r.time + 1
    {
      assert all[i].time <= all[|rs|].time;
    }
    forall i, j | 0 <= i < j < |rs|
      ensures rs[i].time <= rs[j].time
    {
      assert all[i].time <= all[j].time;
    }
    AlwaysSpent(cfg, rs, r.ip, r.time + 1);
  }

  // ---------- Clients within the limit ----------

  /** `ip` never sends more than `limit` requests in an interval of this length. */
  ghost predicate Conforms(cfg: Config, rs: seq<Request>, ip: string, length: nat) {
    forall from :: ArrivedFor(rs, ip, from, length) <= cfg.limit
  }

  function ArrivedFor(rs: seq<Request>, ip: string, from: int, length: nat): nat {
    Arrived(rs, ip, from, from + length)
  }

  /** EXPIRE takes effect at most `slack` after INCR. */
  predicate ExpiresWithin(rs: seq<Request>, ip: string, slack: nat) {
    forall i :: 0 <= i < |rs| && rs[i].ip == ip ==> rs[i].lag <= slack
  }

  lemma {:induction false} CountedInWindow(cfg: Config, rs: seq<Request>, ip: string, slack: nat)
    requires cfg.window > 0 && Monotone(rs) && ExpiresWithin(rs, ip, slack)
    ensures var store := Run(cfg, rs); ip in store ==>
      var start := WindowStart(cfg, rs, ip).value;
      && store[ip].expiry.Some? && start + cfg.window < store[ip].expiry.value <= start + cfg.window + slack + 1
      && rs != [] && start <= rs[|rs| - 1].time
      && store[ip].count <= ArrivedFor(rs, ip, start, cfg.window + slack + 1)
  {
    if rs != [] {
      var init := rs[..|rs| - 1];
      CountedInWindow(cfg, init, ip, slack);
      assert init != [] ==> init[|init| - 1] == rs[|rs| - 2] && rs[|rs| - 2].time <= rs[|rs| - 1].time;
    }
  }

  /**
   If EXPIRE takes effect at most `slack` after INCR, a client that keeps the limit in every interval one millisecond longer
   than one window length and `slack` has every request admitted, whatever others send.
   */
  lemma {:induction false} ConformingIsAdmitted(cfg: Config, rs: seq<Request>, ip: string, slack: nat, from: int, to: int)
    requires cfg.window > 0 && Monotone(rs) && ExpiresWithin(rs, ip, slack)
    requires Conforms(cfg, rs, ip, cfg.window + slack + 1)
    ensures Admitted(cfg, rs, ip, from, to) == Arrived(rs, ip, from, to)
  {
    if rs != [] {
      var init, r, length := rs[..|rs| - 1], rs[|rs| - 1], cfg.window + slack + 1;
      forall a
        ensures ArrivedFor(init, ip, a, length) <= cfg.limit
      {
        assert ArrivedFor(rs, ip, a, length) <= cfg.limit;
      }
      ConformingIsAdmitted(cfg, init, ip, slack, from, to);
      if r.ip == ip {
        CountedInWindow(cfg, rs, ip, slack);
        var start := WindowStart(cfg, rs, ip).value;
        assert ArrivedFor(rs, ip, start, length) <= cfg.limit;
      }
    }
  }

  lemma ArrivedAppend(rs: seq<Request>, r: Request, ip: string, from: int, to: int)
    ensures Arrived(rs + [r], ip, from, to) == Arrived(rs, ip, from, to) + if Falls(r, ip, from, to) then 1 else 0
  {
    assert (rs + [r])[..|rs + [r]| - 1] == rs;
  }

  lemma {:induction false} ArrivedBurst(rs: seq<Request>, ip: string, time: int, n: nat, from: int, to: int)
    ensures Arrived(rs + Burst(ip, time, n), ip, from, to)
            == Arrived(rs, ip, from, to) + if from <= time < to then n else 0
  {
    if n == 0 {
      assert rs + Burst(ip, time, n) == rs;
    } else {
      ArrivedBurst(rs, ip, time, n - 1, from, to);
      ArrivedAppend(rs + Burst(ip, time, n - 1), Request(ip, time, 0), ip, from, to);
      assert rs + Burst(ip, time, n) == rs + Burst(ip, time, n - 1) + [Request(ip, time, 0)];
    }
  }

  /** A whole limit at once, with EXPIRE delayed by `lag`. */
  function SlowExpiry(cfg: Config, ip: string, lag: nat): seq<Request>
    requires cfg.limit > 0
  {
    [Request(ip, 0, lag)] + Burst(ip, 0, cfg.limit - 1)
  }

  /** And one more request one window length and `lag` later. */
  function LastRequest(cfg: Config, ip: string, lag: nat): Request {
    Request(ip, cfg.window + lag, 0)
  }

  lemma SlowExpiryConforms(cfg: Config, ip: string, lag: nat)
    requires cfg.limit > 0 && cfg.window > 0
    ensures var rs := SlowExpiry(cfg, ip, lag) + [LastRequest(cfg, ip, lag)];
      Monotone(rs) && ExpiresWithin(rs, ip, lag) && Conforms(cfg, rs, ip, cfg.window + lag)
  {
    var first, rs, last := Request(ip, 0, lag), SlowExpiry(cfg, ip, lag), LastRequest(cfg, ip, lag);
    var length := cfg.window + lag;
    forall from
      ensures ArrivedFor(rs + [last], ip, from, length) <= cfg.limit
    {
      var to := from + length;
      ArrivedAppend([], first, ip, from, to);
      ArrivedBurst([first], ip, 0, cfg.limit - 1, from, to);
      ArrivedAppend(rs, last, ip, from, to);
      assert [] + [first] == [first];
    }
  }

  /**
   No shorter interval will do: for every delay of EXPIRE, none included, a client that keeps the limit in every interval
   just one millisecond shorter has a request refused.
   */
  lemma ShorterIsRefused(cfg: Config, ip: string, lag: nat)
    requires cfg.limit > 0 && cfg.window > 0
    ensures var rs, last := SlowExpiry(cfg, ip, lag), LastRequest(cfg, ip, lag);
      && Monotone(rs + [last]) && ExpiresWithin(rs + [last], ip, lag)
      && Conforms(cfg, rs + [last], ip, cfg.window + lag)
      && !Allows(cfg, Run(cfg, rs), last)
  {
    var first := Request(ip, 0, lag);
    SlowExpiryConforms(cfg, ip, lag);
    OpensWindow(cfg, [], first, 0, 1);
    assert [] + [first] == [first];
    hide Run, Admitted, Monotone, ExpiresWithin, Conforms;
    BurstIsAdmitted(cfg, [first], ip, 0, cfg.limit - 1, 0, 1);
  }

  // ---------- Addresses do not affect each other ----------

  function Only(rs: seq<Request>, ip: string): seq<Request> {
    if rs == [] then [] else
    Only(rs[..|rs| - 1], ip) + if rs[|rs| - 1].ip == ip then [rs[|rs| - 1]] else []
  }

  /** The requests of other addresses change nothing for `ip`. */
  lemma {:induction false} Isolation(cfg: Config, rs: seq<Request>, ip: string, from: int, to: int)
    ensures var all, own := Run(cfg, rs), Run(cfg, Only(rs, ip));
      && (ip in all <==> ip in own) && (ip in all ==> all[ip] == own[ip])
      && Admitted(cfg, rs, ip, from, to) == Admitted(cfg, Only(rs, ip), ip, from, to)
  {
    if rs != [] {
      var init, r := rs[..|rs| - 1], rs[|rs| - 1];
      Isolation(cfg, init, ip, from, to);
      var own := Only(rs, ip);
      if r.ip == ip {
        assert own[..|own| - 1] == Only(init, ip);
      } else {
        assert own == Only(init, ip);
      }
    }
  }
}
