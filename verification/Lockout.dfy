/**
 The login lockout (backend/app/api/v1/auth.py, backend/app/models/user.py) over any serial history of logins and
 password resets of one account. Times are microseconds, the resolution of the clock the source reads.
 */
module Lockout {
  import opened Integers
  import opened Options

  const LOCKOUT_ATTEMPTS := 5
  const LOCKOUT := 15 * 60 * 1_000_000

  datatype Account = Account(failedLoginAttempts: nat, lockedUntil: Option<int>)

  const NewAccount := Account(0, None)

  /**
   A login reads the clock when it checks the lock and, after the password hash was checked, again when it sets it.
   An account without a password fails every check.
   */
  datatype Event =
    | Login(check: int, decide: int, passwordOk: bool)
    | ResetPassword(time: int)

  datatype Outcome = Locked | Refused | Accepted | Done

  // ---------- The code ----------

  /** User.is_locked. */
  predicate IsLocked(a: Account, now: int) {
    a.lockedUntil.Some? && now < a.lockedUntil.value
  }

  function Decide(a: Account, e: Event): Outcome {
    match e
    case Login(check, _, ok) => if IsLocked(a, check) then Locked else if ok then Accepted else Refused
    case ResetPassword(_) => Done
  }

  function Step(a: Account, e: Event): Account {
    match Decide(a, e)
    case Locked => a
    case Refused =>
      var n := a.failedLoginAttempts + 1;
      Account(n, if n >= LOCKOUT_ATTEMPTS then Some(e.decide + LOCKOUT) else a.lockedUntil)
    case _ => NewAccount
  }

  function Run(h: seq<Event>): Account {
    if h == [] then NewAccount else Step(Run(h[..|h| - 1]), h[|h| - 1])
  }

  class User {
    var failedLoginAttempts: nat
    var lockedUntil: Option<int>

    ghost function View(): Account
      reads this
    {
      Account(failedLoginAttempts, lockedUntil)
    }

    constructor ()
      ensures View() == NewAccount
    {
      failedLoginAttempts, lockedUntil := 0, None;
    }

    method Login(check: int, decide: int, passwordOk: bool) returns (outcome: Outcome)
      modifies this
      ensures View() == Step(old(View()), Event.Login(check, decide, passwordOk))
      ensures outcome == Decide(old(View()), Event.Login(check, decide, passwordOk))
    {
      if lockedUntil.Some? && check < lockedUntil.value {
        return Locked;
      }
      if !passwordOk {
        failedLoginAttempts := failedLoginAttempts + 1;
        if failedLoginAttempts >= LOCKOUT_ATTEMPTS {
          lockedUntil := Some(decide + LOCKOUT);
        }
        return Refused;
      }
      failedLoginAttempts := 0;
      lockedUntil := None;
      return Accepted;
    }

    method Reset(time: int)
      modifies this
      ensures View() == Step(old(View()), ResetPassword(time))
    {
      failedLoginAttempts := 0;
      lockedUntil := None;
    }
  }

  // ---------- Histories ----------

  function First(e: Event): int {
    if e.Login? then e.check else e.time
  }

  function Last(e: Event): int {
    if e.Login? then e.decide else e.time
  }

  /** One event after the other, by a clock that does not run backwards. */
  predicate Serial(h: seq<Event>) {
    && (forall i :: 0 <= i < |h| ==> First(h[i]) <= Last(h[i]))
    && (forall i, j :: 0 <= i < j < |h| ==> Last(h[i]) <= First(h[j]))
  }

  /** The wrong passwords that were evaluated since the last success or reset. */
  function Guesses(h: seq<Event>): (gs: seq<Event>)
    ensures forall i :: 0 <= i < |gs| ==> gs[i].Login?
  {
    if h == [] then [] else
    var init, e := h[..|h| - 1], h[|h| - 1];
    match Decide(Run(init), e)
    case Locked => Guesses(init)
    case Refused => Guesses(init) + [e]
    case _ => []
  }

  /** In every reachable state the two fields are what the history of guesses says they are. */
  lemma {:induction false} FieldsFromHistory(h: seq<Event>)
    ensures var a, gs := Run(h), Guesses(h);
      && a.failedLoginAttempts == |gs|
      && a.lockedUntil == if |gs| >= LOCKOUT_ATTEMPTS then Some(gs[|gs| - 1].decide + LOCKOUT) else None
  {
    if h != [] {
      FieldsFromHistory(h[..|h| - 1]);
    }
  }

  /**
   A login is turned away unread exactly when five or more wrong passwords were evaluated since the last success or
   reset, the latest of them less than fifteen minutes ago.
   */
  lemma LockedIff(h: seq<Event>, e: Event)
    requires e.Login?
    ensures var gs := Guesses(h);
      Decide(Run(h), e) == Locked <==> |gs| >= 5 && e.check < gs[|gs| - 1].decide + 15 * 60 * 1_000_000
  {
    FieldsFromHistory(h);
  }

  lemma {:induction false} GuessesPrecede(h: seq<Event>)
    requires Serial(h)
    ensures h == [] ==> Guesses(h) == []
    ensures forall k :: 0 <= k < |Guesses(h)| ==>
      Guesses(h)[k].check <= Guesses(h)[k].decide <= Last(h[|h| - 1])
  {
    if h != [] {
      var init, e := h[..|h| - 1], h[|h| - 1];
      GuessesPrecede(init);
      assert First(e) <= Last(e);
      forall k | 0 <= k < |Guesses(init)|
        ensures Guesses(init)[k].decide <= Last(e)
      {
        assert init[|init| - 1] == h[|h| - 2] && Last(h[|h| - 2]) <= First(e);
      }
    }
  }

  /** From the fifth guess on, each waits out the lock set by the one before. */
  lemma {:induction false} GuessesAreSpaced(h: seq<Event>)
    requires Serial(h)
    ensures var gs := Guesses(h); forall k :: 0 < k < |gs| ==>
      gs[k].check >= gs[k - 1].decide + if k >= LOCKOUT_ATTEMPTS then LOCKOUT else 0
  {
    if h != [] {
      var init := h[..|h| - 1];
      GuessesAreSpaced(init);
      GuessesPrecede(init);
      FieldsFromHistory(init);
      assert init != [] ==> init[|init| - 1] == h[|h| - 2] && Last(h[|h| - 2]) <= First(h[|h| - 1]);
    }
  }

  /**
   Throughput over any serial history: guess number j and guess number i of one run of failures are at least fifteen
   minutes apart for every guess between them beyond the fifth, so n guesses take 15 (n - 5) minutes after the fifth.
   */
  lemma {:induction false} GuessingThroughput(h: seq<Event>, i: nat, j: nat)
    requires Serial(h) && i <= j < |Guesses(h)|
    ensures var gs := Guesses(h);
      gs[j].check - gs[i].check >= LOCKOUT * Max(0, j - Max(i, LOCKOUT_ATTEMPTS - 1))
    decreases j
  {
    if i < j {
      var gs := Guesses(h);
      GuessingThroughput(h, i, j - 1);
      GuessesAreSpaced(h);
      GuessesPrecede(h);
      assert gs[j].check >= gs[j - 1].check + if j >= LOCKOUT_ATTEMPTS then LOCKOUT else 0;
      var n := Max(0, j - 1 - Max(i, LOCKOUT_ATTEMPTS - 1));
      assert LOCKOUT * (n + 1) == LOCKOUT * n + LOCKOUT;
    }
  }

  /** Fifteen minutes after the last event of the account the right password is accepted. */
  lemma OwnerGetsIn(h: seq<Event>, check: int, decide: int)
    requires Serial(h) && forall k :: 0 <= k < |h| ==> check >= Last(h[k]) + LOCKOUT
    ensures Decide(Run(h), Login(check, decide, true)) == Accepted
    ensures Run(h + [Login(check, decide, true)]) == NewAccount
  {
    var e := Login(check, decide, true);
    FieldsFromHistory(h);
    var gs := Guesses(h);
    GuessesPrecede(h);
    assert (h + [e])[..|h + [e]| - 1] == h;
  }

  // ---------- The fastest guesser ----------

  /** Five guesses at once, and then one at each moment the lock ends. */
  function GuessTime(k: nat): int {
    LOCKOUT * Max(0, k - (LOCKOUT_ATTEMPTS - 1))
  }

  function Guess(k: nat): Event {
    Login(GuessTime(k), GuessTime(k), false)
  }

  function Attack(n: nat): seq<Event> {
    seq(n, k requires 0 <= k < n => Guess(k))
  }

  lemma GuessTimeIsMonotone(j: nat, k: nat)
    requires j <= k
    ensures GuessTime(j) <= GuessTime(k)
  {
  }

  /** Once the lock is set, each guess comes as it ends. */
  lemma NextGuessTime(k: nat)
    requires k >= LOCKOUT_ATTEMPTS
    ensures GuessTime(k) == GuessTime(k - 1) + LOCKOUT
  {
  }

  lemma AttackIsSerial(n: nat)
    ensures Serial(Attack(n))
  {
    hide GuessTime;
    forall i, j | 0 <= i < j < n
      ensures Last(Attack(n)[i]) <= First(Attack(n)[j])
    {
      GuessTimeIsMonotone(i, j);
    }
  }

  lemma GuessesAppend(h: seq<Event>, e: Event)
    requires Decide(Run(h), e) == Refused
    ensures Guesses(h + [e]) == Guesses(h) + [e]
  {
    hide Run, Decide;
    assert (h + [e])[..|h + [e]| - 1] == h;
  }

  /** The next of these guesses is not turned away. */
  lemma NextIsEvaluated(n: nat)
    requires Guesses(Attack(n)) == Attack(n)
    ensures Decide(Run(Attack(n)), Guess(n)) == Refused
  {
    assert LOCKOUT == 15 * 60 * 1_000_000;
    hide Run, Guesses, GuessTime, LOCKOUT;
    LockedIff(Attack(n), Guess(n));
    if n >= LOCKOUT_ATTEMPTS {
      NextGuessTime(n);
    }
  }

  /** Every one of these guesses is evaluated. */
  lemma {:induction false} AttackIsEvaluated(n: nat)
    ensures Guesses(Attack(n)) == Attack(n)
  {
    if n > 0 {
      AttackIsEvaluated(n - 1);
      NextIsEvaluated(n - 1);
      hide Guesses, Decide, Guess, Run;
      GuessesAppend(Attack(n - 1), Guess(n - 1));
      assert Attack(n) == Attack(n - 1) + [Guess(n - 1)];
    }
  }

  /** So the bound on the throughput is reached, between any two guesses of a history of any length. */
  lemma ThroughputIsReached(n: nat, i: nat, j: nat)
    requires i <= j < n
    ensures Serial(Attack(n)) && |Guesses(Attack(n))| == n
    ensures var gs := Guesses(Attack(n));
      gs[j].check - gs[i].check == LOCKOUT * Max(0, j - Max(i, LOCKOUT_ATTEMPTS - 1))
  {
    hide Guesses, Serial, Run;
    AttackIsSerial(n);
    AttackIsEvaluated(n);
  }

  /** The number of guesses made by the time `t`. */
  lemma GuessesBy(n: nat, t: int) returns (k: nat)
    requires LOCKOUT_ATTEMPTS <= n && 0 <= t < GuessTime(n - 1) + LOCKOUT
    ensures LOCKOUT_ATTEMPTS <= k <= n && k == LOCKOUT_ATTEMPTS + t / LOCKOUT
    ensures GuessTime(k - 1) <= t < GuessTime(k - 1) + LOCKOUT && (k < n ==> t < GuessTime(k))
  {
    k := LOCKOUT_ATTEMPTS + t / LOCKOUT;
  }

  lemma LockedMeanwhile(k: nat, t: int, decide: int)
    requires k >= LOCKOUT_ATTEMPTS && t < GuessTime(k - 1) + LOCKOUT
    ensures Decide(Run(Attack(k)), Login(t, decide, true)) == Locked
  {
    assert LOCKOUT == 15 * 60 * 1_000_000;
    hide Guesses, Run, GuessTime, LOCKOUT, Decide;
    AttackIsEvaluated(k);
    LockedIff(Attack(k), Login(t, decide, true));
  }

  /**
   From the fifth of `n` such guesses until the last lock has ended, there is no moment at which the owner's right password
   is read: at every time `t`, after the guesses made so far, the login is turned away.
   */
  lemma OwnerIsShutOut(n: nat, t: int, decide: int)
    requires LOCKOUT_ATTEMPTS <= n && 0 <= t < GuessTime(n - 1) + LOCKOUT
    ensures var k := LOCKOUT_ATTEMPTS + t / LOCKOUT;
      && k <= n && GuessTime(k - 1) <= t && (k < n ==> t < GuessTime(k))
      && Decide(Run(Attack(n)[..k]), Login(t, decide, true)) == Locked
  {
    hide Guesses, Run, GuessTime, LOCKOUT, Decide;
    var k := GuessesBy(n, t);
    assert Attack(n)[..k] == Attack(k);
    LockedMeanwhile(k, t, decide);
  }
}
