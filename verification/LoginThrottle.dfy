/** Counting login attempts before judging them: shared counters with a fixed window, taken and given back concurrently. */
module LoginThrottles {
  import opened Wrappers
  import opened Sums

  datatype Key = AccountKey(account: nat) | IpKey(ip: nat)

  /** A stored counter; without an expiry it would never go away. */
  datatype Counter = Counter(value: int, expiresAt: Option<int>)

  type Counters = map<Key, Counter>

  /** Windows are configured in whole seconds, a minute or more. */
  type Seconds = s: int | 60 <= s witness 60

  // --- One transaction ------------------------------------------------------

  predicate IsLive(c: Counter, now: int) {
    c.expiresAt.Some? ==> now < c.expiresAt.value
  }

  /** What a command sees: an expired key is gone. */
  function Seen(counters: Counters, key: Key, now: int): Option<Counter> {
    if key in counters && IsLive(counters[key], now) then Some(counters[key]) else None
  }

  /** `INCR` or `DECR` together with `EXPIRE ... NX`: only a key without an expiry gets one. */
  function Transacted(seen: Option<Counter>, delta: int, window: Seconds, now: int): (c: Counter)
    ensures c.expiresAt.Some?
  {
    var value := (if seen.Some? then seen.value.value else 0) + delta;
    if seen.Some? && seen.value.expiresAt.Some? then Counter(value, seen.value.expiresAt)
    else Counter(value, Some(now + window))
  }

  datatype Limits = Limits(account: int, ip: int, accountWindow: Seconds, ipWindow: Seconds)

  /** What an attempt is told: unavailable counters refuse, then the account, then the address. */
  function Verdict(limits: Limits, healthy: bool, account: int, ip: Option<int>): Result<()> {
    if !healthy then Err(Unavailable)
    else if account > limits.account then Err(RateLimited)
    else if ip.Some? && ip.value > limits.ip then Err(RateLimited)
    else Ok(())
  }

  class LoginThrottle {
    var counters: Counters

    constructor ()
      ensures counters == map[]
    {
      counters := map[];
    }

    method Transact(key: Key, delta: int, window: Seconds, now: int) returns (value: int)
      modifies this
      ensures counters == old(counters)[key := Transacted(Seen(old(counters), key, now), delta, window, now)]
      ensures value == counters[key].value
    {
      var value', expiry := delta, None;
      if key in counters && IsLive(counters[key], now) {
        value' := counters[key].value + delta;
        expiry := counters[key].expiresAt;
      }
      if expiry.None? {
        expiry := Some(now + window);
      }
      counters := counters[key := Counter(value', expiry)];
      value := value';
    }

    /**
     Takes a place in both counters first and judges afterwards. The two transactions are issued
     together: one that ran stays counted even when the other could not.
     */
    method ReserveAttempt(account: nat, ip: Option<nat>, limits: Limits, accountRuns: bool, ipRuns: bool, now: int)
      returns (answer: Result<()>)
      modifies this
      ensures counters == Reserved(old(counters), account, ip, limits, accountRuns, ipRuns, now)
      ensures answer == Answer(old(counters), account, ip, limits, accountRuns, ipRuns, now)
    {
      var accountAttempts, ipAttempts := 0, 0;
      if accountRuns {
        accountAttempts := Transact(AccountKey(account), 1, limits.accountWindow, now);
      }
      if ip.Some? && ipRuns {
        ipAttempts := Transact(IpKey(ip.value), 1, limits.ipWindow, now);
      }
      if !accountRuns || (ip.Some? && !ipRuns) {
        return Err(Unavailable);
      }
      if accountAttempts > limits.account {
        return Err(RateLimited);
      }
      if ip.Some? && ipAttempts > limits.ip {
        return Err(RateLimited);
      }
      return Ok(());
    }

    /** A proven password clears the account and gives back one place at the address, no more. */
    method ReleaseAttempt(account: nat, ip: Option<nat>, ipWindow: Seconds, accountRuns: bool, ipRuns: bool, now: int)
      modifies this
      ensures var cleared := if accountRuns then old(counters) - {AccountKey(account)} else old(counters);
              counters == if ip.Some? && ipRuns then Counted(cleared, IpKey(ip.value), -1, ipWindow, now) else cleared
    {
      if accountRuns {
        counters := counters - {AccountKey(account)};
      }
      if ip.Some? && ipRuns {
        var left := Transact(IpKey(ip.value), -1, ipWindow, now);
      }
    }
  }

  function Counted(counters: Counters, key: Key, delta: int, window: Seconds, now: int): Counters {
    counters[key := Transacted(Seen(counters, key, now), delta, window, now)]
  }

  function Reserved(
    counters: Counters, account: nat, ip: Option<nat>, limits: Limits, accountRuns: bool, ipRuns: bool, now: int): Counters
  {
    var first := if accountRuns then Counted(counters, AccountKey(account), 1, limits.accountWindow, now) else counters;
    if ip.Some? && ipRuns then Counted(first, IpKey(ip.value), 1, limits.ipWindow, now) else first
  }

  /** What the service tells the attempt. */
  function Answer(
    counters: Counters, account: nat, ip: Option<nat>, limits: Limits, accountRuns: bool, ipRuns: bool, now: int): Result<()>
  {
    var after := Reserved(counters, account, ip, limits, accountRuns, ipRuns, now);
    Verdict(limits, accountRuns && (ip.Some? ==> ipRuns),
            if accountRuns then after[AccountKey(account)].value else 0,
            if ip.Some? && ipRuns then Some(after[IpKey(ip.value)].value) else None)
  }

  /** Counters that could not be moved refuse the attempt, whatever they hold; that is the only reason for this answer. */
  lemma OutagesRefuse(
    counters: Counters, account: nat, ip: Option<nat>, limits: Limits, accountRuns: bool, ipRuns: bool, now: int)
    ensures Answer(counters, account, ip, limits, accountRuns, ipRuns, now) == Err(Unavailable)
            <==> !accountRuns || (ip.Some? && !ipRuns)
  {
  }

  /** Which counters an attempt moves, and by how much; no other key is touched, and none is left without an expiry. */
  lemma ReservingTakesOnePlaceEach(counters: Counters, account: nat, ip: nat, limits: Limits, now: int, key: Key)
    requires forall k | k in counters :: counters[k].expiresAt.Some?
    ensures var after := Reserved(counters, account, Some(ip), limits, true, true, now);
            && (key == AccountKey(account) || key == IpKey(ip) ==>
                  && key in after
                  && after[key].value == 1 + (if Seen(counters, key, now).Some? then counters[key].value else 0)
                  && (Seen(counters, key, now).Some? ==> after[key].expiresAt == counters[key].expiresAt))
            && (key != AccountKey(account) && key != IpKey(ip) ==>
                  (key in after <==> key in counters) && (key in counters ==> after[key] == counters[key]))
            && (forall k | k in after :: after[k].expiresAt.Some?)
  {
  }

  /** Reserving and releasing inside one window leaves the address as if the attempt had not been made. */
  lemma ReleaseUndoesReserve(counters: Counters, key: Key, window: Seconds, window': Seconds, now: int, later: int)
    requires Seen(counters, key, now).Some? && counters[key].expiresAt.Some? && now <= later
    ensures var reserved := counters[key := Transacted(Seen(counters, key, now), 1, window, now)];
            var released := reserved[key := Transacted(Seen(reserved, key, later), -1, window', later)];
            released == counters <==> later < counters[key].expiresAt.value
  {
  }

  // --- Many attempts at one address -----------------------------------------

  /** What happened since the counter was last created. */
  datatype Tally = Tally(attempts: nat, admitted: nat, released: nat, releasedLate: nat, ceiling: int)

  /** A place taken: in which window, and whether the service let the attempt through. */
  datatype Place = Place(window: nat, admitted: bool, givenBack: bool)

  datatype Address = Address(now: int, counter: Option<Counter>, window: nat, tally: Tally, places: map<nat, Place>)

  const NO_TALLY := Tally(0, 0, 0, 0, 0)
  const QUIET_ADDRESS := Address(0, None, 0, NO_TALLY, map[])

  datatype Event =
    | Pass(elapsed: nat)
    | Reserve(attempt: nat, healthy: bool, accountAttempts: int, limits: Limits)
    | Release(attempt: nat, window: Seconds)

  function SeenAt(s: Address): Option<Counter> {
    if s.counter.Some? && IsLive(s.counter.value, s.now) then s.counter else None
  }

  /** The tally a transaction adds to: a transaction on a key that is gone opens a new window. */
  function Opened(s: Address): Address {
    if SeenAt(s).Some? then s else s.(counter := None, window := s.window + 1, tally := NO_TALLY)
  }

  predicate Enabled(s: Address, e: Event) {
    match e
    case Pass(_) => true
    case Reserve(a, _, _, _) => a !in s.places
    case Release(a, _) => a in s.places && s.places[a].admitted && !s.places[a].givenBack
  }

  function Apply(s: Address, e: Event): Address
    requires Enabled(s, e)
  {
    match e
    case Pass(elapsed) => s.(now := s.now + elapsed)
    case Reserve(a, healthy, accountAttempts, limits) =>
      var o := Opened(s);
      var c := Transacted(SeenAt(s), 1, limits.ipWindow, s.now);
      var admitted := Verdict(limits, healthy, accountAttempts, Some(c.value)).Ok?;
      var t := o.tally.(attempts := o.tally.attempts + 1,
                        admitted := o.tally.admitted + (if admitted then 1 else 0),
                        ceiling := if o.tally.ceiling < limits.ip then limits.ip else o.tally.ceiling);
      o.(counter := Some(c), tally := t, places := s.places[a := Place(o.window, admitted, false)])
    case Release(a, window) =>
      var o := Opened(s);
      var c := Transacted(SeenAt(s), -1, window, s.now);
      var own := s.places[a].window == o.window;
      var t := o.tally.(released := o.tally.released + (if own then 1 else 0),
                        releasedLate := o.tally.releasedLate + (if own then 0 else 1));
      o.(counter := Some(c), tally := t, places := s.places[a := s.places[a].(givenBack := true)])
  }

  function Next(s: Address, e: Event): Address {
    if Enabled(s, e) then Apply(s, e) else s
  }

  function Reached(es: seq<Event>): Address {
    if es == [] then QUIET_ADDRESS else Next(Reached(es[..|es| - 1]), es[|es| - 1])
  }

  ghost predicate Inv(s: Address) {
    var t := s.tally;
    && (s.counter.Some? ==> s.counter.value.expiresAt.Some? && s.counter.value.value == t.attempts - t.released - t.releasedLate)
    && (s.counter.None? ==> t == NO_TALLY)
    && t.admitted - t.released <= t.ceiling + t.releasedLate
    && 0 <= t.ceiling && t.admitted <= t.attempts
    && (forall a | a in s.places :: s.places[a].window <= s.window)
  }

  lemma EventKeeps(s: Address, e: Event)
    requires Inv(s) && Enabled(s, e)
    ensures Inv(Apply(s, e))
  {
  }

  lemma {:induction false} EveryRun(es: seq<Event>)
    ensures Inv(Reached(es))
  {
    if es != [] {
      var n := |es| - 1;
      EveryRun(es[..n]);
      if Enabled(Reached(es[..n]), es[n]) {
        EventKeeps(Reached(es[..n]), es[n]);
      }
    }
  }

  /**
   However attempts interleave: those the counter let through in this window and that have not been
   given back never exceed the highest limit in force by more than the places of earlier windows
   that were given back in this one.
   */
  lemma AdmittedIsBounded(es: seq<Event>)
    ensures var t := Reached(es).tally; t.admitted - t.released <= t.ceiling + t.releasedLate
  {
    EveryRun(es);
  }

  /** Nothing but time passing and fresh attempts judged by one limit, none of them stopped by its account. */
  predicate Burst(es: seq<Event>, limit: nat) {
    forall i | 0 <= i < |es| ::
      es[i].Pass?
      || (es[i].Reserve? && es[i].healthy && es[i].accountAttempts <= es[i].limits.account && es[i].limits.ip == limit
          && Enabled(Reached(es[..i]), es[i]))
  }

  /** With nothing given back, of n attempts in a window exactly the first `limit` get through. */
  lemma {:induction false} BurstAdmitsExactly(es: seq<Event>, limit: nat)
    requires Burst(es, limit)
    ensures var t := Reached(es).tally;
            && t.admitted == Min(t.attempts, limit) && t.released == t.releasedLate == 0
    ensures Reached(es).counter.Some? ==> Reached(es).counter.value.value == Reached(es).tally.attempts
  {
    if es != [] {
      var n := |es| - 1;
      forall i | 0 <= i < n && !es[i].Pass? ensures Enabled(Reached(es[..n][..i]), es[i]) {
        assert es[..n][..i] == es[..i];
      }
      BurstAdmitsExactly(es[..n], limit);
      EveryRun(es[..n]);
    }
  }

  /** A window's expiry is set when its key appears and never moves: nobody can extend a lockout. */
  lemma {:induction false} ExpiryIsFixed(es: seq<Event>, k: nat)
    requires k <= |es|
    ensures Reached(es[..k]).window <= Reached(es).window
    ensures Reached(es[..k]).window == Reached(es).window ==>
              Reached(es[..k]).counter.Some? ==>
                Reached(es).counter.Some?
                && Reached(es).counter.value.expiresAt == Reached(es[..k]).counter.value.expiresAt
    ensures Reached(es).counter.Some? ==> Reached(es).counter.value.expiresAt.Some?
  {
    EveryRun(es);
    if k < |es| {
      var n := |es| - 1;
      ExpiryIsFixed(es[..n], k);
      EveryRun(es[..n]);
      assert es[..n][..k] == es[..k];
    } else {
      assert es[..k] == es;
    }
  }

  /** An address is never locked out past its window: once enough time has passed the count starts over. */
  lemma WindowsEnd(s: Address, elapsed: nat, attempt: nat, accountAttempts: int, limits: Limits)
    requires accountAttempts <= limits.account && 1 <= limits.ip && attempt !in s.places
    requires s.counter.Some? && s.counter.value.expiresAt.Some? && s.counter.value.expiresAt.value <= s.now + elapsed
    ensures var after := Next(Next(s, Pass(elapsed)), Reserve(attempt, true, accountAttempts, limits));
            && attempt in after.places && after.places[attempt].admitted && after.tally.attempts == 1
            && after.counter.Some? && after.counter.value == Counter(1, Some(s.now + elapsed + limits.ipWindow))
  {
  }

  /** The count an address stands at: nothing once its window is over. */
  function CountAt(s: Address): int {
    if SeenAt(s).Some? then SeenAt(s).value.value else 0
  }

  /**
   An attempt takes one place whether or not it is let through. Only one that was let through gives its
   place back, and once: it then counts as given back in the window it was taken in, or as late.
   */
  lemma PlacesComeBackOnce(s: Address, a: nat, healthy: bool, accountAttempts: int, limits: Limits, elapsed: nat, window: Seconds)
    requires Inv(s) && a !in s.places
    ensures var taken := Next(s, Reserve(a, healthy, accountAttempts, limits));
            var later := Next(taken, Pass(elapsed));
            var back := Next(later, Release(a, window));
            var admitted := healthy && accountAttempts <= limits.account && CountAt(s) + 1 <= limits.ip;
            && CountAt(taken) == CountAt(s) + 1 && later.now == s.now + elapsed
            && (!admitted ==> back == later)
            && (admitted ==>
                  && CountAt(back) == CountAt(later) - 1 && Next(back, Release(a, window)) == back
                  && if SeenAt(later).Some? then back.tally == later.tally.(released := later.tally.released + 1)
                     else back.tally == NO_TALLY.(releasedLate := 1))
  {
  }

  // --- What the service answers ---------------------------------------------

  /** One attempt with working counters. */
  datatype Attempt = Attempt(account: nat, ip: Option<nat>, at: int)

  /** The counters after these attempts, none of them given back. */
  function CountersAfter(counters: Counters, tries: seq<Attempt>, limits: Limits): Counters {
    if tries == [] then counters
    else
      var n := |tries| - 1;
      Reserved(CountersAfter(counters, tries[..n], limits), tries[n].account, tries[n].ip, limits, true, true, tries[n].at)
  }

  /** What the i-th of them is told. */
  function AnswerTo(counters: Counters, tries: seq<Attempt>, limits: Limits, i: nat): Result<()>
    requires i < |tries|
  {
    Answer(CountersAfter(counters, tries[..i], limits), tries[i].account, tries[i].ip, limits, true, true, tries[i].at)
  }

  predicate Takes(t: Attempt, key: Key) {
    key == AccountKey(t.account) || (t.ip.Some? && key == IpKey(t.ip.value))
  }

  /** How many of the attempts took a place in this counter. */
  function Taken(tries: seq<Attempt>, key: Key): nat {
    if tries == [] then 0 else Taken(tries[..|tries| - 1], key) + if Takes(tries[|tries| - 1], key) then 1 else 0
  }

  /** No counter was live at `since`, and the attempts come in order before any window opened since has ended. */
  ghost predicate InOneWindow(counters: Counters, tries: seq<Attempt>, limits: Limits, since: int) {
    && (forall key | key in counters :: !IsLive(counters[key], since))
    && (forall i | 0 <= i < |tries| ::
          since <= tries[i].at < since + limits.accountWindow && tries[i].at < since + limits.ipWindow)
    && (forall i, j | 0 <= i < j < |tries| :: tries[i].at <= tries[j].at)
  }

  function WindowOf(limits: Limits, key: Key): Seconds {
    if key.AccountKey? then limits.accountWindow else limits.ipWindow
  }

  function LimitOf(limits: Limits, key: Key): int {
    if key.AccountKey? then limits.account else limits.ip
  }

  /** The counter holds exactly the places taken, until the window is over. */
  predicate HoldsPlaces(counters: Counters, key: Key, places: nat, limits: Limits, since: int) {
    if places == 0 then key in counters ==> !IsLive(counters[key], since)
    else
      && key in counters && counters[key].value == places
      && counters[key].expiresAt.Some? && since + WindowOf(limits, key) <= counters[key].expiresAt.value
  }

  lemma ReservingHolds(counters: Counters, t: Attempt, limits: Limits, since: int, key: Key, places: nat)
    requires since <= t.at < since + limits.accountWindow && t.at < since + limits.ipWindow
    requires HoldsPlaces(counters, key, places, limits, since)
    ensures HoldsPlaces(Reserved(counters, t.account, t.ip, limits, true, true, t.at), key,
                        places + if Takes(t, key) then 1 else 0, limits, since)
  {
  }

  lemma {:induction false} CountersHoldPlaces(counters: Counters, tries: seq<Attempt>, limits: Limits, since: int, key: Key)
    requires InOneWindow(counters, tries, limits, since)
    ensures HoldsPlaces(CountersAfter(counters, tries, limits), key, Taken(tries, key), limits, since)
  {
    if tries != [] {
      var n := |tries| - 1;
      CountersHoldPlaces(counters, tries[..n], limits, since, key);
      ReservingHolds(CountersAfter(counters, tries[..n], limits), tries[n], limits, since, key, Taken(tries[..n], key));
    }
  }

  /**
   In one window with nothing given back, an attempt is admitted if and only if it is among the first
   `limits.account` of its account and, if its address is known, the first `limits.ip` of its address.
   */
  lemma AdmittedIff(counters: Counters, tries: seq<Attempt>, limits: Limits, since: int, i: nat)
    requires InOneWindow(counters, tries, limits, since) && i < |tries|
    ensures var now := tries[..i + 1];
            && (AnswerTo(counters, tries, limits, i).Ok? <==>
                  Taken(now, AccountKey(tries[i].account)) <= limits.account
                  && (tries[i].ip.Some? ==> Taken(now, IpKey(tries[i].ip.value)) <= limits.ip))
            && (AnswerTo(counters, tries, limits, i).Err? ==> AnswerTo(counters, tries, limits, i).error == RateLimited)
  {
    var t := tries[i];
    assert tries[..i + 1][..i] == tries[..i];
    CountersHoldPlaces(counters, tries[..i], limits, since, AccountKey(t.account));
    if t.ip.Some? {
      CountersHoldPlaces(counters, tries[..i], limits, since, IpKey(t.ip.value));
    }
  }

  function Admitted(counters: Counters, tries: seq<Attempt>, limits: Limits, n: nat): nat
    requires n <= |tries|
  {
    if n == 0 then 0 else Admitted(counters, tries, limits, n - 1) + if AnswerTo(counters, tries, limits, n - 1).Ok? then 1 else 0
  }

  lemma {:induction false} AllTake(tries: seq<Attempt>, key: Key)
    requires forall i | 0 <= i < |tries| :: Takes(tries[i], key)
    ensures Taken(tries, key) == |tries|
  {
    if tries != [] {
      AllTake(tries[..|tries| - 1], key);
    }
  }

  /** Attempts at one counter, none of which another counter stops. */
  ghost predicate OnlyStoppedBy(tries: seq<Attempt>, limits: Limits, key: Key) {
    && (forall i | 0 <= i < |tries| :: Takes(tries[i], key))
    && (forall i, other | 0 <= i < |tries| && Takes(tries[i], other) && other != key ::
          Taken(tries[..i + 1], other) <= LimitOf(limits, other))
  }

  /** Of the attempts at one address, or on one account, exactly the first `limit` are admitted. */
  lemma FirstOnesAreAdmitted(counters: Counters, tries: seq<Attempt>, limits: Limits, since: int, key: Key, i: nat)
    requires InOneWindow(counters, tries, limits, since) && OnlyStoppedBy(tries, limits, key) && i < |tries|
    ensures AnswerTo(counters, tries, limits, i).Ok? <==> i < LimitOf(limits, key)
  {
    var t := tries[i];
    AdmittedIff(counters, tries, limits, since, i);
    AllTake(tries[..i + 1], key);
    forall other | Takes(t, other) && other != key
      ensures Taken(tries[..i + 1], other) <= LimitOf(limits, other)
    {
      assert Takes(tries[i], other);
    }
    assert Takes(tries[i], key);
  }

  /** So of n such attempts exactly min(n, limit) are. */
  lemma {:induction false} NoMoreThanTheLimit(counters: Counters, tries: seq<Attempt>, limits: Limits, since: int, key: Key, n: nat)
    requires InOneWindow(counters, tries, limits, since) && OnlyStoppedBy(tries, limits, key) && n <= |tries|
    requires 0 <= LimitOf(limits, key)
    ensures Admitted(counters, tries, limits, n) == Min(n, LimitOf(limits, key))
  {
    if n > 0 {
      NoMoreThanTheLimit(counters, tries, limits, since, key, n - 1);
      FirstOnesAreAdmitted(counters, tries, limits, since, key, n - 1);
    }
  }
}
