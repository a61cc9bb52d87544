/** The deduplication of app-proxy observations: one POST per key at a time, a cooldown
    after each, and a table of at most 512 keys that never evicts a live one. */
module ProxyObservation {
  import opened Wrappers

  const RETRY_MS: int := 1_000
  const SUCCESS_COOLDOWN_MS: int := 5_000
  const MAX_ATTEMPTS: nat := 512

  /** A promise is known by the number of the POST it stands for. */
  datatype Attempt = Attempt(retryAt: int, inFlight: Option<nat>)

  type Table = map<string, Attempt>

  datatype Post = Post(key: string, at: int)

  /** A POST that came back at `at`. */
  datatype Outcome = Outcome(succeeded: bool, at: int)

  datatype State = State(attempts: Table, posts: seq<Post>, settled: map<nat, Outcome>, clock: int)

  datatype Verdict = Deferred | Joined(post: nat) | Started(post: nat)

  /** A request reads the clock for its sweep and again for the cooldown. */
  datatype Action = Observe(key: string, now: int, later: int) | Settle(post: nat, succeeded: bool, now: int)

  function Cooldown(succeeded: bool): int {
    if succeeded then SUCCESS_COOLDOWN_MS else RETRY_MS
  }

  // -------------------------------------------------------------- the stretches

  function Sweep(attempts: Table, now: int): Table {
    map key | key in attempts && (attempts[key].inFlight.Some? || attempts[key].retryAt > now) :: attempts[key]
  }

  /** Everything up to the POST; a retry time of zero reads as none. */
  function Decide(attempts: Table, key: string, later: int, next: nat): (Verdict, Table) {
    if key in attempts && attempts[key].retryAt != 0 && attempts[key].retryAt > later then (Deferred, attempts)
    else if key in attempts && attempts[key].inFlight.Some? then (Joined(attempts[key].inFlight.value), attempts)
    else if |attempts| >= MAX_ATTEMPTS then (Deferred, attempts)
    else (Started(next), attempts[key := Attempt(0, Some(next))])
  }

  function Settled(attempts: Table, key: string, post: nat, succeeded: bool, now: int): Table {
    if key in attempts && attempts[key].inFlight == Some(post)
    then attempts[key := Attempt(now + Cooldown(succeeded), None)]
    else attempts
  }

  function Next(s: State, a: Action): State {
    match a
    case Observe(key, now, later) =>
      if !(s.clock <= now <= later) then s
      else
        var (verdict, attempts) := Decide(Sweep(s.attempts, now), key, later, |s.posts|);
        s.(attempts := attempts, clock := later,
           posts := if verdict.Started? then s.posts + [Post(key, later)] else s.posts)
    case Settle(post, succeeded, now) =>
      if post >= |s.posts| || post in s.settled || now < s.clock then s
      else
        s.(attempts := Settled(s.attempts, s.posts[post].key, post, succeeded, now), clock := now,
           settled := s.settled[post := Outcome(succeeded, now)])
  }

  function Run(s: State, actions: seq<Action>): State
    decreases |actions|
  {
    if actions == [] then s else Run(Next(s, actions[0]), actions[1..])
  }

  function Empty(): State {
    State(map[], [], map[], 0)
  }

  // ----------------------------------------------------------------- the object

  class Observations {
    var attempts: Table

    constructor ()
      ensures attempts == map[]
    {
      attempts := map[];
    }

    /** The stretch up to the POST, sweep included. */
    method Observe(key: string, now: int, later: int, next: nat) returns (verdict: Verdict)
      modifies this
      ensures (verdict, attempts) == Decide(Sweep(old(attempts), now), key, later, next)
    {
      var left := attempts.Keys;
      ghost var before := attempts;
      while left != {}
        invariant left <= before.Keys
        invariant forall k :: k in left ==> k in attempts && attempts[k] == before[k]
        invariant forall k :: k in before.Keys - left ==>
                    (k in attempts <==> before[k].inFlight.Some? || before[k].retryAt > now)
        invariant forall k :: k in attempts ==> k in before && attempts[k] == before[k]
        decreases left
      {
        var k :| k in left;
        if attempts[k].inFlight.None? && attempts[k].retryAt <= now { attempts := attempts - {k}; }
        left := left - {k};
      }
      assert attempts == Sweep(before, now);
      if key in attempts {
        var existing := attempts[key];
        if existing.retryAt != 0 && existing.retryAt > later { return Deferred; }
        if existing.inFlight.Some? { return Joined(existing.inFlight.value); }
      }
      if |attempts| >= MAX_ATTEMPTS { return Deferred; }
      attempts := attempts[key := Attempt(0, Some(next))];
      return Started(next);
    }

    /** The handlers of the promise. */
    method Settle(key: string, post: nat, succeeded: bool, now: int)
      modifies this
      ensures attempts == Settled(old(attempts), key, post, succeeded, now)
    {
      if key in attempts && attempts[key].inFlight == Some(post) {
        attempts := attempts[key := Attempt(now + (if succeeded then SUCCESS_COOLDOWN_MS else RETRY_MS), None)];
      }
    }
  }

  // -------------------------------------------------------------- the invariant

  function Until(o: Outcome): int {
    o.at + Cooldown(o.succeeded)
  }

  /** A POST under way has the entry of its key; a settled one has it until its cooldown
      is over. */
  predicate PostOk(s: State, t: nat)
    requires t < |s.posts|
  {
    var key := s.posts[t].key;
    if t in s.settled
    then
      || Until(s.settled[t]) <= s.clock
      || (key in s.attempts && s.attempts[key] == Attempt(Until(s.settled[t]), None))
    else key in s.attempts && s.attempts[key] == Attempt(0, Some(t))
  }

  /** An entry is there for a POST of its key, under way or cooling down. */
  predicate EntryOk(s: State, key: string)
    requires key in s.attempts
  {
    match s.attempts[key].inFlight
    case Some(t) => s.attempts[key].retryAt == 0 && t < |s.posts| && t !in s.settled && s.posts[t].key == key
    case None =>
      && s.attempts[key].retryAt > 0
      && exists t ::
           t in s.settled && t < |s.posts| && s.posts[t].key == key
           && s.attempts[key].retryAt == Until(s.settled[t])
  }

  predicate Spaced(s: State, i: nat, j: nat)
    requires i < j < |s.posts|
  {
    s.posts[i].key == s.posts[j].key ==> i in s.settled && Until(s.settled[i]) <= s.posts[j].at
  }

  predicate Inv(s: State) {
    && s.clock >= 0 && |s.attempts| <= MAX_ATTEMPTS
    && (forall t :: t in s.settled ==> t < |s.posts| && 0 <= s.settled[t].at <= s.clock)
    && (forall t :: 0 <= t < |s.posts| ==> PostOk(s, t))
    && (forall key :: key in s.attempts ==> EntryOk(s, key))
    && (forall i, j :: 0 <= i < j < |s.posts| ==> Spaced(s, i, j))
  }

  lemma SweepShrinks(attempts: Table, now: int)
    ensures |Sweep(attempts, now)| <= |attempts|
  {
    assert Sweep(attempts, now).Keys <= attempts.Keys;
    SmallerSet(Sweep(attempts, now).Keys, attempts.Keys);
  }

  lemma {:induction false} SmallerSet(a: set<string>, b: set<string>)
    requires a <= b
    ensures |a| <= |b|
  {
    if a != {} {
      var x :| x in a;
      SmallerSet(a - {x}, b - {x});
    }
  }

  /** Sweeping and waiting keep all that is live. */
  lemma SweepKeeps(s: State, now: int, later: int)
    requires Inv(s) && s.clock <= now <= later
    ensures Inv(s.(attempts := Sweep(s.attempts, now), clock := later))
  {
    SweepShrinks(s.attempts, now);
    var t := s.(attempts := Sweep(s.attempts, now), clock := later);
    forall p | 0 <= p < |s.posts| ensures PostOk(t, p) { assert PostOk(s, p); }
    forall key | key in t.attempts ensures EntryOk(t, key) { assert EntryOk(s, key); }
    forall i, j | 0 <= i < j < |s.posts| ensures Spaced(t, i, j) { assert Spaced(s, i, j); }
  }

  /** The verdict in terms of the POSTs themselves: a new one starts exactly if none of
      its key is under way or cooling down and the table has room. */
  predicate MayStart(s: State, key: string, later: int) {
    forall t :: 0 <= t < |s.posts| && s.posts[t].key == key ==> t in s.settled && Until(s.settled[t]) <= later
  }

  lemma DecisionIsExact(s: State, key: string, now: int, later: int)
    requires Inv(s) && s.clock <= now <= later
    ensures
      var swept := Sweep(s.attempts, now);
      Decide(swept, key, later, |s.posts|).0.Started? <==> MayStart(s, key, later) && |swept| < MAX_ATTEMPTS
  {
    SweepKeeps(s, now, later);
    var t := s.(attempts := Sweep(s.attempts, now), clock := later);
    if MayStart(s, key, later) && key in t.attempts { assert EntryOk(t, key); }
    forall p | 0 <= p < |s.posts| && s.posts[p].key == key ensures PostOk(t, p) {}
  }

  lemma StartKeeps(s: State, key: string)
    requires Inv(s) && MayStart(s, key, s.clock) && |s.attempts| < MAX_ATTEMPTS
    ensures Inv(s.(attempts := s.attempts[key := Attempt(0, Some(|s.posts|))], posts := s.posts + [Post(key, s.clock)]))
  {
    var t := s.(attempts := s.attempts[key := Attempt(0, Some(|s.posts|))], posts := s.posts + [Post(key, s.clock)]);
    forall p | 0 <= p < |t.posts| ensures PostOk(t, p) {
      if p < |s.posts| { assert PostOk(s, p); }
    }
    forall k | k in t.attempts ensures EntryOk(t, k) {
      if k != key { assert EntryOk(s, k); }
    }
    forall i, j | 0 <= i < j < |t.posts| ensures Spaced(t, i, j) {
      if j < |s.posts| { assert Spaced(s, i, j); }
    }
  }

  lemma SettleKeeps(s: State, post: nat, succeeded: bool, now: int)
    requires Inv(s) && post < |s.posts| && post !in s.settled && s.clock <= now
    ensures Inv(Next(s, Settle(post, succeeded, now)))
    ensures s.posts[post].key in s.attempts && s.attempts[s.posts[post].key].inFlight == Some(post)
  {
    var t := Next(s, Settle(post, succeeded, now));
    assert PostOk(s, post);
    assert t.settled[post] == Outcome(succeeded, now);
    forall p | 0 <= p < |s.posts| ensures PostOk(t, p) {
      assert PostOk(s, p);
    }
    forall k | k in t.attempts ensures EntryOk(t, k) {
      assert EntryOk(s, k);
      if s.attempts[k].inFlight.None? {
        var q :| q in s.settled && q < |s.posts| && s.posts[q].key == k && s.attempts[k].retryAt == Until(s.settled[q]);
        assert t.settled[q] == s.settled[q];
      }
    }
    forall i, j | 0 <= i < j < |s.posts| ensures Spaced(t, i, j) { assert Spaced(s, i, j); }
  }

  lemma NextKeeps(s: State, a: Action)
    requires Inv(s)
    ensures Inv(Next(s, a))
  {
    match a {
      case Observe(key, now, later) =>
        if s.clock <= now <= later {
          SweepKeeps(s, now, later);
          DecisionIsExact(s, key, now, later);
          var swept := s.(attempts := Sweep(s.attempts, now), clock := later);
          if MayStart(swept, key, later) && |swept.attempts| < MAX_ATTEMPTS { StartKeeps(swept, key); }
        }
      case Settle(post, succeeded, now) =>
        if post < |s.posts| && post !in s.settled && s.clock <= now { SettleKeeps(s, post, succeeded, now); }
    }
    hide Inv;
  }

  lemma {:induction false} RunKeeps(s: State, actions: seq<Action>)
    requires Inv(s)
    ensures Inv(Run(s, actions))
    decreases |actions|
  {
    hide Inv, Next;
    if actions != [] {
      NextKeeps(s, actions[0]);
      RunKeeps(Next(s, actions[0]), actions[1..]);
    }
  }

  lemma ReachedKeeps(actions: seq<Action>)
    ensures Inv(Run(Empty(), actions))
  {
    RunKeeps(Empty(), actions);
  }

  // --------------------------------------------------------------------- promises

  lemma TableIsBounded(actions: seq<Action>)
    ensures |Run(Empty(), actions).attempts| <= MAX_ATTEMPTS
  {
    ReachedKeeps(actions);
  }

  /** A POST under way keeps its entry: it is neither swept nor overwritten, and no other
      POST of its key is under way. */
  lemma OutstandingPostIsKept(actions: seq<Action>, t: nat)
    requires t < |Run(Empty(), actions).posts| && t !in Run(Empty(), actions).settled
    ensures
      var s := Run(Empty(), actions);
      && s.posts[t].key in s.attempts && s.attempts[s.posts[t].key].inFlight == Some(t)
      && forall u :: 0 <= u < |s.posts| && u != t && s.posts[u].key == s.posts[t].key ==> u in s.settled
  {
    ReachedKeeps(actions);
    var s := Run(Empty(), actions);
    assert PostOk(s, t);
    forall u | 0 <= u < |s.posts| && u != t && s.posts[u].key == s.posts[t].key
      ensures u in s.settled { assert PostOk(s, u); }
  }

  /** Between two POSTs of a key, the first has come back, and 5 s have passed since if it
      succeeded or 1 s if it failed. */
  lemma PostsAreSpaced(actions: seq<Action>, i: nat, j: nat)
    requires i < j < |Run(Empty(), actions).posts|
    requires Run(Empty(), actions).posts[i].key == Run(Empty(), actions).posts[j].key
    ensures
      var s := Run(Empty(), actions);
      i in s.settled && s.posts[j].at >= s.settled[i].at + (if s.settled[i].succeeded then 5_000 else 1_000)
  {
    ReachedKeeps(actions);
    assert Spaced(Run(Empty(), actions), i, j);
  }

  /** And no request is deferred without reason: it starts a POST exactly when those
      rules allow one and the swept table has room. */
  lemma DeferredOnlyForReason(actions: seq<Action>, key: string, now: int, later: int)
    requires Run(Empty(), actions).clock <= now <= later
    ensures
      var s := Run(Empty(), actions);
      var d := Next(s, Observe(key, now, later));
      |d.posts| == |s.posts| + 1 <==> MayStart(s, key, later) && |Sweep(s.attempts, now)| < MAX_ATTEMPTS
  {
    ReachedKeeps(actions);
    DecisionIsExact(Run(Empty(), actions), key, now, later);
  }
}
