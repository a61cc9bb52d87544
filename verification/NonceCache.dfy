/** The replay check of signed internal requests: a clock-skew window around the signed
    timestamp, and a cache of request identifiers swept by time. */
module NonceCache {
  import opened Wrappers

  const MAX_CLOCK_SKEW_MS: int := 5 * 60 * 1000
  const NONCE_TTL_SECONDS: int := 720
  const LARGEST_SAFE_INTEGER: int := 9_007_199_254_740_991

  /** A request as its headers read. `timestamp` is None when the header is missing or
      is no number that is an integer, `signed` says that the signature covers exactly
      this timestamp, method, path, body and identifier. */
  datatype Request = Request(timestamp: Option<int>, requestId: Option<string>, signed: bool)

  datatype Arrival = Arrival(request: Request, now: int)

  type Cache = map<string, int>

  function Distance(a: int, b: int): nat {
    if a <= b then b - a else a - b
  }

  /** The pattern ^[A-Za-z0-9_-]{1,128}$. */
  predicate IsRequestId(id: string) {
    1 <= |id| <= 128
    && forall i :: 0 <= i < |id| ==>
         'A' <= id[i] <= 'Z' || 'a' <= id[i] <= 'z' || '0' <= id[i] <= '9' || id[i] == '_' || id[i] == '-'
  }

  /** All the checks before the cache; an empty identifier counts as a missing one. */
  predicate Valid(r: Request, now: int, strict: bool) {
    && r.timestamp.Some?
    && (if Named(r) then IsRequestId(r.requestId.value) else !strict)
    && -LARGEST_SAFE_INTEGER <= r.timestamp.value <= LARGEST_SAFE_INTEGER
    && Distance(now, r.timestamp.value) <= MAX_CLOCK_SKEW_MS
    && r.signed
  }

  predicate Named(r: Request) {
    r.requestId.Some? && r.requestId.value != ""
  }

  // ------------------------------------------------------------- the stretches

  function Sweep(cache: Cache, now: int): Cache {
    map id | id in cache && cache[id] > now :: cache[id]
  }

  /** An expiry of zero reads as no expiry at all. */
  function Record(cache: Cache, id: string, now: int, ttlSeconds: int): (bool, Cache) {
    var swept := Sweep(cache, now);
    if id in swept && swept[id] != 0 && swept[id] > now then (false, swept)
    else (true, swept[id := now + ttlSeconds * 1000])
  }

  function Verify(cache: Cache, r: Request, now: int, strict: bool, ttlSeconds: int): (bool, Cache) {
    if !Valid(r, now, strict) then (false, cache)
    else if Named(r) then Record(cache, r.requestId.value, now, ttlSeconds)
    else (true, cache)
  }

  class Verifier {
    var expiries: Cache

    constructor ()
      ensures expiries == map[]
    {
      expiries := map[];
    }

    /** The loop deletes from the map it runs over. */
    method RecordNonce(requestId: string, now: int, ttlSeconds: int) returns (unique: bool)
      modifies this
      ensures (unique, expiries) == Record(old(expiries), requestId, now, ttlSeconds)
    {
      var left := expiries.Keys;
      ghost var before := expiries;
      while left != {}
        invariant left <= before.Keys
        invariant forall id :: id in left ==> id in expiries && expiries[id] == before[id]
        invariant forall id :: id in before.Keys - left ==> (id in expiries <==> before[id] > now)
        invariant forall id :: id in expiries ==> id in before && expiries[id] == before[id]
        decreases left
      {
        var id :| id in left;
        if expiries[id] <= now { expiries := expiries - {id}; }
        left := left - {id};
      }
      assert expiries == Sweep(before, now);
      if requestId in expiries && expiries[requestId] != 0 && expiries[requestId] > now { return false; }
      expiries := expiries[requestId := now + ttlSeconds * 1000];
      return true;
    }

    method VerifyRequest(r: Request, now: int, strict: bool, ttlSeconds: int) returns (accepted: bool)
      modifies this
      ensures (accepted, expiries) == Verify(old(expiries), r, now, strict, ttlSeconds)
    {
      if r.timestamp.None? { return false; }
      if !Named(r) {
        if strict { return false; }
      } else if !IsRequestId(r.requestId.value) {
        return false;
      }
      var t := r.timestamp.value;
      if t < -LARGEST_SAFE_INTEGER || t > LARGEST_SAFE_INTEGER || Distance(now, t) > MAX_CLOCK_SKEW_MS { return false; }
      if !r.signed { return false; }
      if Named(r) {
        var unique := RecordNonce(r.requestId.value, now, ttlSeconds);
        if !unique { return false; }
      }
      return true;
    }
  }

  // -------------------------------------------------------------------- runs

  /** The cache and the verdicts after a sequence of verifications. */
  function Process(arrivals: seq<Arrival>, strict: bool, ttlSeconds: int): (r: (Cache, seq<bool>))
    ensures |r.1| == |arrivals|
  {
    if arrivals == [] then (map[], [])
    else
      var n := |arrivals| - 1;
      var (cache, verdicts) := Process(arrivals[..n], strict, ttlSeconds);
      var (accepted, next) := Verify(cache, arrivals[n].request, arrivals[n].now, strict, ttlSeconds);
      (next, verdicts + [accepted])
  }

  function Verdicts(arrivals: seq<Arrival>, strict: bool, ttlSeconds: int): (v: seq<bool>)
    ensures |v| == |arrivals|
  {
    Process(arrivals, strict, ttlSeconds).1
  }

  /** The clock never runs backwards and starts at the epoch or later. */
  predicate Ordered(arrivals: seq<Arrival>) {
    && (forall i :: 0 <= i < |arrivals| ==> arrivals[i].now >= 0)
    && (forall i, j :: 0 <= i < j < |arrivals| ==> arrivals[i].now <= arrivals[j].now)
  }

  /** Arrival `i` was accepted with this identifier and its term still runs at `now`. */
  predicate Guards(arrivals: seq<Arrival>, verdicts: seq<bool>, ttlSeconds: int, i: nat, id: string, now: int)
    requires |verdicts| == |arrivals|
  {
    && i < |arrivals| && verdicts[i]
    && Named(arrivals[i].request) && arrivals[i].request.requestId.value == id
    && arrivals[i].now + ttlSeconds * 1000 > now
  }

  ghost predicate Guarded(arrivals: seq<Arrival>, strict: bool, ttlSeconds: int, id: string, now: int) {
    exists i: nat :: Guards(arrivals, Verdicts(arrivals, strict, ttlSeconds), ttlSeconds, i, id, now)
  }

  /** The last verification as one step on what was there before. */
  lemma LastStep(arrivals: seq<Arrival>, strict: bool, ttlSeconds: int)
    requires arrivals != []
    ensures
      var n := |arrivals| - 1;
      var (cache, v) := Process(arrivals[..n], strict, ttlSeconds);
      var (accepted, next) := Verify(cache, arrivals[n].request, arrivals[n].now, strict, ttlSeconds);
      Process(arrivals, strict, ttlSeconds).0 == next && Verdicts(arrivals, strict, ttlSeconds) == v + [accepted]
  {
  }

  /** What one verification does to the running entries, seen from any later moment. */
  lemma StepMirrors(cache: Cache, r: Request, now: int, strict: bool, ttlSeconds: int, id: string, later: int)
    requires 0 <= now <= later
    ensures
      var (accepted, next) := Verify(cache, r, now, strict, ttlSeconds);
      (id in next && next[id] > later)
        == if accepted && Named(r) && r.requestId.value == id then now + ttlSeconds * 1000 > later
           else id in cache && cache[id] > later
  {
    hide Valid;
  }

  lemma GuardsBefore(arrivals: seq<Arrival>, v: seq<bool>, ttlSeconds: int, id: string, now: int)
    requires |v| == |arrivals| > 0
    ensures
      var n := |arrivals| - 1;
      (exists i: nat :: Guards(arrivals, v, ttlSeconds, i, id, now))
        == (Guards(arrivals, v, ttlSeconds, n, id, now)
            || exists i: nat :: Guards(arrivals[..n], v[..n], ttlSeconds, i, id, now))
  {
    var n := |arrivals| - 1;
    assert forall i: nat :: i < n ==>
             Guards(arrivals, v, ttlSeconds, i, id, now) == Guards(arrivals[..n], v[..n], ttlSeconds, i, id, now);
    if i: nat :| Guards(arrivals[..n], v[..n], ttlSeconds, i, id, now) {
      assert Guards(arrivals, v, ttlSeconds, i, id, now);
    }
  }

  /** The swept cache forgets nothing that matters: at any later moment it has a running
      entry for an identifier exactly when some acceptance of it still guards. */
  lemma {:induction false} CacheMirrorsHistory(arrivals: seq<Arrival>, strict: bool, ttlSeconds: int, id: string,
                                               now: int)
    requires Ordered(arrivals) && now >= 0
    requires arrivals != [] ==> arrivals[|arrivals| - 1].now <= now
    ensures
      var cache := Process(arrivals, strict, ttlSeconds).0;
      (id in cache && cache[id] > now) <==> Guarded(arrivals, strict, ttlSeconds, id, now)
  {
    if arrivals != [] {
      var n := |arrivals| - 1;
      var v := Verdicts(arrivals, strict, ttlSeconds);
      CacheMirrorsHistory(arrivals[..n], strict, ttlSeconds, id, now);
      LastStep(arrivals, strict, ttlSeconds);
      StepMirrors(Process(arrivals[..n], strict, ttlSeconds).0, arrivals[n].request, arrivals[n].now, strict,
                  ttlSeconds, id, now);
      GuardsBefore(arrivals, v, ttlSeconds, id, now);
      hide Process, Verify;
      assert v[..n] == Verdicts(arrivals[..n], strict, ttlSeconds);
      LatestGuards(arrivals[..n], v[..n], ttlSeconds, id, now, arrivals[n].now);
    }
  }

  /** If an earlier acceptance still guards, so would one made now. */
  lemma LatestGuards(arrivals: seq<Arrival>, v: seq<bool>, ttlSeconds: int, id: string, now: int, latest: int)
    requires |v| == |arrivals|
    requires forall i :: 0 <= i < |arrivals| ==> arrivals[i].now <= latest
    ensures (exists i: nat :: Guards(arrivals, v, ttlSeconds, i, id, now)) ==> latest + ttlSeconds * 1000 > now
  {
  }

  lemma {:induction false} VerdictsOfPrefix(arrivals: seq<Arrival>, strict: bool, ttlSeconds: int, j: nat)
    requires j <= |arrivals|
    ensures Verdicts(arrivals[..j], strict, ttlSeconds) == Verdicts(arrivals, strict, ttlSeconds)[..j]
    decreases |arrivals|
  {
    var n := |arrivals| - 1;
    if j == |arrivals| {
      assert arrivals[..j] == arrivals;
    } else {
      VerdictsOfPrefix(arrivals[..n], strict, ttlSeconds, j);
      assert arrivals[..n][..j] == arrivals[..j];
    }
  }

  /** The verdicts of any run are those of a check that remembers everything: a request
      is accepted exactly if it is valid on arrival and no acceptance of its identifier
      less than the TTL ago stands against it. */
  lemma VerdictsAreExact(arrivals: seq<Arrival>, strict: bool, ttlSeconds: int, j: nat)
    requires Ordered(arrivals) && j < |arrivals|
    ensures
      var r, now := arrivals[j].request, arrivals[j].now;
      Verdicts(arrivals, strict, ttlSeconds)[j]
        == (Valid(r, now, strict) && (Named(r) ==> !Guarded(arrivals[..j], strict, ttlSeconds, r.requestId.value, now)))
  {
    var r, now := arrivals[j].request, arrivals[j].now;
    var upTo := arrivals[..j + 1];
    VerdictsOfPrefix(arrivals, strict, ttlSeconds, j + 1);
    assert upTo[..j] == arrivals[..j];
    assert Verdicts(arrivals, strict, ttlSeconds)[j] == Verdicts(upTo, strict, ttlSeconds)[j];
    if Named(r) { CacheMirrorsHistory(arrivals[..j], strict, ttlSeconds, r.requestId.value, now); }
  }

  predicate SameRequest(a: Request, b: Request) {
    Named(a) && b.requestId == a.requestId && b.timestamp == a.timestamp
  }

  /** With a TTL beyond the whole skew window, the same signed timestamp and identifier
      are accepted once at most, however far apart. */
  lemma AcceptedAtMostOnce(arrivals: seq<Arrival>, strict: bool, ttlSeconds: int, i: nat, j: nat)
    requires Ordered(arrivals) && i < j < |arrivals| && SameRequest(arrivals[i].request, arrivals[j].request)
    requires ttlSeconds * 1000 > 2 * MAX_CLOCK_SKEW_MS
    ensures !(Verdicts(arrivals, strict, ttlSeconds)[i] && Verdicts(arrivals, strict, ttlSeconds)[j])
  {
    VerdictsAreExact(arrivals, strict, ttlSeconds, i);
    VerdictsAreExact(arrivals, strict, ttlSeconds, j);
    VerdictsOfPrefix(arrivals, strict, ttlSeconds, j);
    var v := Verdicts(arrivals, strict, ttlSeconds);
    var id, now := arrivals[j].request.requestId.value, arrivals[j].now;
    if v[i] && v[j] {
      assert Guards(arrivals[..j], v[..j], ttlSeconds, i, id, now);
      assert Guarded(arrivals[..j], strict, ttlSeconds, id, now);
    }
  }

  ghost predicate Replayed(arrivals: seq<Arrival>, strict: bool, ttlSeconds: int, i: nat, j: nat) {
    && Ordered(arrivals) && i < j < |arrivals| && SameRequest(arrivals[i].request, arrivals[j].request)
    && Verdicts(arrivals, strict, ttlSeconds)[i] && Verdicts(arrivals, strict, ttlSeconds)[j]
  }

  /** The default TTL of 720 s is enough, and any TTL is exactly if it outlasts the
      two-sided window of 300 s each. */
  lemma ReplayIsPossibleExactlyWhen(strict: bool, ttlSeconds: int)
    ensures NONCE_TTL_SECONDS * 1000 > 2 * MAX_CLOCK_SKEW_MS
    ensures (exists arrivals, i, j :: Replayed(arrivals, strict, ttlSeconds, i, j))
            <==> ttlSeconds * 1000 <= 2 * MAX_CLOCK_SKEW_MS
  {
    if ttlSeconds * 1000 <= 2 * MAX_CLOCK_SKEW_MS {
      var r := Request(Some(MAX_CLOCK_SKEW_MS), Some("a"), true);
      var arrivals := [Arrival(r, 0), Arrival(r, 2 * MAX_CLOCK_SKEW_MS)];
      VerdictsAreExact(arrivals, strict, ttlSeconds, 0);
      VerdictsAreExact(arrivals, strict, ttlSeconds, 1);
      assert Replayed(arrivals, strict, ttlSeconds, 0, 1);
    }
    forall arrivals, i, j | Replayed(arrivals, strict, ttlSeconds, i, j)
      ensures ttlSeconds * 1000 <= 2 * MAX_CLOCK_SKEW_MS {
      if ttlSeconds * 1000 > 2 * MAX_CLOCK_SKEW_MS { AcceptedAtMostOnce(arrivals, strict, ttlSeconds, i, j); }
    }
  }
}
