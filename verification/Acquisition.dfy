/** The acquisition of a shop's lease: a snapshot, and then up to five requests for the
    lease within a budget of eight seconds, of which only an explicit refusal with
    `lease_busy` allows another. */
module Acquisition {
  import opened Wrappers
  import opened Contract
  import opened SessionEntry

  const ACQUISITION_BUDGET_MS: int := 8_000
  const CONTENTION_DELAYS_MS: seq<int> := [100, 200, 400, 800]

  /** How a request for the lease comes back. `Failed` is every other error and every
      timeout; the lease of a positive answer may be missing. */
  datatype Answer = Granted(lease: Option<Lease>) | Busy | Failed

  /** What the surroundings answer: the n-th reading of the clock, the n-th snapshot
      (None when reading it fails) and the n-th request for the lease. */
  datatype Surroundings = Surroundings(clock: nat -> int, snapshots: nat -> Option<Snapshot>, answers: nat -> Answer)

  /** A request for the lease: when it left and under which observation. */
  datatype Asked = Asked(at: int, observed: Observation)

  datatype Error = DeadlineExceeded | SnapshotUnavailable | Refused | StaleSession | NotAcknowledged

  datatype Result =
    | Acquired(entry: EntryState, asked: seq<Asked>, readings: nat)
    | Abandoned(error: Error, asked: seq<Asked>)

  ghost predicate Forward(clock: nat -> int) {
    forall i: nat, j: nat :: i <= j ==> clock(i) <= clock(j)
  }

  // ------------------------------------------------------------ the specification

  /** How one attempt ends: for good, or with a new snapshot for the next. */
  datatype Turn = Stop(result: Result) | Again(snapshot: Snapshot, asked: seq<Asked>)

  /** Attempt number `attempt`, after `readings` clock readings and the requests `asked`. */
  function Attempt(w: Surroundings, shop: string, token: string, deadline: int, original: Observation,
                   snapshot: Snapshot,
                   attempt: nat, readings: nat, asked: seq<Asked>): (turn: Turn)
    ensures turn.Again? ==> attempt < |CONTENTION_DELAYS_MS|
  {
    var started := w.clock(readings);
    if w.clock(readings + 1) >= deadline then Stop(Abandoned(DeadlineExceeded, asked))
    else
      var log := asked + [Asked(started, snapshot.observed)];
      match w.answers(attempt)
      case Granted(lease) =>
        if w.clock(readings + 2) >= deadline then Stop(Abandoned(DeadlineExceeded, log))
        else if lease.Some? && Admits(lease.value, token, snapshot.observed)
        then Stop(Acquired(NewEntry(shop, snapshot, lease.value, started), log, readings + 3))
        else Stop(Abandoned(NotAcknowledged, log))
      case Failed => Stop(Abandoned(Refused, log))
      case Busy =>
        if attempt >= |CONTENTION_DELAYS_MS| then Stop(Abandoned(Refused, log))
        else if deadline - w.clock(readings + 2) <= 0 then Stop(Abandoned(DeadlineExceeded, log))
        else if deadline - w.clock(readings + 2) <= CONTENTION_DELAYS_MS[attempt] then Stop(Abandoned(Refused, log))
        else if w.clock(readings + 3) >= deadline then Stop(Abandoned(DeadlineExceeded, log))
        else if w.snapshots(attempt + 1).None? then Stop(Abandoned(SnapshotUnavailable, log))
        else if !SameObservation(original, w.snapshots(attempt + 1).value.observed)
             then Stop(Abandoned(StaleSession, log))
        else Again(w.snapshots(attempt + 1).value, log)
  }

  function Attempts(w: Surroundings, shop: string, token: string, deadline: int, original: Observation,
                    snapshot: Snapshot,
                    attempt: nat, readings: nat, asked: seq<Asked>): Result
    decreases |CONTENTION_DELAYS_MS| - attempt
  {
    match Attempt(w, shop, token, deadline, original, snapshot, attempt, readings, asked)
    case Stop(result) => result
    case Again(again, log) => Attempts(w, shop, token, deadline, original, again, attempt + 1, readings + 4, log)
  }

  function Acquisition(w: Surroundings, shop: string, token: string): Result {
    var deadline := w.clock(0) + ACQUISITION_BUDGET_MS;
    if w.clock(1) >= deadline then Abandoned(DeadlineExceeded, [])
    else
      match w.snapshots(0)
      case None => Abandoned(SnapshotUnavailable, [])
      case Some(snapshot) => Attempts(w, shop, token, deadline, snapshot.observed, snapshot, 0, 2, [])
  }

  // ---------------------------------------------------------------- the procedure

  method Acquire(w: Surroundings, shop: string, token: string) returns (result: Result)
    ensures result == Acquisition(w, shop, token)
  {
    var deadline := w.clock(0) + ACQUISITION_BUDGET_MS;
    if w.clock(1) >= deadline { return Abandoned(DeadlineExceeded, []); }
    var first := w.snapshots(0);
    if first.None? { return Abandoned(SnapshotUnavailable, []); }
    var snapshot := first.value;
    var original := snapshot.observed;
    var attempt, readings := 0, 2;
    var asked: seq<Asked> := [];
    while true
      invariant attempt <= |CONTENTION_DELAYS_MS|
      invariant Acquisition(w, shop, token)
             == Attempts(w, shop, token, deadline, original, snapshot, attempt, readings, asked)
      decreases |CONTENTION_DELAYS_MS| - attempt
    {
      var started := w.clock(readings);
      if w.clock(readings + 1) >= deadline { return Abandoned(DeadlineExceeded, asked); }
      asked := asked + [Asked(started, snapshot.observed)];
      var answer := w.answers(attempt);
      if answer.Granted? {
        if w.clock(readings + 2) >= deadline { return Abandoned(DeadlineExceeded, asked); }
        if answer.lease.None? || !Admits(answer.lease.value, token, snapshot.observed) {
          return Abandoned(NotAcknowledged, asked);
        }
        return Acquired(NewEntry(shop, snapshot, answer.lease.value, started), asked, readings + 3);
      }
      if answer.Failed? || attempt == |CONTENTION_DELAYS_MS| { return Abandoned(Refused, asked); }
      var remaining := deadline - w.clock(readings + 2);
      if remaining <= 0 { return Abandoned(DeadlineExceeded, asked); }
      if remaining <= CONTENTION_DELAYS_MS[attempt] { return Abandoned(Refused, asked); }
      if w.clock(readings + 3) >= deadline { return Abandoned(DeadlineExceeded, asked); }
      var again := w.snapshots(attempt + 1);
      if again.None? { return Abandoned(SnapshotUnavailable, asked); }
      if !SameObservation(original, again.value.observed) { return Abandoned(StaleSession, asked); }
      snapshot := again.value;
      attempt, readings := attempt + 1, readings + 4;
    }
  }

  // ------------------------------------------------------------------- discipline

  /** The requests so far: one per attempt, in order and within the budget, under what the
      attempt's own snapshot shows, which is the observation first read (its epoch aside),
      and all but the last answered `lease_busy`. */
  predicate Disciplined(w: Surroundings, original: Observation, asked: seq<Asked>) {
    && |asked| <= |CONTENTION_DELAYS_MS| + 1
    && (forall i :: 0 <= i < |asked| ==>
          && w.clock(0) <= asked[i].at < w.clock(0) + ACQUISITION_BUDGET_MS
          && w.snapshots(i).Some? && asked[i].observed == w.snapshots(i).value.observed
          && SameObservation(original, asked[i].observed))
    && (forall i, j :: 0 <= i < j < |asked| ==> asked[i].at <= asked[j].at)
    && (forall i :: 0 <= i < |asked| - 1 ==> w.answers(i) == Busy)
  }

  predicate AllBusy(w: Surroundings, n: nat) {
    forall i :: 0 <= i < n ==> w.answers(i) == Busy
  }

  predicate AllBefore(asked: seq<Asked>, now: int) {
    forall i :: 0 <= i < |asked| ==> asked[i].at <= now
  }

  /** What holds at the top of the loop. */
  ghost predicate Trying(w: Surroundings, original: Observation, snapshot: Snapshot, attempt: nat, readings: nat,
                         asked: seq<Asked>) {
    && Forward(w.clock) && |asked| == attempt <= |CONTENTION_DELAYS_MS|
    && Disciplined(w, original, asked) && (attempt > 0 ==> w.answers(attempt - 1) == Busy)
    && SameObservation(original, snapshot.observed) && w.snapshots(attempt) == Some(snapshot)
    && AllBefore(asked, w.clock(readings))
  }

  ghost predicate Ends(w: Surroundings, shop: string, token: string, original: Observation, r: Result) {
    && Disciplined(w, original, r.asked)
    && (forall i :: 0 <= i < |r.asked| && w.answers(i) != Busy ==> i == |r.asked| - 1)
    && (r.Acquired? ==> Succeeds(w, shop, token, original, r))
  }

  lemma AttemptIsDisciplined(w: Surroundings, shop: string, token: string, original: Observation, snapshot: Snapshot,
                             attempt: nat, readings: nat, asked: seq<Asked>)
    requires Trying(w, original, snapshot, attempt, readings, asked)
    ensures
      match Attempt(w, shop, token, w.clock(0) + ACQUISITION_BUDGET_MS, original, snapshot, attempt, readings, asked)
      case Stop(result) => Ends(w, shop, token, original, result)
      case Again(again, log) => Trying(w, original, again, attempt + 1, readings + 4, log)
  {
    TryingMeans(w, original, snapshot, attempt, readings, asked);
    hide Forward, Disciplined, AllBusy, AllBefore, SameObservation, Admits;
    TurnIsDisciplined(w, shop, token, original, snapshot, attempt, readings, asked);
    hide Attempt, Ends;
  }

  /** What the next turn of the loop needs of the state at its top. */
  lemma TryingMeans(w: Surroundings, original: Observation, snapshot: Snapshot, attempt: nat, readings: nat,
                    asked: seq<Asked>)
    requires Trying(w, original, snapshot, attempt, readings, asked)
    ensures w.clock(0) <= w.clock(readings) <= w.clock(readings + 1) <= w.clock(readings + 2) <= w.clock(readings + 4)
    ensures AllBusy(w, attempt)
    ensures
      var log := asked + [Asked(w.clock(readings), snapshot.observed)];
      && AllBefore(log, w.clock(readings + 4))
      && (w.clock(readings) < w.clock(0) + ACQUISITION_BUDGET_MS ==> Disciplined(w, original, log))
  {
    assert w.clock(0) <= w.clock(readings) <= w.clock(readings + 1) <= w.clock(readings + 2) <= w.clock(readings + 4);
    hide SameObservation, Forward;
  }

  lemma TurnIsDisciplined(w: Surroundings, shop: string, token: string, original: Observation, snapshot: Snapshot,
                          attempt: nat, readings: nat, asked: seq<Asked>)
    requires |asked| == attempt <= |CONTENTION_DELAYS_MS| && Disciplined(w, original, asked) && AllBusy(w, attempt)
    requires SameObservation(original, snapshot.observed) && w.snapshots(attempt) == Some(snapshot)
    requires w.clock(0) <= w.clock(readings) <= w.clock(readings + 1) <= w.clock(readings + 2) <= w.clock(readings + 4)
    requires
      var log := asked + [Asked(w.clock(readings), snapshot.observed)];
      && AllBefore(log, w.clock(readings + 4))
      && (w.clock(readings) < w.clock(0) + ACQUISITION_BUDGET_MS ==> Disciplined(w, original, log))
    ensures
      match Attempt(w, shop, token, w.clock(0) + ACQUISITION_BUDGET_MS, original, snapshot, attempt, readings, asked)
      case Stop(result) => Ends(w, shop, token, original, result)
      case Again(again, log) =>
        && |log| == attempt + 1 <= |CONTENTION_DELAYS_MS| && Disciplined(w, original, log)
        && w.answers(attempt) == Busy && AllBefore(log, w.clock(readings + 4))
        && SameObservation(original, again.observed) && w.snapshots(attempt + 1) == Some(again)
  {
    hide Disciplined, AllBefore, SameObservation, Admits;
  }

  lemma {:induction false} AttemptsAreDisciplined(w: Surroundings, shop: string, token: string,
                                                  original: Observation, snapshot: Snapshot,
                                                  attempt: nat, readings: nat, asked: seq<Asked>)
    requires Trying(w, original, snapshot, attempt, readings, asked)
    ensures Ends(w, shop, token, original,
                 Attempts(w, shop, token, w.clock(0) + ACQUISITION_BUDGET_MS, original, snapshot, attempt, readings,
                          asked))
    decreases |CONTENTION_DELAYS_MS| - attempt
  {
    hide Attempt, Trying, Ends;
    AttemptIsDisciplined(w, shop, token, original, snapshot, attempt, readings, asked);
    match Attempt(w, shop, token, w.clock(0) + ACQUISITION_BUDGET_MS, original, snapshot, attempt, readings, asked) {
      case Stop(_) =>
      case Again(again, log) => AttemptsAreDisciplined(w, shop, token, original, again, attempt + 1, readings + 4, log);
    }
  }

  /** A new entry comes from the last request alone: it was granted, came back within
      the budget, and the entry's deadline counts from when that request left. */
  predicate Succeeds(w: Surroundings, shop: string, token: string, original: Observation, r: Result)
    requires r.Acquired?
  {
    && |r.asked| > 0
    && var last := r.asked[|r.asked| - 1];
    && var answer := w.answers(|r.asked| - 1);
    && answer.Granted? && answer.lease.Some? && Admits(answer.lease.value, token, last.observed)
    && w.snapshots(|r.asked| - 1) == Some(r.entry.snapshot)
    && r.entry.snapshot.observed == last.observed && SameObservation(original, r.entry.snapshot.observed)
    && r.entry == NewEntry(shop, r.entry.snapshot, answer.lease.value, last.at)
    && r.readings > 0 && last.at <= w.clock(r.readings - 1) < w.clock(0) + ACQUISITION_BUDGET_MS
  }

  /** At most five requests leave, each within the budget, each but the last answered
      `lease_busy`, and after any other answer none; success keeps the observation first
      read up to its epoch. */
  lemma AcquisitionIsDisciplined(w: Surroundings, shop: string, token: string)
    requires Forward(w.clock)
    ensures
      var r := Acquisition(w, shop, token);
      if w.snapshots(0).Some? then Ends(w, shop, token, w.snapshots(0).value.observed, r) && |r.asked| <= 5
      else r.Abandoned? && r.asked == []
  {
    if w.snapshots(0).Some? {
      var snapshot := w.snapshots(0).value;
      AttemptsAreDisciplined(w, shop, token, snapshot.observed, snapshot, 0, 2, []);
      hide Attempts;
    }
  }

  /** Whatever way the five answers and the clock turn out, an acquired entry has at
      least 37 s of ownership left when the acquisition returns. */
  lemma AcquiredEntryIsOwned(w: Surroundings, shop: string, token: string)
    requires Forward(w.clock) && Acquisition(w, shop, token).Acquired?
    ensures
      var r := Acquisition(w, shop, token);
      r.readings > 0 && Owned(r.entry, w.clock(r.readings - 1) + LOCAL_OWNERSHIP_MS - ACQUISITION_BUDGET_MS)
  {
    AcquisitionIsDisciplined(w, shop, token);
    var r := Acquisition(w, shop, token);
    assert r.asked[|r.asked| - 1].at >= w.clock(0);
  }
}
