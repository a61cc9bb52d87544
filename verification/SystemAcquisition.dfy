/** The acquisition loop inside the lease system: whatever else happens in between, the
    requests it sends and the answer it accepts are moves of the system, which records
    them as the loop does. */
module SystemAcquisition {
  import opened Wrappers
  import opened Contract
  import opened SessionEntry
  import opened SessionClient
  import opened LeaseSystem
  import A = Acquisition

  /** The system's record of an attempt is the loop's own record of its requests. */
  predicate Mirrors(w: A.Surroundings, asked: seq<A.Asked>, attempt: Attempt) {
    && attempt.began == w.clock(0) && |attempt.requests| == |asked|
    && forall i :: 0 <= i < |asked| ==>
         w.snapshots(i).Some? && attempt.requests[i] == Asked(asked[i].at, w.snapshots(i).value)
  }

  lemma AcquisitionBegins(w: A.Surroundings, s: System, token: string)
    requires token !in s.attempts && s.now == w.clock(0)
    ensures
      var t := Next(s, BeginAcquisition(token));
      token in t.attempts && Mirrors(w, [], t.attempts[token])
  {
  }

  lemma RequestsAreMirrored(w: A.Surroundings, shop: string, token: string, i: nat)
    requires A.Forward(w.clock) && i < |A.Acquisition(w, shop, token).asked|
    ensures
      var asked := A.Acquisition(w, shop, token).asked;
      w.snapshots(i).Some? && w.clock(0) <= asked[i].at < w.clock(0) + ACQUISITION_BUDGET_MS
      && (i > 0 ==> asked[i - 1].at <= asked[i].at)
  {
    A.AcquisitionIsDisciplined(w, shop, token);
    hide A.Acquisition, A.Succeeds, SameObservation;
  }

  /** In every state in which the system has the first requests of the loop on record and
      has served the snapshot that the loop has read, the next request is a move of the
      system at the moment the loop sends it; and moments only pass forward. */
  lemma AcquisitionAsks(w: A.Surroundings, shop: string, s: System, token: string, i: nat)
    requires A.Forward(w.clock) && i < |A.Acquisition(w, shop, token).asked|
    requires token in s.attempts && Mirrors(w, A.Acquisition(w, shop, token).asked[..i], s.attempts[token])
    requires s.now == A.Acquisition(w, shop, token).asked[i].at
    requires w.snapshots(i).Some? ==> w.snapshots(i).value in s.served
    ensures w.snapshots(i).Some?
    ensures i > 0 ==> A.Acquisition(w, shop, token).asked[i - 1].at <= s.now
    ensures
      var t := Next(s, AskForLease(token, w.snapshots(i).value));
      token in t.attempts && Mirrors(w, A.Acquisition(w, shop, token).asked[..i + 1], t.attempts[token])
  {
    RequestsAreMirrored(w, shop, token, i);
    hide A.Acquisition, Next, Mirrors;
    var asked := A.Acquisition(w, shop, token).asked;
    MirrorsKeepBeginning(w, asked[..i], s.attempts[token]);
    AskIsMove(s, token, w.snapshots(i).value);
    MirrorsMore(w, asked, i, s.attempts[token]);
  }

  lemma MirrorsKeepBeginning(w: A.Surroundings, asked: seq<A.Asked>, attempt: Attempt)
    requires Mirrors(w, asked, attempt)
    ensures attempt.began == w.clock(0)
  {
  }

  lemma AskIsMove(s: System, token: string, snapshot: Snapshot)
    requires token in s.attempts && snapshot in s.served && s.now < s.attempts[token].began + ACQUISITION_BUDGET_MS
    ensures
      var a := s.attempts[token];
      Next(s, AskForLease(token, snapshot))
        == s.(attempts := s.attempts[token := a.(requests := a.requests + [Asked(s.now, snapshot)])])
  {
  }

  lemma MirrorsMore(w: A.Surroundings, asked: seq<A.Asked>, i: nat, attempt: Attempt)
    requires i < |asked| && w.snapshots(i).Some? && Mirrors(w, asked[..i], attempt)
    ensures
      Mirrors(w, asked[..i + 1],
              attempt.(requests := attempt.requests + [Asked(asked[i].at, w.snapshots(i).value)]))
  {
    assert forall j :: 0 <= j < i ==> asked[..i][j] == asked[j];
  }

  /** And when the last of them has been granted, opening a client on the answer is a move
      of the system at the moment the loop returns, and the client has the loop's entry. */
  lemma AcquisitionOpens(w: A.Surroundings, shop: string, s: System, token: string)
    requires A.Forward(w.clock) && A.Acquisition(w, shop, token).Acquired?
    requires token in s.attempts && Mirrors(w, A.Acquisition(w, shop, token).asked, s.attempts[token])
    requires token !in s.clients
    requires
      var r := A.Acquisition(w, shop, token);
      && |r.asked| > 0 && r.readings > 0 && s.now == w.clock(r.readings - 1)
      && Answer(token, |r.asked| - 1, r.entry.lease) in s.answers
    ensures
      var r := A.Acquisition(w, shop, token);
      var t := Next(s, Open(shop, token, |r.asked| - 1, r.entry.lease));
      token in t.clients && t.clients[token] == Start(shop, r.entry.snapshot, r.entry.lease, r.asked[|r.asked| - 1].at)
      && t.clients[token].entry == r.entry
  {
    A.AcquisitionIsDisciplined(w, shop, token);
    hide A.Acquisition, Admits, SameObservation;
  }
}
