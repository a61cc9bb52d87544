/** The promises of `runOperation`, over every run of an operation and its leases. */
module OperationSafety {
  import opened Wrappers
  import opened Contract
  import opened SessionEntry
  import opened SessionClient
  import opened ClientFence
  import opened OperationContext
  import A = Acquisition

  // -------------------------------------------------------------- the invariant

  predicate HeldOk(c: Client, closed: bool, phase: Position) {
    && c.closed == closed
    && Releases(c.past.log) == (if c.drain.Released? then 1 else 0)
    && (phase.Working? || phase.Awaiting? || phase.Settling? <==> c.drain.Running?)
    && (phase.Finished? ==> c.drain.Released?)
  }

  predicate PendingOk(pending: map<string, Pending>, closed: bool, phase: Position) {
    && (forall shop :: shop in pending && pending[shop].Held? ==> HeldOk(pending[shop].client, closed, phase))
    && (phase.Releasing? || phase.Finished? ==> NoneAcquiring(pending))
  }

  ghost predicate AskedOk(pending: map<string, Pending>, asked: seq<string>) {
    && (forall shop :: shop in pending <==> shop in asked)
    && (forall i, j :: 0 <= i < j < |asked| ==> asked[i] != asked[j])
  }

  ghost predicate Inv(o: Operation) {
    && (o.closed <==> o.phase.Settling? || o.phase.Releasing? || o.phase.Finished?)
    && PendingOk(o.pending, o.closed, o.phase)
    && AskedOk(o.pending, o.asked)
    && o.askedInBody <= |o.asked|
    && (o.phase.Awaiting? ==> forall shop :: shop in o.phase.awaited <==> shop in o.asked[..o.askedInBody])
  }

  // --------------------------------------------------------- what a client's step does

  lemma StepReleases(c: Client, a: Action)
    requires Outside(a)
    ensures
      var d := Step(c, a);
      d.drain == c.drain && d.closed == c.closed && Releases(d.past.log) == Releases(c.past.log)
  {
    StepSendsOnlyOwned(c, a);
    var d := Step(c, a);
    hide Step;
    if d.past.log != c.past.log {
      assert d.past.log == c.past.log + [Sent(c, d)];
      ReleasesAfter(c.past.log, Sent(c, d));
    }
  }

  /** One release at most leaves, after the heartbeat has been stopped and the renewal
      that was under way then has settled. */
  lemma StepReleasesOnce(c: Client, now: int)
    requires !c.drain.Running?
    ensures
      var d := Step(c, SendRelease(now));
      if c.drain.Draining? && (c.drain.renewal.None? || c.drain.renewal.value in c.settled)
      then d.drain.Released? && Releases(d.past.log) == Releases(c.past.log) + 1 && d.closed == c.closed
      else d == c
  {
    ReleasesAfter(c.past.log, Dispatch(now, Release(c.entry.lease), |c.past.trace|, |c.past.grants|));
  }

  lemma StoppedHeartbeatIsSilent(c: Client, now: int)
    requires !c.drain.Running?
    ensures Step(c, Heartbeat(now)) == c
  {
  }

  // ----------------------------------------------------------------- preservation

  lemma TickKeeps(o: Operation, until: int)
    requires Inv(o)
    ensures Inv(o.(clock := until))
  {
    hide PendingOk, AskedOk;
  }

  lemma EntryKeeps(o: Operation, shop: string)
    requires Inv(o)
    ensures Inv(OnNeedEntry(o, shop))
  {
    var d := OnNeedEntry(o, shop);
    if d != o { assert d.asked[..o.askedInBody] == o.asked[..o.askedInBody]; }
    hide HeldOk;
  }

  lemma ChangedKeeps(o: Operation, shop: string, p: Pending)
    requires Inv(o) && shop in o.pending && !p.Acquiring?
    requires p.Held? ==> HeldOk(p.client, o.closed, o.phase)
    ensures Inv(o.(pending := o.pending[shop := p]))
  {
    hide HeldOk;
  }

  lemma AcquiredKeeps(o: Operation, shop: string, snapshot: Snapshot, lease: Lease, started: int)
    requires Inv(o) && shop in o.pending && o.pending[shop].Acquiring?
    ensures Inv(o.(pending := o.pending[shop := Held(Start(shop, snapshot, lease, started).(closed := o.closed))]))
  {
    assert HeldOk(Start(shop, snapshot, lease, started).(closed := o.closed), o.closed, o.phase);
    ChangedKeeps(o, shop, Held(Start(shop, snapshot, lease, started).(closed := o.closed)));
  }

  lemma ActKeeps(o: Operation, shop: string, a: Action)
    requires Inv(o) && shop in o.pending && o.pending[shop].Held? && Outside(a)
    ensures Inv(o.(pending := o.pending[shop := Held(Step(o.pending[shop].client, a))]))
  {
    var c := o.pending[shop].client;
    assert HeldOk(c, o.closed, o.phase);
    StepReleases(c, a);
    hide Step;
    ChangedKeeps(o, shop, Held(Step(c, a)));
  }

  lemma CloseKeeps(o: Operation, returned: bool)
    requires Inv(o) && !o.closed
    ensures Inv(Closed(o, returned))
  {
    forall shop | shop in o.pending && o.pending[shop].Held?
      ensures HeldOk(Step(o.pending[shop].client, Close), true, Settling) {
      assert HeldOk(o.pending[shop].client, o.closed, o.phase);
    }
    hide HeldOk, Step;
  }

  lemma StopKeeps(o: Operation)
    requires Inv(o) && o.phase.Settling? && NoneAcquiring(o.pending)
    ensures Inv(o.(pending := StoppingHeartbeats(o.pending), phase := Releasing))
  {
    forall shop | shop in o.pending && o.pending[shop].Held?
      ensures HeldOk(Step(o.pending[shop].client, StopHeartbeat), true, Releasing) {
      assert HeldOk(o.pending[shop].client, o.closed, o.phase);
    }
    hide HeldOk, Step;
  }

  lemma ReleaseKeeps(o: Operation, shop: string, now: int)
    requires Inv(o) && o.phase.Releasing? && shop in o.pending && o.pending[shop].Held?
    ensures Inv(o.(pending := o.pending[shop := Held(Step(o.pending[shop].client, SendRelease(now)))]))
  {
    var c := o.pending[shop].client;
    assert HeldOk(c, o.closed, o.phase);
    StepReleasesOnce(c, now);
    hide Step;
    ChangedKeeps(o, shop, Held(Step(c, SendRelease(now))));
  }

  lemma FinishKeeps(o: Operation)
    requires Inv(o) && o.phase.Releasing? && AllReleased(o.pending)
    ensures Inv(o.(phase := Finished))
  {
  }

  lemma ReturnKeeps(o: Operation)
    requires Inv(o) && o.phase.Working?
    ensures Inv(o.(phase := Awaiting(o.pending.Keys), askedInBody := |o.asked|))
  {
    assert o.asked[..|o.asked|] == o.asked;
  }

  lemma NextKeeps(o: Operation, e: Occurrence)
    requires Inv(o)
    ensures Inv(Next(o, e))
  {
    hide Inv, OnNeedEntry, Closed, Step, StoppingHeartbeats;
    match e {
      case Tick(until) => if o.clock <= until { TickKeeps(o, until); }
      case NeedEntry(shop) => EntryKeeps(o, shop);
      case Acquired(shop, snapshot, lease, started) =>
        if shop in o.pending && o.pending[shop].Acquiring? { AcquiredKeeps(o, shop, snapshot, lease, started); }
      case AcquisitionFailed(shop) =>
        if shop in o.pending && o.pending[shop].Acquiring? { ChangedKeeps(o, shop, Rejected); }
      case Act(shop, a) =>
        if shop in o.pending && o.pending[shop].Held? && Outside(a) { ActKeeps(o, shop, a); }
      case BodyReturned => if o.phase.Working? { ReturnKeeps(o); }
      case BodyThrew => if o.phase.Working? { OpenIsNotClosed(o); CloseKeeps(o, false); }
      case Checked =>
        if o.phase.Awaiting? { OpenIsNotClosed(o); CloseKeeps(o, AllOwned(o.pending, o.phase.awaited, o.clock)); }
      case CheckFailed => if o.phase.Awaiting? { OpenIsNotClosed(o); CloseKeeps(o, false); }
      case AllSettled => if o.phase.Settling? && NoneAcquiring(o.pending) { StopKeeps(o); }
      case ReleaseOne(shop) =>
        if o.phase.Releasing? && shop in o.pending && o.pending[shop].Held? { ReleaseKeeps(o, shop, o.clock); }
      case Finish => if o.phase.Releasing? && AllReleased(o.pending) { FinishKeeps(o); }
    }
  }

  lemma OpenIsNotClosed(o: Operation)
    requires Inv(o) && (o.phase.Working? || o.phase.Awaiting?)
    ensures !o.closed
  {
  }

  lemma {:induction false} ConductKeeps(o: Operation, events: seq<Occurrence>)
    requires Inv(o)
    ensures Inv(Conduct(o, events))
    decreases |events|
  {
    hide Inv, Next;
    if events != [] {
      NextKeeps(o, events[0]);
      ConductKeeps(Next(o, events[0]), events[1..]);
    }
  }

  // --------------------------------------------------------------------- promises

  /** Every lease the operation took gets at most one release, none before the body has
      settled and its heartbeat has been stopped, and exactly one by the end; and each
      shop is acquired at most once. */
  lemma EveryLeaseIsReleasedOnce(now: int, events: seq<Occurrence>, shop: string)
    requires shop in Conduct(Opened(now), events).pending
    ensures
      var o := Conduct(Opened(now), events);
      && (exists i ::
            0 <= i < |o.asked| && o.asked[i] == shop
            && forall j :: 0 <= j < |o.asked| && o.asked[j] == shop ==> j == i)
      && (o.pending[shop].Held? ==>
            var c := o.pending[shop].client;
            && Releases(c.past.log) <= 1
            && (Releases(c.past.log) == 1
                ==> o.closed && !c.drain.Running? && (o.phase.Releasing? || o.phase.Finished?))
            && (o.phase.Finished? ==> Releases(c.past.log) == 1))
      && (o.phase.Finished? ==> !o.pending[shop].Acquiring?)
  {
    ConductKeeps(Opened(now), events);
    var o := Conduct(Opened(now), events);
    var i :| 0 <= i < |o.asked| && o.asked[i] == shop;
    if o.pending[shop].Held? { assert HeldOk(o.pending[shop].client, o.closed, o.phase); }
  }

  /** After the close no acquisition starts, however much work is still running. */
  lemma {:induction false} NothingIsAcquiredAfterClose(o: Operation, events: seq<Occurrence>)
    requires o.closed && Inv(o)
    ensures Conduct(o, events).closed && Conduct(o, events).asked == o.asked
         && Conduct(o, events).pending.Keys == o.pending.Keys
    decreases |events|
  {
    hide Inv, Step;
    if events != [] {
      ClosedStaysClosed(o, events[0]);
      NextKeeps(o, events[0]);
      NothingIsAcquiredAfterClose(Next(o, events[0]), events[1..]);
    }
  }

  lemma ClosedStaysClosed(o: Operation, e: Occurrence)
    requires o.closed && Inv(o)
    ensures Next(o, e).closed && Next(o, e).asked == o.asked && Next(o, e).pending.Keys == o.pending.Keys
  {
    hide PendingOk, AskedOk, Step;
  }

  /** A result is returned only by the ownership check, and exactly when it finds every
      lease asked for while the body ran held and owned. If none was asked for later,
      those are all the leases there are. */
  lemma ResultMeansOwnership(now: int, events: seq<Occurrence>, e: Occurrence)
    requires !Conduct(Opened(now), events).returned
    ensures
      var o := Conduct(Opened(now), events);
      var d := Next(o, e);
      && o.askedInBody <= |o.asked|
      && (d.returned ==> e.Checked? && o.phase.Awaiting?)
      && (e.Checked? && o.phase.Awaiting? && AllHeld(o.pending, o.phase.awaited) ==>
            && (d.returned <==> forall i :: 0 <= i < o.askedInBody ==> OwnedThen(o, o.asked[i], o.clock))
            && (o.askedInBody == |o.asked|
                ==> (d.returned <==> forall shop :: shop in o.pending ==> OwnedThen(o, shop, o.clock))))
  {
    ConductKeeps(Opened(now), events);
    var o := Conduct(Opened(now), events);
    if e.Checked? && o.phase.Awaiting? && AllHeld(o.pending, o.phase.awaited) {
      CheckLooksAtBody(o, o.clock);
    }
    hide Inv, Step;
  }

  predicate OwnedThen(o: Operation, shop: string, now: int) {
    shop in o.pending && o.pending[shop].Held? && Owned(o.pending[shop].client.entry, now)
  }

  lemma CheckLooksAtBody(o: Operation, now: int)
    requires Inv(o) && o.phase.Awaiting?
    ensures AllOwned(o.pending, o.phase.awaited, now)
            <==> forall i :: 0 <= i < o.askedInBody ==> OwnedThen(o, o.asked[i], now)
    ensures o.askedInBody == |o.asked| ==>
              (AllOwned(o.pending, o.phase.awaited, now)
               <==> forall shop :: shop in o.pending ==> OwnedThen(o, shop, now))
  {
    hide PendingOk;
    var body := o.asked[..o.askedInBody];
    forall i | 0 <= i < o.askedInBody ensures o.asked[i] in o.phase.awaited { assert body[i] == o.asked[i]; }
    if o.askedInBody == |o.asked| { assert body == o.asked; }
  }

  /** The guard of an acquisition's success is what its loop keeps to. */
  lemma AcquisitionsKeepToTheirBudget(w: A.Surroundings, shop: string, token: string)
    requires A.Forward(w.clock) && A.Acquisition(w, shop, token).Acquired?
    ensures
      var r := A.Acquisition(w, shop, token);
      && |r.asked| > 0 && r.readings > 0
      && r.entry == NewEntry(shop, r.entry.snapshot, r.entry.lease, r.asked[|r.asked| - 1].at)
      && InBudget(w.clock(0), r.asked[|r.asked| - 1].at, w.clock(r.readings - 1))
  {
    hide A.Acquisition, Admits, SameObservation;
    A.AcquisitionIsDisciplined(w, shop, token);
  }

  /** What an acquisition brings back: each has a snapshot and a lease of its own. */
  datatype Granting = Granting(snapshot: Snapshot, lease: Lease)

  /** The condition matters: a lease asked for by work still running after the body
      returned is not looked at. Here such work asks for the lease of `b` and exchanges a
      token under it; its renewal fails, which loses that lease, while the acquisition
      for `a` is still being awaited. All of it fits into the budget of one acquisition. */
  lemma LateLeasesAreNotChecked(a: string, b: string, forA: Granting, forB: Granting, now: int)
    requires a != b
    ensures
      var o := Conduct(Opened(now), LateLease(a, b, forA, forB, now));
      o.returned && b in o.pending && o.pending[b].Held? && o.pending[b].client.entry.lost
  {
    FailedRenewalLoses(b, forB, now);
    hide Step;
    var o4 := Next(Next(Next(Next(Opened(now), NeedEntry(a)), BodyReturned), NeedEntry(b)),
                   Acquired(b, forB.snapshot, forB.lease, now));
    var o6 := Next(Next(o4, Act(b, Begin(0, now, Call.Exchange))), Act(b, Settle(0, false)));
    assert o4.phase == Awaiting({a}) && o4.pending[b] == Held(Start(b, forB.snapshot, forB.lease, now));
    assert o6.phase == Awaiting({a}) && o6.pending[b] == Held(AfterFailedRenewal(b, forB, now));
    ConductEight(Opened(now), LateLease(a, b, forA, forB, now));
    LastTwoReturn(o6, a, b, forA);
    hide Next;
  }

  function LateLease(a: string, b: string, forA: Granting, forB: Granting, now: int): seq<Occurrence> {
    [NeedEntry(a), BodyReturned, NeedEntry(b), Acquired(b, forB.snapshot, forB.lease, now),
     Act(b, Begin(0, now, Call.Exchange)), Act(b, Settle(0, false)), Acquired(a, forA.snapshot, forA.lease, now),
       Checked]
  }

  function AfterFailedRenewal(shop: string, g: Granting, now: int): Client {
    Step(Step(Start(shop, g.snapshot, g.lease, now), Begin(0, now, Call.Exchange)), Settle(0, false))
  }

  lemma FailedRenewalLoses(shop: string, g: Granting, now: int)
    ensures AfterFailedRenewal(shop, g, now).entry.lost
  {
  }

  lemma LastTwoReturn(o: Operation, a: string, b: string, g: Granting)
    requires a != b && o.phase == Awaiting({a}) && a in o.pending && o.pending[a] == Acquiring(o.clock) && !o.closed
    requires b in o.pending && o.pending[b].Held? && o.pending[b].client.entry.lost
    ensures
      var d := Next(Next(o, Acquired(a, g.snapshot, g.lease, o.clock)), Checked);
      d.returned && b in d.pending && d.pending[b].Held? && d.pending[b].client.entry.lost
  {
    assert Step(o.pending[b].client, Close).entry.lost;
    assert Owned(Start(a, g.snapshot, g.lease, o.clock).entry, o.clock);
    hide Step;
  }

  lemma ConductEight(o: Operation, e: seq<Occurrence>)
    requires |e| == 8
    ensures Conduct(o, e)
         == Next(Next(Next(Next(Next(Next(Next(Next(o, e[0]), e[1]), e[2]), e[3]), e[4]), e[5]), e[6]), e[7])
  {
    hide Next;
    var o4 := Next(Next(Next(Next(o, e[0]), e[1]), e[2]), e[3]);
    ConductFour(o, e);
    ConductFour(o4, e[4..]);
    assert e[4..][4..] == [];
  }

  lemma ConductFour(o: Operation, e: seq<Occurrence>)
    requires |e| >= 4
    ensures Conduct(o, e) == Conduct(Next(Next(Next(Next(o, e[0]), e[1]), e[2]), e[3]), e[4..])
  {
    hide Next;
    assert e[1..][1..] == e[2..] && e[2..][1..] == e[3..] && e[3..][1..] == e[4..];
    assert Conduct(o, e) == Conduct(Next(o, e[0]), e[1..]);
    assert Conduct(Next(o, e[0]), e[1..]) == Conduct(Next(Next(o, e[0]), e[1]), e[2..]);
    assert Conduct(Next(Next(o, e[0]), e[1]), e[2..]) == Conduct(Next(Next(Next(o, e[0]), e[1]), e[2]), e[3..]);
  }
}
