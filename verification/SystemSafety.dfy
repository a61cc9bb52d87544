/** The promises of the lease protocol, over every run of any number of operations
    against the coordination service. */
module SystemSafety {
  import opened Wrappers
  import opened Contract
  import opened SessionEntry
  import opened SessionClient
  import opened ClientFence
  import opened ClientWire
  import opened LeaseSystem
  import opened SystemRuns
  import S = Coordinator

  /** A run that begins with an unowned row. */
  datatype History = History(now: int, row: S.Row, stored: Option<Properties>, moves: seq<Move>)

  predicate Begins(h: History) {
    h.row.owner.None? && h.row.expires.None?
  }

  function Reached(h: History): System {
    Go(Initial(h.now, h.row, h.stored), h.moves)
  }

  lemma ReachedKeeps(h: History)
    requires Begins(h)
    ensures Inv(Reached(h))
  {
    InitialKeeps(h.now, h.row, h.stored);
    GoKeeps(Initial(h.now, h.row, h.stored), h.moves);
  }

  // ------------------------------------------------------------ lease exclusion

  /** A client passes the ownership check now, be it of an operation or of work that
      outlived its operation. */
  predicate Holding(s: System, token: string) {
    token in s.clients && Owned(s.clients[token].entry, s.now)
  }

  /** Its lease predates a revocation; a Value of digits, as the service sent them. */
  predicate Revoked(s: System, token: string) {
    && token in s.clients
    && AllDigits(s.clients[token].entry.lease.epoch)
    && Value(s.clients[token].entry.lease.epoch) <= s.revoked
  }

  /** The service has processed the release of its lease. */
  predicate Freed(s: System, token: string) {
    && token in s.clients
    && AllDigits(s.clients[token].entry.lease.epoch)
    && Value(s.clients[token].entry.lease.epoch) in s.freed
  }

  /** The service holds the lease live in this operation's name, and for at least the
      margin beyond the operation's own deadline. */
  predicate Backed(s: System, token: string) {
    && token in s.clients
    && s.row.owner == Some(token)
    && AllDigits(s.clients[token].entry.lease.epoch)
    && s.row.epoch == Value(s.clients[token].entry.lease.epoch)
    && s.row.expires.Some?
    && s.clients[token].entry.localDeadline + MARGIN_MS <= s.row.expires.value
  }

  /** Overlapping renewals, late replies and lost replies notwithstanding, a client that
      passes the ownership check has 7 s more at the service than it believes, exactly
      unless a revocation took its lease away or its own release has been processed. The
      latter takes work that outlived its operation. */
  lemma OwnersAreBackedExactlyWhen(h: History, token: string)
    requires Begins(h) && Holding(Reached(h), token)
    ensures MARGIN_MS == 7_000
    ensures Backed(Reached(h), token) <==> !Revoked(Reached(h), token) && !Freed(Reached(h), token)
    ensures Freed(Reached(h), token) ==> Reached(h).clients[token].drain.Released?
  {
    ReachedKeeps(h);
    HoldersAreBackedExactlyWhen(Reached(h), token);
  }

  lemma HoldersAreBackedExactlyWhen(s: System, token: string)
    requires Inv(s) && Holding(s, token)
    ensures Backed(s, token) <==> !Revoked(s, token) && !Freed(s, token)
    ensures Freed(s, token) ==> s.clients[token].drain.Released?
  {
    var c := s.clients[token];
    assert ClientOk(s.now, KnownTo(s), s.owners, token, c);
    var e := Value(c.entry.lease.epoch);
    assert OwnershipOk(s.now, s.row.epoch, s.revoked, s.attempts, e, s.owners[e]);
    assert s.revoked < e < s.row.epoch ==> Over(s.now, s.freed, e, s.owners[e]);
  }

  /** Two clients never both pass the ownership check for the shop at the same moment,
      unless the lease of one of them has been revoked or released at the service. */
  lemma OwnersExcludeEachOther(h: History, a: string, b: string)
    requires Begins(h) && Holding(Reached(h), a) && Holding(Reached(h), b)
    requires !Revoked(Reached(h), a) && !Revoked(Reached(h), b)
    requires !Freed(Reached(h), a) && !Freed(Reached(h), b)
    ensures a == b
  {
    OwnersAreBackedExactlyWhen(h, a);
    OwnersAreBackedExactlyWhen(h, b);
  }

  /** So the leases of two operations that have not released exclude each other unless
      revoked. */
  lemma OperationsExcludeEachOther(h: History, a: string, b: string)
    requires Begins(h) && Holding(Reached(h), a) && Holding(Reached(h), b) && a != b
    requires !Reached(h).clients[a].drain.Released? && !Reached(h).clients[b].drain.Released?
    ensures Revoked(Reached(h), a) || Revoked(Reached(h), b)
  {
    OwnersAreBackedExactlyWhen(h, a);
    OwnersAreBackedExactlyWhen(h, b);
  }

  /** A client's log is longer by at most one request. That is a release, or it leaves
      under a lease that the service holds live in the client's name exactly if the lease
      has been neither revoked nor released. */
  predicate LeavesUnderItsLease(s: System, token: string, d: Client)
    requires token in s.clients
  {
    var c := s.clients[token];
    || d.past.log == c.past.log
    || (Sends(c, d)
        && (Sent(c, d).request.Release?
            || (Backed(s, token) && S.Live(s.row, s.now) <==> !Revoked(s, token) && !Freed(s, token))))
  }

  /** Whatever happens next, every request but a release leaves under a lease that the
      service holds live in the sender's name, the exchange with the provider and the
      offline writes included, exactly unless the lease has been revoked or the service
      has processed its release. A client that has just acquired its lease has sent
      nothing. */
  lemma RequestsLeaveUnderLiveLeases(h: History, m: Move, token: string)
    requires Begins(h) && token in Next(Reached(h), m).clients
    ensures
      var s := Reached(h);
      var d := Next(s, m).clients[token];
      if token !in s.clients then d.past.log == [] else LeavesUnderItsLease(s, token, d)
  {
    var s := Reached(h);
    ReachedKeeps(h);
    hide Inv, Next, Step, Taken, LeavesUnderItsLease;
    if token in s.clients {
      var a := Taken(s, m, token);
      ClientMoves(s, m, token);
      if a.None? { NothingLeaves(s, token); } else { ActionLeavesUnderItsLease(s, token, a.value); }
    } else {
      ClientOpens(s, m, token);
    }
  }

  lemma NothingLeaves(s: System, token: string)
    requires token in s.clients
    ensures LeavesUnderItsLease(s, token, s.clients[token])
  {
  }

  lemma ActionLeavesUnderItsLease(s: System, token: string, a: Action)
    requires Inv(s) && token in s.clients && (Clock(a).Some? ==> Clock(a).value == s.now)
    ensures LeavesUnderItsLease(s, token, Step(s.clients[token], a))
  {
    var c := s.clients[token];
    hide Step, Inv, Backed, Revoked, Freed, Owned, S.Live;
    StepSendsOnlyOwned(c, a);
    if Owned(c.entry, s.now) { OwnerIsLive(s, token); }
  }

  lemma OwnerIsLive(s: System, token: string)
    requires Inv(s) && Holding(s, token)
    ensures Backed(s, token) && S.Live(s.row, s.now) <==> !Revoked(s, token) && !Freed(s, token)
  {
    HoldersAreBackedExactlyWhen(s, token);
    hide Inv, Revoked, Freed;
  }

  // ------------------------------------------------------------- no lost update

  /** Every accepted offline write by a session object with a recorded observation
      replaced exactly the properties that this object was recorded with under that
      observation, when it was loaded or last published, with the same revision, digest,
      generation and credential. This covers late writes that reacquired the lease in a
      fresh operation and writes that another overtook during the scope request. */
  lemma NoLostUpdate(h: History, i: nat)
    requires Begins(h) && i < |Reached(h).accepted|
    ensures
      var a := Reached(h).accepted[i];
      && SameObservation(S.Observe(a.row), a.observed)
      && (a.based.Some? ==>
            && a.stored == a.based && a.ref.Some?
            && Memory(a.ref.value, a.observed, a.based.value) in Reached(h).memories)
  {
    ReachedKeeps(h);
    assert WriteOk(Reached(h).memories, Reached(h).accepted[i]);
  }

  /** No version is replaced twice: of any writes made from one observation, however
      often each is processed, at most one is ever accepted. */
  lemma EachVersionIsReplacedOnce(h: History, i: nat, j: nat)
    requires Begins(h) && i < j < |Reached(h).accepted|
    ensures
      var accepted := Reached(h).accepted;
      accepted[i].row.revision < accepted[j].row.revision
        && !SameObservation(accepted[i].observed, accepted[j].observed)
  {
    ReachedKeeps(h);
    var accepted := Reached(h).accepted;
    assert WriteOk(Reached(h).memories, accepted[i]) && WriteOk(Reached(h).memories, accepted[j]);
    assert Value(accepted[i].observed.revision) < Value(accepted[j].observed.revision);
  }

  /** What a session object is recorded as is what the service stored under that
      observation. */
  lemma RecordedVersionsWereStored(h: History, ref: nat)
    requires Begins(h) && ref in Reached(h).sessions
    ensures
      var s := Reached(h);
      var r := s.sessions[ref];
      Get(s.contents, r.observed.sessionDigest) == Some(Some(r.properties))
  {
    ReachedKeeps(h);
    var s := Reached(h);
    assert Recalls(KnownTo(s), ref, s.sessions[ref].observed, Some(s.sessions[ref].properties));
  }

  // ------------------------------------ what a revocation and a release can do

  /** The moves by which an operation acquires an unowned lease. */
  function Acquiring(shop: string, token: string, s: System): seq<Move> {
    var snapshot := Snapshot(S.Observe(s.row), Stored(s));
    [ServeSnapshot(false), BeginAcquisition(token), AskForLease(token, snapshot), ProcessAcquisition(token, 0),
     Open(shop, token, 0, Lease(token, Decimal(s.row.epoch + 1), Decimal(s.row.revision)))]
  }

  predicate Free(s: System, token: string) {
    && !S.Live(s.row, s.now) && s.row.owner != Some(token)
    && s.row.epoch < S.LARGEST_COUNTER && s.row.revision <= S.LARGEST_COUNTER
    && IsHex64(token) && token !in s.attempts && token !in s.clients
  }

  function AfterAcquiring(shop: string, token: string, s: System): System {
    var snapshot := Snapshot(S.Observe(s.row), Stored(s));
    var lease := Lease(token, Decimal(s.row.epoch + 1), Decimal(s.row.revision));
    s.(row := s.row.(owner := Some(token), epoch := s.row.epoch + 1, expires := Some(s.now + S.LEASE_MS)),
       served := s.served + {snapshot},
       attempts := s.attempts[token := Attempt(s.now, [Asked(s.now, snapshot)])],
       owners := s.owners[s.row.epoch + 1 := Ownership(token, s.now + S.LEASE_MS)],
       answers := s.answers + {Answer(token, 0, lease)},
       clients := s.clients[token := Start(shop, snapshot, lease, s.now)])
  }

  lemma GoOne(s: System, m: Move, rest: seq<Move>)
    ensures Go(s, [m] + rest) == Go(Next(s, m), rest)
  {
    assert ([m] + rest)[1..] == rest;
  }

  lemma {:induction false} GoBoth(s: System, first: seq<Move>, second: seq<Move>)
    ensures Go(s, first + second) == Go(Go(s, first), second)
    decreases |first|
  {
    if first == [] {
      assert first + second == second;
    } else {
      assert (first + second)[1..] == first[1..] + second;
      GoBoth(Next(s, first[0]), first[1..], second);
    }
  }

  /** An unowned lease can always be acquired. */
  lemma FreeLeaseIsAcquired(s: System, shop: string, token: string)
    requires Free(s, token)
    ensures Go(s, Acquiring(shop, token, s)) == AfterAcquiring(shop, token, s)
    ensures Holding(AfterAcquiring(shop, token, s), token)
  {
    var snapshot := Snapshot(S.Observe(s.row), Stored(s));
    var lease := Lease(token, Decimal(s.row.epoch + 1), Decimal(s.row.revision));
    GoFive(s, ServeSnapshot(false), BeginAcquisition(token), AskForLease(token, snapshot), ProcessAcquisition(token, 0),
           Open(shop, token, 0, lease));
    AskingAfterServing(s, token, snapshot);
    Granting(s, token, lease);
    Opening(s, shop, token, lease);
    AcquiringPromotes(shop, token, s);
    hide Next, AfterAsking, AfterGranting, Stored, S.Observe, Decimal;
  }

  lemma Granting(s: System, token: string, lease: Lease)
    requires Free(s, token) && lease == Lease(token, Decimal(s.row.epoch + 1), Decimal(s.row.revision))
    ensures Next(AfterAsking(s, token, Snapshot(S.Observe(s.row), Stored(s))), ProcessAcquisition(token, 0))
         == AfterGranting(s, token, lease)
  {
    hide OnAct, OnSave, OnProcess, OnLoad, OnLoadAlone, OnOpen, OnRevoke, OnWriteLegacy, Deposit, OnAskForLease;
    FreeLeaseIsGranted(s, token);
    hide S.Acquire, Decimal, Stored, S.Observe;
  }

  lemma Opening(s: System, shop: string, token: string, lease: Lease)
    requires Free(s, token) && lease == Lease(token, Decimal(s.row.epoch + 1), Decimal(s.row.revision))
    ensures Next(AfterGranting(s, token, lease), Open(shop, token, 0, lease)) == AfterAcquiring(shop, token, s)
  {
    hide OnAct, OnSave, OnProcess, OnLoad, OnLoadAlone, OnRevoke, OnWriteLegacy, Deposit, OnProcessAcquisition;
    FreeLeaseIsGranted(s, token);
    hide S.Acquire, Decimal, Stored, S.Observe, Admits;
  }

  function AfterAsking(s: System, token: string, snapshot: Snapshot): System {
    s.(served := s.served + {snapshot}, attempts := s.attempts[token := Attempt(s.now, [Asked(s.now, snapshot)])])
  }

  lemma AskingAfterServing(s: System, token: string, snapshot: Snapshot)
    requires token !in s.attempts && snapshot == Snapshot(S.Observe(s.row), Stored(s))
    ensures Next(Next(Next(s, ServeSnapshot(false)), BeginAcquisition(token)), AskForLease(token, snapshot))
         == AfterAsking(s, token, snapshot)
  {
    var t := OnBeginAcquisition(OnServeSnapshot(s, false), token);
    assert t.attempts[token].requests + [Asked(s.now, snapshot)] == [Asked(s.now, snapshot)];
    assert t.attempts[token := Attempt(s.now, [Asked(s.now, snapshot)])]
        == s.attempts[token := Attempt(s.now, [Asked(s.now, snapshot)])];
  }

  lemma FreeLeaseIsGranted(s: System, token: string)
    requires Free(s, token)
    ensures
      S.Acquire(s.row, s.now, token, S.Observe(s.row))
        == S.Done((s.row.(owner := Some(token), epoch := s.row.epoch + 1, expires := Some(s.now + S.LEASE_MS)),
                   Lease(token, Decimal(s.row.epoch + 1), Decimal(s.row.revision))))
    ensures Admits(Lease(token, Decimal(s.row.epoch + 1), Decimal(s.row.revision)), token, S.Observe(s.row))
  {
    S.FreeRowIsGranted(s.row, s.now, token);
    S.CountersAreRead(s.row.epoch);
    hide Decimal, NextCounter, S.Counter, IsHex64, S.Acquire;
  }

  function AfterGranting(s: System, token: string, lease: Lease): System {
    AfterAsking(s, token, Snapshot(S.Observe(s.row), Stored(s))).(
      row := s.row.(owner := Some(token), epoch := s.row.epoch + 1, expires := Some(s.now + S.LEASE_MS)),
      owners := s.owners[s.row.epoch + 1 := Ownership(token, s.now + S.LEASE_MS)],
      answers := s.answers + {Answer(token, 0, lease)})
  }

  lemma GoFive(s: System, a: Move, b: Move, c: Move, d: Move, e: Move)
    ensures Go(s, [a, b, c, d, e]) == Next(Next(Next(Next(Next(s, a), b), c), d), e)
  {
    hide Next;
    var s1 := Next(s, a);
    var s2 := Next(s1, b);
    var s3 := Next(s2, c);
    var s4 := Next(s3, d);
    assert [a, b, c, d, e] == [a] + [b, c, d, e] && [b, c, d, e] == [b] + [c, d, e];
    assert [c, d, e] == [c] + [d, e] && [d, e] == [d] + [e] && [e] == [e] + [];
    GoOne(s, a, [b, c, d, e]);
    GoOne(s1, b, [c, d, e]);
    GoOne(s2, c, [d, e]);
    GoOne(s3, d, [e]);
    GoOne(s4, e, []);
  }

  lemma AcquiringPromotes(shop: string, token: string, s: System)
    ensures
      var t := AfterAcquiring(shop, token, s);
      && Holding(t, token) && t.clients[token].entry.lease.epoch == Decimal(s.row.epoch + 1)
      && (forall u :: u in s.clients && u != token ==> u in t.clients && t.clients[u] == s.clients[u])
      && (forall u :: u in t.clients && u != token ==> u in s.clients)
      && (forall u :: u in t.attempts && u != token ==> u in s.attempts)
      && t.row.epoch == s.row.epoch + 1 && t.row.revision == s.row.revision && t.row.digest == s.row.digest
      && t.now == s.now && t.contents == s.contents && t.revoked == s.revoked && t.freed == s.freed
      && t.sessions == s.sessions
  {
    hide Stored, S.Observe;
  }

  /** And the protection is not bought by refusing everything: a write under a lease just
      acquired is accepted, and what it stored is there. */
  lemma FreshWriteIsAccepted(s: System, shop: string, token: string, ref: nat, properties: Properties, digest: string,
                             credential: Option<string>)
    requires Free(s, token) && ref !in s.sessions && digest !in s.contents
    ensures
      var write := [Save(token, 0, ref, properties, false), Process(token, 0, digest, credential, true)];
      var t := Go(s, Acquiring(shop, token, s) + write);
      && |t.accepted| == |s.accepted| + 1
      && t.accepted[|s.accepted|].row.revision == s.row.revision && t.row.revision == s.row.revision + 1
      && Stored(t) == Some(properties)
  {
    FreeLeaseIsAcquired(s, shop, token);
    var t := AfterAcquiring(shop, token, s);
    var save, process := Save(token, 0, ref, properties, false), Process(token, 0, digest, credential, true);
    GoBoth(s, Acquiring(shop, token, s), [save, process]);
    assert [save, process] == [save] + [process] && [process] == [process] + [];
    GoOne(t, save, [process]);
    GoOne(Next(t, save), process, []);
    hide Next, AfterAcquiring, Acquiring, Free, Stored, Go;
    WriteIsAccepted(s, shop, token, ref, properties, digest, credential);
  }

  function FirstWrite(s: System, token: string, ref: nat, properties: Properties): Request {
    Write(ref, properties, s.row.credential, Lease(token, Decimal(s.row.epoch + 1), Decimal(s.row.revision)),
          S.Observe(s.row), None)
  }

  lemma SaveSends(s: System, shop: string, token: string, ref: nat, properties: Properties)
    requires Free(s, token) && ref !in s.sessions
    ensures
      var t := AfterAcquiring(shop, token, s);
      var u := Next(t, Save(token, 0, ref, properties, false));
      && token in u.clients && |u.clients[token].past.log| == 1
      && u.clients[token].past.log[0].request == FirstWrite(s, token, ref, properties)
      && u.row == t.row && u.now == t.now && u.contents == t.contents && u.accepted == t.accepted
  {
    hide OnAct, OnProcess, OnLoad, OnLoadAlone, OnOpen, OnRevoke, OnWriteLegacy, Deposit, OnAskForLease;
    hide Stored, Decimal, Free;
  }

  lemma WriteIsAccepted(s: System, shop: string, token: string, ref: nat, properties: Properties, digest: string,
                        credential: Option<string>)
    requires Free(s, token) && ref !in s.sessions && digest !in s.contents
    ensures
      var u := Next(AfterAcquiring(shop, token, s), Save(token, 0, ref, properties, false));
      var v := Next(u, Process(token, 0, digest, credential, true));
      && |v.accepted| == |s.accepted| + 1
      && v.accepted[|s.accepted|].row.revision == s.row.revision && v.row.revision == s.row.revision + 1
      && Stored(v) == Some(properties)
  {
    SaveSends(s, shop, token, ref, properties);
    var t := AfterAcquiring(shop, token, s);
    AcquiringPromotes(shop, token, s);
    AcquiredRow(shop, token, s);
    S.OwnerWrites(t.row, t.now, token, S.Observe(s.row), digest, credential);
    var u := Next(t, Save(token, 0, ref, properties, false));
    WriteIsProcessed(u, token, FirstWrite(s, token, ref, properties), digest, credential);
    hide Next, Decimal, S.WriteOffline, AfterAcquiring, Stored, Free;
  }

  lemma AcquiredRow(shop: string, token: string, s: System)
    ensures
      var t := AfterAcquiring(shop, token, s);
      && t.row == s.row.(owner := Some(token), epoch := s.row.epoch + 1, expires := Some(s.now + S.LEASE_MS))
      && t.accepted == s.accepted
  {
    hide Stored, S.Observe;
  }

  lemma WriteIsProcessed(u: System, token: string, r: Request, digest: string, credential: Option<string>)
    requires token in u.clients && |u.clients[token].past.log| == 1 && u.clients[token].past.log[0].request == r
    requires r.Write? && digest !in u.contents
    requires S.WriteOffline(u.row, u.now, r.lease, r.observed, r.expectedHash, digest, credential).Done?
    ensures
      var v := Next(u, Process(token, 0, digest, credential, true));
      var row := S.WriteOffline(u.row, u.now, r.lease, r.observed, r.expectedHash, digest, credential).value.0;
      && v.row == row
      && v.accepted
           == u.accepted + [Accepted(Some(r.ref), r.observed, r.based, Some(r.properties), u.row, Stored(u))]
      && (row.digest == digest ==> Stored(v) == Some(r.properties))
  {
    hide S.WriteOffline;
  }

  lemma RevokingFrees(s: System)
    requires s.row.epoch < S.LARGEST_COUNTER && s.row.revision < S.LARGEST_COUNTER
          && Fits(s.contents, s.row.digest, None)
    ensures
      var t := Next(s, Revoke(s.row.digest, None));
      && t.row.owner.None? && t.row.expires.None?
      && t.row.epoch == s.row.epoch + 1 && t.row.revision == s.row.revision + 1
      && t.clients == s.clients && t.attempts == s.attempts && t.now == s.now && t.revoked == t.row.epoch
      && t.freed == s.freed
  {
  }

  lemma FreedForAnother(s: System, shop: string, a: string, b: string)
    requires Free(s, a) && s.row.epoch == 0 && s.row.revision == 0 && Fits(s.contents, s.row.digest, None)
    requires a != b && IsHex64(b) && b !in s.attempts && b !in s.clients
    ensures
      var t := AfterAcquiring(shop, a, s);
      var u := Next(t, Revoke(s.row.digest, None));
      && Free(u, b) && u.revoked == u.row.epoch == 2 && u.now == s.now
      && a in u.clients && Holding(u, a) && u.clients[a].entry.lease.epoch == Decimal(1) && u.freed == s.freed
  {
    AcquiringPromotes(shop, a, s);
    hide AfterAcquiring;
    RevokingFrees(AfterAcquiring(shop, a, s));
    hide Next, IsHex64, Owned;
  }

  /** The exception is real: a lease revoked just after it was acquired can be acquired
      again at once, and then two operations pass the ownership check. */
  lemma RevocationBreaksExclusion(shop: string, a: string, b: string, now: int)
    requires IsHex64(a) && IsHex64(b) && a != b
    ensures
      exists h: History :: Begins(h) && Holding(Reached(h), a) && Holding(Reached(h), b)
                        && Revoked(Reached(h), a) && !Revoked(Reached(h), b)
                        && !Freed(Reached(h), a) && !Freed(Reached(h), b)
  {
    hide AfterAcquiring, Acquiring, Next, Holding;
    var revoke := Revoke("missing", None);
    var s0 := Initial(now, S.Row(0, 0, None, None, "missing", None, None), None);
    assert Free(s0, a) && Begins(History(now, s0.row, None, []));
    FreeLeaseIsAcquired(s0, shop, a);
    FreedForAnother(s0, shop, a, b);
    hide Free, Initial;
    var s1 := AfterAcquiring(shop, a, s0);
    var s2 := Next(s1, revoke);
    FreeLeaseIsAcquired(s2, shop, b);
    AcquiringPromotes(shop, b, s2);
    GoBoth(s0, Acquiring(shop, a, s0), [revoke] + Acquiring(shop, b, s2));
    GoOne(s1, revoke, Acquiring(shop, b, s2));
    var h := History(now, s0.row, None, Acquiring(shop, a, s0) + ([revoke] + Acquiring(shop, b, s2)));
    assert Reached(h) == AfterAcquiring(shop, b, s2);
    StillHolding(s2, Reached(h), a);
  }

  lemma StillHolding(s: System, t: System, token: string)
    requires Holding(s, token) && token in t.clients && t.clients[token] == s.clients[token] && t.now == s.now
    ensures Holding(t, token)
  {
  }

  /** Work that outlives its operation: a save waits for the scopes of the session while
      the operation closes and releases its lease, and the service frees it. */
  function Outliving(token: string, ref: nat, properties: Properties, now: int): seq<Move> {
    [Save(token, 0, ref, properties, true), Act(token, Close), Act(token, StopHeartbeat), Act(token, SendRelease(now)),
     Process(token, 0, "", None, true)]
  }

  function Outlived(shop: string, snapshot: Snapshot, lease: Lease, ref: nat, now: int): Client {
    var waiting := Task(Elsewhere, Scoping(ref, snapshot.observed, None));
    var c := Start(shop, snapshot, lease, now);
    c.(closed := true, drain := Released, tasks := map[0 := waiting],
       past := c.past.(log := [Dispatch(now, Release(lease), 0, 0)]))
  }

  lemma SaveWaits(s: System, token: string, shop: string, snapshot: Snapshot, lease: Lease, ref: nat,
                  properties: Properties)
    requires token in s.clients && s.clients[token] == Start(shop, snapshot, lease, s.now) && ref !in s.sessions
    ensures
      var c := Put(Start(shop, snapshot, lease, s.now), 0, Elsewhere, Scoping(ref, snapshot.observed, None));
      Next(s, Save(token, 0, ref, properties, true))
        == s.(clients := s.clients[token := c], saving := s.saving[(token, 0) := ref])
  {
  }

  lemma ActOnly(s: System, token: string, a: Action)
    requires Possible(s, token, a) && !a.Receive?
    ensures Next(s, Act(token, a)) == s.(clients := s.clients[token := Step(s.clients[token], a)])
  {
    hide Step, Possible;
  }

  lemma ReleaseIsProcessed(s: System, token: string, lease: Lease)
    requires token in s.clients && |s.clients[token].past.log| == 1
    requires s.clients[token].past.log[0].request == Release(lease) && S.Names(s.row, lease)
    ensures Next(s, Process(token, 0, "", None, true))
         == s.(row := s.row.(expires := None), freed := s.freed + {s.row.epoch})
  {
    hide S.Names;
  }

  lemma OutlivingSteps(c0: Client, c1: Client, c2: Client, c3: Client, now: int)
    requires c0.drain.Running? && c0.entry.renewal.None? && c0.past.log == [] && c0.past.trace == []
    requires c0.past.grants == []
    requires c1 == c0.(closed := true) && c2 == c1.(drain := Draining(None))
    requires c3 == c2.(drain := Released, past := c0.past.(log := [Dispatch(now, Release(c0.entry.lease), 0, 0)]))
    ensures Step(c0, Close) == c1 && Step(c1, StopHeartbeat) == c2 && Step(c2, SendRelease(now)) == c3
  {
  }

  lemma OperationIsOutlived(s: System, token: string, shop: string, snapshot: Snapshot, lease: Lease, ref: nat,
                            properties: Properties)
    requires token in s.clients && s.clients[token] == Start(shop, snapshot, lease, s.now) && ref !in s.sessions
    requires S.Names(s.row, lease)
    ensures Go(s, Outliving(token, ref, properties, s.now))
         == s.(clients := s.clients[token := Outlived(shop, snapshot, lease, ref, s.now)],
               saving := s.saving[(token, 0) := ref], row := s.row.(expires := None), freed := s.freed + {s.row.epoch})
  {
    var c0 := Put(Start(shop, snapshot, lease, s.now), 0, Elsewhere, Scoping(ref, snapshot.observed, None));
    var c1 := c0.(closed := true);
    var c2 := c1.(drain := Draining(None));
    var c3 := Outlived(shop, snapshot, lease, ref, s.now);
    OutlivingSteps(c0, c1, c2, c3, s.now);
    GoFive(s, Save(token, 0, ref, properties, true), Act(token, Close), Act(token, StopHeartbeat),
           Act(token, SendRelease(s.now)), Process(token, 0, "", None, true));
    SaveWaits(s, token, shop, snapshot, lease, ref, properties);
    var t := s.(saving := s.saving[(token, 0) := ref]);
    hide Step, S.Names, Next, Go;
    ActOnly(t.(clients := s.clients[token := c0]), token, Close);
    ActOnly(t.(clients := s.clients[token := c1]), token, StopHeartbeat);
    ActOnly(t.(clients := s.clients[token := c2]), token, SendRelease(s.now));
    assert s.clients[token := c0][token := c1] == s.clients[token := c1];
    assert s.clients[token := c1][token := c2] == s.clients[token := c2];
    assert s.clients[token := c2][token := c3] == s.clients[token := c3];
    ReleaseIsProcessed(t.(clients := s.clients[token := c3]), token, lease);
  }

  /** The client of `a` still writes when the scopes it waited for arrive. */
  predicate WritesLate(s: System, a: string, m: Move)
    requires a in s.clients
  {
    && a in Next(s, m).clients
    && var d := Next(s, m).clients[a];
    && Sends(s.clients[a], d) && Sent(s.clients[a], d).request.Write? && !Backed(s, a)
  }

  lemma OutlivedWrites(s: System, a: string, shop: string, snapshot: Snapshot, lease: Lease, ref: nat,
                       properties: Properties)
    requires a in s.clients && s.clients[a] == Outlived(shop, snapshot, lease, ref, s.now) && !Backed(s, a)
    ensures Holding(s, a) && WritesLate(s, a, Act(a, Receive(0, s.now, Scopes(properties))))
  {
    var action := Receive(0, s.now, Scopes(properties));
    var c := s.clients[a];
    assert Owned(c.entry, s.now) && 0 in c.tasks;
    assert Step(c, action) == Writing(c, 0, s.now, ref, snapshot.observed, None, properties);
    hide Step, Backed;
    ActLeaves(s, a, action);
  }

  lemma FirstLeaseIsNamed(s: System, shop: string, a: string)
    requires s.row.epoch == 0 && s.row.revision == 0
    ensures
      var t := AfterAcquiring(shop, a, s);
      var lease := Lease(a, Decimal(1), Decimal(0));
      && a in t.clients && t.clients[a] == Start(shop, Snapshot(S.Observe(s.row), Stored(s)), lease, s.now)
      && t.row.owner == Some(a) && S.Names(t.row, lease)
  {
    S.CountersAreRead(1);
    hide Decimal, Stored, S.Observe, S.Counter, NextCounter;
  }

  lemma ReleasedForAnother(s: System, shop: string, a: string, b: string, ref: nat, properties: Properties)
    requires Free(s, a) && s.row.epoch == 0 && s.row.revision == 0 && ref !in s.sessions
    requires a != b && IsHex64(b) && b !in s.attempts && b !in s.clients
    ensures
      var t := AfterAcquiring(shop, a, s);
      var u := Go(t, Outliving(a, ref, properties, s.now));
      var snapshot := Snapshot(S.Observe(s.row), Stored(s));
      && Free(u, b) && u.freed == s.freed + {1} && u.revoked == s.revoked && u.row.epoch == 1 && u.now == s.now
      && a in u.clients
      && u.clients[a] == Outlived(shop, snapshot, Lease(a, Decimal(1), Decimal(0)), ref, s.now)
  {
    hide AfterAcquiring, Outlived, Go, Decimal, Stored, S.Observe, S.Names, IsHex64, Outliving, Holding;
    var t := AfterAcquiring(shop, a, s);
    var snapshot := Snapshot(S.Observe(s.row), Stored(s));
    AcquiringPromotes(shop, a, s);
    FirstLeaseIsNamed(s, shop, a);
    OperationIsOutlived(t, a, shop, snapshot, Lease(a, Decimal(1), Decimal(0)), ref, properties);
  }

  /** Both pass the ownership check, and only a release stands between them. */
  predicate BothPass(s: System, a: string, b: string) {
    Holding(s, a) && Holding(s, b) && !Revoked(s, a) && !Revoked(s, b) && Freed(s, a) && !Freed(s, b)
  }

  lemma AnotherPasses(s: System, shop: string, a: string, b: string, snapshot: Snapshot, lease: Lease, ref: nat)
    requires Free(s, b) && s.freed == {1} && s.revoked == 0 && s.row.epoch == 1 && a != b
    requires a in s.clients && s.clients[a] == Outlived(shop, snapshot, lease, ref, s.now) && lease.epoch == Decimal(1)
    ensures
      var t := AfterAcquiring(shop, b, s);
      BothPass(t, a, b) && a in t.clients && t.clients[a] == s.clients[a] && t.now == s.now
  {
    AcquiringPromotes(shop, b, s);
    var t := AfterAcquiring(shop, b, s);
    OutlivedLease(s, a, shop, snapshot, lease, ref);
    OutlivedLease(t, a, shop, snapshot, lease, ref);
    hide AfterAcquiring, Outlived, Holding, Free, Decimal;
  }

  lemma OutlivedLease(s: System, a: string, shop: string, snapshot: Snapshot, lease: Lease, ref: nat)
    requires a in s.clients && s.clients[a] == Outlived(shop, snapshot, lease, ref, s.now)
    ensures s.clients[a].entry.lease == lease && Holding(s, a)
  {
  }

  function Unowned(now: int): System {
    Initial(now, S.Row(0, 0, None, None, "missing", None, None), None)
  }

  /** `b` has acquired the lease after the operation of `a` was outlived. */
  function AfterOutliving(shop: string, a: string, b: string, now: int, ref: nat, properties: Properties): System {
    AfterAcquiring(shop, b, Go(AfterAcquiring(shop, a, Unowned(now)), Outliving(a, ref, properties, now)))
  }

  lemma OutlivingIsReached(shop: string, a: string, b: string, now: int, ref: nat,
                           properties: Properties) returns (h: History)
    requires IsHex64(a) && IsHex64(b) && a != b
    ensures Begins(h) && Reached(h) == AfterOutliving(shop, a, b, now, ref, properties)
  {
    var s0 := Unowned(now);
    assert Free(s0, a) && Begins(History(now, s0.row, None, []));
    hide AfterAcquiring, Acquiring, Next, Outliving, Outlived, Stored, IsHex64;
    FreeLeaseIsAcquired(s0, shop, a);
    ReleasedForAnother(s0, shop, a, b, ref, properties);
    hide Free, Holding;
    var work := Outliving(a, ref, properties, now);
    var s2 := Go(AfterAcquiring(shop, a, s0), work);
    FreeLeaseIsAcquired(s2, shop, b);
    GoBoth(s0, Acquiring(shop, a, s0), work + Acquiring(shop, b, s2));
    GoBoth(AfterAcquiring(shop, a, s0), work, Acquiring(shop, b, s2));
    h := History(now, s0.row, None, Acquiring(shop, a, s0) + (work + Acquiring(shop, b, s2)));
  }

  /** So is the other: a save that outlives its operation passes the ownership check after
      the service has freed the lease, while another operation holds it, and its write
      then leaves. No revocation is involved. */
  lemma ReleaseBreaksExclusion(shop: string, a: string, b: string, now: int, ref: nat, properties: Properties)
    requires IsHex64(a) && IsHex64(b) && a != b
    ensures
      exists h: History, m: Move :: Begins(h) && BothPass(Reached(h), a, b) && WritesLate(Reached(h), a, m)
  {
    UnownedIsFree(now, a, ref);
    hide Unowned, Free, Go, Reached, BothPass, Freed, Revoked, Holding;
    hide AfterAcquiring, Next, Outliving, Outlived, Stored, Backed, WritesLate, IsHex64;
    var s0 := Unowned(now);
    var snapshot := Snapshot(S.Observe(s0.row), Stored(s0));
    var lease := Lease(a, Decimal(1), Decimal(0));
    var h := OutlivingIsReached(shop, a, b, now, ref, properties);
    ReleasedForAnother(s0, shop, a, b, ref, properties);
    AnotherPasses(Go(AfterAcquiring(shop, a, s0), Outliving(a, ref, properties, now)), shop, a, b, snapshot, lease,
                  ref);
    OwnersAreBackedExactlyWhen(h, a);
    FreedIsNotBacked(Reached(h), a, b);
    OutlivedWrites(Reached(h), a, shop, snapshot, lease, ref, properties);
  }

  lemma UnownedIsFree(now: int, a: string, ref: nat)
    requires IsHex64(a)
    ensures
      var s := Unowned(now);
      && Free(s, a) && s.row.epoch == 0 && s.row.revision == 0 && ref !in s.sessions && s.now == now
      && s.attempts == map[] && s.clients == map[] && s.freed == {} && s.revoked == 0
  {
  }

  lemma FreedIsNotBacked(s: System, a: string, b: string)
    requires BothPass(s, a, b) && (Backed(s, a) <==> !Revoked(s, a) && !Freed(s, a))
    ensures Holding(s, a) && !Backed(s, a) && a in s.clients
  {
    hide Backed, Revoked;
  }
}
