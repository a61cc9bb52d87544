/** The invariant of the lease system, kept by every move. */
module SystemRuns {
  import opened Wrappers
  import opened Contract
  import opened SessionEntry
  import opened SessionClient
  import opened ClientFence
  import opened ClientWire
  import opened LeaseSystem
  import S = Coordinator

  /** What is left of the service's term when the client's own deadline passes, after
      the longest acquisition. */
  const MARGIN_MS: int := S.LEASE_MS - LOCAL_OWNERSHIP_MS - ACQUISITION_BUDGET_MS

  type Clients = map<string, Client>
  type Owners = map<nat, Ownership>

  // -------------------------------------------------------------- the invariant

  predicate ReleasedBy(clients: Clients, token: string) {
    token in clients && clients[token].drain.Released?
  }

  /** `lease` is the ownership that the service gave to its token. */
  predicate Owns(owners: Owners, lease: Lease) {
    AllDigits(lease.epoch) && Value(lease.epoch) in owners && owners[Value(lease.epoch)].token == lease.token
  }

  function Horizon(owners: Owners, lease: Lease): int
    requires Owns(owners, lease)
  {
    owners[Value(lease.epoch)].horizon
  }

  predicate OwnershipOk(now: int, epoch: nat, revoked: nat, attempts: map<string, Attempt>, e: nat, o: Ownership) {
    && 1 <= e <= epoch && e != revoked
    && o.horizon <= now + S.LEASE_MS
    && o.token in attempts && attempts[o.token].began + S.LEASE_MS <= o.horizon
  }

  /** An ownership that is not the latest is over, freed by its release, or revoked. */
  predicate Over(now: int, freed: set<nat>, e: nat, o: Ownership) {
    o.horizon <= now || e in freed
  }

  predicate OwnersOk(now: int, epoch: nat, revoked: nat, attempts: map<string, Attempt>, freed: set<nat>,
                     owners: Owners) {
    && revoked <= epoch
    && (forall e :: e in owners ==> OwnershipOk(now, epoch, revoked, attempts, e, owners[e]))
    && (forall e :: e in owners && revoked < e < epoch ==> Over(now, freed, e, owners[e]))
  }

  predicate RowOk(row: S.Row, freed: set<nat>, owners: Owners) {
    if row.epoch in owners
    then
      var o := owners[row.epoch];
      row.owner == Some(o.token) && row.expires == if row.epoch in freed then None else Some(o.horizon)
    else row.owner.None? && row.expires.None?
  }

  /** Only its holder's release frees an ownership. */
  predicate FreedOk(clients: Clients, owners: Owners, freed: set<nat>) {
    forall e :: e in freed ==> e in owners && ReleasedBy(clients, owners[e].token)
  }

  predicate AttemptOk(now: int, served: set<Snapshot>, a: Attempt) {
    && a.began <= now
    && forall i :: 0 <= i < |a.requests| ==>
         a.requests[i].at < a.began + ACQUISITION_BUDGET_MS && a.requests[i].snapshot in served
  }

  predicate AttemptsOk(now: int, served: set<Snapshot>, attempts: map<string, Attempt>) {
    forall t :: t in attempts ==> AttemptOk(now, served, attempts[t])
  }

  predicate AnswersOk(owners: Owners, answers: set<Answer>) {
    forall a :: a in answers ==> a.lease.token == a.token && Owns(owners, a.lease)
  }

  predicate ClientOk(now: int, known: Known, owners: Owners, t: string, c: Client) {
    && Wired(known, c)
    && c.entry.lease.token == t && Owns(owners, c.entry.lease)
    && c.entry.localDeadline + MARGIN_MS <= Horizon(owners, c.entry.lease)
    && forall k :: 0 <= k < |c.past.log| ==> c.past.log[k].at <= now
  }

  predicate ClientsOk(now: int, known: Known, owners: Owners, clients: Clients) {
    forall t :: t in clients ==> ClientOk(now, known, owners, t, clients[t])
  }

  predicate RenewalOk(owners: Owners, c: Client, k: nat) {
    && k < |c.past.log| && Owns(owners, c.entry.lease)
    && c.past.log[k].at + S.LEASE_MS <= Horizon(owners, c.entry.lease)
  }

  predicate RenewedOk(owners: Owners, clients: Clients, renewed: set<(string, nat)>) {
    forall r :: r in renewed ==> r.0 in clients && RenewalOk(owners, clients[r.0], r.1)
  }

  predicate FenceOk(contents: Contents, c: Client, k: nat, fence: Fence) {
    && k < |c.past.log|
    && (c.past.log[k].request.Write? ==> Stands(contents, fence.observed, Some(c.past.log[k].request.properties)))
  }

  predicate FencesOk(contents: Contents, clients: Clients, fences: set<(string, nat, Fence)>) {
    forall f :: f in fences ==> f.0 in clients && FenceOk(contents, clients[f.0], f.1, f.2)
  }

  predicate ReadOk(known: Known, served: set<Snapshot>, sessions: map<nat, Recorded>) {
    && (forall p :: p in served ==> Stands(known.contents, p.observed, p.properties))
    && (forall r :: r in sessions ==> Recalls(known, r, sessions[r].observed, Some(sessions[r].properties)))
  }

  predicate WriteOk(memories: set<Memory>, a: Accepted) {
    && SameObservation(S.Observe(a.row), a.observed)
    && (a.based.Some? ==>
          a.stored == a.based && a.ref.Some? && Memory(a.ref.value, a.observed, a.based.value) in memories)
  }

  predicate AcceptedOk(revision: nat, memories: set<Memory>, accepted: seq<Accepted>) {
    && (forall i :: 0 <= i < |accepted| ==> WriteOk(memories, accepted[i]) && accepted[i].row.revision < revision)
    && (forall i, j :: 0 <= i < j < |accepted| ==> accepted[i].row.revision < accepted[j].row.revision)
  }

  predicate Inv(s: System) {
    && OwnersOk(s.now, s.row.epoch, s.revoked, s.attempts, s.freed, s.owners)
    && RowOk(s.row, s.freed, s.owners)
    && FreedOk(s.clients, s.owners, s.freed)
    && AttemptsOk(s.now, s.served, s.attempts)
    && AnswersOk(s.owners, s.answers)
    && ClientsOk(s.now, KnownTo(s), s.owners, s.clients)
    && RenewedOk(s.owners, s.clients, s.renewed)
    && FencesOk(s.contents, s.clients, s.fences)
    && ReadOk(KnownTo(s), s.served, s.sessions)
    && s.row.digest in s.contents
    && AcceptedOk(s.row.revision, s.memories, s.accepted)
  }

  // ------------------------------------------------------------- what only grows

  /** Terms only grow, and whose they are does not change. */
  predicate Prolonged(owners: Owners, more: Owners) {
    forall e :: e in owners ==> e in more && more[e].token == owners[e].token && owners[e].horizon <= more[e].horizon
  }

  lemma ClientsStayOk(now: int, later: int, known: Known, more: Known, owners: Owners, longer: Owners,
                      clients: Clients)
    requires ClientsOk(now, known, owners, clients)
    requires now <= later && MoreKnown(known, more) && Prolonged(owners, longer)
    ensures ClientsOk(later, more, longer, clients)
  {
    forall t | t in clients ensures ClientOk(later, more, longer, t, clients[t]) {
      assert ClientOk(now, known, owners, t, clients[t]);
      StaysWired(known, more, clients[t]);
    }
  }

  lemma RenewedStaysOk(owners: Owners, longer: Owners, clients: Clients, renewed: set<(string, nat)>)
    requires RenewedOk(owners, clients, renewed) && Prolonged(owners, longer)
    ensures RenewedOk(longer, clients, renewed)
  {
    forall r | r in renewed ensures RenewalOk(longer, clients[r.0], r.1) {
      assert RenewalOk(owners, clients[r.0], r.1);
    }
  }

  lemma FencesStayOk(contents: Contents, more: Contents, clients: Clients, fences: set<(string, nat, Fence)>)
    requires FencesOk(contents, clients, fences) && Larger(contents, more)
    ensures FencesOk(more, clients, fences)
  {
    forall f | f in fences ensures FenceOk(more, clients[f.0], f.1, f.2) {
      assert FenceOk(contents, clients[f.0], f.1, f.2);
    }
  }

  // ------------------------------------------------------------------- the moves

  lemma TickKeeps(s: System, until: int)
    requires Inv(s) && s.now <= until
    ensures Inv(s.(now := until))
  {
    ClientsStayOk(s.now, until, KnownTo(s), KnownTo(s), s.owners, s.owners, s.clients);
    hide ClientsOk, RenewedOk, FencesOk, AcceptedOk;
  }

  lemma ServeKeeps(s: System, masked: bool)
    requires Inv(s)
    ensures Inv(OnServeSnapshot(s, masked))
  {
    hide ClientsOk, RenewedOk, FencesOk, AcceptedOk, OwnersOk;
    assert AttemptsOk(s.now, OnServeSnapshot(s, masked).served, s.attempts) by {
      forall t | t in s.attempts ensures AttemptOk(s.now, OnServeSnapshot(s, masked).served, s.attempts[t]) {
        assert AttemptOk(s.now, s.served, s.attempts[t]);
      }
    }
  }

  lemma AttemptKeeps(s: System, token: string, a: Attempt)
    requires Inv(s) && AttemptOk(s.now, s.served, a)
    requires token in s.attempts ==> a.began == s.attempts[token].began
    ensures Inv(s.(attempts := s.attempts[token := a]))
  {
    hide ClientsOk, RenewedOk, FencesOk, AcceptedOk, AttemptOk;
    forall e | e in s.owners
      ensures OwnershipOk(s.now, s.row.epoch, s.revoked, s.attempts[token := a], e, s.owners[e]) {
      assert OwnershipOk(s.now, s.row.epoch, s.revoked, s.attempts, e, s.owners[e]);
    }
  }

  lemma AskKeeps(s: System, token: string, snapshot: Snapshot)
    requires Inv(s)
    ensures Inv(OnAskForLease(s, token, snapshot))
  {
    if token in s.attempts && snapshot in s.served && s.now < s.attempts[token].began + ACQUISITION_BUDGET_MS {
      var a := s.attempts[token];
      assert AttemptOk(s.now, s.served, a);
      hide Inv;
      AttemptKeeps(s, token, a.(requests := a.requests + [Asked(s.now, snapshot)]));
    }
  }

  lemma AcquisitionKeeps(s: System, token: string, request: nat)
    requires Inv(s)
    ensures Inv(OnProcessAcquisition(s, token, request))
  {
    if token !in s.attempts || request >= |s.attempts[token].requests| { return; }
    assert AttemptOk(s.now, s.served, s.attempts[token]);
    var observed := s.attempts[token].requests[request].snapshot.observed;
    var outcome := S.Acquire(s.row, s.now, token, observed);
    hide Inv, S.Acquire, AttemptOk, Admit, S.Observe;
    if outcome.Done? {
      S.AcquireChangesOwnerOnce(s.row, s.now, token, observed);
      AcquiredKeeps(s, token, request, observed, outcome.value.0, outcome.value.1);
    }
  }

  lemma AcquiredKeeps(s: System, token: string, request: nat, observed: Observation, row: S.Row, lease: Lease)
    requires Inv(s) && token in s.attempts && AttemptOk(s.now, s.served, s.attempts[token])
    requires row.owner == Some(token) && lease.token == token && S.Admitted(row, lease, observed)
    requires row == s.row
          || (!S.Live(s.row, s.now)
              && row == s.row.(owner := Some(token), epoch := s.row.epoch + 1, expires := Some(s.now + S.LEASE_MS)))
    ensures Inv(Admit(s, token, request, row, lease))
  {
    if row == s.row {
      hide ClientsOk, RenewedOk, FencesOk, AcceptedOk, AttemptsOk, OwnersOk;
      assert AnswersOk(s.owners, s.answers + {Answer(token, request, lease)});
    } else {
      NewOwnerKeeps(s, token, request, observed, row, lease);
    }
  }

  lemma NewOwnerKeeps(s: System, token: string, request: nat, observed: Observation, row: S.Row, lease: Lease)
    requires Inv(s) && token in s.attempts && AttemptOk(s.now, s.served, s.attempts[token])
    requires row.owner == Some(token) && lease.token == token && S.Admitted(row, lease, observed)
    requires !S.Live(s.row, s.now)
    requires row == s.row.(owner := Some(token), epoch := s.row.epoch + 1, expires := Some(s.now + S.LEASE_MS))
    ensures Inv(Admit(s, token, request, row, lease))
  {
    var owners := s.owners[row.epoch := Ownership(token, s.now + S.LEASE_MS)];
    EpochIsNew(s, row.epoch);
    assert Prolonged(s.owners, owners);
    ClientsStayOk(s.now, s.now, KnownTo(s), KnownTo(s), s.owners, owners, s.clients);
    RenewedStaysOk(s.owners, owners, s.clients, s.renewed);
    NewOwnershipKeeps(s, row, owners, token);
    hide ClientsOk, RenewedOk, FencesOk, AcceptedOk, AttemptsOk, OwnersOk, RowOk, ReadOk, AttemptOk;
    assert AnswersOk(owners, s.answers + {Answer(token, request, lease)});
  }

  lemma EpochIsNew(s: System, epoch: nat)
    requires Inv(s) && epoch > s.row.epoch
    ensures epoch !in s.owners && epoch !in s.freed
  {
    assert forall e :: e in s.owners ==> OwnershipOk(s.now, s.row.epoch, s.revoked, s.attempts, e, s.owners[e]);
    hide ClientsOk, RenewedOk, FencesOk, AcceptedOk, AttemptsOk, RowOk, ReadOk;
  }

  lemma NewOwnershipKeeps(s: System, row: S.Row, owners: Owners, token: string)
    requires OwnersOk(s.now, s.row.epoch, s.revoked, s.attempts, s.freed, s.owners)
          && RowOk(s.row, s.freed, s.owners)
    requires row.epoch !in s.freed
    requires token in s.attempts && s.attempts[token].began <= s.now
    requires !S.Live(s.row, s.now)
    requires row == s.row.(owner := Some(token), epoch := s.row.epoch + 1, expires := Some(s.now + S.LEASE_MS))
    requires row.epoch !in s.owners && owners == s.owners[row.epoch := Ownership(token, s.now + S.LEASE_MS)]
    ensures OwnersOk(s.now, row.epoch, s.revoked, s.attempts, s.freed, owners)
    ensures RowOk(row, s.freed, owners)
  {
    forall e | e in owners ensures OwnershipOk(s.now, row.epoch, s.revoked, s.attempts, e, owners[e]) {
      if e in s.owners { assert OwnershipOk(s.now, s.row.epoch, s.revoked, s.attempts, e, s.owners[e]); }
    }
    forall e | e in owners && s.revoked < e < row.epoch ensures Over(s.now, s.freed, e, owners[e]) {
      if e < s.row.epoch { assert Over(s.now, s.freed, e, s.owners[e]); }
    }
  }

  lemma OpenKeeps(s: System, shop: string, token: string, request: nat, lease: Lease)
    requires Inv(s)
    ensures Inv(OnOpen(s, shop, token, request, lease))
  {
    if Answer(token, request, lease) in s.answers && token in s.attempts && request < |s.attempts[token].requests|
       && token !in s.clients && s.now < s.attempts[token].began + ACQUISITION_BUDGET_MS
    {
      var asked := s.attempts[token].requests[request];
      if Admits(lease, token, asked.snapshot.observed) {
        assert AttemptOk(s.now, s.served, s.attempts[token]);
        assert OwnershipOk(s.now, s.row.epoch, s.revoked, s.attempts, Value(lease.epoch), s.owners[Value(lease.epoch)]);
        var c := Start(shop, asked.snapshot, lease, asked.at);
        assert Wired(KnownTo(s), c);
        assert ClientOk(s.now, KnownTo(s), s.owners, token, c);
        NewClientKeeps(s, token, c);
      }
    }
  }

  lemma NewClientKeeps(s: System, token: string, c: Client)
    requires Inv(s) && token !in s.clients && ClientOk(s.now, KnownTo(s), s.owners, token, c)
    ensures Inv(s.(clients := s.clients[token := c]))
  {
    hide ClientOk, AcceptedOk, AttemptsOk, OwnersOk, RowOk;
  }

  // --------------------------------------------------------- a client takes a step

  /** Requests and ownership of a client only change as one action may change them. */
  predicate Follows(c: Client, d: Client, now: int) {
    && c.past.log <= d.past.log
    && (forall k :: |c.past.log| <= k < |d.past.log| ==> d.past.log[k].at <= now)
    && d.entry.lease.token == c.entry.lease.token && d.entry.lease.epoch == c.entry.lease.epoch
    && (c.drain.Released? ==> d.drain.Released?)
  }

  lemma StepFollows(c: Client, a: Action, now: int)
    requires Clock(a).Some? ==> Clock(a).value == now
    ensures Follows(c, Step(c, a), now)
    ensures !a.Settle? ==> Step(c, a).entry.localDeadline == c.entry.localDeadline
  {
    hide Step, ValidAcknowledgement;
    StepMovesFence(c, a);
    StepSendsOnlyOwned(c, a);
    if a.Receive? && Committed(c, Step(c, a), a.reply) { AcknowledgedKeepsLease(c, a.reply); }
  }

  lemma AcknowledgedKeepsLease(c: Client, reply: Reply)
    requires Acknowledges(c, reply)
    ensures reply.fence.lease.token == c.entry.lease.token && reply.fence.lease.epoch == c.entry.lease.epoch
  {
  }

  lemma ChangedClientKeeps(s: System, token: string, d: Client, saving: map<(string, nat), nat>)
    requires Inv(s) && token in s.clients && Follows(s.clients[token], d, s.now) && Wired(KnownTo(s), d)
    requires Owns(s.owners, d.entry.lease)
    requires d.entry.localDeadline + MARGIN_MS <= Horizon(s.owners, d.entry.lease)
    ensures Inv(s.(clients := s.clients[token := d], saving := saving))
  {
    var clients := s.clients[token := d];
    assert ClientOk(s.now, KnownTo(s), s.owners, token, s.clients[token]);
    hide Wired, AcceptedOk, AttemptsOk, ReadOk, OwnersOk, RowOk;
    assert ClientOk(s.now, KnownTo(s), s.owners, token, d);
    forall r | r in s.renewed ensures RenewalOk(s.owners, clients[r.0], r.1) {
      assert RenewalOk(s.owners, s.clients[r.0], r.1);
    }
    forall f | f in s.fences ensures FenceOk(s.contents, clients[f.0], f.1, f.2) {
      assert FenceOk(s.contents, s.clients[f.0], f.1, f.2);
    }
  }

  lemma ActionIsGenuine(s: System, token: string, a: Action)
    requires Inv(s) && Possible(s, token, a)
    ensures Genuine(KnownTo(s), s.clients[token], a)
  {
    var c := s.clients[token];
    if a.Receive? && a.reply.Fenced? && a.task in c.tasks && c.tasks[a.task].stage.Committing? {
      var k := c.tasks[a.task].stage.write;
      var f := (token, k, a.reply.fence);
      assert f in s.fences && FenceOk(s.contents, c, k, a.reply.fence);
      assert ClientOk(s.now, KnownTo(s), s.owners, token, c);
      assert StageWired(KnownTo(s), c.past.log, c.tasks[a.task].stage);
    }
  }

  /** Only the reply to a renewal that the service granted moves a deadline. */
  lemma StepKeepsMargin(s: System, token: string, a: Action)
    requires Inv(s) && Possible(s, token, a)
    ensures
      var d := Step(s.clients[token], a);
      Owns(s.owners, d.entry.lease) && d.entry.localDeadline + MARGIN_MS <= Horizon(s.owners, d.entry.lease)
  {
    var c := s.clients[token];
    assert ClientOk(s.now, KnownTo(s), s.owners, token, c);
    StepFollows(c, a, s.now);
    if a.Settle? {
      if a.renewed {
        var r := (token, a.renewal);
        assert r in s.renewed && RenewalOk(s.owners, c, a.renewal);
      }
      hide Inv;
    }
  }

  lemma ActKeeps(s: System, token: string, a: Action)
    requires Inv(s)
    ensures Inv(OnAct(s, token, a))
  {
    if Possible(s, token, a) {
      var d := Step(s.clients[token], a);
      ActedClientIsOk(s, token, a);
      ChangedClientKeeps(s, token, d, s.saving);
      var ref := SavedBy(s, token, a);
      if ref.Some? && d.entry.snapshot.properties.Some? {
        RememberKeeps(s.(clients := s.clients[token := d]), ref.value,
                      Recorded(d.entry.snapshot.observed, d.entry.snapshot.properties.value));
      }
    }
    hide Inv, Step, SavedBy, Follows, Wired, Owns, Possible, Remember, Stands;
  }

  lemma ActedClientIsOk(s: System, token: string, a: Action)
    requires Inv(s) && Possible(s, token, a)
    ensures
      var d := Step(s.clients[token], a);
      && Follows(s.clients[token], d, s.now) && Wired(KnownTo(s), d)
      && Owns(s.owners, d.entry.lease) && d.entry.localDeadline + MARGIN_MS <= Horizon(s.owners, d.entry.lease)
      && Stands(s.contents, d.entry.snapshot.observed, d.entry.snapshot.properties)
  {
    var c := s.clients[token];
    assert ClientOk(s.now, KnownTo(s), s.owners, token, c);
    ActionIsGenuine(s, token, a);
    StepKeepsWired(KnownTo(s), c, a);
    StepFollows(c, a, s.now);
    StepKeepsMargin(s, token, a);
    hide Inv, Step, Follows, ClientOk, Genuine, Possible, Owns, Stands;
  }

  lemma SaveKeeps(s: System, token: string, task: nat, ref: nat, properties: Properties, scoped: bool)
    requires Inv(s)
    ensures Inv(OnSave(s, token, task, ref, properties, scoped))
  {
    if token in s.clients && task !in s.clients[token].tasks {
      var c := s.clients[token];
      var a := Begin(task, s.now, SaveCall(s, ref, properties, scoped));
      assert ClientOk(s.now, KnownTo(s), s.owners, token, c);
      assert Genuine(KnownTo(s), c, a);
      StepKeepsWired(KnownTo(s), c, a);
      StepFollows(c, a, s.now);
      ChangedClientKeeps(s, token, Step(c, a), s.saving[(token, task) := ref]);
      hide Inv, Step;
    }
  }

  /** Recording a session object only adds to what is known. */
  lemma RememberKeeps(s: System, ref: nat, r: Recorded)
    requires Inv(s) && Stands(s.contents, r.observed, Some(r.properties))
    ensures Inv(Remember(s, ref, r))
  {
    var t := Remember(s, ref, r);
    ClientsStayOk(s.now, s.now, KnownTo(s), KnownTo(t), s.owners, s.owners, s.clients);
    hide ClientsOk, RenewedOk, FencesOk, OwnersOk, AttemptsOk, AnswersOk, RowOk, Stands;
    forall i | 0 <= i < |s.accepted| ensures WriteOk(t.memories, s.accepted[i]) {
      assert WriteOk(s.memories, s.accepted[i]);
    }
  }

  lemma LoadKeeps(s: System, token: string, ref: nat)
    requires Inv(s)
    ensures Inv(OnLoad(s, token, ref))
  {
    if token in s.clients && s.clients[token].entry.snapshot.properties.Some? {
      var c := s.clients[token];
      assert ClientOk(s.now, KnownTo(s), s.owners, token, c);
      RememberKeeps(s, ref, Recorded(c.entry.snapshot.observed, c.entry.snapshot.properties.value));
    }
    hide Inv;
  }

  lemma LoadAloneKeeps(s: System, ref: nat, snapshot: Snapshot)
    requires Inv(s)
    ensures Inv(OnLoadAlone(s, ref, snapshot))
  {
    if snapshot in s.served && snapshot.properties.Some? {
      assert Stands(s.contents, snapshot.observed, snapshot.properties);
      RememberKeeps(s, ref, Recorded(snapshot.observed, snapshot.properties.value));
    }
    hide Inv;
  }

  // ------------------------------------------------------- the service takes a step

  /** A renewed term: the row's owner gets it, from now. */
  lemma ExtendKeeps(s: System, row: S.Row)
    requires Inv(s) && S.Live(s.row, s.now) && row == s.row.(expires := Some(s.now + S.LEASE_MS))
    ensures Inv(Extend(s, row)) && Prolonged(s.owners, Extend(s, row).owners)
    ensures row.epoch in Extend(s, row).owners && Extend(s, row).owners[row.epoch].horizon == s.now + S.LEASE_MS
  {
    var owners := Extend(s, row).owners;
    assert OwnershipOk(s.now, s.row.epoch, s.revoked, s.attempts, row.epoch, s.owners[row.epoch]);
    forall e | e in owners ensures OwnershipOk(s.now, row.epoch, s.revoked, s.attempts, e, owners[e]) {
      assert OwnershipOk(s.now, s.row.epoch, s.revoked, s.attempts, e, s.owners[e]);
    }
    assert Prolonged(s.owners, owners);
    ClientsStayOk(s.now, s.now, KnownTo(s), KnownTo(s), s.owners, owners, s.clients);
    RenewedStaysOk(s.owners, owners, s.clients, s.renewed);
    hide ClientsOk, RenewedOk, FencesOk, AcceptedOk, AttemptsOk, ReadOk, OwnershipOk;
  }

  lemma RenewKeeps(s: System, token: string, request: nat, lease: Lease, checked: Option<Observation>)
    requires Inv(s) && token in s.clients && request < |s.clients[token].past.log|
    requires Bears(Renew(lease, checked), s.clients[token].entry.lease)
    ensures Inv(OnRenew(s, token, request, lease, checked))
  {
    var outcome := S.Renew(s.row, s.now, lease, checked);
    if outcome.Refused? { return; }
    RenewalProlongs(s, token, request, lease, checked);
    hide Inv, Extend, S.Renew, RenewalOk;
    RenewedKeeps(Extend(s, outcome.value), token, request);
  }

  lemma RenewalProlongs(s: System, token: string, request: nat, lease: Lease, checked: Option<Observation>)
    requires Inv(s) && token in s.clients && request < |s.clients[token].past.log|
    requires Bears(Renew(lease, checked), s.clients[token].entry.lease) && S.Renew(s.row, s.now, lease, checked).Done?
    ensures
      var t := Extend(s, S.Renew(s.row, s.now, lease, checked).value);
      && Inv(t) && t.clients == s.clients && t.renewed == s.renewed
      && RenewalOk(t.owners, s.clients[token], request)
  {
    var row := S.Renew(s.row, s.now, lease, checked).value;
    ClientIsOk(s, token);
    ExtendKeeps(s, row);
    RenewalNamesRow(s, token, lease, checked);
    hide Inv, Wired, S.Renew;
  }

  lemma ClientIsOk(s: System, token: string)
    requires Inv(s) && token in s.clients
    ensures ClientOk(s.now, KnownTo(s), s.owners, token, s.clients[token])
  {
  }

  lemma RenewalNamesRow(s: System, token: string, lease: Lease, checked: Option<Observation>)
    requires Inv(s) && token in s.clients && S.Renew(s.row, s.now, lease, checked).Done?
    requires Bears(Renew(lease, checked), s.clients[token].entry.lease)
    ensures AllDigits(s.clients[token].entry.lease.epoch) && Value(s.clients[token].entry.lease.epoch) == s.row.epoch
  {
    hide Inv;
  }

  lemma RenewedKeeps(s: System, token: string, request: nat)
    requires Inv(s) && token in s.clients && RenewalOk(s.owners, s.clients[token], request)
    ensures Inv(s.(renewed := s.renewed + {(token, request)}))
  {
    hide ClientsOk, FencesOk, AcceptedOk, AttemptsOk, ReadOk, OwnersOk, RowOk, AnswersOk, RenewalOk;
  }

  lemma RowsKeep(s: System, rows: map<string, string>)
    requires Inv(s)
    ensures Inv(s.(rows := rows))
  {
  }

  lemma PublishKeeps(s: System, id: string, lease: Lease, observed: Observation, digest: string)
    requires Inv(s)
    ensures Inv(OnPublish(s, id, lease, observed, digest))
  {
    var outcome := S.TouchOnline(s.row, s.now, lease, observed);
    if outcome.Done? {
      ExtendKeeps(s, outcome.value);
      hide Inv, Extend;
      RowsKeep(Extend(s, outcome.value), s.rows[id := digest]);
    }
  }

  lemma DeleteOnlineKeeps(s: System, id: string, expected: string, lease: Lease, observed: Observation)
    requires Inv(s)
    ensures Inv(OnDeleteOnline(s, id, expected, lease, observed))
  {
    var outcome := S.TouchOnline(s.row, s.now, lease, observed);
    if outcome.Done? {
      ExtendKeeps(s, outcome.value);
      hide Inv, Extend;
      RowsKeep(Extend(s, outcome.value), s.rows - {id});
    }
  }

  lemma ReleaseKeeps(s: System, token: string, lease: Lease)
    requires Inv(s) && ReleasedBy(s.clients, token) && lease.token == token
    ensures Inv(OnRelease(s, lease))
  {
    if S.Names(s.row, lease) { FreeingKeeps(s, s.row.epoch); }
    hide ClientsOk, RenewedOk, FencesOk, AcceptedOk, AttemptsOk, ReadOk, OwnersOk, AnswersOk;
  }

  lemma FreeingKeeps(s: System, e: nat)
    requires OwnersOk(s.now, s.row.epoch, s.revoked, s.attempts, s.freed, s.owners)
    ensures OwnersOk(s.now, s.row.epoch, s.revoked, s.attempts, s.freed + {e}, s.owners)
  {
    hide OwnershipOk;
  }

  /** A new version of the stored session, under the same ownership. */
  lemma StoreKeeps(s: System, row: S.Row, stored: Option<Properties>)
    requires Inv(s) && Fits(s.contents, row.digest, stored)
    requires row.epoch == s.row.epoch && row.owner == s.row.owner && row.expires == s.row.expires
          && row.revision >= s.row.revision
    ensures Inv(Deposit(s, row, stored)) && Larger(s.contents, Deposit(s, row, stored).contents)
    ensures FencesOk(Deposit(s, row, stored).contents, s.clients, s.fences)
    ensures AcceptedOk(s.row.revision, s.memories, s.accepted) && s.row.digest in s.contents
  {
    var more := s.contents[row.digest := stored];
    ClientsStayOk(s.now, s.now, KnownTo(s), KnownTo(Deposit(s, row, stored)), s.owners, s.owners, s.clients);
    FencesStayOk(s.contents, more, s.clients, s.fences);
    hide ClientsOk, RenewedOk, FencesOk, AttemptsOk, OwnersOk, AnswersOk;
  }

  lemma CommitKeeps(s: System, token: string, request: nat, outcome: S.Outcome<(S.Row, Fence)>,
                    ref: Option<nat>, observed: Observation, based: Option<Properties>, written: Option<Properties>)
    requires Inv(s) && token in s.clients && request < |s.clients[token].past.log|
    requires Rests(KnownTo(s), ref, observed, based)
    requires var r := s.clients[token].past.log[request].request; r.Write? ==> written == Some(r.properties)
    requires outcome.Done? ==>
               Commits(s, outcome.value.0, outcome.value.1, observed)
               && Fits(s.contents, outcome.value.0.digest, written)
    ensures Inv(OnCommit(s, token, request, outcome, ref, observed, based, written))
  {
    if outcome.Done? {
      var row, fence := outcome.value.0, outcome.value.1;
      StoreKeeps(s, row, written);
      var t := Deposit(s, row, written);
      FenceIsOk(s, token, request, row, fence, observed, written);
      var accepted := t.accepted + [Accepted(ref, observed, based, written, s.row, Stored(s))];
      AcceptanceIsOk(s, row, ref, observed, based, written);
      HistoryKeeps(t, t.fences + {(token, request, fence)}, accepted);
      hide Inv, Stored, Deposit;
    }
  }

  lemma FenceIsOk(s: System, token: string, request: nat, row: S.Row, fence: Fence, observed: Observation,
                  written: Option<Properties>)
    requires token in s.clients && request < |s.clients[token].past.log| && Commits(s, row, fence, observed)
    requires var r := s.clients[token].past.log[request].request; r.Write? ==> written == Some(r.properties)
    requires FencesOk(Deposit(s, row, written).contents, s.clients, s.fences)
    ensures FencesOk(Deposit(s, row, written).contents, s.clients, s.fences + {(token, request, fence)})
  {
    assert FenceOk(Deposit(s, row, written).contents, s.clients[token], request, fence);
    hide FenceOk;
  }

  /** What a request carries of its session object. */
  predicate Rests(known: Known, ref: Option<nat>, observed: Observation, based: Option<Properties>) {
    based.Some? ==> ref.Some? && Recalls(known, ref.value, observed, based)
  }

  lemma AcceptanceIsOk(s: System, row: S.Row, ref: Option<nat>, observed: Observation, based: Option<Properties>,
                       written: Option<Properties>)
    requires AcceptedOk(s.row.revision, s.memories, s.accepted) && s.row.digest in s.contents
    requires SameObservation(S.Observe(s.row), observed) && row.revision == s.row.revision + 1
    requires Rests(KnownTo(s), ref, observed, based)
    ensures AcceptedOk(row.revision, s.memories,
                       s.accepted + [Accepted(ref, observed, based, written, s.row, Stored(s))])
  {
  }

  lemma HistoryKeeps(s: System, fences: set<(string, nat, Fence)>, accepted: seq<Accepted>)
    requires Inv(s) && FencesOk(s.contents, s.clients, fences) && AcceptedOk(s.row.revision, s.memories, accepted)
    ensures Inv(s.(fences := fences, accepted := accepted))
  {
    hide ClientsOk, RenewedOk, AttemptsOk, OwnersOk, AnswersOk, ReadOk, RowOk, AcceptedOk, FencesOk;
  }

  predicate Commits(s: System, row: S.Row, fence: Fence, observed: Observation) {
    && SameObservation(S.Observe(s.row), observed)
    && row.revision == s.row.revision + 1
    && row.epoch == s.row.epoch && row.owner == s.row.owner && row.expires == s.row.expires
    && fence.observed == S.Observe(row)
  }

  lemma WriteCommits(s: System, lease: Lease, observed: Observation, expectedHash: Option<string>, digest: string,
                     credential: Option<string>)
    ensures
      var outcome := S.WriteOffline(s.row, s.now, lease, observed, expectedHash, digest, credential);
      outcome.Done? ==> outcome.value.0.digest == digest && Commits(s, outcome.value.0, outcome.value.1, observed)
  {
  }

  lemma RequestIsWired(s: System, token: string, request: nat)
    requires Inv(s) && token in s.clients && request < |s.clients[token].past.log|
    ensures
      var c := s.clients[token];
      var r := c.past.log[request].request;
      && c.entry.lease.token == token && RequestOk(KnownTo(s), c.entry.lease, r)
      && (r.Release? ==> ReleasedBy(s.clients, token))
  {
    var c := s.clients[token];
    assert ClientOk(s.now, KnownTo(s), s.owners, token, c);
    assert LogWired(KnownTo(s), c.entry.lease, c.past.log, c.drain.Released?);
  }

  lemma ProcessKeeps(s: System, token: string, request: nat, digest: string, credential: Option<string>, agrees: bool)
    requires Inv(s)
    ensures Inv(OnProcess(s, token, request, digest, credential, agrees))
  {
    hide Inv, OnRequest, RequestOk;
    if token in s.clients && request < |s.clients[token].past.log| && agrees {
      RequestIsWired(s, token, request);
      RequestKeeps(s, token, request, s.clients[token].past.log[request].request, digest, credential);
    }
  }

  lemma RequestKeeps(s: System, token: string, request: nat, r: Request, digest: string, credential: Option<string>)
    requires Inv(s) && token in s.clients && request < |s.clients[token].past.log|
    requires r == s.clients[token].past.log[request].request && s.clients[token].entry.lease.token == token
    requires RequestOk(KnownTo(s), s.clients[token].entry.lease, r) && (r.Release? ==> ReleasedBy(s.clients, token))
    ensures Inv(OnRequest(s, token, request, r, digest, credential))
  {
    hide Inv, OnCommit, OnRenew, OnPublish, OnDeleteOnline, S.WriteOffline, Commits, Fits, Wired, LogWired;
    match r {
      case Renew(lease, checked) => RenewKeeps(s, token, request, lease, checked);
      case Publish(p, lease, observed) => PublishKeeps(s, p.id, lease, observed, digest);
      case DeleteOnline(id, expected, lease, observed) => DeleteOnlineKeeps(s, id, expected, lease, observed);
      case Write(ref, properties, expectedHash, lease, observed, based) =>
        if Fits(s.contents, digest, Some(properties)) {
          var outcome := S.WriteOffline(s.row, s.now, lease, observed, expectedHash, digest, credential);
          WriteCommits(s, lease, observed, expectedHash, digest, credential);
          CommitKeeps(s, token, request, outcome, Some(ref), observed, based, Some(properties));
        }
      case DeleteOffline(lease, observed) =>
        if Fits(s.contents, digest, None) {
          WriteCommits(s, lease, observed, observed.credentialTokenHash, digest, s.row.credential);
          var outcome := S.DeleteOffline(s.row, s.now, lease, observed, digest);
          CommitKeeps(s, token, request, outcome, None, observed, None, None);
        }
      case Release(lease) => ReleaseKeeps(s, token, lease);
      case ExchangeToken =>
    }
  }

  lemma RevokeKeeps(s: System, digest: string, stored: Option<Properties>)
    requires Inv(s)
    ensures Inv(OnRevoke(s, digest, stored))
  {
    var outcome := S.Revoke(s.row);
    if outcome.Done? && Fits(s.contents, digest, stored) {
      DisownKeeps(s, outcome.value);
      var t := s.(row := outcome.value, revoked := outcome.value.epoch);
      hide Inv, S.Revoke;
      StoreKeeps(t, outcome.value.(digest := digest), stored);
    }
  }

  lemma DisownKeeps(s: System, row: S.Row)
    requires Inv(s)
          && row == s.row.(revision := s.row.revision + 1, epoch := s.row.epoch + 1, owner := None, expires := None)
    ensures Inv(s.(row := row, revoked := row.epoch))
  {
    forall e | e in s.owners ensures OwnershipOk(s.now, row.epoch, row.epoch, s.attempts, e, s.owners[e]) {
      assert OwnershipOk(s.now, s.row.epoch, s.revoked, s.attempts, e, s.owners[e]);
    }
    hide ClientsOk, RenewedOk, FencesOk, AttemptsOk, AnswersOk, ReadOk;
  }

  lemma LegacyKeeps(s: System, digest: string, stored: Option<Properties>, credential: Option<string>)
    requires Inv(s)
    ensures Inv(OnWriteLegacy(s, digest, stored, credential))
  {
    var outcome := S.AdvanceLegacy(s.row);
    if outcome.Done? && Fits(s.contents, digest, stored) {
      StoreKeeps(s, outcome.value.(digest := digest, credential := credential), stored);
    }
    hide Inv;
  }

  lemma ReinstallKeeps(s: System, generation: Option<string>, credential: Option<string>)
    requires Inv(s)
    ensures Inv(s.(row := s.row.(generation := generation, credential := credential)))
  {
    hide ClientsOk, RenewedOk, FencesOk, AttemptsOk, OwnersOk, AnswersOk, AcceptedOk, ReadOk;
  }

  // ------------------------------------------------------------------------ runs

  lemma NextKeeps(s: System, m: Move)
    requires Inv(s)
    ensures Inv(Next(s, m))
  {
    hide Inv, OnServeSnapshot, OnAskForLease, OnProcessAcquisition, OnOpen, OnAct, OnLoad, OnLoadAlone, OnSave;
    hide OnProcess, OnRevoke, OnWriteLegacy;
    match m {
      case Tick(until) => if s.now <= until { TickKeeps(s, until); }
      case ServeSnapshot(masked) => ServeKeeps(s, masked);
      case BeginAcquisition(token) =>
        if token !in s.attempts { AttemptKeeps(s, token, Attempt(s.now, [])); }
      case AskForLease(token, snapshot) => AskKeeps(s, token, snapshot);
      case ProcessAcquisition(token, request) => AcquisitionKeeps(s, token, request);
      case Open(shop, token, request, lease) => OpenKeeps(s, shop, token, request, lease);
      case Act(token, action) => ActKeeps(s, token, action);
      case Load(token, ref) => LoadKeeps(s, token, ref);
      case LoadAlone(ref, snapshot) => LoadAloneKeeps(s, ref, snapshot);
      case Save(token, task, ref, properties, scoped) => SaveKeeps(s, token, task, ref, properties, scoped);
      case Process(token, request, digest, credential, agrees) =>
        ProcessKeeps(s, token, request, digest, credential, agrees);
      case Revoke(digest, stored) => RevokeKeeps(s, digest, stored);
      case WriteLegacy(digest, stored, credential) => LegacyKeeps(s, digest, stored, credential);
      case Purge(digest) =>
        if Fits(s.contents, digest, None) { StoreKeeps(s, s.row.(digest := digest), None); }
      case Reinstall(generation, credential) => ReinstallKeeps(s, generation, credential);
      case ReplaceOnline(id, version) =>
        RowsKeep(s, if version.Some? then s.rows[id := version.value] else s.rows - {id});
    }
  }

  /** The action that a move makes the operation holding `token` take. */
  function Taken(s: System, m: Move, token: string): Option<Action> {
    match m
    case Act(t, action) => if t == token && Possible(s, t, action) then Some(action) else None
    case Save(t, task, ref, properties, scoped) =>
      if t == token && t in s.clients && task !in s.clients[t].tasks
      then Some(Begin(task, s.now, SaveCall(s, ref, properties, scoped)))
      else None
    case _ => None
  }

  /** What a client does next, when it does something. */
  function After(c: Client, a: Option<Action>): Client {
    if a.Some? then Step(c, a.value) else c
  }

  lemma RenewLeaves(s: System, token: string, request: nat, lease: Lease, checked: Option<Observation>)
    ensures OnRenew(s, token, request, lease, checked).clients == s.clients
    ensures OnRenew(s, token, request, lease, checked).rows == s.rows
  {
    hide S.Renew;
  }

  lemma CommitLeaves(s: System, token: string, request: nat, outcome: S.Outcome<(S.Row, Fence)>, ref: Option<nat>,
                     observed: Observation, based: Option<Properties>, written: Option<Properties>)
    ensures OnCommit(s, token, request, outcome, ref, observed, based, written).clients == s.clients
    ensures OnCommit(s, token, request, outcome, ref, observed, based, written).rows == s.rows
  {
    hide Stored;
  }

  lemma PublishLeaves(s: System, id: string, lease: Lease, observed: Observation, digest: string)
    ensures OnPublish(s, id, lease, observed, digest).clients == s.clients
  {
    hide S.TouchOnline;
  }

  lemma DeleteOnlineLeaves(s: System, id: string, expected: string, lease: Lease, observed: Observation)
    ensures OnDeleteOnline(s, id, expected, lease, observed).clients == s.clients
  {
    hide S.TouchOnline;
  }

  lemma RequestLeaves(s: System, token: string, request: nat, r: Request, digest: string, credential: Option<string>)
    ensures OnRequest(s, token, request, r, digest, credential).clients == s.clients
    ensures !r.Publish? && !r.DeleteOnline? ==> OnRequest(s, token, request, r, digest, credential).rows == s.rows
  {
    hide OnRenew, OnCommit, OnPublish, OnDeleteOnline, S.WriteOffline, S.DeleteOffline, S.Release, S.Names, Fits;
    match r {
      case Renew(lease, checked) => RenewLeaves(s, token, request, lease, checked);
      case Publish(p, lease, observed) => PublishLeaves(s, p.id, lease, observed, digest);
      case DeleteOnline(id, expected, lease, observed) => DeleteOnlineLeaves(s, id, expected, lease, observed);
      case Write(ref, properties, hash, lease, observed, based) =>
        CommitLeaves(s, token, request, S.WriteOffline(s.row, s.now, lease, observed, hash, digest, credential),
                     Some(ref), observed, based, Some(properties));
      case DeleteOffline(lease, observed) =>
        CommitLeaves(s, token, request, S.DeleteOffline(s.row, s.now, lease, observed, digest), None, observed, None,
                     None);
      case _ =>
    }
  }

  lemma ProcessLeaves(s: System, token: string, request: nat, digest: string, credential: Option<string>, agrees: bool)
    ensures OnProcess(s, token, request, digest, credential, agrees).clients == s.clients
  {
    hide OnRequest;
    if token in s.clients && request < |s.clients[token].past.log| {
      RequestLeaves(s, token, request, s.clients[token].past.log[request].request, digest, credential);
    }
  }

  /** Only these moves touch a client. */
  predicate TouchesClients(m: Move) {
    m.Act? || m.Save? || m.Open?
  }

  lemma AcquisitionLeaves(s: System, token: string, request: nat)
    ensures OnProcessAcquisition(s, token, request).clients == s.clients
    ensures OnProcessAcquisition(s, token, request).rows == s.rows
  {
    hide S.Acquire;
  }

  lemma RevocationLeaves(s: System, digest: string, stored: Option<Properties>)
    ensures OnRevoke(s, digest, stored).clients == s.clients && OnRevoke(s, digest, stored).rows == s.rows
  {
    hide S.Revoke, Fits;
  }

  lemma LegacyLeaves(s: System, digest: string, stored: Option<Properties>, credential: Option<string>)
    ensures OnWriteLegacy(s, digest, stored, credential).clients == s.clients
    ensures OnWriteLegacy(s, digest, stored, credential).rows == s.rows
  {
    hide S.AdvanceLegacy, Fits;
  }

  lemma AskingLeaves(s: System, token: string, snapshot: Snapshot, masked: bool)
    ensures OnServeSnapshot(s, masked).clients == s.clients && OnServeSnapshot(s, masked).rows == s.rows
    ensures OnBeginAcquisition(s, token).clients == s.clients && OnBeginAcquisition(s, token).rows == s.rows
    ensures OnAskForLease(s, token, snapshot).clients == s.clients && OnAskForLease(s, token, snapshot).rows == s.rows
  {
    hide Stored, S.Observe;
  }

  lemma LoadingLeaves(s: System, token: string, ref: nat, snapshot: Snapshot)
    ensures OnLoad(s, token, ref).clients == s.clients && OnLoad(s, token, ref).rows == s.rows
    ensures OnLoadAlone(s, ref, snapshot).clients == s.clients && OnLoadAlone(s, ref, snapshot).rows == s.rows
  {
  }

  lemma AcquiringLeaves(s: System, m: Move)
    requires m.ServeSnapshot? || m.BeginAcquisition? || m.AskForLease? || m.ProcessAcquisition? || m.Load?
          || m.LoadAlone?
    ensures Next(s, m).clients == s.clients && Next(s, m).rows == s.rows
  {
    hide OnServeSnapshot, OnBeginAcquisition, OnAskForLease, OnProcessAcquisition, OnOpen, OnAct, OnLoad, OnLoadAlone;
    hide OnSave, OnProcess, OnRevoke, OnWriteLegacy, Deposit, S.Observe;
    var none := Snapshot(S.Observe(s.row), None);
    match m {
      case ServeSnapshot(masked) => AskingLeaves(s, "", none, masked);
      case BeginAcquisition(token) => AskingLeaves(s, token, none, false);
      case AskForLease(token, snapshot) => AskingLeaves(s, token, snapshot, false);
      case ProcessAcquisition(token, request) => AcquisitionLeaves(s, token, request);
      case Load(token, ref) => LoadingLeaves(s, token, ref, none);
      case LoadAlone(ref, snapshot) => LoadingLeaves(s, "", ref, snapshot);
    }
  }

  lemma ServiceLeaves(s: System, m: Move)
    requires m.Process? || m.Revoke? || m.WriteLegacy?
    ensures Next(s, m).clients == s.clients && (!m.Process? ==> Next(s, m).rows == s.rows)
  {
    hide OnServeSnapshot, OnBeginAcquisition, OnAskForLease, OnProcessAcquisition, OnOpen, OnAct, OnLoad, OnLoadAlone;
    hide OnSave, OnProcess, OnRevoke, OnWriteLegacy, Deposit, Fits;
    match m {
      case Process(token, request, digest, credential, agrees) =>
        ProcessLeaves(s, token, request, digest, credential, agrees);
      case Revoke(digest, stored) => RevocationLeaves(s, digest, stored);
      case WriteLegacy(digest, stored, credential) => LegacyLeaves(s, digest, stored, credential);
    }
  }

  lemma RestLeaves(s: System, m: Move)
    requires m.Tick? || m.Purge? || m.Reinstall? || m.ReplaceOnline?
    ensures Next(s, m).clients == s.clients && (!m.ReplaceOnline? ==> Next(s, m).rows == s.rows)
  {
    hide OnServeSnapshot, OnBeginAcquisition, OnAskForLease, OnProcessAcquisition, OnOpen, OnAct, OnLoad, OnLoadAlone;
    hide OnSave, OnProcess, OnRevoke, OnWriteLegacy, Fits;
  }

  lemma OthersLeave(s: System, m: Move)
    requires !TouchesClients(m)
    ensures Next(s, m).clients == s.clients
    ensures !m.Process? && !m.ReplaceOnline? ==> Next(s, m).rows == s.rows
  {
    hide Next;
    if m.Process? || m.Revoke? || m.WriteLegacy? {
      ServiceLeaves(s, m);
    } else if m.Tick? || m.Purge? || m.Reinstall? || m.ReplaceOnline? {
      RestLeaves(s, m);
    } else {
      AcquiringLeaves(s, m);
    }
  }

  lemma ActedLeaves(s: System, token: string, d: Client, ref: Option<nat>)
    ensures Acted(s, token, d, ref).rows == s.rows && Acted(s, token, d, ref).clients == s.clients[token := d]
  {
    var t := s.(clients := s.clients[token := d]);
    hide Remember;
    if ref.Some? && d.entry.snapshot.properties.Some? {
      RememberLeaves(t, ref.value, Recorded(d.entry.snapshot.observed, d.entry.snapshot.properties.value));
    }
  }

  lemma RememberLeaves(s: System, ref: nat, r: Recorded)
    ensures Remember(s, ref, r).rows == s.rows && Remember(s, ref, r).clients == s.clients
  {
  }

  lemma ActLeaves(s: System, token: string, a: Action)
    ensures OnAct(s, token, a).rows == s.rows
    ensures OnAct(s, token, a).clients == if Possible(s, token, a) then s.clients[token := Step(s.clients[token], a)]
                                          else s.clients
  {
    if Possible(s, token, a) { ActedLeaves(s, token, Step(s.clients[token], a), SavedBy(s, token, a)); }
    hide Step, SavedBy, Possible, Acted;
  }

  lemma ClientsLeaveRows(s: System, m: Move)
    requires TouchesClients(m)
    ensures Next(s, m).rows == s.rows
  {
    hide Step, SaveCall, OnAct, Admits, Start;
    if m.Act? { ActLeaves(s, m.token, m.action); }
  }

  /** A client stays; it takes the action that the move gives it, at this moment. */
  lemma ClientMoves(s: System, m: Move, token: string)
    requires token in s.clients
    ensures token in Next(s, m).clients && Next(s, m).clients[token] == After(s.clients[token], Taken(s, m, token))
    ensures
      var a := Taken(s, m, token);
      a.Some? && Clock(a.value).Some? ==> Clock(a.value).value == s.now
  {
    TouchingIsNext(s, m);
    hide Next, OnAct, OnSave, Step, SaveCall, Possible, Admits, Start;
    match m {
      case Act(t, a) => ClientActs(s, t, a, token);
      case Save(t, task, ref, properties, scoped) => ClientSaves(s, t, task, ref, properties, scoped, token);
      case Open(_, _, _, _) =>
      case _ => OthersLeave(s, m);
    }
  }

  lemma TouchingIsNext(s: System, m: Move)
    ensures m.Act? ==> Next(s, m) == OnAct(s, m.token, m.action)
    ensures m.Save? ==> Next(s, m) == OnSave(s, m.token, m.task, m.ref, m.properties, m.scoped)
    ensures m.Open? ==> Next(s, m) == OnOpen(s, m.shop, m.token, m.request, m.lease)
  {
    hide OnAct, OnSave, OnOpen;
  }

  lemma ClientActs(s: System, t: string, a: Action, token: string)
    requires token in s.clients
    ensures token in OnAct(s, t, a).clients
    ensures OnAct(s, t, a).clients[token] == After(s.clients[token], Taken(s, Act(t, a), token))
    ensures Possible(s, t, a) && Clock(a).Some? ==> Clock(a).value == s.now
  {
    ActLeaves(s, t, a);
    hide OnAct, Step, CommitOf;
  }

  lemma ClientSaves(s: System, t: string, task: nat, ref: nat, properties: Properties, scoped: bool, token: string)
    requires token in s.clients
    ensures token in OnSave(s, t, task, ref, properties, scoped).clients
    ensures
      OnSave(s, t, task, ref, properties, scoped).clients[token]
        == After(s.clients[token], Taken(s, Save(t, task, ref, properties, scoped), token))
  {
    hide Step, SaveCall;
  }

  /** A client that was not there has just acquired its lease. */
  lemma ClientOpens(s: System, m: Move, token: string)
    requires token !in s.clients && token in Next(s, m).clients
    ensures
      exists shop: string, snapshot: Snapshot, lease: Lease, started: int ::
        Next(s, m).clients[token] == Start(shop, snapshot, lease, started)
  {
    hide OnAct, Step, SaveCall, Admits, Start, CommitOf;
    match m {
      case Act(t, a) => ActLeaves(s, t, a);
      case Save(_, _, _, _, _) =>
      case Open(shop, t, request, lease) =>
        var asked := s.attempts[t].requests[request];
        assert Next(s, m).clients[token] == Start(shop, asked.snapshot, lease, asked.at);
      case _ => OthersLeave(s, m);
    }
  }

  lemma {:induction false} GoKeeps(s: System, moves: seq<Move>)
    requires Inv(s)
    ensures Inv(Go(s, moves))
    decreases |moves|
  {
    hide Inv, Next;
    if moves != [] {
      NextKeeps(s, moves[0]);
      GoKeeps(Next(s, moves[0]), moves[1..]);
    }
  }

  lemma InitialKeeps(now: int, row: S.Row, stored: Option<Properties>)
    requires row.owner.None? && row.expires.None?
    ensures Inv(Initial(now, row, stored))
  {
  }
}
