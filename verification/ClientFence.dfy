/** What every run of a client keeps about its fence, its ownership and its log,
    whatever the server and the provider answer. */
module ClientFence {
  import opened Wrappers
  import opened Contract
  import opened SessionEntry
  import opened SessionClient

  // ------------------------------------------------------------- one stretch

  predicate SameFence(c: Client, d: Client) {
    && d.entry.lease == c.entry.lease
    && d.entry.snapshot == c.entry.snapshot
    && d.entry.shop == c.entry.shop
    && d.past.acknowledged == c.past.acknowledged
  }

  /** Loss stays, the deadline and the drain stay, and at most one request leaves, which
      is no release: at `now`, and only while the entry is owned. */
  predicate Disciplined(c: Client, d: Client, now: int) {
    && (c.entry.lost ==> d.entry.lost)
    && d.entry.localDeadline == c.entry.localDeadline
    && d.drain == c.drain && d.closed == c.closed
    && (d.past.log == c.past.log
        || (Owned(c.entry, now) && Sends(c, d) && Sent(c, d).at == now && !Sent(c, d).request.Release?))
  }

  predicate Sends(c: Client, d: Client) {
    c.past.log <= d.past.log && |d.past.log| == |c.past.log| + 1
  }

  function Sent(c: Client, d: Client): Dispatch
    requires Sends(c, d)
  {
    d.past.log[|c.past.log|]
  }

  lemma AbortIsDisciplined(c: Client, t: nat, now: int, stage: Stage)
    ensures var d := Abort(c, t, stage); SameFence(c, d) && Disciplined(c, d, now)
  {
  }

  lemma DispatchIsDisciplined(c: Client, t: nat, now: int, stage: Stage)
    ensures var d := Dispatching(c, t, now, stage); SameFence(c, d) && Disciplined(c, d, now)
  {
    AbortIsDisciplined(c, t, now, stage);
    hide Abort;
    if Owned(c.entry, now) {}
  }

  lemma AwaitIsDisciplined(c: Client, t: nat, now: int, stage: Stage)
    ensures var d := AwaitRenewal(c, t, now, stage); SameFence(c, d) && Disciplined(c, d, now)
  {
    DispatchIsDisciplined(c, t, now, stage);
    hide Dispatching;
  }

  lemma StoreIsDisciplined(c: Client, t: nat, now: int, ref: nat, session: SessionView, wall: int)
    ensures var d := OnBegin(c, t, now, Call.Store(ref, session, wall)); SameFence(c, d) && Disciplined(c, d, now)
  {
    var begun := BeginPublication(c.entry, ref, Get(c.records, ref), session, wall, |c.past.trace|, |c.past.grants|);
    if begun.Some? {
      var d := c.(entry := begun.value.0, past := c.past.(trace := c.past.trace + [Began(session.id)]));
      AwaitIsDisciplined(d, t, now, Publishing(Preparing, ref, begun.value.1));
    }
    hide AwaitRenewal;
  }

  lemma DeleteIsDisciplined(c: Client, t: nat, now: int, id: string)
    ensures var d := OnBegin(c, t, now, Call.Delete(id)); SameFence(c, d) && Disciplined(c, d, now)
  {
    var begun := BeginDeletion(c.entry, id, |c.past.trace|);
    if begun.Some? {
      var d := c.(entry := begun.value.0, past := c.past.(trace := c.past.trace + [Began(id)]));
      AwaitIsDisciplined(d, t, now, Deleting(Preparing, id, begun.value.1));
    }
    hide AwaitRenewal;
  }

  lemma MintIsDisciplined(c: Client, t: nat, now: int, ref: nat, session: SessionView)
    ensures var d := OnBegin(c, t, now, Call.Mint(ref, session)); SameFence(c, d) && Disciplined(c, d, now)
  {
    var reservation := ReserveActor(c.entry, Get(c.records, ref), session);
    if reservation.Some? {
      var x := reservation.value.1;
      var d := c.(entry := reservation.value.0, past := c.past.(reserved := c.past.reserved + {x.identity}));
      AwaitIsDisciplined(d, t, now, Minting(Preparing, ref, session.id, c.records[ref].origin.version, x));
    }
    hide AwaitRenewal;
  }

  lemma BeginIsDisciplined(c: Client, t: nat, now: int, call: Call)
    ensures var d := OnBegin(c, t, now, call); SameFence(c, d) && Disciplined(c, d, now)
  {
    hide AwaitRenewal;
    match call {
      case Check => AwaitIsDisciplined(c, t, now, Checking);
      case Exchange => AwaitIsDisciplined(c, t, now, Exchanging);
      case Load(id) =>
        AwaitIsDisciplined(c, t, now, Loading(Preparing, id, Get(c.entry.onlineVersions, id), |c.past.trace|, None));
      case Store(ref, session, wall) => StoreIsDisciplined(c, t, now, ref, session, wall);
      case Delete(id) => DeleteIsDisciplined(c, t, now, id);
      case Mint(ref, session) => MintIsDisciplined(c, t, now, ref, session);
      case StoreOffline(_, _, _, _, _) =>
      case Erase =>
    }
  }

  lemma LoadKeepsFence(e: EntryState, id: string, row: StoredRow, original: Option<nat>, since: nat)
    ensures
      var completed := CompleteLoad(e, id, row, original, since);
      completed.Some? ==>
        var d := completed.value.0;
        && d.lease == e.lease && d.snapshot == e.snapshot && d.shop == e.shop && d.lost == e.lost
        && d.localDeadline == e.localDeadline && d.renewal == e.renewal
  {
  }

  lemma RequestIsDisciplined(c: Client, t: nat, now: int, request: Request, stage: Stage)
    requires Owned(c.entry, now) && !request.Release?
    ensures var d := Put(Send(c, now, request), t, Elsewhere, stage); SameFence(c, d) && Disciplined(c, d, now)
  {
  }

  lemma AdvanceIsDisciplined(c: Client, t: nat, now: int, wall: int, ref: nat, expires: Option<int>)
    ensures var d := OnAdvance(c, t, now, wall, ref, expires); SameFence(c, d) && Disciplined(c, d, now)
  {
    hide Abort, FreshActor, ActorFor, PublishedRecord, Unused, CompleteLoad, LoadedBy, Send, Owned;
    if t in c.tasks {
      AbortIsDisciplined(c, t, now, c.tasks[t].stage);
      match c.tasks[t].stage {
        case Exchanging =>
          var sent := SentExchange(c.entry.snapshot.observed, wall, c.entry.onlineVersions, |c.past.trace|,
                                   |c.past.log|);
          if Owned(c.entry, now) { RequestIsDisciplined(c, t, now, ExchangeToken, AwaitingToken(sent)); }
        case Publishing(Preparing, session, p) =>
          var request := Publish(p, c.entry.lease, p.origin.observed);
          if Owned(c.entry, now) { RequestIsDisciplined(c, t, now, request, Publishing(Waiting, session, p)); }
        case Deleting(Preparing, id, target) =>
          var request := DeleteOnline(id, target.digest, c.entry.lease, target.observed);
          if Owned(c.entry, now) { RequestIsDisciplined(c, t, now, request, Deleting(Waiting, id, target)); }
        case Loading(Finishing, id, original, since, Some(row)) => LoadKeepsFence(c.entry, id, row, original, since);
        case _ =>
      }
    }
  }

  lemma AcknowledgingIsDisciplined(c: Client, t: nat, now: int, properties: Option<Properties>, reply: Reply)
    ensures
      var d := Acknowledging(c, t, properties, reply);
      Disciplined(c, d, now) && (SameFence(c, d) || Committed(c, d, reply))
  {
    hide ValidAcknowledgement;
  }

  lemma IdentityKeepsFence(e: EntryState, sent: SentExchange, reply: Identity, identity: nat)
    ensures
      var recorded := ReceiveIdentity(e, sent, reply, identity);
      recorded.Some? ==>
        var d := recorded.value;
        && d.lease == e.lease && d.snapshot == e.snapshot && d.shop == e.shop && d.lost == e.lost
        && d.localDeadline == e.localDeadline && reply.evidence.Some? && reply.lifetime.Some?
  {
  }

  /** Only a valid acknowledgement moves the fence. */
  lemma ReceiveIsDisciplined(c: Client, t: nat, now: int, reply: Reply)
    ensures
      var d := OnReceive(c, t, now, reply);
      && Disciplined(c, d, now)
      && (SameFence(c, d) || Committed(c, d, reply))
  {
    hide Abort, AwaitRenewal, Acknowledging, Committed, AcceptsRow, GrantOf, ReceiveIdentity;
    if t in c.tasks {
      AbortIsDisciplined(c, t, now, c.tasks[t].stage);
      match c.tasks[t].stage {
        case AwaitingToken(sent) =>
          if reply.Identified? { IdentityKeepsFence(c.entry, sent, reply.identity, |c.past.grants|); }
        case Committing(_, properties) => AcknowledgingIsDisciplined(c, t, now, properties, reply);
        case Loading(_, id, original, since, _) =>
          if reply.Row? { AwaitIsDisciplined(c, t, now, Loading(Finishing, id, original, since, Some(reply.row))); }
        case Publishing(_, ref, p) => AwaitIsDisciplined(c, t, now, Publishing(Finishing, ref, p));
        case Deleting(_, id, target) => AwaitIsDisciplined(c, t, now, Deleting(Finishing, id, target));
        case Minting(_, ref, id, version, x) => AwaitIsDisciplined(c, t, now, Minting(Finishing, ref, id, version, x));
        case _ =>
      }
    }
  }

  predicate Committed(c: Client, d: Client, reply: Reply) {
    && Acknowledges(c, reply)
    && d.entry.lease == reply.fence.lease
    && d.entry.snapshot.observed == reply.fence.observed
    && d.entry.shop == c.entry.shop
    && d.past.acknowledged == c.past.acknowledged + 1
  }

  predicate Moved(c: Client, d: Client, a: Action) {
    SameFence(c, d) || (a.Receive? && Committed(c, d, a.reply))
  }

  lemma StepMovesFence(c: Client, a: Action)
    ensures Moved(c, Step(c, a), a)
  {
    hide OnBegin, OnAdvance, OnReceive, Dispatching, Committed, OnHeartbeat, OnSettle, OnStopHeartbeat, OnSendRelease;
    match a {
      case Begin(t, now, call) => BeginIsDisciplined(c, t, now, call);
      case Advance(t, now, wall, ref, expires) => AdvanceIsDisciplined(c, t, now, wall, ref, expires);
      case Receive(t, now, reply) => ReceiveIsDisciplined(c, t, now, reply);
      case Join(t, now) => if t in c.tasks { DispatchIsDisciplined(c, t, now, c.tasks[t].stage); }
      case Heartbeat(now) => HeartbeatKeepsFence(c, now);
      case Settle(renewal, renewed) => SettleKeepsFence(c, renewal, renewed);
      case SendRelease(now) => ReleaseKeepsFence(c, now);
      case StopHeartbeat => StopKeepsFence(c);
      case Close =>
    }
  }

  lemma SendKeepsFence(c: Client, now: int, request: Request, e: EntryState)
    requires e.lease == c.entry.lease && e.snapshot == c.entry.snapshot && e.shop == c.entry.shop
    ensures SameFence(c, Send(c, now, request).(entry := e))
  {
  }

  lemma HeartbeatKeepsFence(c: Client, now: int)
    ensures SameFence(c, OnHeartbeat(c, now))
  {
    SendKeepsFence(c, now, Renew(c.entry.lease, None), StartRenewal(c.entry, |c.past.log|));
    hide Send, Owned;
  }

  lemma SettleKeepsFence(c: Client, renewal: nat, renewed: bool)
    ensures SameFence(c, OnSettle(c, renewal, renewed))
  {
  }

  lemma ReleaseKeepsFence(c: Client, now: int)
    ensures SameFence(c, OnSendRelease(c, now))
  {
  }

  lemma StopKeepsFence(c: Client)
    ensures SameFence(c, OnStopHeartbeat(c))
  {
  }

  // ------------------------------------------------- the fence refines a counter

  /** `lease` is the lease the client was started with, `first` the snapshot's
      observation it was acquired under. */
  ghost predicate Fenced(c: Client, first: Observation, lease: Lease) {
    && c.entry.lease.token == lease.token
    && c.entry.lease.epoch == lease.epoch
    && c.entry.lease.revision == c.entry.snapshot.observed.revision
    && (c.past.acknowledged == 0 ==> c.entry.lease == lease && c.entry.snapshot.observed == first)
    && (c.past.acknowledged > 0 ==>
          && IsCounter(lease.revision)
          && AllDigits(c.entry.lease.revision)
          && Value(c.entry.lease.revision) == Value(lease.revision) + c.past.acknowledged
          && c.entry.snapshot.observed.epoch == lease.epoch)
  }

  lemma AcknowledgedStaysFenced(c: Client, d: Client, reply: Reply, first: Observation, lease: Lease)
    requires Fenced(c, first, lease) && Committed(c, d, reply)
    ensures Fenced(d, first, lease)
  {
    var fence := reply.fence;
    assert IsCounter(c.entry.lease.revision) && AllDigits(fence.lease.revision)
        && Value(fence.lease.revision) == Value(c.entry.lease.revision) + 1;
  }

  /** Whatever the server answers: the token and epoch never change, the revision of
      the lease is the revision of the snapshot and counts the acknowledged offline
      mutations as an integer, and the observed epoch is the one below the lease's
      until the first of them and the lease's own afterwards. */
  lemma {:induction false} FenceRefinesCounter(c: Client, actions: seq<Action>, first: Observation, lease: Lease)
    requires Fenced(c, first, lease)
    ensures Fenced(Run(c, actions), first, lease)
    decreases |actions|
  {
    hide Step, Committed;
    if actions != [] {
      var a := actions[0];
      var d := Step(c, a);
      StepMovesFence(c, a);
      if !SameFence(c, d) { AcknowledgedStaysFenced(c, d, a.reply, first, lease); }
      FenceRefinesCounter(d, actions[1..], first, lease);
    }
  }

  lemma StartIsFenced(shop: string, snapshot: Snapshot, lease: Lease, token: string, started: int)
    requires Admits(lease, token, snapshot.observed)
    ensures Fenced(Start(shop, snapshot, lease, started), snapshot.observed, lease)
    ensures IsCounter(snapshot.observed.epoch) && AllDigits(lease.epoch)
    ensures Value(lease.epoch) == Value(snapshot.observed.epoch) + 1
  {
  }

  // --------------------------------------------------------- ownership and loss

  /** Every request but the release leaves while the entry is owned. */
  predicate SendsOnlyOwned(c: Client, d: Client, a: Action) {
    || d.past.log == c.past.log
    || (Sends(c, d) && Clock(a) == Some(Sent(c, d).at)
        && (Sent(c, d).request.Release? || Owned(c.entry, Sent(c, d).at)))
  }

  lemma StepSendsOnlyOwned(c: Client, a: Action)
    ensures SendsOnlyOwned(c, Step(c, a), a)
    ensures c.entry.lost ==> Step(c, a).entry.lost
    ensures c.drain.Released? ==> Step(c, a).drain.Released?
    ensures !a.Close? && !a.StopHeartbeat? && !a.SendRelease? ==> KeepsDrain(c, Step(c, a))
    ensures Step(c, a).entry.localDeadline == c.entry.localDeadline || Extends(c, a)
  {
    hide OnBegin, OnAdvance, OnReceive, Dispatching;
    match a {
      case Begin(t, now, call) => BeginIsDisciplined(c, t, now, call);
      case Advance(t, now, wall, ref, expires) => AdvanceIsDisciplined(c, t, now, wall, ref, expires);
      case Receive(t, now, reply) => ReceiveIsDisciplined(c, t, now, reply);
      case Join(t, now) => if t in c.tasks { DispatchIsDisciplined(c, t, now, c.tasks[t].stage); }
      case _ =>
    }
  }

  /** The release is the operation's own business, not a method's. */
  predicate KeepsDrain(c: Client, d: Client) {
    && d.drain == c.drain && d.closed == c.closed
    && (d.past.log == c.past.log || (Sends(c, d) && !Sent(c, d).request.Release?))
  }

  /** `a` is the positive reply to a renewal not settled before. */
  predicate Extends(c: Client, a: Action) {
    && a.Settle? && a.renewed
    && a.renewal < |c.past.log| && c.past.log[a.renewal].request.Renew?
    && a.renewal !in c.settled
  }

  /** Loss is absorbing: whatever replies are still in flight, a client that has lost
      its entry stays without it and sends nothing more but a release. */
  lemma {:induction false} LossIsAbsorbing(c: Client, actions: seq<Action>)
    requires c.entry.lost
    ensures
      var d := Run(c, actions);
      && d.entry.lost
      && c.past.log <= d.past.log
      && forall k :: |c.past.log| <= k < |d.past.log| ==> d.past.log[k].request.Release?
    decreases |actions|
  {
    hide Step;
    if actions != [] {
      StepSendsOnlyOwned(c, actions[0]);
      LossIsAbsorbing(Step(c, actions[0]), actions[1..]);
    }
  }

  /** A stage whose failure costs the entry goes on when the entry is no longer owned. */
  predicate TooLate(c: Client, now: int, stage: Stage) {
    !Owned(c.entry, now) && (MutationOf(stage).Some? || Ambiguous(stage))
  }

  /** A publication or deletion that begins finds at once that it cannot be renewed. */
  predicate BeginsTooLate(c: Client, now: int, call: Call) {
    && c.entry.renewal.None? && !Owned(c.entry, now)
    && match call
       case Store(ref, session, wall) =>
         && Names(c, ref, session.id)
         && BeginPublication(c.entry, ref, Get(c.records, ref), session, wall, |c.past.trace|, |c.past.grants|).Some?
       case Delete(id) => BeginDeletion(c.entry, id, |c.past.trace|).Some?
       case _ => false
  }

  /** A reply that leaves the outcome of its request open, or comes too late for the
      renewal that would follow it. */
  predicate RepliesBadly(c: Client, now: int, stage: Stage, reply: Reply) {
    match stage
    case AwaitingToken(sent) =>
      || !Owned(c.entry, now)
      || (!reply.Plain? && !reply.Identified?)
      || (reply.Identified? && ReceiveIdentity(c.entry, sent, reply.identity, |c.past.grants|).None?)
    case Publishing(Waiting, _, _) => !reply.Confirmed? || (c.entry.renewal.None? && !Owned(c.entry, now))
    case Deleting(Waiting, _, _) => !reply.Confirmed? || (c.entry.renewal.None? && !Owned(c.entry, now))
    case Committing(_, _) => !Acknowledges(c, reply)
    case _ => false
  }

  /** Everything that costs an entry its ownership for good: a failed renewal; a heartbeat
      after the deadline; and a failed, ambiguous, refused or late outcome of an exchange,
      a publication, a deletion or an offline write. */
  predicate Fails(c: Client, a: Action) {
    match a
    case Heartbeat(now) => c.drain.Running? && c.entry.renewal.None? && !Owned(c.entry, now)
    case Settle(k, renewed) => !renewed && k < |c.past.log| && c.past.log[k].request.Renew? && k !in c.settled
    case Join(t, now) =>
      && t in c.tasks && c.tasks[t].wait.Joined? && c.tasks[t].wait.renewal in c.settled
      && TooLate(c, now, c.tasks[t].stage)
    case Begin(t, now, call) => t !in c.tasks && BeginsTooLate(c, now, call)
    case Advance(t, now, _, _, expires) =>
      && t in c.tasks && c.tasks[t].wait.Renewing? && c.tasks[t].wait.renewal in c.settled
      && (TooLate(c, now, c.tasks[t].stage) || LosesExpiry(c, now, c.tasks[t].stage, expires))
    case Receive(t, now, reply) =>
      t in c.tasks && c.tasks[t].wait.Elsewhere? && RepliesBadly(c, now, c.tasks[t].stage, reply)
    case _ => false
  }

  /** An acknowledged publication whose session has lost its expiry meanwhile. */
  predicate LosesExpiry(c: Client, now: int, stage: Stage, expires: Option<int>) {
    Owned(c.entry, now) && stage.Publishing? && !stage.phase.Preparing? && expires.None?
  }

  lemma AbortLoses(c: Client, t: nat, stage: Stage)
    ensures Abort(c, t, stage).entry.lost <==> c.entry.lost || MutationOf(stage).Some? || Ambiguous(stage)
  {
  }

  lemma AwaitLoses(c: Client, t: nat, now: int, stage: Stage)
    ensures Dispatching(c, t, now, stage).entry.lost <==> c.entry.lost || TooLate(c, now, stage)
    ensures AwaitRenewal(c, t, now, stage).entry.lost
            <==> c.entry.lost || (c.entry.renewal.None? && TooLate(c, now, stage))
  {
    AbortLoses(c, t, stage);
    hide Abort;
  }

  lemma BeginLoses(c: Client, t: nat, now: int, call: Call)
    ensures OnBegin(c, t, now, call).entry.lost <==> c.entry.lost || (t !in c.tasks && BeginsTooLate(c, now, call))
  {
    hide AwaitRenewal, Writing;
    match call {
      case Check => AwaitLoses(c, t, now, Checking);
      case Exchange => AwaitLoses(c, t, now, Exchanging);
      case Load(id) =>
        AwaitLoses(c, t, now, Loading(Preparing, id, Get(c.entry.onlineVersions, id), |c.past.trace|, None));
      case Store(ref, session, wall) => StoreLoses(c, t, now, ref, session, wall);
      case Delete(id) => DeleteLoses(c, t, now, id);
      case Mint(ref, session) => MintLoses(c, t, now, ref, session);
      case StoreOffline(ref, original, based, properties, scoped) =>
        var observed := if original.Some? then original.value else c.entry.snapshot.observed;
        WritingLoses(c, t, now, ref, observed, based, properties);
      case Erase =>
    }
  }

  lemma WritingLoses(c: Client, t: nat, now: int, ref: nat, observed: Observation, based: Option<Properties>,
                     properties: Properties)
    ensures Writing(c, t, now, ref, observed, based, properties).entry == c.entry
  {
  }

  lemma StoreLoses(c: Client, t: nat, now: int, ref: nat, session: SessionView, wall: int)
    ensures OnBegin(c, t, now, Store(ref, session, wall)).entry.lost
       <==> c.entry.lost || (t !in c.tasks && BeginsTooLate(c, now, Store(ref, session, wall)))
  {
    var begun := BeginPublication(c.entry, ref, Get(c.records, ref), session, wall, |c.past.trace|, |c.past.grants|);
    if begun.Some? {
      var d := c.(entry := begun.value.0, past := c.past.(trace := c.past.trace + [Began(session.id)]));
      AwaitLoses(d, t, now, Publishing(Preparing, ref, begun.value.1));
    }
    hide AwaitRenewal;
  }

  lemma DeleteLoses(c: Client, t: nat, now: int, id: string)
    ensures OnBegin(c, t, now, Delete(id)).entry.lost
       <==> c.entry.lost || (t !in c.tasks && BeginsTooLate(c, now, Delete(id)))
  {
    var begun := BeginDeletion(c.entry, id, |c.past.trace|);
    if begun.Some? {
      var d := c.(entry := begun.value.0, past := c.past.(trace := c.past.trace + [Began(id)]));
      AwaitLoses(d, t, now, Deleting(Preparing, id, begun.value.1));
    }
    hide AwaitRenewal;
  }

  lemma MintLoses(c: Client, t: nat, now: int, ref: nat, session: SessionView)
    ensures OnBegin(c, t, now, Mint(ref, session)).entry.lost <==> c.entry.lost
  {
    var reservation := ReserveActor(c.entry, Get(c.records, ref), session);
    if reservation.Some? {
      var x := reservation.value.1;
      var d := c.(entry := reservation.value.0, past := c.past.(reserved := c.past.reserved + {x.identity}));
      AwaitLoses(d, t, now, Minting(Preparing, ref, session.id, c.records[ref].origin.version, x));
    }
    hide AwaitRenewal;
  }

  lemma AdvanceLoses(c: Client, a: Action)
    requires a.Advance?
    ensures Step(c, a).entry.lost <==> c.entry.lost || Fails(c, a)
  {
    hide Abort, FreshActor, ActorFor, PublishedRecord, Unused;
    if a.task in c.tasks { AbortLoses(c, a.task, c.tasks[a.task].stage); }
  }

  lemma ReceiveLoses(c: Client, t: nat, now: int, reply: Reply)
    ensures OnReceive(c, t, now, reply).entry.lost <==> c.entry.lost || Fails(c, Receive(t, now, reply))
  {
    hide Abort, AwaitRenewal, Writing, ValidAcknowledgement, AcceptsRow, GrantOf;
    if t in c.tasks {
      var stage := c.tasks[t].stage;
      AbortLoses(c, t, stage);
      match stage {
        case AwaitingToken(sent) =>
          if reply.Identified? { IdentityKeepsLoss(c.entry, sent, reply.identity, |c.past.grants|); }
        case Loading(_, id, original, since, _) =>
          if reply.Row? { AwaitLoses(c, t, now, Loading(Finishing, id, original, since, Some(reply.row))); }
        case Publishing(_, ref, p) => AwaitLoses(c, t, now, Publishing(Finishing, ref, p));
        case Deleting(_, id, target) => AwaitLoses(c, t, now, Deleting(Finishing, id, target));
        case Minting(_, ref, id, version, x) => AwaitLoses(c, t, now, Minting(Finishing, ref, id, version, x));
        case Scoping(ref, observed, based) =>
          if reply.Scopes? { WritingLoses(c, t, now, ref, observed, based, reply.properties); }
        case _ =>
      }
    }
  }

  lemma IdentityKeepsLoss(e: EntryState, sent: SentExchange, reply: Identity, identity: nat)
    ensures ReceiveIdentity(e, sent, reply, identity).Some?
            ==> ReceiveIdentity(e, sent, reply, identity).value.lost == e.lost
  {
  }

  /** An entry that is not lost becomes lost by an action if and only if the action is one
      of those outcomes. */
  lemma LossHasACause(c: Client, a: Action)
    ensures Step(c, a).entry.lost <==> c.entry.lost || Fails(c, a)
  {
    hide OnBegin, OnAdvance, OnReceive, Dispatching, BeginsTooLate, RepliesBadly, TooLate, LosesExpiry;
    match a {
      case Begin(t, now, call) => BeginLoses(c, t, now, call);
      case Advance(_, _, _, _, _) => AdvanceLoses(c, a);
      case Receive(t, now, reply) => ReceiveLoses(c, t, now, reply);
      case Join(t, now) => if t in c.tasks { AwaitLoses(c, t, now, c.tasks[t].stage); }
      case _ =>
    }
  }

  /** The first of them is final: from the action after it on nothing leaves but a release,
      whatever else is still in flight and however it comes back. */
  lemma FirstFailureIsFinal(c: Client, a: Action, later: seq<Action>)
    requires Fails(c, a)
    ensures
      var d := Run(Step(c, a), later);
      && d.entry.lost
      && Step(c, a).past.log == c.past.log <= d.past.log
      && forall k :: |c.past.log| <= k < |d.past.log| ==> d.past.log[k].request.Release?
  {
    LossHasACause(c, a);
    FailureSendsNothing(c, a);
    hide Fails, Step;
    LossIsAbsorbing(Step(c, a), later);
  }

  lemma FailureSendsNothing(c: Client, a: Action)
    requires Fails(c, a)
    ensures Step(c, a).past.log == c.past.log
  {
    StepSendsOnlyOwned(c, a);
    if a.Advance? { LateAdvanceSendsNothing(c, a); }
    if a.Receive? { BadReplySendsNothing(c, a.task, a.now, a.reply); }
    hide OnBegin, OnAdvance, OnReceive, OnJoin, RepliesBadly, LosesExpiry;
  }

  lemma LateAdvanceSendsNothing(c: Client, a: Action)
    requires a.Advance? && Fails(c, a)
    ensures Step(c, a).past.log == c.past.log
  {
    AbortIsDisciplined(c, a.task, a.now, c.tasks[a.task].stage);
    hide FreshActor, ActorFor, PublishedRecord, Unused, CompleteLoad;
  }

  lemma BadReplySendsNothing(c: Client, t: nat, now: int, reply: Reply)
    requires t in c.tasks && c.tasks[t].wait.Elsewhere? && RepliesBadly(c, now, c.tasks[t].stage, reply)
    ensures OnReceive(c, t, now, reply).past.log == c.past.log
  {
    hide ReceiveIdentity, ValidAcknowledgement, AcceptsRow, GrantOf;
  }

  /** Passing the deadline is not absorbing: an entry that is not owned at `now`
      becomes owned by a stretch if and only if it was not lost and the stretch is the
      reply to a renewal sent less than 45 seconds before `now`. */
  lemma OwnershipReturnsOnlyByRenewal(c: Client, a: Action, now: int)
    requires !Owned(c.entry, now)
    ensures Owned(Step(c, a).entry, now)
       <==> !c.entry.lost && Extends(c, a) && now < c.past.log[a.renewal].at + LOCAL_OWNERSHIP_MS
  {
    StepSendsOnlyOwned(c, a);
    hide OnBegin, OnAdvance, OnReceive, OnJoin, OnHeartbeat, OnStopHeartbeat, OnSendRelease;
  }

  /** A run in which it happens: acquired at 0, renewed by a heartbeat sent at 40 s
      whose reply arrives after the deadline of 45 s. */
  lemma DeadlineIsNotAbsorbing(shop: string, snapshot: Snapshot, lease: Lease)
    ensures
      var sent := Run(Start(shop, snapshot, lease, 0), [Heartbeat(40_000)]);
      var answered := Run(sent, [Settle(0, true)]);
      !Owned(sent.entry, 50_000) && Owned(answered.entry, 50_000)
  {
    var c := Start(shop, snapshot, lease, 0);
    var sent := Step(c, Heartbeat(40_000));
    assert Run(c, [Heartbeat(40_000)]) == sent;
    assert Run(sent, [Settle(0, true)]) == Step(sent, Settle(0, true));
    assert sent.past.log == [Dispatch(40_000, Renew(lease, None), 0, 0)];
  }
}
