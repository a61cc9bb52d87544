/** What the requests of a client carry: always the lease it was admitted with, and
    for an offline write the observation its session object was recorded with. */
module ClientWire {
  import opened Wrappers
  import opened Contract
  import opened SessionEntry
  import opened SessionClient

  /** The stored offline session each payload digest stands for; None is no session. */
  type Contents = map<string, Option<Properties>>

  /** The offline session object `ref` was recorded with this observation when it held
      these properties. */
  datatype Memory = Memory(ref: nat, observed: Observation, properties: Properties)

  /** What the surroundings of a client know: the stored payloads, and everything session
      objects have been recorded as. */
  datatype Known = Known(contents: Contents, memories: set<Memory>)

  /** Properties read under an observation are those its digest stands for. */
  predicate Stands(contents: Contents, observed: Observation, properties: Option<Properties>) {
    properties.Some? ==> Get(contents, observed.sessionDigest) == Some(properties)
  }

  /** And an object that carries them was recorded so. */
  predicate Recalls(known: Known, ref: nat, observed: Observation, based: Option<Properties>) {
    Stands(known.contents, observed, based) && (based.Some? ==> Memory(ref, observed, based.value) in known.memories)
  }

  predicate Bears(r: Request, lease: Lease) {
    r.ExchangeToken? || (r.lease.token == lease.token && r.lease.epoch == lease.epoch)
  }

  predicate RequestOk(known: Known, lease: Lease, r: Request) {
    Bears(r, lease) && (r.Write? ==> Recalls(known, r.ref, r.observed, r.based))
  }

  predicate StageWired(known: Known, log: seq<Dispatch>, s: Stage) {
    match s
    case Scoping(ref, observed, based) => Recalls(known, ref, observed, based)
    case Committing(k, properties) =>
      && k < |log|
      && (if properties.Some? then log[k].request.Write? && log[k].request.properties == properties.value
          else log[k].request.DeleteOffline?)
    case _ => true
  }

  predicate LogWired(known: Known, lease: Lease, log: seq<Dispatch>, released: bool) {
    forall k :: 0 <= k < |log| ==> RequestOk(known, lease, log[k].request) && (log[k].request.Release? ==> released)
  }

  predicate TasksWired(known: Known, log: seq<Dispatch>, tasks: map<nat, Task>) {
    forall t :: t in tasks ==> StageWired(known, log, tasks[t].stage)
  }

  predicate Wired(known: Known, c: Client) {
    && Stands(known.contents, c.entry.snapshot.observed, c.entry.snapshot.properties)
    && LogWired(known, c.entry.lease, c.past.log, c.drain.Released?)
    && TasksWired(known, c.past.log, c.tasks)
  }

  predicate Larger(contents: Contents, more: Contents) {
    forall d :: d in contents ==> d in more && more[d] == contents[d]
  }

  predicate MoreKnown(known: Known, more: Known) {
    Larger(known.contents, more.contents) && known.memories <= more.memories
  }

  lemma StaysWired(known: Known, more: Known, c: Client)
    requires Wired(known, c) && MoreKnown(known, more)
    ensures Wired(more, c)
  {
    forall t | t in c.tasks ensures StageWired(more, c.past.log, c.tasks[t].stage) {
      assert StageWired(known, c.past.log, c.tasks[t].stage);
    }
    forall k | 0 <= k < |c.past.log| ensures RequestOk(more, c.entry.lease, c.past.log[k].request) {
      assert RequestOk(known, c.entry.lease, c.past.log[k].request);
    }
  }

  /** The replies and session objects that the surroundings supply are genuine. */
  predicate Genuine(known: Known, c: Client, a: Action) {
    match a
    case Begin(_, _, StoreOffline(ref, original, based, _, _)) =>
      if original.Some? then Recalls(known, ref, original.value, based) else based.None?
    case Receive(t, _, Fenced(fence)) =>
      t in c.tasks && c.tasks[t].stage.Committing? ==>
        Stands(known.contents, fence.observed, c.tasks[t].stage.properties)
    case _ => true
  }

  // --------------------------------------------------------------- preservation

  lemma PutKeepsWired(known: Known, c: Client, t: nat, wait: Wait, stage: Stage)
    requires Wired(known, c) && StageWired(known, c.past.log, stage)
    ensures Wired(known, Put(c, t, wait, stage))
  {
  }

  lemma DoneKeepsWired(known: Known, c: Client, t: nat)
    requires Wired(known, c)
    ensures Wired(known, Done(c, t))
  {
  }

  /** Nothing here depends on the rest of the client. */
  lemma SameWires(known: Known, c: Client, d: Client)
    requires Wired(known, c)
    requires d.entry.lease == c.entry.lease && d.entry.snapshot == c.entry.snapshot
    requires d.past.log == c.past.log && d.tasks == c.tasks && (c.drain.Released? ==> d.drain.Released?)
    ensures Wired(known, d)
  {
  }

  lemma AbortKeepsWired(known: Known, c: Client, t: nat, stage: Stage)
    requires Wired(known, c)
    ensures Wired(known, Abort(c, t, stage))
  {
    DoneKeepsWired(known, c, t);
    SameWires(known, Done(c, t), Abort(c, t, stage));
  }

  lemma StageSurvives(known: Known, c: Client, now: int, r: Request, stage: Stage)
    requires StageWired(known, c.past.log, stage)
    ensures StageWired(known, Send(c, now, r).past.log, stage)
  {
    match stage {
      case Committing(k, _) => assert Send(c, now, r).past.log[k] == c.past.log[k];
      case _ =>
    }
  }

  lemma SendKeepsWired(known: Known, c: Client, now: int, r: Request)
    requires Wired(known, c) && RequestOk(known, c.entry.lease, r) && (r.Release? ==> c.drain.Released?)
    ensures Wired(known, Send(c, now, r))
  {
    forall t | t in c.tasks ensures StageWired(known, Send(c, now, r).past.log, c.tasks[t].stage) {
      StageSurvives(known, c, now, r, c.tasks[t].stage);
    }
  }

  lemma RequestKeepsWired(known: Known, c: Client, t: nat, now: int, r: Request, stage: Stage)
    requires Wired(known, c) && RequestOk(known, c.entry.lease, r) && !r.Release?
    requires StageWired(known, Send(c, now, r).past.log, stage)
    ensures Wired(known, Put(Send(c, now, r), t, Elsewhere, stage))
  {
    SendKeepsWired(known, c, now, r);
    PutKeepsWired(known, Send(c, now, r), t, Elsewhere, stage);
  }

  lemma AwaitKeepsWired(known: Known, c: Client, t: nat, now: int, stage: Stage)
    requires Wired(known, c) && StageWired(known, c.past.log, stage)
    ensures Wired(known, Dispatching(c, t, now, stage))
    ensures Wired(known, AwaitRenewal(c, t, now, stage))
  {
    AbortKeepsWired(known, c, t, stage);
    var r := Renew(c.entry.lease, Some(c.entry.snapshot.observed));
    SendKeepsWired(known, c, now, r);
    StageSurvives(known, c, now, r, stage);
    var sent := Send(c, now, r).(entry := StartRenewal(c.entry, |c.past.log|));
    SameWires(known, Send(c, now, r), sent);
    hide Wired, Abort;
    PutKeepsWired(known, sent, t, Renewing(|c.past.log|), stage);
    assert Wired(known, Dispatching(c, t, now, stage));
    hide Dispatching;
    if c.entry.renewal.Some? { PutKeepsWired(known, c, t, Joined(c.entry.renewal.value), stage); }
  }

  lemma WriteKeepsWired(known: Known, c: Client, t: nat, now: int, ref: nat, observed: Observation,
                        based: Option<Properties>, properties: Properties)
    requires Wired(known, c) && Recalls(known, ref, observed, based)
    ensures Wired(known, Writing(c, t, now, ref, observed, based, properties))
  {
    RequestKeepsWired(known, c, t, now,
                      Write(ref, properties, observed.credentialTokenHash, c.entry.lease, observed, based),
                      Committing(|c.past.log|, Some(properties)));
  }

  lemma AcknowledgingKeepsWired(known: Known, c: Client, t: nat, properties: Option<Properties>, reply: Reply)
    requires Wired(known, c)
    requires reply.Fenced? ==> Stands(known.contents, reply.fence.observed, properties)
    ensures Wired(known, Acknowledging(c, t, properties, reply))
  {
    DoneKeepsWired(known, c, t);
    var d := Acknowledging(c, t, properties, reply);
    forall k | 0 <= k < |c.past.log| ensures RequestOk(known, d.entry.lease, c.past.log[k].request) {
      assert RequestOk(known, c.entry.lease, c.past.log[k].request);
    }
  }

  lemma BeginKeepsWired(known: Known, c: Client, t: nat, now: int, call: Call)
    requires Wired(known, c) && Genuine(known, c, Begin(t, now, call))
    ensures Wired(known, OnBegin(c, t, now, call))
  {
    hide Wired, AwaitRenewal, Writing;
    match call {
      case Check => AwaitKeepsWired(known, c, t, now, Checking);
      case Exchange => AwaitKeepsWired(known, c, t, now, Exchanging);
      case Load(id) =>
        AwaitKeepsWired(known, c, t, now,
                        Loading(Preparing, id, Get(c.entry.onlineVersions, id), |c.past.trace|, None));
      case Store(ref, session, wall) => StoreKeepsWired(known, c, t, now, ref, session, wall);
      case Delete(id) => DeleteKeepsWired(known, c, t, now, id);
      case Mint(ref, session) => MintKeepsWired(known, c, t, now, ref, session);
      case StoreOffline(ref, original, based, properties, scoped) =>
        var observed := if original.Some? then original.value else c.entry.snapshot.observed;
        PutKeepsWired(known, c, t, Elsewhere, Scoping(ref, observed, based));
        WriteKeepsWired(known, c, t, now, ref, observed, based, properties);
      case Erase =>
        RequestKeepsWired(known, c, t, now, DeleteOffline(c.entry.lease, c.entry.snapshot.observed),
                          Committing(|c.past.log|, None));
    }
  }

  lemma StoreKeepsWired(known: Known, c: Client, t: nat, now: int, ref: nat, session: SessionView, wall: int)
    requires Wired(known, c)
    ensures Wired(known, OnBegin(c, t, now, Store(ref, session, wall)))
  {
    var begun := BeginPublication(c.entry, ref, Get(c.records, ref), session, wall, |c.past.trace|, |c.past.grants|);
    if begun.Some? {
      var d := c.(entry := begun.value.0, past := c.past.(trace := c.past.trace + [Began(session.id)]));
      SameWires(known, c, d);
      hide Wired, AwaitRenewal;
      AwaitKeepsWired(known, d, t, now, Publishing(Preparing, ref, begun.value.1));
    }
  }

  lemma DeleteKeepsWired(known: Known, c: Client, t: nat, now: int, id: string)
    requires Wired(known, c)
    ensures Wired(known, OnBegin(c, t, now, Delete(id)))
  {
    var begun := BeginDeletion(c.entry, id, |c.past.trace|);
    if begun.Some? {
      var d := c.(entry := begun.value.0, past := c.past.(trace := c.past.trace + [Began(id)]));
      SameWires(known, c, d);
      hide Wired, AwaitRenewal;
      AwaitKeepsWired(known, d, t, now, Deleting(Preparing, id, begun.value.1));
    }
  }

  lemma MintKeepsWired(known: Known, c: Client, t: nat, now: int, ref: nat, session: SessionView)
    requires Wired(known, c)
    ensures Wired(known, OnBegin(c, t, now, Mint(ref, session)))
  {
    var reservation := ReserveActor(c.entry, Get(c.records, ref), session);
    if reservation.Some? {
      var x := reservation.value.1;
      var d := c.(entry := reservation.value.0, past := c.past.(reserved := c.past.reserved + {x.identity}));
      SameWires(known, c, d);
      hide Wired, AwaitRenewal;
      AwaitKeepsWired(known, d, t, now, Minting(Preparing, ref, session.id, c.records[ref].origin.version, x));
    }
  }

  lemma AdvanceKeepsWired(known: Known, c: Client, t: nat, now: int, wall: int, ref: nat, expires: Option<int>)
    requires Wired(known, c)
    ensures Wired(known, OnAdvance(c, t, now, wall, ref, expires))
  {
    hide Wired, Abort;
    if t in c.tasks {
      var stage := c.tasks[t].stage;
      AbortKeepsWired(known, c, t, stage);
      DoneKeepsWired(known, c, t);
      match stage {
        case Exchanging =>
          var sent := SentExchange(c.entry.snapshot.observed, wall, c.entry.onlineVersions, |c.past.trace|,
                                   |c.past.log|);
          RequestKeepsWired(known, c, t, now, ExchangeToken, AwaitingToken(sent));
        case Loading(Preparing, id, original, since, _) =>
          PutKeepsWired(known, c, t, Elsewhere, Loading(Waiting, id, original, since, None));
        case Loading(Finishing, id, original, since, Some(row)) =>
          LoadKeepsWired(known, c, t, ref, id, row, original, since);
        case Publishing(Preparing, session, p) =>
          RequestKeepsWired(known, c, t, now, Publish(p, c.entry.lease, p.origin.observed),
                            Publishing(Waiting, session, p));
        case Publishing(_, session, p) =>
          if expires.Some? { PublishedKeepsWired(known, c, t, session, p, expires.value); }
        case Deleting(Preparing, id, target) =>
          RequestKeepsWired(known, c, t, now, DeleteOnline(id, target.digest, c.entry.lease, target.observed),
                            Deleting(Waiting, id, target));
        case Deleting(_, id, _) => SameWires(known, Done(c, t), EndOnline(Done(c, t), id, true));
        case Minting(Preparing, session, id, version, x) =>
          PutKeepsWired(known, c, t, Elsewhere, Minting(Waiting, session, id, version, x));
        case Minting(_, session, id, version, x) =>
          if expires.Some? {
            MintedKeepsWired(known, c, t, ActorFor(session, id, x, wall, expires.value, version, |c.past.trace|));
          }
        case _ =>
      }
    }
  }

  lemma LoadKeepsWired(known: Known, c: Client, t: nat, ref: nat, id: string, row: StoredRow,
                       original: Option<nat>, since: nat)
    requires Wired(known, c)
    ensures
      var completed := CompleteLoad(c.entry, id, row, original, since);
      completed.Some? ==>
        Wired(known, Done(c, t).(entry := completed.value.0,
                                    records := c.records[ref := completed.value.1],
                                    past := c.past.(
                                      loads := c.past.loads + [LoadedBy(ref, id, row, since, |c.past.trace|)])))
  {
    DoneKeepsWired(known, c, t);
  }

  lemma PublishedKeepsWired(known: Known, c: Client, t: nat, ref: nat, p: Publication, expires: int)
    requires Wired(known, c)
    ensures
      var d := Done(c, t).(records := c.records[ref := PublishedRecord(p, expires, |c.past.trace|)]);
      Wired(known, EndOnline(d, p.id, true))
  {
    DoneKeepsWired(known, c, t);
    var d := Done(c, t).(records := c.records[ref := PublishedRecord(p, expires, |c.past.trace|)]);
    SameWires(known, Done(c, t), EndOnline(d, p.id, true));
  }

  lemma MintedKeepsWired(known: Known, c: Client, t: nat, actor: Actor)
    requires Wired(known, c)
    ensures Wired(known, Done(c, t).(past := c.past.(actors := c.past.actors + [actor])))
  {
    DoneKeepsWired(known, c, t);
  }

  lemma IdentityKeepsWired(known: Known, c: Client, t: nat, sent: SentExchange, identity: Identity)
    requires Wired(known, c)
    ensures
      var recorded := ReceiveIdentity(c.entry, sent, identity, |c.past.grants|);
      recorded.Some? ==>
        Wired(known, Done(c, t).(entry := recorded.value,
                                 past := c.past.(grants := c.past.grants + [GrantOf(sent, identity)])))
  {
    DoneKeepsWired(known, c, t);
  }

  lemma ReceiveKeepsWired(known: Known, c: Client, t: nat, now: int, reply: Reply)
    requires Wired(known, c) && Genuine(known, c, Receive(t, now, reply))
    ensures Wired(known, OnReceive(c, t, now, reply))
  {
    if t !in c.tasks { return; }
    var stage := c.tasks[t].stage;
    assert StageWired(known, c.past.log, stage);
    hide Wired, Abort, AwaitRenewal, Writing, Acknowledging, ReceiveIdentity, AcceptsRow;
    AbortKeepsWired(known, c, t, stage);
    DoneKeepsWired(known, c, t);
    match stage {
      case AwaitingToken(sent) => if reply.Identified? { IdentityKeepsWired(known, c, t, sent, reply.identity); }
      case Loading(_, id, original, since, _) =>
        if reply.Row? { AwaitKeepsWired(known, c, t, now, Loading(Finishing, id, original, since, Some(reply.row))); }
      case Publishing(_, ref, p) => AwaitKeepsWired(known, c, t, now, Publishing(Finishing, ref, p));
      case Deleting(_, id, target) => AwaitKeepsWired(known, c, t, now, Deleting(Finishing, id, target));
      case Minting(_, ref, id, version, x) =>
        AwaitKeepsWired(known, c, t, now, Minting(Finishing, ref, id, version, x));
      case Scoping(ref, observed, based) =>
        if reply.Scopes? { WriteKeepsWired(known, c, t, now, ref, observed, based, reply.properties); }
      case Committing(_, properties) => AcknowledgingKeepsWired(known, c, t, properties, reply);
      case _ =>
    }
  }

  lemma ReleaseKeepsWired(known: Known, c: Client, now: int)
    requires Wired(known, c)
    ensures Wired(known, OnSendRelease(c, now))
  {
    SameWires(known, c, c.(drain := Released));
    SendKeepsWired(known, c.(drain := Released), now, Release(c.entry.lease));
  }

  lemma HeartbeatKeepsWired(known: Known, c: Client, now: int)
    requires Wired(known, c)
    ensures Wired(known, OnHeartbeat(c, now))
  {
    var sent := Send(c, now, Renew(c.entry.lease, None));
    SendKeepsWired(known, c, now, Renew(c.entry.lease, None));
    SameWires(known, sent, sent.(entry := StartRenewal(c.entry, |c.past.log|)));
    SameWires(known, c, c.(entry := Lose(c.entry)));
    hide Wired, Send, StartRenewal, Lose;
  }

  lemma StepKeepsWired(known: Known, c: Client, a: Action)
    requires Wired(known, c) && Genuine(known, c, a)
    ensures Wired(known, Step(c, a))
  {
    match a {
      case Join(t, now) => if t in c.tasks { AwaitKeepsWired(known, c, t, now, c.tasks[t].stage); }
      case Begin(t, now, call) => BeginKeepsWired(known, c, t, now, call);
      case Advance(t, now, wall, ref, expires) => AdvanceKeepsWired(known, c, t, now, wall, ref, expires);
      case Receive(t, now, reply) => ReceiveKeepsWired(known, c, t, now, reply);
      case Heartbeat(now) => HeartbeatKeepsWired(known, c, now);
      case SendRelease(now) => ReleaseKeepsWired(known, c, now);
      case _ => SameWires(known, c, Step(c, a));
    }
  }
}
