/** A session object first obtained from the cache is no fresh authentication. */
module ClientCache {
  import opened Wrappers
  import opened Contract
  import opened SessionEntry
  import opened SessionClient
  import opened ClientOnline
  import opened ClientRuns

  predicate CachedRecord(records: map<nat, Record>, ref: nat, digest: string) {
    ref in records && records[ref].origin.cached && records[ref].tokenDigest == digest
  }

  predicate CachedStage(stage: Stage, ref: nat, digest: string) {
    SessionOf(stage) == Some(ref) ==>
      stage.Publishing? && stage.publication.origin.cached && stage.publication.digest == digest
  }

  predicate CachedTasks(tasks: map<nat, Task>, ref: nat, digest: string) {
    forall t :: t in tasks ==> CachedStage(tasks[t].stage, ref, digest)
  }

  predicate NoActor(actors: seq<Actor>, ref: nat) {
    forall i :: 0 <= i < |actors| ==> actors[i].ref != ref
  }

  /** All there is of the session object `ref` comes from a cached load of token
      `digest`, and it has no actor. */
  predicate CachedOnly(c: Client, ref: nat, digest: string) {
    CachedRecord(c.records, ref, digest) && CachedTasks(c.tasks, ref, digest) && NoActor(c.past.actors, ref)
  }

  /** Saving the object presents the token it was loaded with. */
  predicate KeepsToken(a: Action, ref: nat, digest: string) {
    a.Begin? && a.call.Store? && a.call.ref == ref ==> a.call.session.tokenDigest == Some(digest)
  }

  lemma PutKeepsCached(c: Client, t: nat, wait: Wait, stage: Stage, ref: nat, digest: string)
    requires CachedOnly(c, ref, digest) && CachedStage(stage, ref, digest)
    ensures CachedOnly(Put(c, t, wait, stage), ref, digest)
  {
  }

  lemma DoneKeepsCached(c: Client, t: nat, ref: nat, digest: string)
    requires CachedOnly(c, ref, digest)
    ensures CachedOnly(Done(c, t), ref, digest)
  {
  }

  lemma ElsewhereKeepsCached(c: Client, d: Client, ref: nat, digest: string)
    requires CachedOnly(c, ref, digest)
    requires d.tasks == c.tasks && d.records == c.records && d.past.actors == c.past.actors
    ensures CachedOnly(d, ref, digest)
  {
  }

  lemma RecordKeepsCached(c: Client, r: nat, record: Record, ref: nat, digest: string)
    requires CachedOnly(c, ref, digest)
    requires r == ref ==> record.origin.cached && record.tokenDigest == digest
    ensures CachedOnly(c.(records := c.records[r := record]), ref, digest)
  {
  }

  lemma AwaitKeepsCached(c: Client, t: nat, now: int, stage: Stage, ref: nat, digest: string)
    requires CachedOnly(c, ref, digest) && CachedStage(stage, ref, digest)
    ensures CachedOnly(Abort(c, t, stage), ref, digest)
    ensures CachedOnly(Dispatching(c, t, now, stage), ref, digest)
    ensures CachedOnly(AwaitRenewal(c, t, now, stage), ref, digest)
  {
    DoneKeepsCached(c, t, ref, digest);
    ElsewhereKeepsCached(Done(c, t), Abort(c, t, stage), ref, digest);
    hide CachedOnly, CachedStage, Abort;
    if Owned(c.entry, now) {
      var renew := Renew(c.entry.lease, Some(c.entry.snapshot.observed));
      var sent := Send(c, now, renew).(entry := StartRenewal(c.entry, |c.past.log|));
      ElsewhereKeepsCached(c, sent, ref, digest);
      PutKeepsCached(sent, t, Renewing(|c.past.log|), stage, ref, digest);
    }
    assert CachedOnly(Dispatching(c, t, now, stage), ref, digest);
    hide Dispatching;
    if c.entry.renewal.Some? {
      PutKeepsCached(c, t, Joined(c.entry.renewal.value), stage, ref, digest);
    }
  }

  lemma WriteKeepsCached(c: Client, t: nat, now: int, target: nat, observed: Observation, based: Option<Properties>,
                         properties: Properties,
                         ref: nat, digest: string)
    requires CachedOnly(c, ref, digest)
    ensures CachedOnly(Writing(c, t, now, target, observed, based, properties), ref, digest)
  {
    var request := Write(target, properties, observed.credentialTokenHash, c.entry.lease, observed, based);
    ElsewhereKeepsCached(c, Send(c, now, request), ref, digest);
    hide CachedOnly;
    PutKeepsCached(Send(c, now, request), t, Elsewhere, Committing(|c.past.log|, Some(properties)), ref, digest);
  }

  lemma BeginKeepsCached(c: Client, t: nat, now: int, call: Call, ref: nat, digest: string)
    requires Inv(c) && CachedOnly(c, ref, digest) && KeepsToken(Begin(t, now, call), ref, digest)
    ensures CachedOnly(OnBegin(c, t, now, call), ref, digest)
  {
    hide Inv, AwaitRenewal, CachedOnly, Writing;
    match call {
      case Check => AwaitKeepsCached(c, t, now, Checking, ref, digest);
      case Exchange => AwaitKeepsCached(c, t, now, Exchanging, ref, digest);
      case Load(id) =>
        AwaitKeepsCached(c, t, now, Loading(Preparing, id, Get(c.entry.onlineVersions, id), |c.past.trace|, None), ref,
                         digest);
      case Store(session, view, wall) => StoreKeepsCached(c, t, now, session, view, wall, ref, digest);
      case Delete(id) => DeleteKeepsCached(c, t, now, id, ref, digest);
      case Mint(session, view) => MintKeepsCached(c, t, now, session, view, ref, digest);
      case StoreOffline(target, original, based, properties, _) =>
        var observed := if original.Some? then original.value else c.entry.snapshot.observed;
        PutKeepsCached(c, t, Elsewhere, Scoping(target, observed, based), ref, digest);
        WriteKeepsCached(c, t, now, target, observed, based, properties, ref, digest);
      case Erase =>
        SendKeepsCached(c, t, now, DeleteOffline(c.entry.lease, c.entry.snapshot.observed),
                        Committing(|c.past.log|, None), ref, digest);
    }
  }

  lemma StoreKeepsCached(c: Client, t: nat, now: int, session: nat, view: SessionView, wall: int, ref: nat,
                         digest: string)
    requires CachedOnly(c, ref, digest) && (session == ref ==> view.tokenDigest == Some(digest))
    ensures CachedOnly(OnBegin(c, t, now, Store(session, view, wall)), ref, digest)
  {
    hide AwaitRenewal, BeginPublication, CachedTasks, NoActor;
    var begun := BeginPublication(c.entry, session, Get(c.records, session), view, wall, |c.past.trace|,
                                  |c.past.grants|);
    if begun.Some? {
      var d := c.(entry := begun.value.0, past := c.past.(trace := c.past.trace + [Began(view.id)]));
      PublicationIsCached(c, session, view, wall, ref, digest);
      AwaitKeepsCached(d, t, now, Publishing(Preparing, session, begun.value.1), ref, digest);
    }
  }

  lemma DeleteKeepsCached(c: Client, t: nat, now: int, id: string, ref: nat, digest: string)
    requires CachedOnly(c, ref, digest)
    ensures CachedOnly(OnBegin(c, t, now, Delete(id)), ref, digest)
  {
    hide AwaitRenewal, BeginDeletion, CachedTasks, NoActor;
    var begun := BeginDeletion(c.entry, id, |c.past.trace|);
    if begun.Some? {
      var d := c.(entry := begun.value.0, past := c.past.(trace := c.past.trace + [Began(id)]));
      AwaitKeepsCached(d, t, now, Deleting(Preparing, id, begun.value.1), ref, digest);
    }
  }

  lemma MintKeepsCached(c: Client, t: nat, now: int, session: nat, view: SessionView, ref: nat, digest: string)
    requires Inv(c) && CachedOnly(c, ref, digest)
    ensures CachedOnly(OnBegin(c, t, now, Mint(session, view)), ref, digest)
  {
    hide Inv, AwaitRenewal, ReserveActor, CachedOnly, CachedStage;
    var reservation := ReserveActor(c.entry, Get(c.records, session), view);
    if reservation.Some? && Names(c, session, view.id) {
      var x := reservation.value.1;
      var d := c.(entry := reservation.value.0, past := c.past.(reserved := c.past.reserved + {x.identity}));
      ElsewhereKeepsCached(c, d, ref, digest);
      MintIsNotCached(c, session, view, ref, digest);
      AwaitKeepsCached(d, t, now, Minting(Preparing, session, view.id, c.records[session].origin.version, x), ref,
                       digest);
    }
  }

  lemma PublicationIsCached(c: Client, session: nat, view: SessionView, wall: int, ref: nat, digest: string)
    requires CachedRecord(c.records, ref, digest)
    requires session == ref ==> view.tokenDigest == Some(digest)
    ensures
      var begun := BeginPublication(c.entry, session, Get(c.records, session), view, wall, |c.past.trace|,
                                    |c.past.grants|);
      begun.Some? ==> CachedStage(Publishing(Preparing, session, begun.value.1), ref, digest)
  {
  }

  /** A cached object's record has no fresh authentication to mint with. */
  lemma MintIsNotCached(c: Client, session: nat, view: SessionView, ref: nat, digest: string)
    requires Inv(c) && CachedOnly(c, ref, digest)
    requires ReserveActor(c.entry, Get(c.records, session), view).Some?
    ensures session in c.records
    ensures forall id, version, x :: CachedStage(Minting(Preparing, session, id, version, x), ref, digest)
  {
    assert RecordOk(c.past, ref, c.records[ref]);
    hide Inv, CachedTasks, NoActor;
  }

  lemma StageIsCached(c: Client, t: nat, ref: nat, digest: string)
    requires CachedOnly(c, ref, digest) && t in c.tasks
    ensures CachedStage(c.tasks[t].stage, ref, digest) && ref in c.records
  {
  }

  lemma AdvanceKeepsCached(c: Client, t: nat, now: int, wall: int, r: nat, expires: Option<int>, ref: nat,
                           digest: string)
    requires CachedOnly(c, ref, digest)
    ensures CachedOnly(OnAdvance(c, t, now, wall, r, expires), ref, digest)
  {
    hide CachedOnly, CachedStage, Abort, CompleteLoad, EndOnline, FreshActor, PublishedRecord;
    if t in c.tasks {
      var stage := c.tasks[t].stage;
      StageIsCached(c, t, ref, digest);
      DoneKeepsCached(c, t, ref, digest);
      AbortKeepsCached(c, t, stage, ref, digest);
      match stage {
        case Exchanging => TokenRequestKeepsCached(c, t, now, wall, ref, digest);
        case Loading(Preparing, id, original, since, _) =>
          NextStageIsCached(stage, Loading(Waiting, id, original, since, None), ref, digest);
          PutKeepsCached(c, t, Elsewhere, Loading(Waiting, id, original, since, None), ref, digest);
        case Loading(Finishing, id, original, since, Some(row)) =>
          if r != ref { LoadKeepsCached(c, t, r, id, original, since, row, ref, digest); }
        case Publishing(Preparing, session, p) =>
          NextStageIsCached(stage, Publishing(Waiting, session, p), ref, digest);
          SendKeepsCached(c, t, now, Publish(p, c.entry.lease, p.origin.observed), Publishing(Waiting, session, p), ref,
                          digest);
        case Publishing(_, session, p) => if expires.Some? { PublishedKeepsCached(c, t, expires.value, ref, digest); }
        case Deleting(Preparing, id, target) =>
          NextStageIsCached(stage, Deleting(Waiting, id, target), ref, digest);
          SendKeepsCached(c, t, now, DeleteOnline(id, target.digest, c.entry.lease, target.observed),
                          Deleting(Waiting, id, target), ref, digest);
        case Deleting(_, id, _) => EndKeepsCached(Done(c, t), id, true, ref, digest);
        case Minting(Preparing, session, id, version, x) =>
          NextStageIsCached(stage, Minting(Waiting, session, id, version, x), ref, digest);
          PutKeepsCached(c, t, Elsewhere, Minting(Waiting, session, id, version, x), ref, digest);
        case Minting(_, session, id, version, x) =>
          if expires.Some? { IssueKeepsCached(c, t, wall, expires.value, ref, digest); }
        case _ =>
      }
    }
  }

  lemma AbortKeepsCached(c: Client, t: nat, stage: Stage, ref: nat, digest: string)
    requires CachedOnly(c, ref, digest)
    ensures CachedOnly(Abort(c, t, stage), ref, digest)
  {
    DoneKeepsCached(c, t, ref, digest);
    ElsewhereKeepsCached(Done(c, t), Abort(c, t, stage), ref, digest);
  }

  lemma TokenRequestKeepsCached(c: Client, t: nat, now: int, wall: int, ref: nat, digest: string)
    requires CachedOnly(c, ref, digest)
    ensures
      var sent := SentExchange(c.entry.snapshot.observed, wall, c.entry.onlineVersions, |c.past.trace|, |c.past.log|);
      CachedOnly(Put(Send(c, now, ExchangeToken), t, Elsewhere, AwaitingToken(sent)), ref, digest)
  {
    var sent := SentExchange(c.entry.snapshot.observed, wall, c.entry.onlineVersions, |c.past.trace|, |c.past.log|);
    SendKeepsCached(c, t, now, ExchangeToken, AwaitingToken(sent), ref, digest);
  }

  lemma PublishedKeepsCached(c: Client, t: nat, expires: int, ref: nat, digest: string)
    requires CachedOnly(c, ref, digest) && t in c.tasks && c.tasks[t].stage.Publishing?
    ensures
      var s := c.tasks[t].stage;
      var record := PublishedRecord(s.publication, expires, |c.past.trace|);
      CachedOnly(EndOnline(Done(c, t).(records := c.records[s.ref := record]), s.publication.id, true), ref, digest)
  {
    var s := c.tasks[t].stage;
    var record := PublishedRecord(s.publication, expires, |c.past.trace|);
    StageIsCached(c, t, ref, digest);
    DoneKeepsCached(c, t, ref, digest);
    RecordKeepsCached(Done(c, t), s.ref, record, ref, digest);
    EndKeepsCached(Done(c, t).(records := c.records[s.ref := record]), s.publication.id, true, ref, digest);
  }

  lemma IssueKeepsCached(c: Client, t: nat, wall: int, expires: int, ref: nat, digest: string)
    requires CachedOnly(c, ref, digest) && t in c.tasks && c.tasks[t].stage.Minting?
    ensures
      var s := c.tasks[t].stage;
      var actor := ActorFor(s.ref, s.id, s.exchange, wall, expires, s.version, |c.past.trace|);
      CachedOnly(Done(c, t).(past := c.past.(actors := c.past.actors + [actor])), ref, digest)
  {
    StageIsCached(c, t, ref, digest);
    DoneKeepsCached(c, t, ref, digest);
  }

  lemma EndKeepsCached(c: Client, id: string, succeeded: bool, ref: nat, digest: string)
    requires CachedOnly(c, ref, digest)
    ensures CachedOnly(EndOnline(c, id, succeeded), ref, digest)
  {
  }

  lemma LoadKeepsCached(c: Client, t: nat, r: nat, id: string, original: Option<nat>, since: nat, row: StoredRow,
                        ref: nat, digest: string)
    requires CachedOnly(c, ref, digest) && r != ref
    ensures
      var completed := CompleteLoad(c.entry, id, row, original, since);
      completed.Some? ==>
        CachedOnly(Done(c, t).(entry := completed.value.0, records := c.records[r := completed.value.1],
                               past := c.past.(loads := c.past.loads + [LoadedBy(r, id, row, since, |c.past.trace|)])),
                   ref, digest)
  {
    hide CompleteLoad;
    DoneKeepsCached(c, t, ref, digest);
  }

  lemma IdentityKeepsCached(c: Client, t: nat, sent: SentExchange, identity: Identity, ref: nat, digest: string)
    requires CachedOnly(c, ref, digest)
    ensures
      var recorded := ReceiveIdentity(c.entry, sent, identity, |c.past.grants|);
      recorded.Some? ==>
        CachedOnly(Done(c, t).(entry := recorded.value,
                               past := c.past.(grants := c.past.grants + [GrantOf(sent, identity)])),
                   ref, digest)
  {
    DoneKeepsCached(c, t, ref, digest);
  }

  lemma SendKeepsCached(c: Client, t: nat, now: int, request: Request, stage: Stage, ref: nat, digest: string)
    requires CachedOnly(c, ref, digest) && CachedStage(stage, ref, digest)
    ensures CachedOnly(Put(Send(c, now, request), t, Elsewhere, stage), ref, digest)
  {
    ElsewhereKeepsCached(c, Send(c, now, request), ref, digest);
    hide CachedOnly;
    PutKeepsCached(Send(c, now, request), t, Elsewhere, stage, ref, digest);
  }

  lemma ReceiveKeepsCached(c: Client, t: nat, now: int, reply: Reply, ref: nat, digest: string)
    requires CachedOnly(c, ref, digest)
    ensures CachedOnly(OnReceive(c, t, now, reply), ref, digest)
  {
    hide CachedOnly, CachedStage, Abort, AwaitRenewal, Acknowledging, ReceiveIdentity, AcceptsRow;
    if t in c.tasks {
      var stage := c.tasks[t].stage;
      StageIsCached(c, t, ref, digest);
      DoneKeepsCached(c, t, ref, digest);
      AbortKeepsCached(c, t, stage, ref, digest);
      match stage {
        case AwaitingToken(sent) =>
          if reply.Identified? { IdentityKeepsCached(c, t, sent, reply.identity, ref, digest); }
        case Loading(_, id, original, since, _) =>
          if reply.Row? {
            NextAwaitKeepsCached(c, t, now, Loading(Finishing, id, original, since, Some(reply.row)), ref, digest);
          }
        case Publishing(_, session, p) =>
          NextAwaitKeepsCached(c, t, now, Publishing(Finishing, session, p), ref, digest);
        case Deleting(_, id, target) => NextAwaitKeepsCached(c, t, now, Deleting(Finishing, id, target), ref, digest);
        case Minting(_, session, id, version, x) =>
          NextAwaitKeepsCached(c, t, now, Minting(Finishing, session, id, version, x), ref, digest);
        case Scoping(target, observed, based) =>
          if reply.Scopes? { WriteKeepsCached(c, t, now, target, observed, based, reply.properties, ref, digest); }
        case Committing(_, properties) => ElsewhereAfterCommit(c, t, properties, reply, ref, digest);
        case _ =>
      }
    }
  }

  predicate Continues(stage: Stage, next: Stage) {
    || SessionOf(next).None?
    || (stage.Publishing? && next.Publishing? && next.ref == stage.ref && next.publication == stage.publication)
    || (stage.Minting? && next.Minting? && next.ref == stage.ref)
  }

  /** The next phase of a stage concerns the same object. */
  lemma NextStageIsCached(stage: Stage, next: Stage, ref: nat, digest: string)
    requires CachedStage(stage, ref, digest) && Continues(stage, next)
    ensures CachedStage(next, ref, digest)
  {
  }

  lemma NextAwaitKeepsCached(c: Client, t: nat, now: int, next: Stage, ref: nat, digest: string)
    requires CachedOnly(c, ref, digest) && t in c.tasks && Continues(c.tasks[t].stage, next)
    ensures CachedOnly(AwaitRenewal(c, t, now, next), ref, digest)
  {
    StageIsCached(c, t, ref, digest);
    NextStageIsCached(c.tasks[t].stage, next, ref, digest);
    AwaitKeepsCached(c, t, now, next, ref, digest);
  }

  lemma ElsewhereAfterCommit(c: Client, t: nat, properties: Option<Properties>, reply: Reply, ref: nat, digest: string)
    requires CachedOnly(c, ref, digest)
    ensures CachedOnly(Acknowledging(c, t, properties, reply), ref, digest)
  {
    DoneKeepsCached(c, t, ref, digest);
    ElsewhereKeepsCached(Done(c, t), Acknowledging(c, t, properties, reply), ref, digest);
  }

  lemma StepKeepsCached(c: Client, a: Action, ref: nat, digest: string)
    requires Inv(c) && CachedOnly(c, ref, digest) && KeepsToken(a, ref, digest)
    ensures CachedOnly(Step(c, a), ref, digest)
  {
    hide Inv, OnBegin, OnAdvance, OnReceive, Dispatching, CachedRecord, NoActor;
    match a {
      case Begin(t, now, call) => BeginKeepsCached(c, t, now, call, ref, digest);
      case Advance(t, now, wall, r, expires) => AdvanceKeepsCached(c, t, now, wall, r, expires, ref, digest);
      case Receive(t, now, reply) => ReceiveKeepsCached(c, t, now, reply, ref, digest);
      case Join(t, now) => if t in c.tasks { AwaitKeepsCached(c, t, now, c.tasks[t].stage, ref, digest); }
      case _ =>
    }
  }

  /** A session object first obtained from the cache never gets an actor in its
      operation, as long as it is only saved with the token it was loaded with. */
  lemma {:induction false} CachedSessionNeverMints(c: Client, actions: seq<Action>, ref: nat, digest: string)
    requires Inv(c) && CachedOnly(c, ref, digest)
    requires forall i :: 0 <= i < |actions| ==> KeepsToken(actions[i], ref, digest)
    ensures NoActor(Run(c, actions).past.actors, ref)
    ensures CachedOnly(Run(c, actions), ref, digest)
    decreases |actions|
  {
    hide Inv, Step, CachedRecord, CachedTasks, NoActor, KeepsToken;
    if actions != [] {
      StepKeeps(c, actions[0]);
      StepKeepsCached(c, actions[0], ref, digest);
      CachedSessionNeverMints(Step(c, actions[0]), actions[1..], ref, digest);
    }
  }

  /** Which is how a cached load leaves the object it constructs. */
  lemma CachedLoadIsCachedOnly(c: Client, t: nat, now: int, wall: int, ref: nat, expires: Option<int>)
    requires Inv(c) && NoActor(c.past.actors, ref)
    requires |OnAdvance(c, t, now, wall, ref, expires).past.loads| > |c.past.loads|
    ensures
      var d := OnAdvance(c, t, now, wall, ref, expires);
      ref in d.records && CachedOnly(d, ref, d.records[ref].tokenDigest)
  {
    hide Inv;
    if t in c.tasks {
      match c.tasks[t].stage {
        case Loading(Finishing, _, _, _, Some(_)) =>
        case _ =>
      }
    }
  }
}
