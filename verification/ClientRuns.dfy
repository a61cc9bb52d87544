/** The invariant of ClientOnline holds in every state of every run. */
module ClientRuns {
  import opened Wrappers
  import opened Contract
  import opened SessionEntry
  import opened SessionClient
  import opened ClientOnline

  // -------------------------------------------------- the pieces of a stretch

  lemma DoneKeeps(c: Client, t: nat)
    requires Inv(c)
    ensures Inv(Done(c, t))
  {
  }

  /** The two stages mutate and mint the same things. */
  predicate SameClaims(s: Stage, r: Stage) {
    && MutationOf(s) == MutationOf(r)
    && (s.Publishing? <==> r.Publishing?) && (s.Publishing? ==> s.publication == r.publication)
    && (s.Minting? <==> r.Minting?) && (s.Minting? ==> s.exchange == r.exchange)
  }

  predicate NoClaims(s: Stage) {
    MutationOf(s).None? && !s.Minting?
  }

  lemma PutKeepsClaims(tasks: map<nat, Task>, trace: seq<Event>, actors: seq<Actor>, t: nat, task: Task)
    requires Alone(tasks, trace) && OneEach(tasks, actors)
    requires NoClaims(task.stage) || (t in tasks && SameClaims(tasks[t].stage, task.stage))
    ensures Alone(tasks[t := task], trace) && OneEach(tasks[t := task], actors)
  {
  }

  /** Task `t` goes on to a stage with no claims, or with those it had. */
  lemma PutKeeps(c: Client, t: nat, wait: Wait, stage: Stage)
    requires Inv(c) && StageOk(c.past, stage)
    requires NoClaims(stage) || (t in c.tasks && SameClaims(c.tasks[t].stage, stage))
    ensures Inv(Put(c, t, wait, stage))
  {
    PutKeepsClaims(c.tasks, c.past.trace, c.past.actors, t, Task(wait, stage));
    hide Alone, OneEach, TraceOk, LedgerOk, TargetsOk, StageOk, RecordOk, DispatchOk, LoadOk, ActorOk;
  }

  /** A request leaves, with no change to anything else. */
  lemma SendKeeps(c: Client, now: int, request: Request)
    requires Inv(c)
    requires DispatchOk(c.past, Dispatch(now, request, |c.past.trace|, |c.past.grants|))
    ensures Inv(Send(c, now, request))
    ensures Grows(c.past, Send(c, now, request).past)
  {
    var q := Send(c, now, request).past;
    DispatchStaysOk(c.past, q, Dispatch(now, request, |c.past.trace|, |c.past.grants|));
    PastGrows(c.past, q, c.tasks, c.records);
    LedgerStays(c.past, q, c.entry.onlineExchanges);
    hide Kept, LedgerOk, TraceOk, Alone, OneEach, TargetsOk;
  }

  lemma LedgerStays(p: Past, q: Past, exchanges: map<string, Exchange>)
    requires LedgerOk(p, exchanges) && p.grants == q.grants && p.reserved == q.reserved
    requires |p.trace| <= |q.trace| && p.log <= q.log
    ensures LedgerOk(q, exchanges)
  {
    forall d | d in exchanges ensures ExchangeOk(q, d, exchanges[d]) {
      assert ExchangeOk(p, d, exchanges[d]);
    }
  }

  /** Only fields the invariant does not speak of change. */
  lemma ElsewhereKeeps(c: Client, d: Client)
    requires Inv(c) && d.past == c.past && d.records == c.records && d.tasks == c.tasks
    requires d.entry.onlineVersions == c.entry.onlineVersions
    requires d.entry.onlineMutationInFlight == c.entry.onlineMutationInFlight
    requires d.entry.onlineExchanges == c.entry.onlineExchanges
    requires d.entry.onlineDeletes == c.entry.onlineDeletes
    ensures Inv(d)
  {
    hide Kept, LedgerOk, TraceOk, Alone, OneEach, TargetsOk;
  }

  /** The mutation of `id` ends, and no task of another one is left. */
  lemma EndKeeps(c: Client, id: string, succeeded: bool)
    requires Inv(c)
    requires |c.past.trace| % 2 == 1 && c.past.trace[|c.past.trace| - 1] == Began(id)
    requires forall t :: t in c.tasks ==> MutationOf(c.tasks[t].stage).None?
    ensures Inv(EndOnline(c, id, succeeded))
  {
    var d := EndOnline(c, id, succeeded);
    forall other ensures Get(d.entry.onlineVersions, other) == LastBegan(d.past.trace, other) {
      LastBeganAfter(c.past.trace, Ended(id), other);
    }
    assert TraceOk(d.past.trace, d.entry.onlineMutationInFlight, d.entry.onlineVersions);
    PastGrows(c.past, d.past, c.tasks, c.records);
    LedgerStays(c.past, d.past, c.entry.onlineExchanges);
    hide Kept, LedgerOk, TraceOk, OneEach, TargetsOk;
  }

  /** The mutation of `id` begins in task `t`. */
  lemma BeginKeeps(c: Client, t: nat, versions: map<string, nat>, id: string, stage: Stage)
    requires Inv(c) && !c.entry.onlineMutationInFlight && t !in c.tasks
    requires versions == c.entry.onlineVersions[id := |c.past.trace|]
    requires MutationOf(stage) == Some(id)
    requires stage.Publishing? ==> stage.publication.version == |c.past.trace|
    requires StageOk(c.past.(trace := c.past.trace + [Began(id)]), stage)
    ensures
      var e := c.entry.(onlineVersions := versions, onlineMutationInFlight := true);
      Inv(Put(c.(entry := e, past := c.past.(trace := c.past.trace + [Began(id)])), t, Elsewhere, stage))
  {
    var e := c.entry.(onlineVersions := versions, onlineMutationInFlight := true);
    var begun := c.(entry := e, past := c.past.(trace := c.past.trace + [Began(id)]));
    var d := Put(begun, t, Elsewhere, stage);
    TraceBegins(c.past.trace, c.entry.onlineVersions, id);
    NoMutationLeft(c);
    BeginKeepsClaims(c.tasks, d.past.trace, c.past.actors, t, Task(Elsewhere, stage), id);
    hide Alone, OneEach, LedgerOk, TraceOk, TargetsOk, StageOk;
    PastGrows(c.past, d.past, c.tasks, c.records);
    KeptPut(d.past, c.tasks, c.records, t, Task(Elsewhere, stage));
    LedgerStays(c.past, d.past, c.entry.onlineExchanges);
    hide Kept;
  }

  lemma TraceBegins(trace: seq<Event>, versions: map<string, nat>, id: string)
    requires TraceOk(trace, false, versions)
    ensures TraceOk(trace + [Began(id)], true, versions[id := |trace|])
  {
    forall other ensures Get(versions[id := |trace|], other) == LastBegan(trace + [Began(id)], other) {
      LastBeganAfter(trace, Began(id), other);
    }
    hide LastBegan;
  }

  lemma BeginKeepsClaims(tasks: map<nat, Task>, trace: seq<Event>, actors: seq<Actor>, t: nat, task: Task, id: string)
    requires OneEach(tasks, actors) && t !in tasks
    requires forall u :: u in tasks ==> MutationOf(tasks[u].stage).None?
    requires MutationOf(task.stage) == Some(id) && |trace| % 2 == 1 && trace[|trace| - 1] == Began(id)
    requires task.stage.Publishing? ==> task.stage.publication.version == |trace| - 1
    ensures Alone(tasks[t := task], trace) && OneEach(tasks[t := task], actors)
  {
  }

  lemma NoMutationLeft(c: Client)
    requires Inv(c) && !c.entry.onlineMutationInFlight
    ensures forall t :: t in c.tasks ==> MutationOf(c.tasks[t].stage).None?
  {
  }

  lemma RecordKeeps(c: Client, ref: nat, record: Record)
    requires Inv(c) && RecordOk(c.past, ref, record)
    ensures Inv(c.(records := c.records[ref := record]))
  {
    hide LedgerOk, TraceOk, Alone, OneEach, TargetsOk, StageOk, RecordOk, DispatchOk, LoadOk, ActorOk;
  }

  // ------------------------------------------------------------- the stretches

  lemma AbortKeeps(c: Client, t: nat, stage: Stage)
    requires Inv(Put(c, t, Elsewhere, stage))
    ensures Inv(Abort(c, t, stage))
  {
    var held := Put(c, t, Elsewhere, stage);
    assert Done(held, t).tasks == Done(c, t).tasks;
    assert Done(held, t) == Done(c, t);
    DoneKeeps(held, t);
    if MutationOf(stage).Some? {
      assert t in held.tasks && held.tasks[t].stage == stage;
      EndKeeps(Done(c, t), MutationOf(stage).value, false);
    } else {
      hide Inv;
      if Ambiguous(stage) {
        ElsewhereKeeps(Done(c, t), Abort(c, t, stage));
      }
    }
  }

  /** What a task waits for is no part of the invariant. */
  lemma WaitKeeps(c: Client, t: nat, wait: Wait)
    requires Inv(c) && t in c.tasks
    ensures Inv(Put(c, t, wait, c.tasks[t].stage))
  {
    assert StageOk(c.past, c.tasks[t].stage);
    PutKeeps(c, t, wait, c.tasks[t].stage);
  }

  lemma DispatchKeeps(c: Client, t: nat, now: int, stage: Stage)
    requires Inv(Put(c, t, Elsewhere, stage))
    ensures Inv(Dispatching(c, t, now, stage))
  {
    hide Inv;
    if Owned(c.entry, now) {
      var held := Put(c, t, Elsewhere, stage);
      var request := Renew(c.entry.lease, Some(c.entry.snapshot.observed));
      SendKeeps(held, now, request);
      var started := Send(held, now, request).(entry := StartRenewal(c.entry, |c.past.log|));
      ElsewhereKeeps(Send(held, now, request), started);
      WaitKeeps(started, t, Renewing(|c.past.log|));
      assert Put(started, t, Renewing(|c.past.log|), stage).tasks == Dispatching(c, t, now, stage).tasks;
    } else {
      AbortKeeps(c, t, stage);
    }
  }

  lemma AwaitKeeps(c: Client, t: nat, now: int, stage: Stage)
    requires Inv(Put(c, t, Elsewhere, stage))
    ensures Inv(AwaitRenewal(c, t, now, stage))
  {
    hide Inv;
    DispatchKeeps(c, t, now, stage);
    hide Dispatching;
    if c.entry.renewal.Some? {
      var held := Put(c, t, Elsewhere, stage);
      var wait := Joined(c.entry.renewal.value);
      WaitKeeps(held, t, wait);
      assert Put(held, t, wait, stage).tasks == Put(c, t, wait, stage).tasks;
    }
  }

  lemma StoreKeeps(c: Client, t: nat, now: int, ref: nat, session: SessionView, wall: int)
    requires Inv(c) && t !in c.tasks && Names(c, ref, session.id)
    ensures
      var begun := BeginPublication(c.entry, ref, Get(c.records, ref), session, wall, |c.past.trace|, |c.past.grants|);
      begun.Some? ==>
        Inv(Put(c.(entry := begun.value.0, past := c.past.(trace := c.past.trace + [Began(session.id)])), t, Elsewhere,
                Publishing(Preparing, ref, begun.value.1)))
  {
    var begun := BeginPublication(c.entry, ref, Get(c.records, ref), session, wall, |c.past.trace|, |c.past.grants|);
    if begun.Some? {
      BegunIsOk(c, ref, session, wall, begun.value.1);
      BeginKeeps(c, t, begun.value.0.onlineVersions, session.id, Publishing(Preparing, ref, begun.value.1));
    }
    hide Inv, PublicationOk;
  }

  lemma BegunIsOk(c: Client, ref: nat, session: SessionView, wall: int, pub: Publication)
    requires Inv(c) && Names(c, ref, session.id)
    requires
      var begun := BeginPublication(c.entry, ref, Get(c.records, ref), session, wall, |c.past.trace|, |c.past.grants|);
      begun.Some? && pub == begun.value.1
    ensures PublicationOk(c.past.(trace := c.past.trace + [Began(session.id)]), pub)
  {
    hide Inv, LastBegan, BeginPublication, OriginOf, Sourced;
    BegunMeans(c, ref, session, wall, pub);
    OriginIsOk(c, ref, pub);
    SourceStays(c.past, c.past.(trace := c.past.trace + [Began(session.id)]), pub);
    VersionIsLast(c, session.id);
    LastBeganIsLast(c.past.trace, session.id);
    SinceIsPast(c.past, pub);
  }

  lemma SinceIsPast(p: Past, pub: Publication)
    requires Sourced(p, pub)
    ensures Bounded(pub.origin.version, pub.origin.since) && pub.origin.since <= |p.trace|
  {
  }

  lemma VersionIsLast(c: Client, id: string)
    requires Inv(c)
    ensures Get(c.entry.onlineVersions, id) == LastBegan(c.past.trace, id)
  {
    hide Alone, OneEach, LedgerOk, TargetsOk, Kept, LastBegan;
  }

  lemma BegunMeans(c: Client, ref: nat, session: SessionView, wall: int, pub: Publication)
    requires
      var begun := BeginPublication(c.entry, ref, Get(c.records, ref), session, wall, |c.past.trace|, |c.past.grants|);
      begun.Some? && pub == begun.value.1
    ensures pub.ref == ref && pub.id == session.id && pub.version == |c.past.trace| && pub.granted == |c.past.grants|
    ensures OriginOf(c.entry, Get(c.records, ref), pub.digest) == Some(pub.origin)
    ensures pub.resaved <==> ref in c.records && c.records[ref].tokenDigest == pub.digest
    ensures pub.origin.version == Get(c.entry.onlineVersions, pub.id)
    ensures pub.begunAt < pub.expires <= pub.origin.expiresAt && pub.evidence == pub.origin.evidence
  {
  }

  lemma OriginIsOk(c: Client, ref: nat, pub: Publication)
    requires Inv(c) && OriginOf(c.entry, Get(c.records, ref), pub.digest) == Some(pub.origin)
    requires pub.resaved <==> ref in c.records && c.records[ref].tokenDigest == pub.digest
    requires pub.granted == |c.past.grants| && pub.ref == ref && Names(c, ref, pub.id)
    requires pub.begunAt < pub.expires <= pub.origin.expiresAt && pub.evidence == pub.origin.evidence
    ensures Sourced(c.past, pub)
  {
    if pub.resaved {
      assert RecordOk(c.past, ref, c.records[ref]);
    } else {
      assert ExchangeOk(c.past, pub.digest, c.entry.onlineExchanges[pub.digest]);
    }
    hide Inv;
  }

  lemma DeleteKeeps(c: Client, t: nat, id: string)
    requires Inv(c) && t !in c.tasks
    ensures
      var begun := BeginDeletion(c.entry, id, |c.past.trace|);
      begun.Some? ==>
        Inv(Put(c.(entry := begun.value.0, past := c.past.(trace := c.past.trace + [Began(id)])), t, Elsewhere,
                Deleting(Preparing, id, begun.value.1)))
  {
    var begun := BeginDeletion(c.entry, id, |c.past.trace|);
    if begun.Some? {
      BeginKeeps(c, t, begun.value.0.onlineVersions, id, Deleting(Preparing, id, begun.value.1));
      hide Inv;
    }
  }

  lemma MintKeeps(c: Client, t: nat, ref: nat, session: SessionView)
    requires Inv(c) && t !in c.tasks && Names(c, ref, session.id)
    ensures
      var reservation := ReserveActor(c.entry, Get(c.records, ref), session);
      reservation.Some? ==>
        var x := reservation.value.1;
        Inv(Put(c.(entry := reservation.value.0, past := c.past.(reserved := c.past.reserved + {x.identity})), t,
                Elsewhere, Minting(Preparing, ref, session.id, c.records[ref].origin.version, x)))
  {
    var reservation := ReserveActor(c.entry, Get(c.records, ref), session);
    if reservation.Some? {
      var x := reservation.value.1;
      var version := c.records[ref].origin.version;
      assert RecordOk(c.past, ref, c.records[ref]);
      ExchangeNamesRecordedUser(c, ref, session.tokenDigest.value);
      MintIsBacked(c, ref, session.id, session.tokenDigest.value, version, x.evidence);
      ReservationKeeps(c, t, ref, session.id, session.tokenDigest.value, version, x);
      hide Inv;
    }
  }

  lemma ReservationKeeps(c: Client, t: nat, ref: nat, id: string, digest: string, version: Option<nat>, x: Exchange)
    requires Inv(c) && t !in c.tasks
    requires digest in c.entry.onlineExchanges && c.entry.onlineExchanges[digest] == x && !x.actorIssued
    requires version.Some? && version.value < |c.past.trace| && c.past.trace[version.value] == Began(id)
    requires Published(c.past.log, ref, id, digest, version, x.evidence)
    ensures
      var e := c.entry.(onlineExchanges := c.entry.onlineExchanges[digest := x.(actorIssued := true)]);
      Inv(Put(c.(entry := e, past := c.past.(reserved := c.past.reserved + {x.identity})), t, Elsewhere,
              Minting(Preparing, ref, id, version, x)))
  {
    var q := c.past.(reserved := c.past.reserved + {x.identity});
    var task := Task(Elsewhere, Minting(Preparing, ref, id, version, x));
    assert ExchangeOk(c.past, digest, x);
    hide ExchangeOk, Alone, OneEach, TraceOk, TargetsOk, LedgerOk;
    ReservedStageIsOk(c.past, q, ref, id, digest, version, x);
    LedgerReserves(c.past, q, c.entry.onlineExchanges, digest, x);
    PastGrows(c.past, q, c.tasks, c.records);
    KeptPut(q, c.tasks, c.records, t, task);
    ReservedIsNew(c.past, digest, x);
    MintKeepsClaims(c.past, c.tasks, t, task);
    hide Kept;
  }

  lemma KeptPut(p: Past, tasks: map<nat, Task>, records: map<nat, Record>, t: nat, task: Task)
    requires Kept(p, tasks, records) && StageOk(p, task.stage)
    ensures Kept(p, tasks[t := task], records)
  {
    hide StageOk, RecordOk, DispatchOk, LoadOk, ActorOk;
  }

  lemma ReservedIsNew(p: Past, digest: string, x: Exchange)
    requires ExchangeOk(p, digest, x) && !x.actorIssued
    ensures x.identity !in p.reserved
  {
  }

  lemma ReservedStageIsOk(p: Past, q: Past, ref: nat, id: string, digest: string, version: Option<nat>, x: Exchange)
    requires ExchangeOk(p, digest, x) && q == p.(reserved := p.reserved + {x.identity})
    requires version.Some? && version.value < |p.trace| && p.trace[version.value] == Began(id)
    requires Published(p.log, ref, id, digest, version, x.evidence)
    ensures StageOk(q, Minting(Preparing, ref, id, version, x))
  {
  }

  lemma LedgerReserves(p: Past, q: Past, exchanges: map<string, Exchange>, digest: string, x: Exchange)
    requires LedgerOk(p, exchanges) && digest in exchanges && exchanges[digest] == x
    requires q == p.(reserved := p.reserved + {x.identity})
    ensures LedgerOk(q, exchanges[digest := x.(actorIssued := true)])
  {
    assert ExchangeOk(p, digest, x);
    forall d | d in exchanges && d != digest ensures ExchangeOk(q, d, exchanges[d]) {
      assert ExchangeOk(p, d, exchanges[d]);
    }
  }

  /** All exchanges of a token agree on its user, and a record that dates from one of them
      names that user. */
  lemma ExchangeNamesRecordedUser(c: Client, ref: nat, digest: string)
    requires Inv(c) && ref in c.records && c.records[ref].origin.authenticatedAt.Some?
    requires c.records[ref].tokenDigest == digest && digest in c.entry.onlineExchanges
    ensures c.entry.onlineExchanges[digest].evidence == c.records[ref].origin.evidence
  {
    var evidence := c.records[ref].origin.evidence;
    assert RecordOk(c.past, ref, c.records[ref]) && ExchangeOk(c.past, digest, c.entry.onlineExchanges[digest]);
    var g :| 0 <= g < |c.past.grants| && c.past.grants[g].digest == digest && c.past.grants[g].evidence == evidence;
  }

  /** The record's publication is the last mutation of the session's id, so it is a
      publication of that id. */
  lemma MintIsBacked(c: Client, ref: nat, id: string, digest: string, version: Option<nat>, evidence: Evidence)
    requires Inv(c) && version == Get(c.entry.onlineVersions, id)
    requires Published(c.past.log, ref, id, digest, version, evidence)
    ensures version.Some? && version.value < |c.past.trace| && c.past.trace[version.value] == Began(id)
  {
    LastBeganIsLast(c.past.trace, id);
    assert Get(c.entry.onlineVersions, id) == LastBegan(c.past.trace, id);
  }

  lemma MintKeepsClaims(p: Past, tasks: map<nat, Task>, t: nat, task: Task)
    requires Alone(tasks, p.trace) && OneEach(tasks, p.actors) && t !in tasks
    requires forall u :: u in tasks ==> StageOk(p, tasks[u].stage)
    requires forall a :: 0 <= a < |p.actors| ==> ActorOk(p, p.actors[a])
    requires task.stage.Minting? && task.stage.exchange.identity !in p.reserved
    ensures Alone(tasks[t := task], p.trace) && OneEach(tasks[t := task], p.actors)
  {
    forall u | u in tasks && tasks[u].stage.Minting? ensures tasks[u].stage.exchange.identity in p.reserved {
      assert StageOk(p, tasks[u].stage);
    }
    forall a | 0 <= a < |p.actors| ensures p.actors[a].identity in p.reserved {
      assert ActorOk(p, p.actors[a]);
    }
  }

  lemma CallKeeps(c: Client, t: nat, now: int, call: Call)
    requires Inv(c)
    ensures Inv(OnBegin(c, t, now, call))
  {
    hide Inv, AwaitRenewal;
    if t !in c.tasks {
      match call {
        case Check =>
          PutKeeps(c, t, Elsewhere, Checking);
          AwaitKeeps(c, t, now, Checking);
        case Exchange =>
          PutKeeps(c, t, Elsewhere, Exchanging);
          AwaitKeeps(c, t, now, Exchanging);
        case Load(id) =>
          if !c.entry.onlineMutationInFlight {
            var stage := Loading(Preparing, id, Get(c.entry.onlineVersions, id), |c.past.trace|, None);
            VersionsAreBounded(c);
            PutKeeps(c, t, Elsewhere, stage);
            AwaitKeeps(c, t, now, stage);
          }
        case Store(ref, session, wall) =>
          var begun := BeginPublication(c.entry, ref, Get(c.records, ref), session, wall, |c.past.trace|,
                                        |c.past.grants|);
          if begun.Some? && Names(c, ref, session.id) {
            StoreKeeps(c, t, now, ref, session, wall);
            AwaitKeeps(c.(entry := begun.value.0, past := c.past.(trace := c.past.trace + [Began(session.id)])), t, now,
                       Publishing(Preparing, ref, begun.value.1));
          }
        case Delete(id) =>
          var begun := BeginDeletion(c.entry, id, |c.past.trace|);
          if begun.Some? {
            DeleteKeeps(c, t, id);
            AwaitKeeps(c.(entry := begun.value.0, past := c.past.(trace := c.past.trace + [Began(id)])), t, now,
                       Deleting(Preparing, id, begun.value.1));
          }
        case Mint(ref, session) =>
          var reservation := ReserveActor(c.entry, Get(c.records, ref), session);
          if reservation.Some? && Names(c, ref, session.id) {
            var x := reservation.value.1;
            MintKeeps(c, t, ref, session);
            AwaitKeeps(c.(entry := reservation.value.0, past := c.past.(reserved := c.past.reserved + {x.identity})), t,
                       now, Minting(Preparing, ref, session.id, c.records[ref].origin.version, x));
          }
        case StoreOffline(ref, original, based, properties, scoped) =>
          var observed := if original.Some? then original.value else c.entry.snapshot.observed;
          PutKeeps(c, t, Elsewhere, Scoping(ref, observed, based));
          WriteKeeps(c, t, now, ref, observed, based, properties);
        case Erase =>
          var request := DeleteOffline(c.entry.lease, c.entry.snapshot.observed);
          SendKeeps(c, now, request);
          PutKeeps(Send(c, now, request), t, Elsewhere, Committing(|c.past.log|, None));
      }
    }
  }

  lemma WriteKeeps(c: Client, t: nat, now: int, ref: nat, observed: Observation, based: Option<Properties>,
                   properties: Properties)
    requires Inv(c) && (t in c.tasks ==> NoClaims(c.tasks[t].stage))
    ensures Inv(Writing(c, t, now, ref, observed, based, properties))
  {
    hide Inv;
    var request := Write(ref, properties, observed.credentialTokenHash, c.entry.lease, observed, based);
    SendKeeps(c, now, request);
    PutKeeps(Send(c, now, request), t, Elsewhere, Committing(|c.past.log|, Some(properties)));
  }

  lemma VersionsAreBounded(c: Client)
    requires Inv(c)
    ensures forall id :: Bounded(Get(c.entry.onlineVersions, id), |c.past.trace|)
    ensures forall id :: id in c.entry.onlineVersions ==> c.entry.onlineVersions[id] < |c.past.trace|
    ensures !c.entry.onlineMutationInFlight ==> |c.past.trace| % 2 == 0
  {
    forall id ensures Bounded(Get(c.entry.onlineVersions, id), |c.past.trace|) {
      LastBeganIsLast(c.past.trace, id);
      assert Get(c.entry.onlineVersions, id) == LastBegan(c.past.trace, id);
    }
    forall id | id in c.entry.onlineVersions ensures c.entry.onlineVersions[id] < |c.past.trace| {
      assert Bounded(Get(c.entry.onlineVersions, id), |c.past.trace|);
    }
  }

  lemma TokenRequestKeeps(c: Client, t: nat, now: int, wall: int)
    requires Inv(c) && t in c.tasks && c.tasks[t].stage.Exchanging?
    ensures
      var sent := SentExchange(c.entry.snapshot.observed, wall, c.entry.onlineVersions, |c.past.trace|, |c.past.log|);
      Inv(Put(Send(c, now, ExchangeToken), t, Elsewhere, AwaitingToken(sent)))
  {
    var sent := SentExchange(c.entry.snapshot.observed, wall, c.entry.onlineVersions, |c.past.trace|, |c.past.log|);
    VersionsAreBounded(c);
    SendKeeps(c, now, ExchangeToken);
    assert Send(c, now, ExchangeToken).past.log[|c.past.log|].request.ExchangeToken?;
    hide Inv;
    PutKeeps(Send(c, now, ExchangeToken), t, Elsewhere, AwaitingToken(sent));
  }

  lemma LoadKeeps(c: Client, t: nat, ref: nat)
    requires Inv(c) && t in c.tasks && c.tasks[t].stage.Loading? && c.tasks[t].stage.row.Some?
    ensures
      var s := c.tasks[t].stage;
      var completed := CompleteLoad(c.entry, s.id, s.row.value, s.original, s.since);
      completed.Some? ==>
        Inv(Done(c, t).(entry := completed.value.0, records := c.records[ref := completed.value.1],
                        past := c.past.(
                          loads := c.past.loads + [LoadedBy(ref, s.id, s.row.value, s.since, |c.past.trace|)])))
  {
    var s := c.tasks[t].stage;
    var completed := CompleteLoad(c.entry, s.id, s.row.value, s.original, s.since);
    if completed.Some? {
      var l := LoadedBy(ref, s.id, s.row.value, s.since, |c.past.trace|);
      var q := c.past.(loads := c.past.loads + [l]);
      assert StageOk(c.past, s);
      LastBeganIsLast(c.past.trace, s.id);
      assert Get(c.entry.onlineVersions, s.id) == LastBegan(c.past.trace, s.id);
      assert LoadOk(q, l);
      DoneKeeps(c, t);
      forall id ensures FirstLoad(q.loads, id)
                     == if FirstLoad(c.past.loads, id).Some? then FirstLoad(c.past.loads, id)
                        else if id == s.id then Some(l) else None {
        FirstLoadAfter(c.past.loads, l, id);
      }
      assert TargetsOk(q.loads, completed.value.0.onlineDeletes);
      PastGrows(c.past, q, Done(c, t).tasks, c.records);
      LedgerStays(c.past, q, c.entry.onlineExchanges);
      assert q.loads[|c.past.loads|].since == s.since;
      assert RecordOk(q, ref, completed.value.1);
      hide Alone, OneEach, LedgerOk, TraceOk, TargetsOk, Kept, RecordOk;
      RecordKeeps(Done(c, t).(entry := completed.value.0, past := q), ref, completed.value.1);
    }
  }

  lemma PublishKeeps(c: Client, t: nat, now: int)
    requires Inv(c) && t in c.tasks && c.tasks[t].stage.Publishing?
    ensures
      var s := c.tasks[t].stage;
      Inv(Put(Send(c, now, Publish(s.publication, c.entry.lease, s.publication.origin.observed)), t, Elsewhere,
              Publishing(Waiting, s.ref, s.publication)))
  {
    hide Inv, Sourced, Placed;
    var s := c.tasks[t].stage;
    var request := Publish(s.publication, c.entry.lease, s.publication.origin.observed);
    StageIsOk(c, t);
    PublicationIsLatest(c, t);
    SendKeeps(c, now, request);
    var d := Send(c, now, request);
    assert Publishes(d.past.log[|c.past.log|], s.ref, s.publication.id, s.publication.digest,
                     Some(s.publication.version), s.publication.evidence);
    StageStaysOk(c.past, d.past, s);
    PutKeeps(d, t, Elsewhere, Publishing(Waiting, s.ref, s.publication));
  }

  lemma PublicationIsLatest(c: Client, t: nat)
    requires Inv(c) && t in c.tasks && c.tasks[t].stage.Publishing?
    ensures c.tasks[t].stage.publication.version == |c.past.trace| - 1
  {
  }

  lemma PublishedKeeps(c: Client, t: nat, expires: int)
    requires Inv(c) && t in c.tasks && c.tasks[t].stage.Publishing? && !c.tasks[t].stage.phase.Preparing?
    ensures
      var s := c.tasks[t].stage;
      Inv(EndOnline(Done(c, t).(records := c.records[s.ref := PublishedRecord(s.publication, expires, |c.past.trace|)]),
                    s.publication.id, true))
  {
    var s := c.tasks[t].stage;
    var record := PublishedRecord(s.publication, expires, |c.past.trace|);
    PublishedRecordIsOk(c, t, expires);
    DoneKeeps(c, t);
    RecordKeeps(Done(c, t), s.ref, record);
    assert MutationOf(s) == Some(s.publication.id);
    EndKeeps(Done(c, t).(records := c.records[s.ref := record]), s.publication.id, true);
    hide Inv, RecordOk, PublishedRecord;
  }

  lemma PublishedRecordIsOk(c: Client, t: nat, expires: int)
    requires Inv(c) && t in c.tasks && c.tasks[t].stage.Publishing? && !c.tasks[t].stage.phase.Preparing?
    ensures RecordOk(c.past, c.tasks[t].stage.ref,
                     PublishedRecord(c.tasks[t].stage.publication, expires, |c.past.trace|))
  {
    hide Inv, Placed, Clamped, NamedBy, ExchangedSince;
    StageIsOk(c, t);
    PublicationIsLatest(c, t);
  }

  lemma DeletionRequestKeeps(c: Client, t: nat, now: int)
    requires Inv(c) && t in c.tasks && c.tasks[t].stage.Deleting?
    ensures
      var s := c.tasks[t].stage;
      Inv(Put(Send(c, now, DeleteOnline(s.id, s.target.digest, c.entry.lease, s.target.observed)), t, Elsewhere,
              Deleting(Waiting, s.id, s.target)))
  {
    var s := c.tasks[t].stage;
    var request := DeleteOnline(s.id, s.target.digest, c.entry.lease, s.target.observed);
    assert StageOk(c.past, s);
    SendKeeps(c, now, request);
    StageStaysOk(c.past, Send(c, now, request).past, s);
    hide Inv;
    PutKeeps(Send(c, now, request), t, Elsewhere, Deleting(Waiting, s.id, s.target));
  }

  lemma DeletedKeeps(c: Client, t: nat)
    requires Inv(c) && t in c.tasks && c.tasks[t].stage.Deleting?
    ensures Inv(EndOnline(Done(c, t), c.tasks[t].stage.id, true))
  {
    assert MutationOf(c.tasks[t].stage) == Some(c.tasks[t].stage.id);
    DoneKeeps(c, t);
    EndKeeps(Done(c, t), c.tasks[t].stage.id, true);
    hide Inv;
  }

  lemma IssueKeeps(c: Client, t: nat, wall: int, expires: int)
    requires Inv(c) && t in c.tasks && c.tasks[t].stage.Minting?
    requires c.tasks[t].stage.version == Get(c.entry.onlineVersions, c.tasks[t].stage.id)
    requires FreshActor(c.tasks[t].stage.exchange.authenticatedAt, wall) && wall < expires
          && !c.entry.onlineMutationInFlight
    ensures
      var s := c.tasks[t].stage;
      var x := s.exchange;
      var a := ActorFor(s.ref, s.id, x, wall, expires, s.version, |c.past.trace|);
      Inv(Done(c, t).(past := c.past.(actors := c.past.actors + [a])))
  {
    var s := c.tasks[t].stage;
    var x := s.exchange;
    var a := ActorFor(s.ref, s.id, x, wall, expires, s.version, |c.past.trace|);
    IssuedIsOk(c, t, wall, expires, a);
    DoneKeeps(c, t);
    IssueKeepsClaims(c.tasks, c.past.actors, t, a);
    ActorKeeps(Done(c, t), a);
    hide Inv, ActorOk, OneEach;
  }

  lemma ActorKeeps(c: Client, a: Actor)
    requires Inv(c) && ActorOk(c.past.(actors := c.past.actors + [a]), a) && OneEach(c.tasks, c.past.actors + [a])
    ensures Inv(c.(past := c.past.(actors := c.past.actors + [a])))
  {
    var q := c.past.(actors := c.past.actors + [a]);
    hide Alone, OneEach, LedgerOk, TraceOk, TargetsOk, ActorOk;
    PastGrows(c.past, q, c.tasks, c.records);
    LedgerStays(c.past, q, c.entry.onlineExchanges);
    hide Kept;
  }

  lemma IssuedIsOk(c: Client, t: nat, wall: int, expires: int, a: Actor)
    requires Inv(c) && t in c.tasks && c.tasks[t].stage.Minting?
    requires c.tasks[t].stage.version == Get(c.entry.onlineVersions, c.tasks[t].stage.id)
    requires FreshActor(c.tasks[t].stage.exchange.authenticatedAt, wall) && wall < expires
          && !c.entry.onlineMutationInFlight
    requires
      var s := c.tasks[t].stage;
      var x := s.exchange;
      a == ActorFor(s.ref, s.id, x, wall, expires, s.version, |c.past.trace|)
    ensures ActorOk(c.past.(actors := c.past.actors + [a]), a)
  {
    var s := c.tasks[t].stage;
    assert StageOk(c.past, s);
    LastBeganIsLast(c.past.trace, s.id);
    assert Get(c.entry.onlineVersions, s.id) == LastBegan(c.past.trace, s.id);
    hide Inv, LastBegan;
  }

  lemma IssueKeepsClaims(tasks: map<nat, Task>, actors: seq<Actor>, t: nat, a: Actor)
    requires OneEach(tasks, actors) && t in tasks && tasks[t].stage.Minting?
    requires a.identity == tasks[t].stage.exchange.identity
    ensures OneEach(tasks - {t}, actors + [a])
  {
  }

  /** The provider answers an online exchange. */
  lemma IdentityKeeps(c: Client, t: nat, identity: Identity)
    requires Inv(c) && t in c.tasks && c.tasks[t].stage.AwaitingToken?
    ensures
      var sent := c.tasks[t].stage.sent;
      var recorded := ReceiveIdentity(c.entry, sent, identity, |c.past.grants|);
      recorded.Some? ==>
        Inv(Done(c, t).(entry := recorded.value, past := c.past.(grants := c.past.grants + [GrantOf(sent, identity)])))
  {
    var sent := c.tasks[t].stage.sent;
    var recorded := ReceiveIdentity(c.entry, sent, identity, |c.past.grants|);
    if recorded.Some? {
      StageIsOk(c, t);
      IdentityGrows(c, sent, identity);
      DoneKeeps(c, t);
      var grants := c.past.grants + [GrantOf(sent, identity)];
      ExchangesKeep(Done(c, t), grants, recorded.value.onlineExchanges);
      assert Done(c, t).(entry := recorded.value, past := c.past.(grants := grants))
          == Done(c, t).(entry := c.entry.(onlineExchanges := recorded.value.onlineExchanges),
                         past := c.past.(grants := grants));
    }
    hide Inv, LedgerOk, StageOk;
  }

  lemma IdentityGrows(c: Client, sent: SentExchange, identity: Identity)
    requires Inv(c) && StageOk(c.past, AwaitingToken(sent))
    requires ReceiveIdentity(c.entry, sent, identity, |c.past.grants|).Some?
    ensures
      var grants := c.past.grants + [GrantOf(sent, identity)];
      && LedgerOk(c.past.(grants := grants),
                  ReceiveIdentity(c.entry, sent, identity, |c.past.grants|).value.onlineExchanges)
      && (forall g :: |c.past.grants| <= g < |grants| ==> GrantOk(c.past.log, grants[g]))
  {
    var recorded := ReceiveIdentity(c.entry, sent, identity, |c.past.grants|).value;
    LedgerGrows(c.past, c.entry.onlineExchanges, GrantOf(sent, identity),
                recorded.onlineExchanges[identity.tokenDigest]);
    hide LedgerOk, Kept, Alone, OneEach, TraceOk, TargetsOk;
  }

  lemma ExchangesKeep(c: Client, grants: seq<Grant>, exchanges: map<string, Exchange>)
    requires Inv(c) && c.past.grants <= grants && LedgerOk(c.past.(grants := grants), exchanges)
    requires forall g :: |c.past.grants| <= g < |grants| ==> GrantOk(c.past.log, grants[g])
    ensures Inv(c.(entry := c.entry.(onlineExchanges := exchanges), past := c.past.(grants := grants)))
  {
    hide Alone, OneEach, LedgerOk, TraceOk, TargetsOk, GrantOk;
    PastGrows(c.past, c.past.(grants := grants), c.tasks, c.records);
    hide Kept;
  }

  lemma LedgerGrows(p: Past, exchanges: map<string, Exchange>, grant: Grant, x: Exchange)
    requires LedgerOk(p, exchanges)
    requires x.identity == |p.grants| && !x.actorIssued
    requires grant.evidence == x.evidence && grant.observed == x.observed && grant.requestedAt == x.authenticatedAt
    requires grant.digest in exchanges ==>
               exchanges[grant.digest].evidence == x.evidence
                 && SameObservation(exchanges[grant.digest].observed, x.observed)
    requires x.expiresAt == if grant.digest in exchanges then Min(grant.expiresAt, exchanges[grant.digest].expiresAt)
                            else grant.expiresAt
    requires Bounded(x.version, x.since) && x.since <= |p.trace| && grant.since == x.since
    ensures LedgerOk(p.(grants := p.grants + [grant]), exchanges[grant.digest := x])
  {
    var q := p.(grants := p.grants + [grant]);
    if grant.digest in exchanges { assert ExchangeOk(p, grant.digest, exchanges[grant.digest]); }
    NewestIsOk(p, exchanges, grant, x);
    hide ExchangeOk;
    forall d | d in exchanges && d != grant.digest ensures ExchangeOk(q, d, exchanges[d]) {
      OlderStaysOk(p, grant, d, exchanges[d]);
    }
  }

  lemma OlderStaysOk(p: Past, grant: Grant, digest: string, x: Exchange)
    requires ExchangeOk(p, digest, x) && digest != grant.digest
    ensures ExchangeOk(p.(grants := p.grants + [grant]), digest, x)
  {
    AttainedStays(p.grants, grant, digest, x.expiresAt);
  }

  lemma NewestIsOk(p: Past, exchanges: map<string, Exchange>, grant: Grant, x: Exchange)
    requires
      if grant.digest in exchanges
      then ExchangeOk(p, grant.digest, exchanges[grant.digest])
      else forall g :: 0 <= g < |p.grants| ==> p.grants[g].digest != grant.digest
    requires x.identity == |p.grants| && !x.actorIssued && |p.grants| !in p.reserved
    requires grant.evidence == x.evidence && grant.observed == x.observed && grant.requestedAt == x.authenticatedAt
    requires grant.digest in exchanges ==>
               exchanges[grant.digest].evidence == x.evidence
                 && SameObservation(exchanges[grant.digest].observed, x.observed)
    requires x.expiresAt == if grant.digest in exchanges then Min(grant.expiresAt, exchanges[grant.digest].expiresAt)
                            else grant.expiresAt
    requires Bounded(x.version, x.since) && x.since <= |p.trace| && grant.since == x.since
    ensures ExchangeOk(p.(grants := p.grants + [grant]), grant.digest, x)
  {
    var q := p.(grants := p.grants + [grant]);
    assert q.grants[|p.grants|] == grant;
    if grant.digest in exchanges {
      AttainedStays(p.grants, grant, grant.digest, exchanges[grant.digest].expiresAt);
    }
  }

  lemma AttainedStays(grants: seq<Grant>, more: Grant, digest: string, expires: int)
    requires Attained(grants, digest, expires)
    ensures Attained(grants + [more], digest, expires)
  {
    var g :| 0 <= g < |grants| && grants[g].digest == digest && grants[g].expiresAt == expires;
    assert (grants + [more])[g] == grants[g];
  }

  lemma AdvanceKeeps(c: Client, t: nat, now: int, wall: int, ref: nat, expires: Option<int>)
    requires Inv(c)
    ensures Inv(OnAdvance(c, t, now, wall, ref, expires))
  {
    hide Inv, Abort;
    if t in c.tasks {
      var stage := c.tasks[t].stage;
      WaitKeeps(c, t, Elsewhere);
      AbortKeeps(c, t, stage);
      DoneKeeps(c, t);
      match stage {
        case Exchanging => TokenRequestKeeps(c, t, now, wall);
        case Loading(Preparing, id, original, since, _) =>
          StageIsOk(c, t);
          PutKeeps(c, t, Elsewhere, Loading(Waiting, id, original, since, None));
        case Loading(Finishing, _, _, _, Some(_)) => LoadKeeps(c, t, ref);
        case Publishing(Preparing, _, _) => PublishKeeps(c, t, now);
        case Publishing(_, _, _) => if expires.Some? { PublishedKeeps(c, t, expires.value); }
        case Deleting(Preparing, _, _) => DeletionRequestKeeps(c, t, now);
        case Deleting(_, _, _) => DeletedKeeps(c, t);
        case Minting(Preparing, session, id, version, x) =>
          StageIsOk(c, t);
          PutKeeps(c, t, Elsewhere, Minting(Waiting, session, id, version, x));
        case Minting(_, _, id, version, x) =>
          if && version == Get(c.entry.onlineVersions, id) && FreshActor(x.authenticatedAt, wall)
             && expires.Some? && wall < expires.value && !c.entry.onlineMutationInFlight
          {
            IssueKeeps(c, t, wall, expires.value);
          }
        case _ =>
      }
    }
  }

  lemma StageIsOk(c: Client, t: nat)
    requires Inv(c) && t in c.tasks
    ensures StageOk(c.past, c.tasks[t].stage)
  {
  }

  lemma ReceiveKeeps(c: Client, t: nat, now: int, reply: Reply)
    requires Inv(c)
    ensures Inv(OnReceive(c, t, now, reply))
  {
    hide Inv, Abort, AwaitRenewal, Acknowledging;
    if t in c.tasks && c.tasks[t].wait.Elsewhere? {
      var stage := c.tasks[t].stage;
      WaitKeeps(c, t, Elsewhere);
      AbortKeeps(c, t, stage);
      DoneKeeps(c, t);
      StageIsOk(c, t);
      match stage {
        case AwaitingToken(sent) => if reply.Identified? { IdentityKeeps(c, t, reply.identity); }
        case Loading(_, id, original, since, _) =>
          if reply.Row? {
            var next := Loading(Finishing, id, original, since, Some(reply.row));
            PutKeeps(c, t, Elsewhere, next);
            AwaitKeeps(c, t, now, next);
          }
        case Publishing(Waiting, ref, p) =>
          PutKeeps(c, t, Elsewhere, Publishing(Finishing, ref, p));
          AwaitKeeps(c, t, now, Publishing(Finishing, ref, p));
        case Deleting(_, id, target) =>
          PutKeeps(c, t, Elsewhere, Deleting(Finishing, id, target));
          AwaitKeeps(c, t, now, Deleting(Finishing, id, target));
        case Minting(_, ref, id, version, x) =>
          PutKeeps(c, t, Elsewhere, Minting(Finishing, ref, id, version, x));
          AwaitKeeps(c, t, now, Minting(Finishing, ref, id, version, x));
        case Scoping(ref, observed, based) =>
          if reply.Scopes? { WriteKeeps(c, t, now, ref, observed, based, reply.properties); }
        case Committing(_, properties) => AcknowledgingKeeps(c, t, properties, reply);
        case _ =>
      }
    }
  }

  lemma AcknowledgingKeeps(c: Client, t: nat, properties: Option<Properties>, reply: Reply)
    requires Inv(c)
    ensures Inv(Acknowledging(c, t, properties, reply))
  {
    DoneKeeps(c, t);
    var d := Acknowledging(c, t, properties, reply);
    PastGrows(c.past, d.past, d.tasks, d.records);
    LedgerStays(c.past, d.past, d.entry.onlineExchanges);
    hide Alone, OneEach, LedgerOk, TraceOk, TargetsOk, Kept, ValidAcknowledgement;
  }

  lemma StepKeeps(c: Client, a: Action)
    requires Inv(c)
    ensures Inv(Step(c, a))
  {
    hide Inv, OnBegin, OnAdvance, OnReceive, Dispatching;
    match a {
      case Heartbeat(now) =>
        SendKeeps(c, now, Renew(c.entry.lease, None));
        ElsewhereKeeps(Send(c, now, Renew(c.entry.lease, None)),
                       Send(c, now, Renew(c.entry.lease, None)).(entry := StartRenewal(c.entry, |c.past.log|)));
        ElsewhereKeeps(c, c.(entry := Lose(c.entry)));
      case Settle(renewal, renewed) => ElsewhereKeeps(c, OnSettle(c, renewal, renewed));
      case Join(t, now) =>
        if t in c.tasks {
          WaitKeeps(c, t, Elsewhere);
          DispatchKeeps(c, t, now, c.tasks[t].stage);
        }
      case Begin(t, now, call) => CallKeeps(c, t, now, call);
      case Advance(t, now, wall, ref, expires) => AdvanceKeeps(c, t, now, wall, ref, expires);
      case Receive(t, now, reply) => ReceiveKeeps(c, t, now, reply);
      case Close => ElsewhereKeeps(c, c.(closed := true));
      case StopHeartbeat => ElsewhereKeeps(c, OnStopHeartbeat(c));
      case SendRelease(now) =>
        SendKeeps(c, now, Release(c.entry.lease));
        ElsewhereKeeps(Send(c, now, Release(c.entry.lease)), Send(c, now, Release(c.entry.lease)).(drain := Released));
    }
  }

  lemma {:induction false} RunKeeps(c: Client, actions: seq<Action>)
    requires Inv(c)
    ensures Inv(Run(c, actions))
    decreases |actions|
  {
    hide Inv, Step;
    if actions != [] {
      StepKeeps(c, actions[0]);
      RunKeeps(Step(c, actions[0]), actions[1..]);
    }
  }

  lemma StartKeeps(shop: string, snapshot: Snapshot, lease: Lease, started: int)
    ensures Inv(Start(shop, snapshot, lease, started))
  {
  }
}
