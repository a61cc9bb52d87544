/** The composition of `withAuthenticatedMerchant` inside one operation: exchange, store,
    mint. Runs in which every reply is prompt and positive, as the client's stretches
    perform them. */
module MerchantAuthentication {
  import opened Wrappers
  import opened Contract
  import opened SessionEntry
  import opened SessionClient
  import opened ClientOnline

  /** Nothing is under way on the client, and it owns its lease at `now`. */
  predicate Calm(c: Client, now: int) {
    && !c.closed && c.tasks == map[] && Owned(c.entry, now)
    && c.entry.renewal.None? && !c.entry.onlineMutationInFlight
    && forall k :: k in c.settled ==> k < |c.past.log|
  }

  /** A fresh renewal has been sent and granted. */
  function Renewed(c: Client, now: int): Client {
    Send(c, now, Renew(c.entry.lease, Some(c.entry.snapshot.observed))).(
      entry := c.entry.(localDeadline := now + LOCAL_OWNERSHIP_MS, renewal := None),
      settled := c.settled + {|c.past.log|})
  }

  /** Nothing is in the way of a fresh renewal. */
  predicate Ready(c: Client, now: int) {
    Owned(c.entry, now) && c.entry.renewal.None? && (forall k :: k in c.settled ==> k < |c.past.log|)
  }

  lemma RenewalGranted(c: Client, t: nat, now: int, stage: Stage)
    requires Ready(c, now)
    ensures
      var k := |c.past.log|;
      Step(AwaitRenewal(c, t, now, stage), Settle(k, true)) == Put(Renewed(c, now), t, Renewing(k), stage)
    ensures Ready(Renewed(c, now), now)
  {
    assert |c.past.log| !in c.settled;
  }

  lemma RunThen(c: Client, a: Action, rest: seq<Action>)
    ensures Run(c, [a] + rest) == Run(Step(c, a), rest)
  {
    assert ([a] + rest)[1..] == rest;
  }

  lemma {:induction false} RunBoth(c: Client, first: seq<Action>, second: seq<Action>)
    ensures Run(c, first + second) == Run(Run(c, first), second)
    decreases |first|
  {
    if first == [] {
      assert first + second == second;
    } else {
      assert (first + second)[1..] == first[1..] + second;
      RunBoth(Step(c, first[0]), first[1..], second);
    }
  }

  lemma RunThree(c: Client, a: Action, b: Action, d: Action)
    ensures Run(c, [a, b, d]) == Step(Step(Step(c, a), b), d)
  {
    hide Step;
    assert [a, b, d] == [a] + [b, d] && [b, d] == [b] + [d] && [d] == [d] + [];
    RunThen(c, a, [b, d]);
    RunThen(Step(c, a), b, [d]);
    RunThen(Step(Step(c, a), b), d, []);
  }

  /** `t` is under way from the start to the end of this run. */
  predicate Busy(c: Client, actions: seq<Action>, t: nat)
    decreases |actions|
  {
    t in c.tasks && (actions == [] || Busy(Step(c, actions[0]), actions[1..], t))
  }

  lemma BusyThrough(c: Client, a: Action, b: Action, d: Action, e: Action, t: nat)
    requires t in c.tasks && t in Step(c, a).tasks && t in Step(Step(c, a), b).tasks
    requires t in Step(Step(Step(c, a), b), d).tasks && t in Step(Step(Step(Step(c, a), b), d), e).tasks
    ensures Busy(c, [a, b, d, e], t) && Run(c, [a, b, d, e]) == Step(Step(Step(Step(c, a), b), d), e)
  {
    hide Step;
    assert [a, b, d, e] == [a] + [b, d, e] && [a, b, d, e][1..] == [b, d, e];
    assert [b, d, e][1..] == [d, e] && [d, e][1..] == [e] && [e][1..] == [];
    RunThen(c, a, [b, d, e]);
    RunThree(Step(c, a), b, d, e);
    assert Busy(Step(Step(Step(c, a), b), d), [e], t);
    assert Busy(Step(Step(c, a), b), [d, e], t);
    assert Busy(Step(c, a), [b, d, e], t);
  }

  // ----------------------------------------------------------- token exchange

  /** Task 0 asks the provider: its renewal is granted and the token request leaves. */
  function Asking(c: Client, now: int, wall: int): seq<Action> {
    [Begin(0, now, Call.Exchange), Settle(|c.past.log|, true), Advance(0, now, wall, 0, None)]
  }

  function Asked(c: Client, now: int): Client {
    Send(Renewed(c, now), now, ExchangeToken)
  }

  function SentFrom(c: Client, wall: int): SentExchange {
    SentExchange(c.entry.snapshot.observed, wall, c.entry.onlineVersions, |c.past.trace|, |c.past.log| + 1)
  }

  lemma Asks(c: Client, now: int, wall: int)
    requires Calm(c, now)
    ensures Run(c, Asking(c, now, wall)) == Put(Asked(c, now), 0, Elsewhere, AwaitingToken(SentFrom(c, wall)))
  {
    var k := |c.past.log|;
    RunThree(c, Begin(0, now, Call.Exchange), Settle(k, true), Advance(0, now, wall, 0, None));
    RenewalGranted(c, 0, now, Exchanging);
    hide AwaitRenewal;
    var d := Put(Renewed(c, now), 0, Renewing(k), Exchanging);
    assert d.tasks[0 := Task(Elsewhere, AwaitingToken(SentFrom(c, wall)))]
        == map[0 := Task(Elsewhere, AwaitingToken(SentFrom(c, wall)))];
  }

  function Exchanged(c: Client, now: int, wall: int, reply: Identity): Client
    requires ReceiveIdentity(Renewed(c, now).entry, SentFrom(c, wall), reply, |c.past.grants|).Some?
    requires reply.evidence.Some? && reply.lifetime.Some?
  {
    var d := Asked(c, now);
    d.(entry := ReceiveIdentity(Renewed(c, now).entry, SentFrom(c, wall), reply, |c.past.grants|).value,
       past := d.past.(grants := d.past.grants + [GrantOf(SentFrom(c, wall), reply)]))
  }

  lemma Answers(c: Client, now: int, wall: int, reply: Identity)
    requires Calm(c, now) && reply.evidence.Some? && reply.lifetime.Some?
    requires ReceiveIdentity(Renewed(c, now).entry, SentFrom(c, wall), reply, |c.past.grants|).Some?
    ensures Step(Put(Asked(c, now), 0, Elsewhere, AwaitingToken(SentFrom(c, wall))), Receive(0, now, Identified(reply)))
         == Exchanged(c, now, wall, reply)
  {
    hide ReceiveIdentity, GrantOf, SentFrom;
    var d := Put(Asked(c, now), 0, Elsewhere, AwaitingToken(SentFrom(c, wall)));
    assert d.entry == Renewed(c, now).entry && Owned(d.entry, now);
    assert d.tasks == map[0 := Task(Elsewhere, AwaitingToken(SentFrom(c, wall)))];
    assert d.tasks - {0} == map[];
  }

  lemma ExchangedIsCalm(c: Client, now: int, wall: int, reply: Identity)
    requires Calm(c, now) && reply.evidence.Some? && reply.lifetime.Some?
    requires ReceiveIdentity(Renewed(c, now).entry, SentFrom(c, wall), reply, |c.past.grants|).Some?
    ensures Calm(Exchanged(c, now, wall, reply), now)
  {
  }

  lemma Exchanges(c: Client, now: int, wall: int, reply: Identity)
    requires Calm(c, now) && reply.evidence.Some? && reply.lifetime.Some?
    requires ReceiveIdentity(Renewed(c, now).entry, SentFrom(c, wall), reply, |c.past.grants|).Some?
    ensures Run(c, Asking(c, now, wall) + [Receive(0, now, Identified(reply))]) == Exchanged(c, now, wall, reply)
  {
    hide Step, ReceiveIdentity, Calm, GrantOf, Exchanged, Asked, Renewed, SentFrom, Asking;
    Asks(c, now, wall);
    RunBoth(c, Asking(c, now, wall), [Receive(0, now, Identified(reply))]);
    var d := Put(Asked(c, now), 0, Elsewhere, AwaitingToken(SentFrom(c, wall)));
    RunThen(d, Receive(0, now, Identified(reply)), []);
    assert [Receive(0, now, Identified(reply))] + [] == [Receive(0, now, Identified(reply))];
    Answers(c, now, wall, reply);
  }

  // -------------------------------------------------------------- publication

  function Saving(c: Client, now: int, wall: int, ref: nat, session: SessionView): seq<Action> {
    [Begin(0, now, Store(ref, session, wall)), Settle(|c.past.log|, true), Advance(0, now, wall, 0, None)]
  }

  function Begins(c: Client, ref: nat, session: SessionView, wall: int): Option<(EntryState, Publication)> {
    BeginPublication(c.entry, ref, Get(c.records, ref), session, wall, |c.past.trace|, |c.past.grants|)
  }

  /** The client once the publication has begun, been renewed and left. */
  function Begun(c: Client, e: EntryState, id: string): Client {
    c.(entry := e, past := c.past.(trace := c.past.trace + [Began(id)]))
  }

  function Left(c: Client, now: int, e: EntryState, p: Publication): Client {
    Send(Renewed(Begun(c, e, p.id), now), now, Publish(p, e.lease, p.origin.observed))
  }

  lemma BegunIsReady(c: Client, now: int, wall: int, ref: nat, session: SessionView)
    requires Calm(c, now) && Begins(c, ref, session, wall).Some?
    ensures
      var (e, p) := Begins(c, ref, session, wall).value;
      && Ready(Begun(c, e, p.id), now) && p.id == session.id && p.version == |c.past.trace|
      && e == c.entry.(onlineVersions := c.entry.onlineVersions[p.id := p.version], onlineMutationInFlight := true)
  {
  }

  lemma Saves(c: Client, now: int, wall: int, ref: nat, session: SessionView)
    requires Calm(c, now) && Begins(c, ref, session, wall).Some? && Names(c, ref, session.id)
    ensures
      var (e, p) := Begins(c, ref, session, wall).value;
      Run(c, Saving(c, now, wall, ref, session)) == Put(Left(c, now, e, p), 0, Elsewhere, Publishing(Waiting, ref, p))
  {
    var (e, p) := Begins(c, ref, session, wall).value;
    var k := |c.past.log|;
    BegunIsReady(c, now, wall, ref, session);
    RunThree(c, Begin(0, now, Store(ref, session, wall)), Settle(k, true), Advance(0, now, wall, 0, None));
    RenewalGranted(Begun(c, e, p.id), 0, now, Publishing(Preparing, ref, p));
    hide AwaitRenewal, BeginPublication;
    var d := Put(Renewed(Begun(c, e, p.id), now), 0, Renewing(k), Publishing(Preparing, ref, p));
    assert Step(Step(c, Begin(0, now, Store(ref, session, wall))), Settle(k, true)) == d;
    AdvancesToPublish(d, now, wall, ref, p, k);
    hide Step;
    assert d.tasks[0 := Task(Elsewhere, Publishing(Waiting, ref, p))]
        == map[0 := Task(Elsewhere, Publishing(Waiting, ref, p))];
  }

  lemma SaveBegins(c: Client, now: int, wall: int, ref: nat, session: SessionView)
    requires Calm(c, now) && Begins(c, ref, session, wall).Some? && Names(c, ref, session.id)
    ensures
      var (e, p) := Begins(c, ref, session, wall).value;
      && Step(c, Begin(0, now, Store(ref, session, wall)))
         == AwaitRenewal(Begun(c, e, p.id), 0, now, Publishing(Preparing, ref, p))
      && Ready(Begun(c, e, p.id), now)
  {
    BegunIsReady(c, now, wall, ref, session);
    hide AwaitRenewal, BeginPublication;
  }

  lemma SaveIsUnderWay(c: Client, now: int, wall: int, ref: nat, session: SessionView)
    requires Calm(c, now) && Begins(c, ref, session, wall).Some? && Names(c, ref, session.id)
    ensures
      var d := Step(c, Begin(0, now, Store(ref, session, wall)));
      0 in d.tasks && 0 in Step(d, Settle(|c.past.log|, true)).tasks
  {
    SaveBegins(c, now, wall, ref, session);
    var (e, p) := Begins(c, ref, session, wall).value;
    AwaitIsUnderWay(Begun(c, e, p.id), now, Publishing(Preparing, ref, p));
    hide Step, AwaitRenewal, Begins, Ready;
  }

  lemma ConfirmationIsUnderWay(d: Client, now: int, ref: nat, p: Publication)
    requires Ready(d, now) && 0 in d.tasks && d.tasks[0] == Task(Elsewhere, Publishing(Waiting, ref, p))
    ensures
      var f := Step(d, Receive(0, now, Confirmed));
      var g := Step(f, Settle(|d.past.log|, true));
      0 in f.tasks && 0 in g.tasks && g.tasks[0].stage == Publishing(Finishing, ref, p)
  {
    ConfirmationRenews(d, now, ref, p);
    AwaitIsUnderWay(d, now, Publishing(Finishing, ref, p));
    RenewalGranted(d, 0, now, Publishing(Finishing, ref, p));
    hide Step, AwaitRenewal;
  }

  /** Between the call and its last stretch, when the log had `k` requests. */
  function SaveWork(k: nat, now: int, wall: int): seq<Action> {
    [Settle(k, true), Advance(0, now, wall, 0, None), Receive(0, now, Confirmed), Settle(k + 2, true)]
  }

  /** Prompt and positive replies carry a publication to its record. */
  lemma SavesThrough(c: Client, now: int, wall: int, ref: nat, session: SessionView, expires: int)
    requires Calm(c, now) && Begins(c, ref, session, wall).Some? && Names(c, ref, session.id)
    ensures
      var p := Begins(c, ref, session, wall).value.1;
      var d := Step(c, Begin(0, now, Store(ref, session, wall)));
      var e := Run(d, SaveWork(|c.past.log|, now, wall));
      var left := Run(c, Saving(c, now, wall, ref, session));
      && Busy(d, SaveWork(|c.past.log|, now, wall), 0)
      && 0 in e.tasks && e.tasks[0].stage == Publishing(Finishing, ref, p)
      && Step(e, Advance(0, now, wall, 0, Some(expires))) == Run(left, Confirming(left, now, wall, expires))
  {
    var (e, p) := Begins(c, ref, session, wall).value;
    var k := |c.past.log|;
    var begin := Begin(0, now, Store(ref, session, wall));
    var left := Put(Left(c, now, e, p), 0, Elsewhere, Publishing(Waiting, ref, p));
    Saves(c, now, wall, ref, session);
    SaveIsUnderWay(c, now, wall, ref, session);
    BegunIsReady(c, now, wall, ref, session);
    LeftIsReady(c, now, e, p);
    ConfirmationIsUnderWay(left, now, ref, p);
    assert |left.past.log| == k + 2;
    hide Step, Begins, Ready, Calm, Left, BeginPublication;
    RunThree(c, begin, Settle(k, true), Advance(0, now, wall, 0, None));
    RunThree(left, Receive(0, now, Confirmed), Settle(k + 2, true), Advance(0, now, wall, 0, Some(expires)));
    BusyThrough(Step(c, begin), Settle(k, true), Advance(0, now, wall, 0, None), Receive(0, now, Confirmed),
                Settle(k + 2, true), 0);
  }

  lemma AwaitIsUnderWay(c: Client, now: int, stage: Stage)
    requires Ready(c, now)
    ensures 0 in AwaitRenewal(c, 0, now, stage).tasks
    ensures 0 in Step(AwaitRenewal(c, 0, now, stage), Settle(|c.past.log|, true)).tasks
  {
    RenewalGranted(c, 0, now, stage);
    hide Step;
  }

  lemma AdvancesToPublish(d: Client, now: int, wall: int, ref: nat, p: Publication, k: nat)
    requires 0 in d.tasks && d.tasks[0] == Task(Renewing(k), Publishing(Preparing, ref, p)) && k in d.settled
          && Owned(d.entry, now)
    ensures Step(d, Advance(0, now, wall, 0, None))
         == Put(Send(d, now, Publish(p, d.entry.lease, p.origin.observed)), 0, Elsewhere, Publishing(Waiting, ref, p))
  {
  }

  /** The acknowledgement, one more granted renewal, and the record. */
  function Confirming(d: Client, now: int, wall: int, expires: int): seq<Action> {
    [Receive(0, now, Confirmed), Settle(|d.past.log|, true), Advance(0, now, wall, 0, Some(expires))]
  }

  function Stored(d: Client, now: int, ref: nat, p: Publication, expires: int): Client {
    EndOnline(Renewed(d, now).(tasks := map[],
                               records := d.records[ref := PublishedRecord(p, expires, |d.past.trace|)]),
              p.id, true)
  }

  lemma Confirms(d: Client, now: int, wall: int, ref: nat, p: Publication, expires: int)
    requires Ready(d, now) && d.tasks == map[0 := Task(Elsewhere, Publishing(Waiting, ref, p))]
    ensures Run(d, Confirming(d, now, wall, expires)) == Stored(d, now, ref, p, expires)
  {
    var k := |d.past.log|;
    RunThree(d, Receive(0, now, Confirmed), Settle(k, true), Advance(0, now, wall, 0, Some(expires)));
    RenewalGranted(d, 0, now, Publishing(Finishing, ref, p));
    ConfirmationRenews(d, now, ref, p);
    var f := Put(Renewed(d, now), 0, Renewing(k), Publishing(Finishing, ref, p));
    AdvancesToRecord(f, now, wall, ref, p, k, expires);
    hide Step, AwaitRenewal, EndOnline, PublishedRecord;
    assert f.tasks - {0} == map[];
  }

  lemma ConfirmationRenews(d: Client, now: int, ref: nat, p: Publication)
    requires 0 in d.tasks && d.tasks[0] == Task(Elsewhere, Publishing(Waiting, ref, p))
    ensures Step(d, Receive(0, now, Confirmed)) == AwaitRenewal(d, 0, now, Publishing(Finishing, ref, p))
  {
    hide AwaitRenewal;
  }

  lemma AdvancesToRecord(f: Client, now: int, wall: int, ref: nat, p: Publication, k: nat, expires: int)
    requires 0 in f.tasks && f.tasks[0] == Task(Renewing(k), Publishing(Finishing, ref, p)) && k in f.settled
          && Owned(f.entry, now)
    ensures Step(f, Advance(0, now, wall, 0, Some(expires)))
         == EndOnline(Done(f, 0).(records := f.records[ref := PublishedRecord(p, expires, |f.past.trace|)]), p.id, true)
  {
  }

  lemma StoredIsCalm(d: Client, now: int, ref: nat, p: Publication, expires: int)
    requires Ready(d, now) && !d.closed
    ensures Calm(Stored(d, now, ref, p, expires), now)
  {
  }

  // --------------------------------------------------------------- the actor

  function Reserves(c: Client, ref: nat, session: SessionView): Option<(EntryState, Exchange)> {
    ReserveActor(c.entry, Get(c.records, ref), session)
  }

  function Reserved(c: Client, e: EntryState, x: Exchange): Client {
    c.(entry := e, past := c.past.(reserved := c.past.reserved + {x.identity}))
  }

  function MintingStage(c: Client, ref: nat, session: SessionView, x: Exchange): Stage
    requires ref in c.records
  {
    Minting(Preparing, ref, session.id, c.records[ref].origin.version, x)
  }

  /** Between the call and its last stretch, when the log had `k` requests. */
  function MintWork(k: nat, now: int, wall: int): seq<Action> {
    [Settle(k, true), Advance(0, now, wall, 0, None), Receive(0, now, Confirmed), Settle(k + 1, true)]
  }

  lemma MintBegins(c: Client, now: int, wall: int, ref: nat, session: SessionView)
    requires Calm(c, now) && Reserves(c, ref, session).Some? && Names(c, ref, session.id)
    ensures
      ref in c.records
      && var (e, x) := Reserves(c, ref, session).value;
      && Ready(Reserved(c, e, x), now) && e.onlineVersions == c.entry.onlineVersions && !e.onlineMutationInFlight
      && c.records[ref].origin.version == Get(c.entry.onlineVersions, session.id)
      && Step(c, Begin(0, now, Mint(ref, session)))
         == AwaitRenewal(Reserved(c, e, x), 0, now, MintingStage(c, ref, session, x))
  {
    hide AwaitRenewal;
  }

  lemma MintLoads(d: Client, now: int, wall: int, ref: nat, id: string, version: Option<nat>, x: Exchange, k: nat)
    requires 0 in d.tasks && d.tasks[0] == Task(Renewing(k), Minting(Preparing, ref, id, version, x)) && k in d.settled
          && Owned(d.entry, now)
    ensures 0 in Step(d, Advance(0, now, wall, 0, None)).tasks
    ensures Step(Step(d, Advance(0, now, wall, 0, None)), Receive(0, now, Confirmed))
         == AwaitRenewal(Put(d, 0, Elsewhere, Minting(Waiting, ref, id, version, x)), 0, now,
                         Minting(Finishing, ref, id, version, x))
  {
    hide AwaitRenewal;
  }

  lemma MintEnds(d: Client, now: int, wall: int, ref: nat, id: string, version: Option<nat>, x: Exchange, k: nat,
                 expires: int)
    requires 0 in d.tasks && d.tasks[0] == Task(Renewing(k), Minting(Finishing, ref, id, version, x))
    requires k in d.settled && Owned(d.entry, now)
    requires !d.entry.onlineMutationInFlight && version == Get(d.entry.onlineVersions, id)
    requires expires > wall && FreshActor(x.authenticatedAt, wall)
    ensures
      var e := Step(d, Advance(0, now, wall, 0, Some(expires)));
      && 0 !in e.tasks
      && e.past.actors == d.past.actors + [ActorFor(ref, id, x, wall, expires, version, |d.past.trace|)]
  {
  }

  /** Prompt and positive replies carry a mint to its actor. */
  lemma MintsActor(c: Client, now: int, wall: int, ref: nat, session: SessionView, expires: int)
    requires Calm(c, now) && Reserves(c, ref, session).Some? && Names(c, ref, session.id)
    requires expires > wall && FreshActor(Reserves(c, ref, session).value.1.authenticatedAt, wall)
    ensures
      && ref in c.records
      && var d := Step(c, Begin(0, now, Mint(ref, session)));
      && var work := MintWork(|c.past.log|, now, wall);
      && var e := Step(Run(d, work), Advance(0, now, wall, 0, Some(expires)));
      && Busy(d, work, 0) && Run(d, work).past.actors == c.past.actors && 0 !in e.tasks
      && e.past.actors
           == c.past.actors + [ActorFor(ref, session.id, Reserves(c, ref, session).value.1, wall, expires,
                                        c.records[ref].origin.version, |c.past.trace|)]
  {
    MintBegins(c, now, wall, ref, session);
    var (e, x) := Reserves(c, ref, session).value;
    var r := Reserved(c, e, x);
    var k := |c.past.log|;
    var version := c.records[ref].origin.version;
    RenewalGranted(r, 0, now, MintingStage(c, ref, session, x));
    var d := Put(Renewed(r, now), 0, Renewing(k), MintingStage(c, ref, session, x));
    MintLoads(d, now, wall, ref, session.id, version, x, k);
    var w := Put(d, 0, Elsewhere, Minting(Waiting, ref, session.id, version, x));
    RenewalGranted(w, 0, now, Minting(Finishing, ref, session.id, version, x));
    var f := Put(Renewed(w, now), 0, Renewing(k + 1), Minting(Finishing, ref, session.id, version, x));
    MintEnds(f, now, wall, ref, session.id, version, x, k + 1, expires);
    BusyThrough(Step(c, Begin(0, now, Mint(ref, session))), Settle(k, true), Advance(0, now, wall, 0, None),
                Receive(0, now, Confirmed), Settle(k + 1, true), 0);
    hide Step, AwaitRenewal, ReserveActor, FreshActor;
  }

  // ------------------------------------------------------------ the whole run

  /** A provider's positive answer, and what the caller's session holds after it. */
  datatype SignIn = SignIn(digest: string, evidence: Evidence, lifetime: int, expires: int)

  function Reply(i: SignIn): Identity {
    Identity(Some(i.evidence), i.digest, Some(i.lifetime))
  }

  function SessionFor(i: SignIn, shop: string): SessionView {
    SessionView(OnlineId(shop, i.evidence.userId), shop, true, Some(i.digest), Some(i.expires), Some(i.evidence))
  }

  function EndOf(i: SignIn, wall: int): int {
    wall + i.lifetime * 1000
  }

  /** An installed shop, a provider lifetime that a date can hold, a session that is
      live and within it, and a clock past the epoch. */
  predicate Plausible(snapshot: Snapshot, i: SignIn, wall: int) {
    && Present(snapshot.observed.installationGeneration) && Present(snapshot.observed.credentialTokenHash)
    && i.lifetime > 0 && EndOf(i, wall) <= LATEST_DATE_MS && wall < i.expires <= EndOf(i, wall)
    && wall > 0
  }

  /** After the first exchange. */
  predicate Recognised(c: Client, now: int, snapshot: Snapshot, i: SignIn, wall: int) {
    && Calm(c, now) && c.entry.snapshot == snapshot && c.records == map[] && c.past.trace == [] && c.past.actors == []
    && c.entry.onlineVersions == map[]
    && c.entry.onlineExchanges
       == map[i.digest := Exchange.Exchange(snapshot.observed, i.evidence, EndOf(i, wall), wall, false, None, 0, 0)]
    && c.past.grants == [Grant(i.digest, snapshot.observed, i.evidence, wall, EndOf(i, wall), 0, 1)]
  }

  lemma FirstExchange(shop: string, snapshot: Snapshot, lease: Lease, now: int, i: SignIn, wall: int)
    requires Plausible(snapshot, i, wall)
    ensures
      var c := Start(shop, snapshot, lease, now);
      var d := Run(c, Asking(c, now, wall) + [Receive(0, now, Identified(Reply(i)))]);
      Recognised(d, now, snapshot, i, wall) && d.entry.shop == shop
  {
    var c := Start(shop, snapshot, lease, now);
    assert ReceiveIdentity(Renewed(c, now).entry, SentFrom(c, wall), Reply(i), 0).Some?;
    Exchanges(c, now, wall, Reply(i));
    ExchangedIsCalm(c, now, wall, Reply(i));
    hide Asking, Run, Calm;
  }

  /** After the publication that follows it. */
  predicate SignedIn(c: Client, now: int, snapshot: Snapshot, i: SignIn, wall: int, id: string) {
    && Calm(c, now) && c.entry.snapshot == snapshot && c.past.actors == []
    && Get(c.entry.onlineVersions, id) == Some(0)
    && c.entry.onlineExchanges
       == map[i.digest := Exchange.Exchange(snapshot.observed, i.evidence, EndOf(i, wall), wall, false, None, 0, 0)]
    && c.past.grants == [Grant(i.digest, snapshot.observed, i.evidence, wall, EndOf(i, wall), 0, 1)]
    && var origin := Origin(snapshot.observed, i.evidence, i.expires, Some(wall), Some(0), 1, false, EndOf(i, wall),
                            false);
       c.records == map[0 := Record(id, origin, i.digest)]
  }

  function PublicationOf(snapshot: Snapshot, i: SignIn, wall: int, id: string): Publication {
    Publication(0, id, i.digest, i.evidence,
                Origin(snapshot.observed, i.evidence, EndOf(i, wall), Some(wall), None, 0, false, EndOf(i, wall),
                       false),
                i.expires, wall, 0, 1, false)
  }

  lemma FirstPublication(c: Client, now: int, snapshot: Snapshot, i: SignIn, wall: int)
    requires Recognised(c, now, snapshot, i, wall) && Plausible(snapshot, i, wall)
    ensures
      var session := SessionFor(i, c.entry.shop);
      var d := Run(c, Saving(c, now, wall, 0, session));
      SignedIn(Run(d, Confirming(d, now, wall, i.expires)), now, snapshot, i, wall, session.id)
      && Run(d, Confirming(d, now, wall, i.expires)).entry.shop == c.entry.shop
  {
    var session := SessionFor(i, c.entry.shop);
    var p := PublicationOf(snapshot, i, wall, session.id);
    PublicationBegins(c, now, snapshot, i, wall);
    var e := Begins(c, 0, session, wall).value.0;
    Saves(c, now, wall, 0, session);
    BegunIsReady(c, now, wall, 0, session);
    var d := Put(Left(c, now, e, p), 0, Elsewhere, Publishing(Waiting, 0, p));
    LeftIsReady(c, now, e, p);
    assert c.tasks == map[] && d.tasks == map[0 := Task(Elsewhere, Publishing(Waiting, 0, p))];
    Confirms(d, now, wall, 0, p, i.expires);
    StoredIsCalm(d, now, 0, p, i.expires);
    hide Run, Saving, Confirming, Calm, Begins, Ready;
  }

  lemma LeftIsReady(c: Client, now: int, e: EntryState, p: Publication)
    requires Ready(Begun(c, e, p.id), now)
    ensures Ready(Left(c, now, e, p), now)
  {
  }

  lemma PublicationBegins(c: Client, now: int, snapshot: Snapshot, i: SignIn, wall: int)
    requires Recognised(c, now, snapshot, i, wall) && Plausible(snapshot, i, wall)
    ensures
      var session := SessionFor(i, c.entry.shop);
      var begun := Begins(c, 0, session, wall);
      begun.Some? && begun.value.1 == PublicationOf(snapshot, i, wall, session.id)
  {
  }

  lemma FirstSignIn(shop: string, snapshot: Snapshot, lease: Lease, now: int, i: SignIn,
                    wall: int) returns (actions: seq<Action>)
    requires Plausible(snapshot, i, wall)
    ensures
      var d := Run(Start(shop, snapshot, lease, now), actions);
      SignedIn(d, now, snapshot, i, wall, OnlineId(shop, i.evidence.userId)) && d.entry.shop == shop
  {
    var c := Start(shop, snapshot, lease, now);
    var first := Asking(c, now, wall) + [Receive(0, now, Identified(Reply(i)))];
    FirstExchange(shop, snapshot, lease, now, i, wall);
    var c1 := Run(c, first);
    FirstPublication(c1, now, snapshot, i, wall);
    hide Run, Saving, Confirming, Asking, SignedIn, Recognised, OnlineId;
    var save := Saving(c1, now, wall, 0, SessionFor(i, shop));
    var confirm := Confirming(Run(c1, save), now, wall, i.expires);
    RunBoth(c, first, save + confirm);
    RunBoth(c1, save, confirm);
    return first + (save + confirm);
  }

  lemma ActorIsReserved(c: Client, now: int, snapshot: Snapshot, i: SignIn, wall: int, session: SessionView)
    requires SignedIn(c, now, snapshot, i, wall, session.id) && Plausible(snapshot, i, wall)
    requires session.isOnline && session.tokenDigest == Some(i.digest)
    ensures
      Reserves(c, 0, session).Some?
      && Reserves(c, 0, session).value.1
         == Exchange.Exchange(snapshot.observed, i.evidence, EndOf(i, wall), wall, false, None, 0, 0)
  {
  }

  // ---------------------------------------------------- a resave and the clamp

  /** Request `k` publishes, from a session object's own record, an expiry beyond that of
      some exchange recorded by then that returned the same token. */
  predicate Overruns(past: Past, k: nat) {
    && k < |past.log| && past.log[k].request.Publish?
    && var p := past.log[k].request.publication;
    && p.resaved && !p.origin.stretched && !Clamped(past, p.digest, p.granted, p.expires)
  }

  /** The last request of this run does. */
  predicate OverrunsBy(c: Client, actions: seq<Action>) {
    var past := Run(c, actions).past;
    |past.log| > 0 && Overruns(past, |past.log| - 1)
  }

  /** A session object saved again presents its own record. If its token has meanwhile
      been exchanged for a shorter lifetime, what is published outlives that exchange:
      the bound by all exchanges holds for fresh publications only. */
  lemma ResaveIgnoresShorterExchange(shop: string, snapshot: Snapshot, lease: Lease, now: int, i: SignIn,
                                     shorter: int, wall: int)
    requires Plausible(snapshot, i, wall) && 0 < shorter && wall + shorter * 1000 < i.expires
    ensures exists actions: seq<Action> :: OverrunsBy(Start(shop, snapshot, lease, now), actions)
  {
    hide Run, Saving, Asking, SignedIn, Overruns, Reply;
    var c := Start(shop, snapshot, lease, now);
    var session := SessionFor(i, shop);
    var signIn := FirstSignIn(shop, snapshot, lease, now, i, wall);
    var d := Run(c, signIn);
    ResavePublishes(d, now, snapshot, i, shorter, wall, session);
    var again := Asking(d, now, wall) + [Receive(0, now, Identified(Reply(i.(lifetime := shorter))))];
    var save := Saving(Run(d, again), now, wall, 0, session);
    RunBoth(c, signIn, again + save);
    RunBoth(d, again, save);
    assert OverrunsBy(c, signIn + (again + save));
  }

  lemma ResavePublishes(c: Client, now: int, snapshot: Snapshot, i: SignIn, shorter: int, wall: int,
                        session: SessionView)
    requires SignedIn(c, now, snapshot, i, wall, session.id) && Plausible(snapshot, i, wall)
    requires 0 < shorter && wall + shorter * 1000 < i.expires
    requires session == SessionFor(i, c.entry.shop)
    ensures
      var d := Run(c, Asking(c, now, wall) + [Receive(0, now, Identified(Reply(i.(lifetime := shorter))))]);
      var f := Run(d, Saving(d, now, wall, 0, session));
      |f.past.log| > 0 && Overruns(f.past, |f.past.log| - 1)
  {
    var reply := Reply(i.(lifetime := shorter));
    assert ReceiveIdentity(Renewed(c, now).entry, SentFrom(c, wall), reply, |c.past.grants|).Some?;
    Exchanges(c, now, wall, reply);
    ExchangedIsCalm(c, now, wall, reply);
    var d := Exchanged(c, now, wall, reply);
    assert d.past.grants[1].digest == i.digest && d.past.grants[1].expiresAt == wall + shorter * 1000
        && |d.past.grants| == 2;
    ResaveBegins(d, now, i, wall, session);
    var (e, p) := Begins(d, 0, session, wall).value;
    Saves(d, now, wall, 0, session);
    hide Run, Saving, Asking, Calm, Begins, ReceiveIdentity;
    var left := Left(d, now, e, p);
    assert left.past.log[|left.past.log| - 1].request.publication == p;
    assert left.past.grants == d.past.grants;
  }

  lemma ResaveBegins(d: Client, now: int, i: SignIn, wall: int, session: SessionView)
    requires Calm(d, now) && 0 in d.records && d.records[0].tokenDigest == i.digest && d.records[0].id == session.id
    requires d.records[0].origin.expiresAt == i.expires > wall && d.records[0].origin.evidence == i.evidence
    requires !d.records[0].origin.stretched && d.records[0].origin.version == Get(d.entry.onlineVersions, session.id)
    requires SameObservation(d.records[0].origin.observed, d.entry.snapshot.observed)
    requires session == SessionFor(i, d.entry.shop)
    ensures
      Begins(d, 0, session, wall).Some?
      && var p := Begins(d, 0, session, wall).value.1;
      && p.resaved && !p.origin.stretched && p.digest == i.digest && p.expires == i.expires
         && p.granted == |d.past.grants|
  {
  }
}
