/** One operation holding one shop's lease, as the source's methods interleave on it.
    Every action is one uninterrupted stretch between two awaits; the environment
    chooses the order, the clock readings and every reply. An action whose await
    has not settled leaves the client as it is. */
module SessionClient {
  import opened Wrappers
  import opened Contract
  import opened SessionEntry

  /** Online mutations of the entry, in the order they begin and end. */
  datatype Event = Began(id: string) | Ended(id: string)

  datatype Request =
    | Renew(lease: Lease, checked: Option<Observation>)
    | ExchangeToken
    | Publish(publication: Publication, lease: Lease, observed: Observation)
    | DeleteOnline(id: string, digest: string, lease: Lease, observed: Observation)
    | Write(ref: nat, properties: Properties, expectedHash: Option<string>, lease: Lease, observed: Observation,
            based: Option<Properties>)
    | DeleteOffline(lease: Lease, observed: Observation)
    | Release(lease: Lease)

  /** A request that left at `at`, when the trace had `moment` events and `granted`
      exchanges had succeeded. */
  datatype Dispatch = Dispatch(at: int, request: Request, moment: nat, granted: nat)

  datatype Wait =
    | Elsewhere                    // a reply, not a renewal
    | Joined(renewal: nat)         // another caller's renewal; its own comes after
    | Renewing(renewal: nat)       // its own fresh renewal

  /** Before the request, waiting for its reply, and after it. */
  datatype Phase = Preparing | Waiting | Finishing

  datatype Stage =
    | Checking
    | Exchanging
    | AwaitingToken(sent: SentExchange)
    | Loading(phase: Phase, id: string, original: Option<nat>, since: nat, row: Option<StoredRow>)
    | Publishing(phase: Phase, ref: nat, publication: Publication)
    | Deleting(phase: Phase, id: string, target: Target)
    | Minting(phase: Phase, ref: nat, id: string, version: Option<nat>, exchange: Exchange)
    | Scoping(ref: nat, observed: Observation, based: Option<Properties>)
    | Committing(write: nat, properties: Option<Properties>)

  datatype Task = Task(wait: Wait, stage: Stage)

  /** A successful online exchange as the provider answered it, with the place in the log
      of its request and in the trace at which that left. */
  datatype Grant = Grant(
    digest: string,
    observed: Observation,
    evidence: Evidence,
    requestedAt: int,
    expiresAt: int,
    since: nat,
    request: nat)

  /** A cached load that returned the session object `ref`, holding the token `token`. */
  datatype Loaded = Loaded(ref: nat, id: string, digest: string, token: string, since: nat, until: nat)

  /** An actor handed out for the exchange numbered `identity`, for the session version
      the trace records at `version`, when the trace had `moment` events and its session
      object the expiry `expires`. */
  datatype Actor = Actor(
    ref: nat,
    id: string,
    userId: nat,
    authenticatedAt: int,
    identity: nat,
    issuedAt: int,
    expires: int,
    version: Option<nat>,
    moment: nat)

  datatype Drain = Running | Draining(renewal: Option<nat>) | Released

  /** What has happened so far; it only grows. */
  datatype Past = Past(
    log: seq<Dispatch>,
    trace: seq<Event>,
    grants: seq<Grant>,
    reserved: set<nat>,
    actors: seq<Actor>,
    loads: seq<Loaded>,
    acknowledged: nat)

  datatype Client = Client(
    entry: EntryState,
    closed: bool,
    drain: Drain,
    tasks: map<nat, Task>,
    settled: set<nat>,
    records: map<nat, Record>,
    past: Past)

  /** The methods a caller can enter. A session is what its object holds at that
      stretch; `original` and `based` are the observation recorded for an offline
      session object, if there is one, and the properties it was recorded with. */
  datatype Call =
    | Check
    | Exchange
    | Load(id: string)
    | Store(ref: nat, session: SessionView, wall: int)
    | Delete(id: string)
    | Mint(ref: nat, session: SessionView)
    | StoreOffline(ref: nat, original: Option<Observation>, based: Option<Properties>, properties: Properties,
                   scoped: bool)
    | Erase

  /** What settles an await. `Failed` stands for every error, timeout or malformed
      body, and so does a reply the waiting stage has no use for. */
  datatype Reply =
    | Failed
    | Plain
    | Identified(identity: Identity)
    | Row(row: StoredRow, wall: int)
    | Confirmed
    | Scopes(properties: Properties)
    | Fenced(fence: Fence)

  datatype Action =
    | Heartbeat(now: int)
    | Settle(renewal: nat, renewed: bool)
    | Join(task: nat, now: int)
    | Begin(task: nat, now: int, call: Call)
    | Advance(task: nat, now: int, wall: int, ref: nat, expires: Option<int>)
    | Receive(task: nat, now: int, reply: Reply)
    | Close
    | StopHeartbeat
    | SendRelease(now: int)

  /** The clock reading of a stretch that can send something. */
  function Clock(a: Action): Option<int> {
    match a
    case Heartbeat(now) => Some(now)
    case Join(_, now) => Some(now)
    case Begin(_, now, _) => Some(now)
    case Advance(_, now, _, _, _) => Some(now)
    case Receive(_, now, _) => Some(now)
    case SendRelease(now) => Some(now)
    case _ => None
  }

  function Start(shop: string, snapshot: Snapshot, lease: Lease, started: int): Client {
    Client(NewEntry(shop, snapshot, lease, started), false, Running, map[], {}, map[], Past([], [], [], {}, [], [], 0))
  }

  // ------------------------------------------------------------ shared parts

  function Send(c: Client, now: int, request: Request): Client {
    c.(past := c.past.(log := c.past.log + [Dispatch(now, request, |c.past.trace|, |c.past.grants|)]))
  }

  function Put(c: Client, t: nat, wait: Wait, stage: Stage): Client {
    c.(tasks := c.tasks[t := Task(wait, stage)])
  }

  function Done(c: Client, t: nat): Client {
    c.(tasks := c.tasks - {t})
  }

  /** The id whose publication or deletion a stage belongs to. */
  function MutationOf(stage: Stage): Option<string> {
    if stage.Publishing? then Some(stage.publication.id)
    else if stage.Deleting? then Some(stage.id)
    else None
  }

  /** Failing here is ambiguous, so it costs the client its ownership. */
  predicate Ambiguous(stage: Stage) {
    stage.AwaitingToken? || stage.Committing?
  }

  /** The catch and finally blocks around a stage. */
  function Abort(c: Client, t: nat, stage: Stage): Client {
    if MutationOf(stage).Some? then EndOnline(Done(c, t), MutationOf(stage).value, false)
    else if Ambiguous(stage) then Done(c, t).(entry := Lose(c.entry))
    else Done(c, t)
  }

  function EndOnline(c: Client, id: string, succeeded: bool): Client {
    c.(entry := EndMutation(c.entry, succeeded), past := c.past.(trace := c.past.trace + [Ended(id)]))
  }

  /** The part of `renew` that dispatches, on behalf of task `t`. */
  function Dispatching(c: Client, t: nat, now: int, stage: Stage): Client {
    if Owned(c.entry, now)
    then
      var sent := Send(c, now, Renew(c.entry.lease, Some(c.entry.snapshot.observed)));
      Put(sent.(entry := StartRenewal(c.entry, |c.past.log|)), t, Renewing(|c.past.log|), stage)
    else Abort(c, t, stage)
  }

  /** `await this.renew(entry, true)` reached by task `t`. */
  function AwaitRenewal(c: Client, t: nat, now: int, stage: Stage): Client {
    if c.entry.renewal.Some?
    then Put(c, t, Joined(c.entry.renewal.value), stage)
    else Dispatching(c, t, now, stage)
  }

  function SessionOf(stage: Stage): Option<nat> {
    if stage.Publishing? || stage.Minting? then Some(stage.ref) else None
  }

  /** `ref` can name a session object constructed now. */
  predicate Unused(c: Client, ref: nat) {
    ref !in c.records && forall t :: t in c.tasks ==> SessionOf(c.tasks[t].stage) != Some(ref)
  }

  /** The identifier of a session object is fixed when it is constructed. */
  predicate Names(c: Client, ref: nat, id: string) {
    ref in c.records ==> c.records[ref].id == id
  }

  // ------------------------------------------------------------- the actions

  function OnHeartbeat(c: Client, now: int): Client {
    if c.drain.Running? && c.entry.renewal.None? && !c.entry.lost
    then
      if Owned(c.entry, now)
      then Send(c, now, Renew(c.entry.lease, None)).(entry := StartRenewal(c.entry, |c.past.log|))
      else c.(entry := Lose(c.entry))
    else c
  }

  function OnSettle(c: Client, renewal: nat, renewed: bool): Client {
    if renewal < |c.past.log| && c.past.log[renewal].request.Renew? && renewal !in c.settled
    then c.(entry := SettleRenewal(c.entry, renewed, c.past.log[renewal].at), settled := c.settled + {renewal})
    else c
  }

  /** A caller that waited for another renewal goes on to its own. */
  function OnJoin(c: Client, t: nat, now: int): Client {
    if t in c.tasks && c.tasks[t].wait.Joined? && c.tasks[t].wait.renewal in c.settled
    then Dispatching(c, t, now, c.tasks[t].stage)
    else c
  }

  /** A method entered by task `t`, up to its first await. Methods look at whether the
      operation is closed before they await the entry, so this stretch may come after
      the close. */
  function OnBegin(c: Client, t: nat, now: int, call: Call): Client {
    if t in c.tasks then c
    else
      match call
      case Check => AwaitRenewal(c, t, now, Checking)
      case Exchange =>
        if c.entry.onlineMutationInFlight then c else AwaitRenewal(c, t, now, Exchanging)
      case Load(id) =>
        if c.entry.onlineMutationInFlight then c
        else AwaitRenewal(c, t, now, Loading(Preparing, id, Get(c.entry.onlineVersions, id), |c.past.trace|, None))
      case Store(ref, session, wall) =>
        var begun := BeginPublication(c.entry, ref, Get(c.records, ref), session, wall, |c.past.trace|,
                                      |c.past.grants|);
        if begun.None? || !Names(c, ref, session.id) then c
        else
          AwaitRenewal(c.(entry := begun.value.0, past := c.past.(trace := c.past.trace + [Began(session.id)])), t, now,
                       Publishing(Preparing, ref, begun.value.1))
      case Delete(id) =>
        var begun := BeginDeletion(c.entry, id, |c.past.trace|);
        if begun.None? then c
        else AwaitRenewal(c.(entry := begun.value.0, past := c.past.(trace := c.past.trace + [Began(id)])), t, now,
                          Deleting(Preparing, id, begun.value.1))
      case Mint(ref, session) =>
        var reservation := ReserveActor(c.entry, Get(c.records, ref), session);
        if reservation.None? || !Names(c, ref, session.id) then c
        else
          var x := reservation.value.1;
          AwaitRenewal(c.(entry := reservation.value.0, past := c.past.(reserved := c.past.reserved + {x.identity})), t,
                       now, Minting(Preparing, ref, session.id, c.records[ref].origin.version, x))
      case StoreOffline(ref, original, based, properties, scoped) =>
        var observed := if original.Some? then original.value else c.entry.snapshot.observed;
        if !Owned(c.entry, now) || !SameObservation(observed, c.entry.snapshot.observed) then c
        else if scoped then Put(c, t, Elsewhere, Scoping(ref, observed, based))
        else Writing(c, t, now, ref, observed, based, properties)
      case Erase =>
        if !Owned(c.entry, now) then c
        else
          Put(Send(c, now, DeleteOffline(c.entry.lease, c.entry.snapshot.observed)), t, Elsewhere,
              Committing(|c.past.log|, None))
  }

  function Writing(c: Client, t: nat, now: int, ref: nat, observed: Observation, based: Option<Properties>,
                   properties: Properties): Client {
    Put(Send(c, now, Write(ref, properties, observed.credentialTokenHash, c.entry.lease, observed, based)), t,
        Elsewhere, Committing(|c.past.log|, Some(properties)))
  }

  function LoadedBy(ref: nat, id: string, row: StoredRow, since: nat, until: nat): Loaded {
    Loaded(ref, id, row.digest, if row.tokenDigest.Some? then row.tokenDigest.value else "", since, until)
  }

  function ActorFor(ref: nat, id: string, x: Exchange, wall: int, expires: int, version: Option<nat>,
                    moment: nat): Actor {
    Actor(ref, id, x.evidence.userId, x.authenticatedAt, x.identity, wall, expires, version, moment)
  }

  /** The stretch after a fresh renewal. Every one begins with the ownership check.
      `ref` names the session object a load constructs; `expires` is what the
      session object of a publication or an actor holds by now. */
  function OnAdvance(c: Client, t: nat, now: int, wall: int, ref: nat, expires: Option<int>): Client {
    if t !in c.tasks || !c.tasks[t].wait.Renewing? || c.tasks[t].wait.renewal !in c.settled then c
    else
      var stage := c.tasks[t].stage;
      if !Owned(c.entry, now) then Abort(c, t, stage)
      else
        match stage
        case Exchanging =>
          var sent := SentExchange(c.entry.snapshot.observed, wall, c.entry.onlineVersions, |c.past.trace|,
                                   |c.past.log|);
          Put(Send(c, now, ExchangeToken), t, Elsewhere, AwaitingToken(sent))
        case Loading(Preparing, id, original, since, _) =>
          Put(c, t, Elsewhere, Loading(Waiting, id, original, since, None))
        case Loading(Finishing, id, original, since, Some(row)) =>
          var completed := CompleteLoad(c.entry, id, row, original, since);
          if completed.None? || !Unused(c, ref) then Done(c, t)
          else
            Done(c, t).(entry := completed.value.0,
                        records := c.records[ref := completed.value.1],
                        past := c.past.(loads := c.past.loads + [LoadedBy(ref, id, row, since, |c.past.trace|)]))
        case Publishing(Preparing, session, p) =>
          Put(Send(c, now, Publish(p, c.entry.lease, p.origin.observed)), t, Elsewhere, Publishing(Waiting, session, p))
        case Publishing(_, session, p) =>
          if expires.None? then Abort(c, t, stage)
          else
            EndOnline(Done(c, t).(records := c.records[session := PublishedRecord(p, expires.value, |c.past.trace|)]),
                      p.id, true)
        case Deleting(Preparing, id, target) =>
          Put(Send(c, now, DeleteOnline(id, target.digest, c.entry.lease, target.observed)), t, Elsewhere,
              Deleting(Waiting, id, target))
        case Deleting(_, id, _) => EndOnline(Done(c, t), id, true)
        case Minting(Preparing, session, id, version, x) =>
          Put(c, t, Elsewhere, Minting(Waiting, session, id, version, x))
        case Minting(_, session, id, version, x) =>
          if || c.entry.onlineMutationInFlight
             || version != Get(c.entry.onlineVersions, id)
             || expires.None? || expires.value <= wall
             || !FreshActor(x.authenticatedAt, wall)
          then Done(c, t)
          else
            var actor := ActorFor(session, id, x, wall, expires.value, version, |c.past.trace|);
            Done(c, t).(past := c.past.(actors := c.past.actors + [actor]))
        case _ => Done(c, t)
  }

  /** The stretch after any other reply. */
  function OnReceive(c: Client, t: nat, now: int, reply: Reply): Client {
    if t !in c.tasks || !c.tasks[t].wait.Elsewhere? then c
    else
      var stage := c.tasks[t].stage;
      match stage
      case AwaitingToken(sent) =>
        if !Owned(c.entry, now) then Abort(c, t, stage)
        else if reply.Plain? then Done(c, t)
        else if !reply.Identified? then Abort(c, t, stage)
        else
          var recorded := ReceiveIdentity(c.entry, sent, reply.identity, |c.past.grants|);
          if recorded.None? then Abort(c, t, stage)
          else
            Done(c, t).(entry := recorded.value,
                        past := c.past.(grants := c.past.grants + [GrantOf(sent, reply.identity)]))
      case Loading(Waiting, id, original, since, _) =>
        if reply.Row? && AcceptsRow(c.entry, reply.row, reply.wall)
        then AwaitRenewal(c, t, now, Loading(Finishing, id, original, since, Some(reply.row)))
        else Done(c, t)
      case Publishing(Waiting, ref, p) =>
        if reply.Confirmed? then AwaitRenewal(c, t, now, Publishing(Finishing, ref, p)) else Abort(c, t, stage)
      case Deleting(Waiting, id, target) =>
        if reply.Confirmed? then AwaitRenewal(c, t, now, Deleting(Finishing, id, target)) else Abort(c, t, stage)
      case Minting(Waiting, ref, id, version, x) =>
        if reply.Confirmed? then AwaitRenewal(c, t, now, Minting(Finishing, ref, id, version, x)) else Done(c, t)
      case Scoping(ref, observed, based) =>
        if reply.Scopes? && Owned(c.entry, now) then Writing(c, t, now, ref, observed, based, reply.properties)
        else Done(c, t)
      case Committing(_, properties) => Acknowledging(c, t, properties, reply)
      case _ => c
  }

  function GrantOf(sent: SentExchange, reply: Identity): Grant
    requires reply.evidence.Some? && reply.lifetime.Some?
  {
    Grant(reply.tokenDigest, sent.original, reply.evidence.value, sent.requestedAt,
          sent.requestedAt + reply.lifetime.value * 1000, sent.since, sent.request)
  }

  function Acknowledging(c: Client, t: nat, properties: Option<Properties>, reply: Reply): Client {
    var fence := if reply.Fenced? then Some(reply.fence) else None;
    Done(c, t).(entry := Acknowledge(c.entry, properties, fence),
                past := c.past.(acknowledged := if Acknowledges(c, reply) then c.past.acknowledged + 1
                                                else c.past.acknowledged))
  }

  predicate Acknowledges(c: Client, reply: Reply) {
    reply.Fenced? && ValidAcknowledgement(c.entry, reply.fence)
  }

  /** runOperation's finally block after it has closed the context: the timer goes,
      then the renewal under way is awaited, then the lease is released. */
  function OnStopHeartbeat(c: Client): Client {
    if c.closed && c.drain.Running? then c.(drain := Draining(c.entry.renewal)) else c
  }

  function OnSendRelease(c: Client, now: int): Client {
    if c.drain.Draining? && (c.drain.renewal.None? || c.drain.renewal.value in c.settled)
    then Send(c, now, Release(c.entry.lease)).(drain := Released)
    else c
  }

  function Step(c: Client, a: Action): Client {
    match a
    case Heartbeat(now) => OnHeartbeat(c, now)
    case Settle(renewal, renewed) => OnSettle(c, renewal, renewed)
    case Join(t, now) => OnJoin(c, t, now)
    case Begin(t, now, call) => OnBegin(c, t, now, call)
    case Advance(t, now, wall, ref, expires) => OnAdvance(c, t, now, wall, ref, expires)
    case Receive(t, now, reply) => OnReceive(c, t, now, reply)
    case Close => c.(closed := true)
    case StopHeartbeat => OnStopHeartbeat(c)
    case SendRelease(now) => OnSendRelease(c, now)
  }

  function Run(c: Client, actions: seq<Action>): Client
    decreases |actions|
  {
    if actions == [] then c else Run(Step(c, actions[0]), actions[1..])
  }
}
