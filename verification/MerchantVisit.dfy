/** `withAuthenticatedMerchant`, from the verified browser token to the callback: the
    exchange, the identity checks, the publication and the mint, interleaved with
    whatever else runs on the client of the same operation. What the SDK hands back is
    the environment's choice. */
module MerchantVisit {
  import opened Wrappers
  import opened Contract
  import opened SessionEntry
  import opened SessionClient
  import opened ClientOnline
  import opened ClientRuns
  import opened ClientFence
  import M = MerchantAuthentication

  /** What the SDK has verified of the browser's bearer token. */
  datatype Claim = Claim(shop: string, userId: string)

  /** `Serving` is the callback, started with this actor; `Refused` is any throw. */
  datatype Progress =
    | Authenticating
    | Recognised(ref: nat, id: string)
    | Storing(ref: nat, id: string, task: nat)
    | Stored(ref: nat, id: string)
    | Asking(ref: nat, id: string, task: nat, shop: string)
    | Serving(actor: Actor)
    | Refused

  datatype Visit = Visit(claim: Claim, client: Client, progress: Progress)

  /** `Work` is any stretch on the client, the visit's own awaits included. */
  datatype Move =
    | Work(action: Action)
    | Authenticated(ref: nat, session: SessionView)
    | Save(task: nat, now: int, wall: int, session: SessionView)
    | Ask(task: nat, now: int, session: SessionView)

  function Arrive(claim: Claim, snapshot: Snapshot, lease: Lease, started: int): Visit {
    Visit(claim, Start(claim.shop, snapshot, lease, started), Authenticating)
  }

  function ClaimedId(claim: Claim): string {
    claim.shop + "_" + claim.userId
  }

  /** The session the exchange returned is online and of the verified shop and user. */
  predicate Matches(claim: Claim, session: SessionView) {
    && session.isOnline && session.shop == claim.shop && session.id == ClaimedId(claim)
    && session.evidence.Some? && Decimal(session.evidence.value.userId) == claim.userId
  }

  function OnAuthenticated(v: Visit, ref: nat, session: SessionView): Visit {
    if !v.progress.Authenticating? then v
    else if Matches(v.claim, session) then v.(progress := Recognised(ref, session.id))
    else v.(progress := Refused)
  }

  /** `await storage.storeSession(session)` */
  function OnSave(v: Visit, t: nat, now: int, wall: int, session: SessionView): Visit {
    if v.progress.Recognised? && session.id == v.progress.id && t !in v.client.tasks
    then
      var d := Step(v.client, Begin(t, now, Call.Store(v.progress.ref, session, wall)));
      v.(client := d, progress := if t in d.tasks then Storing(v.progress.ref, v.progress.id, t) else Refused)
    else v
  }

  /** `await storage.mintMerchantActor(session)` */
  function OnAsk(v: Visit, t: nat, now: int, session: SessionView): Visit {
    if v.progress.Stored? && session.id == v.progress.id && t !in v.client.tasks
    then
      var d := Step(v.client, Begin(t, now, Call.Mint(v.progress.ref, session)));
      v.(client := d, progress := if t in d.tasks then Asking(v.progress.ref, v.progress.id, t, session.shop)
                                  else Refused)
    else v
  }

  /** The publication by task `t` has left its record. */
  predicate Recorded(c: Client, d: Client, ref: nat, t: nat) {
    && t in c.tasks && c.tasks[t].stage.Publishing?
    && ref in d.records && d.records[ref].origin.version == Some(c.tasks[t].stage.publication.version)
  }

  /** The last comparison before the callback. */
  function Decided(claim: Claim, actor: Actor, shop: string): Progress {
    if shop == claim.shop && Decimal(actor.userId) == claim.userId then Serving(actor) else Refused
  }

  /** Where the visit stands when the client has gone from `c` to `d`. */
  function Resumed(claim: Claim, p: Progress, c: Client, d: Client): Progress {
    match p
    case Storing(ref, id, t) => if t in d.tasks then p else if Recorded(c, d, ref, t) then Stored(ref, id) else Refused
    case Asking(ref, id, t, shop) =>
      if t in d.tasks then p
      else if |d.past.actors| > |c.past.actors| then Decided(claim, d.past.actors[|d.past.actors| - 1], shop)
      else Refused
    case _ => p
  }

  function OnWork(v: Visit, a: Action): Visit {
    var d := Step(v.client, a);
    v.(client := d, progress := Resumed(v.claim, v.progress, v.client, d))
  }

  function Proceed(v: Visit, m: Move): Visit {
    match m
    case Work(a) => OnWork(v, a)
    case Authenticated(ref, session) => OnAuthenticated(v, ref, session)
    case Save(t, now, wall, session) => OnSave(v, t, now, wall, session)
    case Ask(t, now, session) => OnAsk(v, t, now, session)
  }

  function Visited(v: Visit, moves: seq<Move>): Visit
    decreases |moves|
  {
    if moves == [] then v else Visited(Proceed(v, moves[0]), moves[1..])
  }

  // ------------------------------------------------------------- the invariant

  /** Task `t` mints an actor from the session object `ref`. */
  predicate MintsFrom(c: Client, t: nat, ref: nat, id: string) {
    t in c.tasks && c.tasks[t].stage.Minting? && c.tasks[t].stage.ref == ref && c.tasks[t].stage.id == id
  }

  predicate ProgressOk(v: Visit) {
    match v.progress
    case Recognised(_, id) => id == ClaimedId(v.claim)
    case Storing(_, id, _) => id == ClaimedId(v.claim)
    case Stored(_, id) => id == ClaimedId(v.claim)
    case Asking(ref, id, t, _) => id == ClaimedId(v.claim) && MintsFrom(v.client, t, ref, id)
    case Serving(a) =>
      a in v.client.past.actors && a.id == ClaimedId(v.claim) && Decimal(a.userId) == v.claim.userId
    case _ => true
  }

  ghost predicate VisitOk(v: Visit) {
    Inv(v.client) && v.client.entry.shop == v.claim.shop && ProgressOk(v)
  }

  // ---------------------------------------------------- what one stretch can do

  /** Task `t` stays where it is, and so do the actors. */
  predicate Spares(c: Client, d: Client, t: nat) {
    c.past.actors <= d.past.actors && (t in c.tasks ==> t in d.tasks && d.tasks[t] == c.tasks[t])
  }

  lemma AbortSpares(c: Client, u: nat, stage: Stage, t: nat)
    requires u != t
    ensures Spares(c, Abort(c, u, stage), t)
  {
  }

  lemma AwaitSpares(c: Client, u: nat, now: int, stage: Stage, t: nat)
    requires u != t
    ensures Spares(c, Dispatching(c, u, now, stage), t) && Spares(c, AwaitRenewal(c, u, now, stage), t)
  {
    AbortSpares(c, u, stage, t);
    hide Abort;
  }

  lemma BeginSpares(c: Client, u: nat, now: int, call: Call, t: nat)
    requires u != t || t in c.tasks
    ensures Spares(c, OnBegin(c, u, now, call), t)
  {
    if u == t { return; }
    hide AwaitRenewal;
    match call {
      case Check => AwaitSpares(c, u, now, Checking, t);
      case Exchange => AwaitSpares(c, u, now, Exchanging, t);
      case Load(id) =>
        AwaitSpares(c, u, now, Loading(Preparing, id, Get(c.entry.onlineVersions, id), |c.past.trace|, None), t);
      case Store(ref, session, wall) =>
        var begun := BeginPublication(c.entry, ref, Get(c.records, ref), session, wall, |c.past.trace|,
                                      |c.past.grants|);
        if begun.Some? {
          var d := c.(entry := begun.value.0, past := c.past.(trace := c.past.trace + [Began(session.id)]));
          AwaitSpares(d, u, now, Publishing(Preparing, ref, begun.value.1), t);
        }
      case Delete(id) =>
        var begun := BeginDeletion(c.entry, id, |c.past.trace|);
        if begun.Some? {
          var d := c.(entry := begun.value.0, past := c.past.(trace := c.past.trace + [Began(id)]));
          AwaitSpares(d, u, now, Deleting(Preparing, id, begun.value.1), t);
        }
      case Mint(ref, session) =>
        var reservation := ReserveActor(c.entry, Get(c.records, ref), session);
        if reservation.Some? {
          var x := reservation.value.1;
          var d := c.(entry := reservation.value.0, past := c.past.(reserved := c.past.reserved + {x.identity}));
          AwaitSpares(d, u, now, Minting(Preparing, ref, session.id, c.records[ref].origin.version, x), t);
        }
      case _ =>
    }
  }

  lemma AdvanceSpares(c: Client, u: nat, now: int, wall: int, ref: nat, expires: Option<int>, t: nat)
    requires u != t
    ensures Spares(c, OnAdvance(c, u, now, wall, ref, expires), t)
  {
    hide Abort, FreshActor, ActorFor, PublishedRecord, Unused, CompleteLoad;
    if u in c.tasks {
      AbortSpares(c, u, c.tasks[u].stage, t);
      match c.tasks[u].stage {
        case Loading(Finishing, id, original, since, Some(row)) =>
        case Publishing(_, _, _) =>
        case _ =>
      }
    }
  }

  lemma ReceiveSpares(c: Client, u: nat, now: int, reply: Reply, t: nat)
    requires u != t
    ensures Spares(c, OnReceive(c, u, now, reply), t)
  {
    hide Abort, AwaitRenewal, Acknowledge, AcceptsRow, GrantOf, ReceiveIdentity;
    if u in c.tasks {
      AbortSpares(c, u, c.tasks[u].stage, t);
      match c.tasks[u].stage {
        case Loading(_, id, original, since, _) =>
          if reply.Row? { AwaitSpares(c, u, now, Loading(Finishing, id, original, since, Some(reply.row)), t); }
        case Publishing(_, ref, p) => AwaitSpares(c, u, now, Publishing(Finishing, ref, p), t);
        case Deleting(_, id, target) => AwaitSpares(c, u, now, Deleting(Finishing, id, target), t);
        case Minting(_, ref, id, version, x) => AwaitSpares(c, u, now, Minting(Finishing, ref, id, version, x), t);
        case _ =>
      }
    }
  }

  lemma RestSpares(c: Client, a: Action, t: nat)
    requires a.Heartbeat? || a.Settle? || a.Close? || a.StopHeartbeat? || a.SendRelease?
    ensures Spares(c, Step(c, a), t)
  {
    hide OnBegin, OnAdvance, OnReceive, OnJoin, SettleRenewal, Owned;
  }

  /** Which task an action belongs to, if any. */
  function TaskOf(a: Action): Option<nat> {
    match a
    case Join(t, _) => Some(t)
    case Begin(t, _, _) => Some(t)
    case Advance(t, _, _, _, _) => Some(t)
    case Receive(t, _, _) => Some(t)
    case _ => None
  }

  lemma StepSpares(c: Client, a: Action, t: nat)
    requires TaskOf(a) != Some(t) || (a.Begin? && t in c.tasks)
    ensures Spares(c, Step(c, a), t)
  {
    hide OnBegin, OnAdvance, OnReceive, OnHeartbeat, OnSettle, OnStopHeartbeat, OnSendRelease, Dispatching;
    match a {
      case Join(u, now) => if u in c.tasks { AwaitSpares(c, u, now, c.tasks[u].stage, t); }
      case Begin(u, now, call) => BeginSpares(c, u, now, call, t);
      case Advance(u, now, wall, ref, expires) => AdvanceSpares(c, u, now, wall, ref, expires, t);
      case Receive(u, now, reply) => ReceiveSpares(c, u, now, reply, t);
      case _ => RestSpares(c, a, t);
    }
  }

  /** A mint goes on, ends without an actor, or hands out its own: in the last case
      after a fresh renewal, by a client that owns its lease. */
  predicate MintMoves(c: Client, d: Client, a: Action, t: nat, ref: nat, id: string) {
    || (MintsFrom(d, t, ref, id) && c.past.actors <= d.past.actors)
    || (t !in d.tasks && d.past.actors == c.past.actors)
    || (t !in d.tasks && a.Advance? && Owned(c.entry, a.now) && |d.past.actors| == |c.past.actors| + 1
        && c.past.actors <= d.past.actors
        && d.past.actors[|c.past.actors|].ref == ref && d.past.actors[|c.past.actors|].id == id)
  }

  lemma StepMints(c: Client, a: Action, t: nat, ref: nat, id: string)
    requires MintsFrom(c, t, ref, id)
    ensures MintMoves(c, Step(c, a), a, t, ref, id)
  {
    if a.Begin? || TaskOf(a) != Some(t) {
      StepSpares(c, a, t);
      hide Step;
    } else {
      hide OnBegin, OnAdvance, OnReceive, OnJoin;
      match a {
        case Join(_, now) => JoinMints(c, a, t, ref, id);
        case Advance(_, now, wall, unused, expires) => AdvanceMints(c, a, t, ref, id);
        case Receive(_, now, reply) => ReceiveMints(c, a, t, ref, id);
      }
    }
  }

  lemma JoinMints(c: Client, a: Action, t: nat, ref: nat, id: string)
    requires MintsFrom(c, t, ref, id) && a.Join? && a.task == t
    ensures MintMoves(c, OnJoin(c, t, a.now), a, t, ref, id)
  {
  }

  lemma AdvanceMints(c: Client, a: Action, t: nat, ref: nat, id: string)
    requires MintsFrom(c, t, ref, id) && a.Advance? && a.task == t
    ensures MintMoves(c, OnAdvance(c, t, a.now, a.wall, a.ref, a.expires), a, t, ref, id)
  {
    hide FreshActor;
  }

  lemma ReceiveMints(c: Client, a: Action, t: nat, ref: nat, id: string)
    requires MintsFrom(c, t, ref, id) && a.Receive? && a.task == t
    ensures MintMoves(c, OnReceive(c, t, a.now, a.reply), a, t, ref, id)
  {
  }

  lemma ActorsStay(c: Client, a: Action)
    ensures c.past.actors <= Step(c, a).past.actors
  {
    var t: nat := if TaskOf(a).Some? then TaskOf(a).value + 1 else 0;
    StepSpares(c, a, t);
    hide Step;
  }

  lemma ShopStays(c: Client, a: Action)
    ensures Step(c, a).entry.shop == c.entry.shop
  {
    StepMovesFence(c, a);
    hide Step;
  }

  // ------------------------------------------------------------ every move keeps it

  lemma ServingStays(v: Visit, a: Action)
    requires ProgressOk(v) && v.progress.Serving?
    ensures ProgressOk(OnWork(v, a))
  {
    ActorsStay(v.client, a);
    hide Step, Recorded;
    var i :| 0 <= i < |v.client.past.actors| && v.client.past.actors[i] == v.progress.actor;
    assert Step(v.client, a).past.actors[i] == v.progress.actor;
  }

  lemma AskingStays(v: Visit, a: Action)
    requires ProgressOk(v) && v.progress.Asking?
    ensures ProgressOk(OnWork(v, a))
  {
    StepMints(v.client, a, v.progress.task, v.progress.ref, v.progress.id);
    hide Step;
  }

  lemma WorkKeepsProgress(v: Visit, a: Action)
    requires ProgressOk(v)
    ensures ProgressOk(OnWork(v, a))
  {
    match v.progress {
      case Asking(_, _, _, _) => AskingStays(v, a);
      case Serving(_) => ServingStays(v, a);
      case _ =>
    }
    hide Step, MintsFrom, Recorded;
  }

  lemma WorkKeeps(v: Visit, a: Action)
    requires VisitOk(v)
    ensures VisitOk(OnWork(v, a))
  {
    StepKeeps(v.client, a);
    ShopStays(v.client, a);
    WorkKeepsProgress(v, a);
    hide Step, Inv, ProgressOk, Resumed;
  }

  /** A mint that has begun waits for a renewal. */
  lemma MintBegins(c: Client, t: nat, now: int, ref: nat, session: SessionView)
    requires t !in c.tasks
    ensures
      var d := OnBegin(c, t, now, Call.Mint(ref, session));
      t in d.tasks ==> MintsFrom(d, t, ref, session.id)
  {
  }

  lemma AskKeeps(v: Visit, t: nat, now: int, session: SessionView)
    requires VisitOk(v)
    ensures VisitOk(OnAsk(v, t, now, session))
  {
    var a := Begin(t, now, Call.Mint(if v.progress.Stored? then v.progress.ref else 0, session));
    StepKeeps(v.client, a);
    ShopStays(v.client, a);
    if t !in v.client.tasks { MintBegins(v.client, t, now, a.call.ref, session); }
    hide OnBegin, Inv, MintsFrom;
  }

  lemma SaveKeeps(v: Visit, t: nat, now: int, wall: int, session: SessionView)
    requires VisitOk(v)
    ensures VisitOk(OnSave(v, t, now, wall, session))
  {
    var a := Begin(t, now, Call.Store(if v.progress.Recognised? then v.progress.ref else 0, session, wall));
    StepKeeps(v.client, a);
    ShopStays(v.client, a);
    hide Step, Inv;
  }

  lemma {:induction false} VisitKeeps(v: Visit, moves: seq<Move>)
    requires VisitOk(v)
    ensures VisitOk(Visited(v, moves)) && Visited(v, moves).claim == v.claim
    decreases |moves|
  {
    hide VisitOk, OnWork, OnSave, OnAsk;
    if moves != [] {
      MoveKeeps(v, moves[0]);
      VisitKeeps(Proceed(v, moves[0]), moves[1..]);
    }
  }

  lemma MoveKeeps(v: Visit, m: Move)
    requires VisitOk(v)
    ensures VisitOk(Proceed(v, m)) && Proceed(v, m).claim == v.claim
  {
    match m {
      case Work(a) => WorkKeeps(v, a);
      case Authenticated(ref, session) => hide Inv;
      case Save(t, now, wall, session) => SaveKeeps(v, t, now, wall, session);
      case Ask(t, now, session) => AskKeeps(v, t, now, session);
    }
    hide Step, Inv;
  }

  // -------------------------------------------------------------- what it promises

  /** The grant of an actor: a token request of this operation, for this user. */
  predicate GrantsActor(past: Past, g: Grant, claim: Claim, a: Actor) {
    && Decimal(g.evidence.userId) == claim.userId && g.evidence.userId == a.userId
    && g.requestedAt == a.authenticatedAt
    && g.request < |past.log| && past.log[g.request].request.ExchangeToken?
    && Published(past.log, a.ref, a.id, g.digest, a.version, g.evidence)
  }

  /** Exactly one actor of the operation used up this actor's exchange. */
  predicate Sole(past: Past, a: Actor) {
    exists i :: 0 <= i < |past.actors| && past.actors[i] == a
             && forall j :: 0 <= j < |past.actors| && past.actors[j].identity == a.identity ==> j == i
  }

  predicate Vouched(past: Past, claim: Claim, a: Actor) {
    && a.id == claim.shop + "_" + claim.userId == OnlineId(claim.shop, a.userId)
    && a.authenticatedAt <= a.issuedAt < a.authenticatedAt + ACTOR_MAX_AGE_MS && a.issuedAt < a.expires
    && a.identity < |past.grants| && GrantsActor(past, past.grants[a.identity], claim, a)
    && Sole(past, a)
  }

  /** The callback only ever runs with an actor for the verified shop and user. The client
      of this very operation minted it, from an exchange that it sent itself, that named
      this user and that backs no other actor; it was fresh, and its session, under the
      identifier of this shop and user, had been published with the token exchanged and as
      that user's. */
  lemma CallbackHasVerifiedActor(claim: Claim, snapshot: Snapshot, lease: Lease, started: int, moves: seq<Move>)
    requires Visited(Arrive(claim, snapshot, lease, started), moves).progress.Serving?
    ensures
      var v := Visited(Arrive(claim, snapshot, lease, started), moves);
      v.client.entry.shop == claim.shop && Vouched(v.client.past, claim, v.progress.actor)
  {
    var v := Arrive(claim, snapshot, lease, started);
    StartKeeps(claim.shop, snapshot, lease, started);
    VisitKeeps(v, moves);
    ServingIsVouched(Visited(v, moves));
    hide Visited, Inv, Vouched, ProgressOk, Start;
  }

  predicate Distinct(actors: seq<Actor>) {
    forall i, j :: 0 <= i < j < |actors| ==> actors[i].identity != actors[j].identity
  }

  lemma ServingIsVouched(v: Visit)
    requires VisitOk(v) && v.progress.Serving?
    ensures Vouched(v.client.past, v.claim, v.progress.actor)
  {
    MemberIsVouched(v.client, v.claim, v.progress.actor);
    hide Inv, Vouched;
  }

  lemma MemberIsVouched(c: Client, claim: Claim, a: Actor)
    requires Inv(c) && a in c.past.actors && a.id == ClaimedId(claim) && Decimal(a.userId) == claim.userId
    ensures Vouched(c.past, claim, a)
  {
    var i: nat :| i < |c.past.actors| && c.past.actors[i] == a;
    ActorIsKept(c, i);
    ActorIsVouched(c.past, claim, i);
    hide Inv, Vouched, ActorOk, GrantOk, Distinct, Decimal;
  }

  lemma ActorIsKept(c: Client, i: nat)
    requires Inv(c) && i < |c.past.actors|
    ensures ActorOk(c.past, c.past.actors[i]) && GrantOk(c.past.log, c.past.grants[c.past.actors[i].identity])
    ensures Distinct(c.past.actors)
  {
    assert ActorOk(c.past, c.past.actors[i]);
    assert GrantOk(c.past.log, c.past.grants[c.past.actors[i].identity]);
  }

  lemma ActorIsVouched(past: Past, claim: Claim, i: nat)
    requires i < |past.actors| && ActorOk(past, past.actors[i])
    requires Distinct(past.actors)
    requires GrantOk(past.log, past.grants[past.actors[i].identity])
    requires past.actors[i].id == ClaimedId(claim) && Decimal(past.actors[i].userId) == claim.userId
    ensures Vouched(past, claim, past.actors[i])
  {
    var a := past.actors[i];
    assert forall j :: 0 <= j < |past.actors| && past.actors[j].identity == a.identity ==> j == i;
    hide Decimal;
  }

  /** The callback starts in the very stretch in which the client mints its actor, while
      that client owns its lease. */
  lemma CallbackStartsOwned(claim: Claim, snapshot: Snapshot, lease: Lease, started: int, moves: seq<Move>, m: Move)
    requires
      var v := Visited(Arrive(claim, snapshot, lease, started), moves);
      !v.progress.Serving? && Proceed(v, m).progress.Serving?
    ensures
      var v := Visited(Arrive(claim, snapshot, lease, started), moves);
      var u := Proceed(v, m);
      && m.Work? && m.action.Advance? && Owned(v.client.entry, m.action.now)
      && u.client.past.actors == v.client.past.actors + [u.progress.actor]
  {
    var v := Arrive(claim, snapshot, lease, started);
    StartKeeps(claim.shop, snapshot, lease, started);
    VisitKeeps(v, moves);
    StartsOwned(Visited(v, moves), m);
    hide Visited, Inv, Proceed;
  }

  lemma StartsOwned(v: Visit, m: Move)
    requires ProgressOk(v) && !v.progress.Serving? && Proceed(v, m).progress.Serving?
    ensures m.Work? && m.action.Advance? && Owned(v.client.entry, m.action.now)
    ensures Proceed(v, m).client.past.actors == v.client.past.actors + [Proceed(v, m).progress.actor]
  {
    if m.Work? && v.progress.Asking? { StepMints(v.client, m.action, v.progress.task, v.progress.ref, v.progress.id); }
    hide Step, Owned, MintsFrom, Recorded;
  }

  // ------------------------------------------------------------- and it can succeed

  ghost predicate Reaches(v: Visit, u: Visit) {
    exists moves :: Visited(v, moves) == u
  }

  lemma {:induction false} VisitedThen(v: Visit, moves: seq<Move>, m: Move)
    ensures Visited(v, moves + [m]) == Proceed(Visited(v, moves), m)
    decreases |moves|
  {
    hide Proceed;
    if moves == [] {
      assert [] + [m] == [m] && [m][1..] == [];
    } else {
      assert (moves + [m])[1..] == moves[1..] + [m];
      VisitedThen(Proceed(v, moves[0]), moves[1..], m);
    }
  }

  lemma ReachesSelf(v: Visit)
    ensures Reaches(v, v)
  {
    assert Visited(v, []) == v;
  }

  lemma ReachesThen(v: Visit, u: Visit, m: Move)
    requires Reaches(v, u)
    ensures Reaches(v, Proceed(u, m))
  {
    hide Proceed;
    var moves :| Visited(v, moves) == u;
    VisitedThen(v, moves, m);
  }

  /** None of these stretches ends an await of the visit. */
  predicate Quiet(u: Visit, actions: seq<Action>) {
    match u.progress
    case Storing(_, _, t) => M.Busy(u.client, actions, t)
    case Asking(_, _, t, _) => M.Busy(u.client, actions, t)
    case _ => true
  }

  lemma QuietStep(u: Visit, actions: seq<Action>)
    requires actions != [] && Quiet(u, actions)
    ensures
      var next := Proceed(u, Work(actions[0]));
      next == u.(client := Step(u.client, actions[0])) && Quiet(next, actions[1..])
  {
    hide Step, Recorded;
    match u.progress {
      case Storing(_, _, t) => assert M.Busy(Step(u.client, actions[0]), actions[1..], t);
      case Asking(_, _, t, _) => assert M.Busy(Step(u.client, actions[0]), actions[1..], t);
      case _ =>
    }
  }

  lemma {:induction false} ReachesWork(v: Visit, u: Visit, actions: seq<Action>)
    requires Reaches(v, u) && Quiet(u, actions)
    ensures Reaches(v, u.(client := Run(u.client, actions)))
    decreases |actions|
  {
    hide Step, Reaches;
    if actions == [] {
      assert u.(client := Run(u.client, actions)) == u;
    } else {
      QuietStep(u, actions);
      ReachesThen(v, u, Work(actions[0]));
      ReachesWork(v, u.(client := Step(u.client, actions[0])), actions[1..]);
    }
  }

  /** The visit can succeed: with prompt and positive replies, the callback starts with an
      actor for the user that the provider authenticated. */
  lemma UndisturbedVisitServes(shop: string, snapshot: Snapshot, lease: Lease, now: int, i: M.SignIn, wall: int)
    requires M.Plausible(snapshot, i, wall)
    ensures
      exists u, moment ::
        && Reaches(Arrive(Claim(shop, Decimal(i.evidence.userId)), snapshot, lease, now), u)
        && u.progress
           == Serving(Actor(0, OnlineId(shop, i.evidence.userId), i.evidence.userId, wall, 0, wall, i.expires,
                                       Some(0), moment))
  {
    hide Reaches, Run, Step, Proceed, M.Recognised, M.SignedIn, M.Plausible, Decimal;
    var v := Arrive(Claim(shop, Decimal(i.evidence.userId)), snapshot, lease, now);
    ReachesSelf(v);
    var exchange := M.Asking(v.client, now, wall) + [Receive(0, now, Identified(M.Reply(i)))];
    ReachesWork(v, v, exchange);
    M.FirstExchange(shop, snapshot, lease, now, i, wall);
    var u := v.(client := Run(v.client, exchange));
    var session := M.SessionFor(i, shop);
    ReachesThen(v, u, Authenticated(0, session));
    var u1 := Proceed(u, Authenticated(0, session));
    SessionIsRecognised(u, i);
    var u2 := VisitStores(v, u1, now, snapshot, i, wall);
    VisitIsServed(v, u2, now, snapshot, i, wall);
  }

  lemma SessionIsRecognised(u: Visit, i: M.SignIn)
    requires u.progress.Authenticating? && u.claim.userId == Decimal(i.evidence.userId)
    ensures
      var session := M.SessionFor(i, u.claim.shop);
      Proceed(u, Authenticated(0, session)) == u.(progress := Recognised(0, session.id))
  {
    hide Decimal;
  }

  lemma VisitStores(v: Visit, u: Visit, now: int, snapshot: Snapshot, i: M.SignIn, wall: int) returns (w: Visit)
    requires Reaches(v, u) && M.Plausible(snapshot, i, wall) && M.Recognised(u.client, now, snapshot, i, wall)
    requires u.client.entry.shop == u.claim.shop
    requires u.progress == Recognised(0, M.SessionFor(i, u.claim.shop).id)
    ensures Reaches(v, w) && w.progress == Stored(0, M.SessionFor(i, u.claim.shop).id) && w.claim == u.claim
    ensures M.SignedIn(w.client, now, snapshot, i, wall, M.SessionFor(i, u.claim.shop).id)
  {
    var c := u.client;
    var session := M.SessionFor(i, u.claim.shop);
    var save := Save(0, now, wall, session);
    var work := M.SaveWork(|c.past.log|, now, wall);
    var last := Advance(0, now, wall, 0, Some(i.expires));
    M.PublicationBegins(c, now, snapshot, i, wall);
    M.SavesThrough(c, now, wall, 0, session, i.expires);
    M.FirstPublication(c, now, snapshot, i, wall);
    assert Proceed(u, save)
        == u.(client := Step(c, Begin(0, now, Call.Store(0, session, wall))), progress := Storing(0, session.id, 0));
    hide Step, Run, Reaches, M.Begins;
    ReachesThen(v, u, save);
    ReachesWork(v, Proceed(u, save), work);
    var busy := Proceed(u, save).(client := Run(Proceed(u, save).client, work));
    ReachesThen(v, busy, Work(last));
    w := Proceed(busy, Work(last));
  }

  lemma VisitIsServed(v: Visit, u: Visit, now: int, snapshot: Snapshot, i: M.SignIn, wall: int)
    requires Reaches(v, u) && M.Plausible(snapshot, i, wall) && u.claim.userId == Decimal(i.evidence.userId)
    requires u.progress == Stored(0, M.SessionFor(i, u.claim.shop).id)
    requires M.SignedIn(u.client, now, snapshot, i, wall, M.SessionFor(i, u.claim.shop).id)
    ensures
      exists w, moment ::
        && Reaches(v, w)
        && w.progress
           == Serving(Actor(0, OnlineId(u.claim.shop, i.evidence.userId), i.evidence.userId, wall, 0, wall, i.expires,
                                       Some(0), moment))
  {
    var c := u.client;
    var session := M.SessionFor(i, u.claim.shop);
    var ask := Ask(0, now, session);
    var work := M.MintWork(|c.past.log|, now, wall);
    var last := Advance(0, now, wall, 0, Some(i.expires));
    M.ActorIsReserved(c, now, snapshot, i, wall, session);
    M.MintsActor(c, now, wall, 0, session, i.expires);
    assert Proceed(u, ask) == u.(client := Step(c, Begin(0, now, Call.Mint(0, session))),
                                 progress := Asking(0, session.id, 0, session.shop));
    hide Step, Run, Reaches, M.Reserves;
    ReachesThen(v, u, ask);
    ReachesWork(v, Proceed(u, ask), work);
    var busy := Proceed(u, ask).(client := Run(Proceed(u, ask).client, work));
    ReachesThen(v, busy, Work(last));
    var w := Proceed(busy, Work(last));
    assert w.progress
        == Serving(Actor(0, session.id, i.evidence.userId, wall, 0, wall, i.expires, Some(0), |c.past.trace|));
  }
}
