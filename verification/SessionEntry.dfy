/** The per-shop entry of an operation. The functions on EntryState say what each
    uninterrupted stretch of the source does to the entry; the class Entry performs
    those stretches in place and is proved to do exactly that.

    An access token is represented by its SHA-256 digest. A JavaScript Symbol is
    the position of its event in the operation's trace, and a record object that
    the source mutates through a captured reference carries its identity. */
module SessionEntry {
  import opened Wrappers
  import opened Contract

  const LOCAL_OWNERSHIP_MS: int := 45_000
  const LATEST_DATE_MS: int := 8_640_000_000_000_000
  const ACTOR_MAX_AGE_MS: int := 60_000

  datatype Evidence = Evidence(
    userId: nat,
    accountOwner: bool,
    collaborator: bool,
    associatedUserScope: string)

  /** The row version a delayed deletion may remove. */
  datatype Target = Target(digest: string, observed: Observation)

  /** A successful online token exchange. `identity` numbers the exchanges of the
      operation and `since` is the trace position at which this one was sent. */
  datatype Exchange = Exchange(
    observed: Observation,
    evidence: Evidence,
    expiresAt: int,
    authenticatedAt: int,
    actorIssued: bool,
    version: Option<nat>,
    identity: nat,
    since: nat)

  /** What a publication rests on. `since` is the trace position the evidence dates
      from, `cached` says whether it began as a cached load, `ceiling` is the expiry
      of that first evidence and `stretched` whether a caller has since moved the
      session's own expiry past it. */
  datatype Origin = Origin(
    observed: Observation,
    evidence: Evidence,
    expiresAt: int,
    authenticatedAt: Option<int>,
    version: Option<nat>,
    since: nat,
    cached: bool,
    ceiling: int,
    stretched: bool)

  /** An element of the source's WeakMap of online observations, with the identifier of
      its session object, which never changes. */
  datatype Record = Record(id: string, origin: Origin, tokenDigest: string)

  /** The fields of an SDK session that are read in one stretch. */
  datatype SessionView = SessionView(
    id: string,
    shop: string,
    isOnline: bool,
    tokenDigest: Option<string>,
    expires: Option<int>,
    evidence: Option<Evidence>)

  /** A publication under way of the session object `ref`: `evidence` is what its session says of the user,
      `begunAt` the date at which it began, `version` its position in the trace and
      `granted` the number of exchanges that had succeeded by then. */
  datatype Publication = Publication(
    ref: nat,
    id: string,
    digest: string,
    evidence: Evidence,
    origin: Origin,
    expires: int,
    begunAt: int,
    version: nat,
    granted: nat,
    resaved: bool)

  /** What is captured before a token request leaves; `request` numbers that request. */
  datatype SentExchange = SentExchange(
    original: Observation,
    requestedAt: int,
    versions: map<string, nat>,
    since: nat,
    request: nat)

  /** An online identity response; a missing part is a malformed one. */
  datatype Identity = Identity(
    evidence: Option<Evidence>,
    tokenDigest: string,
    lifetime: Option<int>)

  /** A stored online row; `bound` is the check of its app, shop and payload binding. */
  datatype StoredRow = StoredRow(
    digest: string,
    bound: bool,
    generation: string,
    evidence: Option<Evidence>,
    tokenDigest: Option<string>,
    expires: Option<int>)

  datatype EntryState = EntryState(
    shop: string,
    snapshot: Snapshot,
    lease: Lease,
    lost: bool,
    localDeadline: int,
    renewal: Option<nat>,
    onlineVersions: map<string, nat>,
    onlineMutationInFlight: bool,
    onlineDeletes: map<string, Target>,
    onlineExchanges: map<string, Exchange>)

  function Min(a: int, b: int): int {
    if a <= b then a else b
  }

  function OnlineId(shop: string, userId: nat): string {
    shop + "_" + Decimal(userId)
  }

  /** The acknowledgement an acquisition needs. */
  predicate Admits(lease: Lease, token: string, observed: Observation) {
    && lease.token == token
    && lease.revision == observed.revision
    && NextCounter(observed.epoch) == Some(lease.epoch)
  }

  function NewEntry(shop: string, snapshot: Snapshot, lease: Lease, started: int): EntryState {
    EntryState(shop, snapshot, lease, false, started + LOCAL_OWNERSHIP_MS, None, map[], false, map[], map[])
  }

  predicate Owned(e: EntryState, now: int) {
    !e.lost && now < e.localDeadline
  }

  function Lose(e: EntryState): EntryState {
    e.(lost := true)
  }

  function StartRenewal(e: EntryState, id: nat): EntryState {
    e.(renewal := Some(id))
  }

  function SettleRenewal(e: EntryState, renewed: bool, started: int): EntryState {
    if renewed
    then e.(localDeadline := started + LOCAL_OWNERSHIP_MS, renewal := None)
    else e.(lost := true, renewal := None)
  }

  /** None is a throw, which poisons the entry. */
  function ReceiveIdentity(e: EntryState, sent: SentExchange, reply: Identity, identity: nat): Option<EntryState> {
    if reply.evidence.None? || reply.lifetime.None? then None
    else if !Present(sent.original.installationGeneration) || !Present(sent.original.credentialTokenHash) then None
    else if reply.lifetime.value <= 0 then None
    else
      var evidence := reply.evidence.value;
      var expiresAt := sent.requestedAt + reply.lifetime.value * 1000;
      var prior := Get(e.onlineExchanges, reply.tokenDigest);
      if expiresAt > LATEST_DATE_MS then None
      else if prior.Some? && (!SameObservation(prior.value.observed, sent.original) || prior.value.evidence != evidence)
           then None
      else
        Some(e.(onlineExchanges := e.onlineExchanges[reply.tokenDigest := Exchange(
                  sent.original,
                  evidence,
                  if prior.Some? then Min(expiresAt, prior.value.expiresAt) else expiresAt,
                  sent.requestedAt,
                  false,
                  Get(sent.versions, OnlineId(e.shop, evidence.userId)),
                  identity,
                  sent.since)]))
  }

  /** The cached record of this very token, or else the exchange that returned it. */
  function OriginOf(e: EntryState, record: Option<Record>, digest: string): Option<Origin> {
    if record.Some? && record.value.tokenDigest == digest then Some(record.value.origin)
    else if digest in e.onlineExchanges then
      var x := e.onlineExchanges[digest];
      Some(Origin(x.observed, x.evidence, x.expiresAt, Some(x.authenticatedAt), x.version, x.since, false, x.expiresAt,
                  false))
    else None
  }

  function BeginPublication(e: EntryState, ref: nat, record: Option<Record>, session: SessionView, wall: int,
                            version: nat, granted: nat)
    : (r: Option<(EntryState, Publication)>)
  {
    if session.tokenDigest.None? || session.expires.None? || session.evidence.None? then None
    else
      var digest := session.tokenDigest.value;
      var expires := session.expires.value;
      var origin := OriginOf(e, record, digest);
      var resaved := record.Some? && record.value.tokenDigest == digest;
      if origin.None? then None
      else if origin.value.version != Get(e.onlineVersions, session.id) then None
      else if origin.value.expiresAt <= wall || expires <= wall then None
      else if resaved && expires > origin.value.expiresAt then None
      else if !SameObservation(origin.value.observed, e.snapshot.observed) then None
      else if session.evidence.value != origin.value.evidence then None
      else if e.onlineMutationInFlight then None
      else
        Some((e.(onlineVersions := e.onlineVersions[session.id := version], onlineMutationInFlight := true),
              Publication(ref, session.id, digest, session.evidence.value, origin.value,
                          Min(expires, origin.value.expiresAt), wall, version, granted, resaved)))
  }

  /** The observation left behind by an acknowledged publication; `expires` is what
      the session object holds when the acknowledgement has been checked. */
  function PublishedRecord(p: Publication, expires: int, since: nat): Record {
    Record(p.id,
           p.origin.(expiresAt := expires, version := Some(p.version), since := since,
           stretched := p.origin.stretched || expires > p.expires),
           p.digest)
  }

  function BeginDeletion(e: EntryState, id: string, version: nat): Option<(EntryState, Target)> {
    if id !in e.onlineDeletes then None
    else if !SameObservation(e.onlineDeletes[id].observed, e.snapshot.observed) then None
    else if e.onlineMutationInFlight then None
    else
      Some((e.(onlineVersions := e.onlineVersions[id := version], onlineMutationInFlight := true),
            e.onlineDeletes[id]))
  }

  function EndMutation(e: EntryState, succeeded: bool): EntryState {
    e.(onlineMutationInFlight := false, lost := e.lost || !succeeded)
  }

  /** The checks made on a stored row before the second renewal of a cached load. */
  predicate AcceptsRow(e: EntryState, row: StoredRow, wall: int) {
    && IsHex64(row.digest)
    && row.bound
    && Some(row.generation) == e.snapshot.observed.installationGeneration
    && Present(e.snapshot.observed.credentialTokenHash)
    && row.expires.Some?
    && row.expires.value > wall
  }

  /** The end of a cached load; None is a cache miss. */
  function CompleteLoad(e: EntryState, id: string, row: StoredRow, original: Option<nat>, since: nat)
    : Option<(EntryState, Record)>
  {
    if row.evidence.None? || row.tokenDigest.None? || row.expires.None? then None
    else if e.onlineMutationInFlight || original != Get(e.onlineVersions, id) then None
    else
      var target := Target(row.digest, e.snapshot.observed);
      var deletes := if id in e.onlineDeletes then e.onlineDeletes else e.onlineDeletes[id := target];
      Some((e.(onlineDeletes := deletes),
            Record(id, Origin(e.snapshot.observed, row.evidence.value, row.expires.value, None,
                          Get(e.onlineVersions, id), since, true, row.expires.value, false),
                   row.tokenDigest.value)))
  }

  /** Reserves the exchange under which one actor may be minted. */
  function ReserveActor(e: EntryState, record: Option<Record>, session: SessionView)
    : (r: Option<(EntryState, Exchange)>)
  {
    if record.None? || record.value.origin.authenticatedAt.None? || record.value.origin.authenticatedAt.value == 0
    then None
    else if !session.isOnline || session.tokenDigest.None? then None
    else if session.tokenDigest.value !in e.onlineExchanges then None
    else
      var digest := session.tokenDigest.value;
      var x := e.onlineExchanges[digest];
      var origin := record.value.origin;
      if || x.actorIssued
         || Some(x.authenticatedAt) != origin.authenticatedAt
         || record.value.tokenDigest != digest
         || origin.version != Get(e.onlineVersions, session.id)
         || e.onlineMutationInFlight
         || !SameObservation(origin.observed, e.snapshot.observed)
      then None
      else Some((e.(onlineExchanges := e.onlineExchanges[digest := x.(actorIssued := true)]), x))
  }

  predicate FreshActor(authenticatedAt: int, wall: int) {
    authenticatedAt <= wall && wall - authenticatedAt < ACTOR_MAX_AGE_MS
  }

  predicate ValidAcknowledgement(e: EntryState, fence: Fence) {
    && fence.lease.token == e.lease.token
    && fence.lease.epoch == e.lease.epoch
    && Some(fence.lease.revision) == NextCounter(e.lease.revision)
    && fence.observed.revision == fence.lease.revision
    && fence.observed.epoch == fence.lease.epoch
    && IsHex64(fence.observed.sessionDigest)
  }

  /** A reply to an offline write or deletion. Anything but a valid acknowledgement
      is a loss of ownership. */
  function Acknowledge(e: EntryState, properties: Option<Properties>, fence: Option<Fence>): EntryState {
    if fence.Some? && ValidAcknowledgement(e, fence.value)
    then e.(lease := fence.value.lease, snapshot := Snapshot(fence.value.observed, properties))
    else Lose(e)
  }

  // ------------------------------------------------------------- the object

  class Entry {
    const shop: string
    var snapshot: Snapshot
    var lease: Lease
    var lost: bool
    var localDeadline: int
    var renewal: Option<nat>
    var onlineVersions: map<string, nat>
    var onlineMutationInFlight: bool
    var onlineDeletes: map<string, Target>
    var onlineExchanges: map<string, Exchange>

    ghost function State(): EntryState
      reads this
    {
      EntryState(shop, snapshot, lease, lost, localDeadline, renewal, onlineVersions,
                 onlineMutationInFlight, onlineDeletes, onlineExchanges)
    }

    constructor (shop: string, snapshot: Snapshot, lease: Lease, started: int)
      ensures State() == NewEntry(shop, snapshot, lease, started)
    {
      this.shop, this.snapshot, this.lease := shop, snapshot, lease;
      lost, localDeadline := false, started + LOCAL_OWNERSHIP_MS;
      renewal, onlineVersions, onlineMutationInFlight := None, map[], false;
      onlineDeletes, onlineExchanges := map[], map[];
    }

    method AssertOwned(now: int) returns (owned: bool)
      ensures owned == Owned(State(), now)
    {
      owned := !lost && now < localDeadline;
    }

    /** The stretch of `renew` from the ownership check to the dispatch. */
    method DispatchRenewal(now: int, id: nat) returns (dispatched: bool)
      modifies this`renewal
      ensures dispatched == Owned(old(State()), now)
      ensures State() == if dispatched then StartRenewal(old(State()), id) else old(State())
    {
      dispatched := AssertOwned(now);
      if dispatched { renewal := Some(id); }
    }

    method RenewalSettled(renewed: bool, started: int)
      modifies this`localDeadline, this`lost, this`renewal
      ensures State() == SettleRenewal(old(State()), renewed, started)
    {
      if renewed {
        localDeadline := started + LOCAL_OWNERSHIP_MS;
      } else {
        lost := true;
      }
      renewal := None;
    }

    /** The stretch of `tokenRequest` after the response body has been consumed. */
    method IdentityReceived(now: int, sent: SentExchange, reply: Identity, identity: nat) returns (accepted: bool)
      modifies this`onlineExchanges, this`lost
      ensures accepted == (Owned(old(State()), now) && ReceiveIdentity(old(State()), sent, reply, identity).Some?)
      ensures State() == if accepted then ReceiveIdentity(old(State()), sent, reply, identity).value
                         else Lose(old(State()))
    {
      accepted := AssertOwned(now);
      if accepted {
        accepted := RecordExchange(sent, reply, identity);
      }
      if !accepted { lost := true; }
    }

    method RecordExchange(sent: SentExchange, reply: Identity, identity: nat) returns (recorded: bool)
      modifies this`onlineExchanges
      ensures recorded == ReceiveIdentity(old(State()), sent, reply, identity).Some?
      ensures State() == if recorded then ReceiveIdentity(old(State()), sent, reply, identity).value else old(State())
    {
      if reply.evidence.None? || !Present(sent.original.installationGeneration)
         || !Present(sent.original.credentialTokenHash) {
        return false;
      }
      if reply.lifetime.None? || reply.lifetime.value <= 0 { return false; }
      var expiresAt := sent.requestedAt + reply.lifetime.value * 1000;
      if expiresAt > LATEST_DATE_MS { return false; }
      if reply.tokenDigest in onlineExchanges {
        var prior := onlineExchanges[reply.tokenDigest];
        if !SameObservation(prior.observed, sent.original) || prior.evidence != reply.evidence.value { return false; }
        expiresAt := Min(expiresAt, prior.expiresAt);
      }
      onlineExchanges := onlineExchanges[reply.tokenDigest := Exchange(
                           sent.original, reply.evidence.value, expiresAt, sent.requestedAt, false,
                           Get(sent.versions, OnlineId(shop, reply.evidence.value.userId)), identity, sent.since)];
      return true;
    }

    /** The stretch of `storeOnlineSession` up to its first renewal. */
    method PublicationBegun(ref: nat, record: Option<Record>, session: SessionView, wall: int, version: nat,
                            granted: nat)
      returns (publication: Option<Publication>)
      modifies this`onlineVersions, this`onlineMutationInFlight
      ensures
        var begun := BeginPublication(old(State()), ref, record, session, wall, version, granted);
        if begun.Some? then State() == begun.value.0 && publication == Some(begun.value.1)
        else State() == old(State()) && publication == None
    {
      if session.tokenDigest.None? { return None; }
      var digest := session.tokenDigest.value;
      var resaved := record.Some? && record.value.tokenDigest == digest;
      var origin: Origin;
      if resaved {
        origin := record.value.origin;
      } else if digest in onlineExchanges {
        var x := onlineExchanges[digest];
        origin := Origin(x.observed, x.evidence, x.expiresAt, Some(x.authenticatedAt), x.version, x.since, false,
                         x.expiresAt, false);
      } else {
        return None;
      }
      if origin.version != Get(onlineVersions, session.id) || session.expires.None? { return None; }
      var expires := session.expires.value;
      if origin.expiresAt <= wall || expires <= wall { return None; }
      if resaved && expires > origin.expiresAt { return None; }
      if !SameObservation(origin.observed, snapshot.observed) || session.evidence != Some(origin.evidence) {
        return None;
      }
      if onlineMutationInFlight { return None; }
      onlineVersions := onlineVersions[session.id := version];
      onlineMutationInFlight := true;
      return Some(Publication(ref, session.id, digest, session.evidence.value, origin, Min(expires, origin.expiresAt),
                              wall, version, granted, resaved));
    }

    /** The stretch of `deleteSessions` for one online id up to its first renewal. */
    method DeletionBegun(id: string, version: nat) returns (target: Option<Target>)
      modifies this`onlineVersions, this`onlineMutationInFlight
      ensures
        var begun := BeginDeletion(old(State()), id, version);
        if begun.Some? then State() == begun.value.0 && target == Some(begun.value.1)
        else State() == old(State()) && target == None
    {
      if id !in onlineDeletes || !SameObservation(onlineDeletes[id].observed, snapshot.observed)
         || onlineMutationInFlight {
        return None;
      }
      onlineVersions, onlineMutationInFlight := onlineVersions[id := version], true;
      return Some(onlineDeletes[id]);
    }

    /** The catch and finally blocks of a publication or an online deletion. */
    method MutationEnded(succeeded: bool)
      modifies this`onlineMutationInFlight, this`lost
      ensures State() == EndMutation(old(State()), succeeded)
    {
      if !succeeded { lost := true; }
      onlineMutationInFlight := false;
    }

    /** The last stretch of `loadOnlineSession`. */
    method LoadCompleted(id: string, row: StoredRow, original: Option<nat>, since: nat) returns (record: Option<Record>)
      modifies this`onlineDeletes
      ensures
        var completed := CompleteLoad(old(State()), id, row, original, since);
        if completed.Some? then State() == completed.value.0 && record == Some(completed.value.1)
        else State() == old(State()) && record == None
    {
      if row.evidence.None? || row.tokenDigest.None? || row.expires.None? { return None; }
      if onlineMutationInFlight || original != Get(onlineVersions, id) { return None; }
      if id !in onlineDeletes {
        onlineDeletes := onlineDeletes[id := Target(row.digest, snapshot.observed)];
      }
      return Some(Record(id, Origin(snapshot.observed, row.evidence.value, row.expires.value, None,
                                Get(onlineVersions, id), since, true, row.expires.value, false),
                         row.tokenDigest.value));
    }

    /** The stretch of `mintMerchantActor` up to its first renewal. */
    method ActorReserved(record: Option<Record>, session: SessionView) returns (exchange: Option<Exchange>)
      modifies this`onlineExchanges
      ensures
        var reserved := ReserveActor(old(State()), record, session);
        if reserved.Some? then State() == reserved.value.0 && exchange == Some(reserved.value.1)
        else State() == old(State()) && exchange == None
    {
      if record.None? || !session.isOnline || session.tokenDigest.None? { return None; }
      var origin := record.value.origin;
      if origin.authenticatedAt.None? || origin.authenticatedAt.value == 0 { return None; }
      var digest := session.tokenDigest.value;
      if digest !in onlineExchanges || record.value.tokenDigest != digest { return None; }
      var x := onlineExchanges[digest];
      if x.actorIssued || Some(x.authenticatedAt) != origin.authenticatedAt { return None; }
      if origin.version != Get(onlineVersions, session.id) || onlineMutationInFlight { return None; }
      if !SameObservation(origin.observed, snapshot.observed) { return None; }
      onlineExchanges := onlineExchanges[digest := x.(actorIssued := true)];
      return Some(x);
    }

    /** The stretch of `storeObserved` or of an offline deletion after its reply. */
    method Acknowledged(properties: Option<Properties>, fence: Option<Fence>) returns (valid: bool)
      modifies this`lease, this`snapshot, this`lost
      ensures valid == (fence.Some? && ValidAcknowledgement(old(State()), fence.value))
      ensures State() == Acknowledge(old(State()), properties, fence)
    {
      if fence.None? {
        lost := true;
        return false;
      }
      var f := fence.value;
      var next := NextCounter(lease.revision);
      valid := && f.lease.token == lease.token && f.lease.epoch == lease.epoch
               && next == Some(f.lease.revision)
               && f.observed.revision == f.lease.revision && f.observed.epoch == f.lease.epoch
               && IsHex64(f.observed.sessionDigest);
      if valid {
        lease := f.lease;
        snapshot := Snapshot(f.observed, properties);
      } else {
        lost := true;
      }
    }
  }
}
