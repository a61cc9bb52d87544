/** What every run of a client keeps about its online sessions: their publications and
    deletions never overlap, and every record, request, cached load and actor is tied
    to the place in the trace it dates from. */
module ClientOnline {
  import opened Wrappers
  import opened Contract
  import opened SessionEntry
  import opened SessionClient

  // ---------------------------------------------------------- reading the trace

  /** Where the last mutation of `id` began. */
  function LastBegan(trace: seq<Event>, id: string): Option<nat> {
    if trace == [] then None
    else if trace[|trace| - 1] == Began(id) then Some(|trace| - 1)
    else LastBegan(trace[..|trace| - 1], id)
  }

  lemma LastBeganAfter(trace: seq<Event>, e: Event, id: string)
    ensures LastBegan(trace + [e], id) == if e == Began(id) then Some(|trace|) else LastBegan(trace, id)
  {
    assert (trace + [e])[..|trace|] == trace;
  }

  lemma {:induction false} LastBeganIsLast(trace: seq<Event>, id: string)
    ensures
      match LastBegan(trace, id)
      case Some(v) => v < |trace| && trace[v] == Began(id) && forall j :: v < j < |trace| ==> trace[j] != Began(id)
      case None => forall j :: 0 <= j < |trace| ==> trace[j] != Began(id)
  {
    if trace != [] && trace[|trace| - 1] != Began(id) {
      LastBeganIsLast(trace[..|trace| - 1], id);
    }
  }

  /** A mutation of `id` is under way at position `p`. */
  ghost predicate InFlight(trace: seq<Event>, id: string, p: nat)
    requires p <= |trace|
  {
    exists i :: 0 <= i < p && trace[i] == Began(id) && forall j :: i < j < p ==> trace[j] != Ended(id)
  }

  /** The load that first returned a session `id` in this operation. */
  function FirstLoad(loads: seq<Loaded>, id: string): Option<Loaded> {
    if loads == [] then None
    else if loads[0].id == id then Some(loads[0])
    else FirstLoad(loads[1..], id)
  }

  lemma {:induction false} FirstLoadAfter(loads: seq<Loaded>, l: Loaded, id: string)
    ensures FirstLoad(loads + [l], id)
         == if FirstLoad(loads, id).Some? then FirstLoad(loads, id) else if l.id == id then Some(l) else None
  {
    if loads != [] {
      assert (loads + [l])[1..] == loads[1..] + [l];
      if loads[0].id != id { FirstLoadAfter(loads[1..], l, id); }
    } else {
      assert [l][1..] == [];
    }
  }

  // -------------------------------------------------------------- the invariant

  /** A version is a trace position, always before the evidence it comes with. */
  predicate Bounded(version: Option<nat>, since: nat) {
    version.Some? ==> version.value < since
  }

  predicate OriginOk(p: Past, o: Origin) {
    && Bounded(o.version, o.since) && o.since <= |p.trace|
    && (!o.stretched ==> o.expiresAt <= o.ceiling)
    && (o.cached ==> o.authenticatedAt.None?)
  }

  /** No exchange that had returned this token by then bounds it more tightly. */
  predicate Clamped(p: Past, digest: string, granted: nat, expires: int) {
    && granted <= |p.grants|
    && forall g :: 0 <= g < granted && p.grants[g].digest == digest ==> expires <= p.grants[g].expiresAt
  }

  /** Some exchange returned this token and named this user. */
  predicate Witnessed(grants: seq<Grant>, digest: string, evidence: Evidence) {
    exists g :: 0 <= g < |grants| && grants[g].digest == digest && grants[g].evidence == evidence
  }

  /** Some exchange had returned this token by then, and each that had named this user. */
  predicate NamedBy(p: Past, digest: string, granted: nat, evidence: Evidence) {
    && granted <= |p.grants|
    && (forall g :: 0 <= g < granted && p.grants[g].digest == digest ==> p.grants[g].evidence == evidence)
    && (exists g :: 0 <= g < granted && p.grants[g].digest == digest)
  }

  /** Every exchange that returned this token named the same user in the same way, and was
      made from the same version of the installation. */
  predicate Agreed(grants: seq<Grant>, digest: string, observed: Observation, evidence: Evidence) {
    forall g :: 0 <= g < |grants| && grants[g].digest == digest ==>
      grants[g].evidence == evidence && SameObservation(grants[g].observed, observed)
  }

  predicate Attained(grants: seq<Grant>, digest: string, expires: int) {
    exists g :: 0 <= g < |grants| && grants[g].digest == digest && grants[g].expiresAt == expires
  }

  /** Request `request` was a token request, and left at this trace position. */
  predicate Asked(log: seq<Dispatch>, request: nat, moment: nat) {
    request < |log| && log[request].request.ExchangeToken? && log[request].moment == moment
  }

  /** One of the first exchanges returned this token, and was asked for at `since`. */
  predicate ExchangedSince(p: Past, digest: string, granted: nat, since: nat) {
    && granted <= |p.grants|
    && exists g :: 0 <= g < granted && p.grants[g].digest == digest && p.grants[g].since == since
  }

  /** The session object `ref` was published under this identifier and token at `version`,
      saying this of its user. */
  predicate Publishes(d: Dispatch, ref: nat, id: string, digest: string, version: Option<nat>, evidence: Evidence) {
    && d.request.Publish?
    && d.request.publication.ref == ref && d.request.publication.id == id && d.request.publication.digest == digest
    && Some(d.request.publication.version) == version && d.request.publication.evidence == evidence
  }

  predicate Published(log: seq<Dispatch>, ref: nat, id: string, digest: string, version: Option<nat>,
                      evidence: Evidence) {
    exists k :: 0 <= k < |log| && Publishes(log[k], ref, id, digest, version, evidence)
  }

  /** The session object `ref` was loaded from the cache with this identifier and token, by
      a load that began at `since`. */
  predicate LoadedSince(loads: seq<Loaded>, ref: nat, id: string, digest: string, since: nat) {
    exists l :: && 0 <= l < |loads| && loads[l].ref == ref && loads[l].id == id && loads[l].token == digest
                && loads[l].since == since
  }

  /** What is recorded for a session object dates from its own last publication, or from
      the cached load that constructed it. */
  predicate Dated(p: Past, ref: nat, id: string, digest: string, o: Origin) {
    || (o.version.Some? && o.since == o.version.value + 1 && Published(p.log, ref, id, digest, o.version, o.evidence))
    || LoadedSince(p.loads, ref, id, digest, o.since)
  }

  /** What a publication rests on is in order, and so are its expiry and its evidence. */
  predicate Sourced(p: Past, pub: Publication) {
    && OriginOk(p, pub.origin)
    && (if pub.resaved then Dated(p, pub.ref, pub.id, pub.digest, pub.origin)
        else ExchangedSince(p, pub.digest, pub.granted, pub.origin.since))
    && pub.begunAt < pub.expires <= pub.origin.expiresAt
    && pub.evidence == pub.origin.evidence
    && (pub.origin.authenticatedAt.Some? ==> Witnessed(p.grants, pub.digest, pub.evidence))
    && (!pub.resaved ==>
          && !pub.origin.stretched && !pub.origin.cached
          && Clamped(p, pub.digest, pub.granted, pub.origin.expiresAt)
          && NamedBy(p, pub.digest, pub.granted, pub.origin.evidence))
  }

  /** Nothing of its id has begun between its origin and itself. */
  predicate Placed(trace: seq<Event>, pub: Publication) {
    && pub.origin.since <= pub.version < |trace|
    && trace[pub.version] == Began(pub.id)
    && (forall j :: pub.origin.since <= j < pub.version ==> trace[j] != Began(pub.id))
  }

  predicate PublicationOk(p: Past, pub: Publication) {
    Sourced(p, pub) && Placed(p.trace, pub)
  }

  predicate RecordOk(p: Past, ref: nat, r: Record) {
    && OriginOk(p, r.origin) && Dated(p, ref, r.id, r.tokenDigest, r.origin)
    && (r.origin.authenticatedAt.Some? ==>
          && Published(p.log, ref, r.id, r.tokenDigest, r.origin.version, r.origin.evidence)
          && Witnessed(p.grants, r.tokenDigest, r.origin.evidence))
  }

  /** `identity` numbers an exchange with these answers that has been used up. */
  predicate Spent(p: Past, identity: nat, userId: nat, authenticatedAt: int) {
    && identity in p.reserved && identity < |p.grants|
    && p.grants[identity].evidence.userId == userId && p.grants[identity].requestedAt == authenticatedAt
  }

  /** The session object of an actor is one this operation published with the token of its
      exchange, and what was published says of the user what that exchange said. */
  predicate Backed(p: Past, identity: nat, ref: nat, id: string, version: Option<nat>)
    requires identity < |p.grants|
  {
    && version.Some? && version.value < |p.trace| && p.trace[version.value] == Began(id)
    && Published(p.log, ref, id, p.grants[identity].digest, version, p.grants[identity].evidence)
  }

  predicate GrantOk(log: seq<Dispatch>, g: Grant) {
    Asked(log, g.request, g.since)
  }

  predicate StageOk(p: Past, s: Stage) {
    match s
    case AwaitingToken(sent) =>
      && sent.since <= |p.trace| && Asked(p.log, sent.request, sent.since)
      && forall id :: id in sent.versions ==> sent.versions[id] < sent.since
    case Loading(_, _, original, since, _) => Bounded(original, since) && since <= |p.trace| && since % 2 == 0
    case Publishing(phase, ref, pub) =>
      && PublicationOk(p, pub) && pub.ref == ref
      && (phase.Preparing? || Published(p.log, ref, pub.id, pub.digest, Some(pub.version), pub.evidence))
    case Deleting(_, id, target) => FirstLoad(p.loads, id).Some? && FirstLoad(p.loads, id).value.digest == target.digest
    case Minting(_, ref, id, version, x) =>
      Spent(p, x.identity, x.evidence.userId, x.authenticatedAt) && Backed(p, x.identity, ref, id, version)
    case _ => true
  }

  predicate DispatchOk(p: Past, d: Dispatch) {
    && d.moment <= |p.trace|
    && (d.request.Publish? ==> PublicationOk(p, d.request.publication) && d.moment == d.request.publication.version + 1)
    && (d.request.DeleteOnline? ==>
          FirstLoad(p.loads, d.request.id).Some? && FirstLoad(p.loads, d.request.id).value.digest == d.request.digest)
  }

  predicate LoadOk(p: Past, l: Loaded) {
    && l.since <= l.until <= |p.trace| && l.since % 2 == 0 && l.until % 2 == 0
    && forall j :: l.since <= j < l.until ==> p.trace[j] != Began(l.id)
  }

  predicate ActorOk(p: Past, a: Actor) {
    && Spent(p, a.identity, a.userId, a.authenticatedAt)
    && Backed(p, a.identity, a.ref, a.id, a.version)
    && FreshActor(a.authenticatedAt, a.issuedAt) && a.issuedAt < a.expires
    && a.version.value < a.moment <= |p.trace| && a.moment % 2 == 0
    && forall j :: a.version.value < j < a.moment ==> p.trace[j] != Began(a.id)
  }

  predicate ExchangeOk(p: Past, digest: string, x: Exchange) {
    && x.identity < |p.grants|
    && p.grants[x.identity].digest == digest
    && p.grants[x.identity].evidence == x.evidence
    && p.grants[x.identity].requestedAt == x.authenticatedAt
    && p.grants[x.identity].since == x.since
    && Bounded(x.version, x.since) && x.since <= |p.trace|
    && Clamped(p, digest, |p.grants|, x.expiresAt) && Attained(p.grants, digest, x.expiresAt)
    && Agreed(p.grants, digest, x.observed, x.evidence)
    && (x.actorIssued <==> x.identity in p.reserved)
  }

  /** Mutations take turns, and the versions map is the last beginnings. */
  ghost predicate TraceOk(trace: seq<Event>, mutating: bool, versions: map<string, nat>) {
    && (forall i :: 0 <= i < |trace| ==> (trace[i].Began? <==> i % 2 == 0))
    && (forall i :: 0 < i < |trace| && i % 2 == 1 ==> trace[i] == Ended(trace[i - 1].id))
    && (mutating <==> |trace| % 2 == 1)
    && (forall id :: Get(versions, id) == LastBegan(trace, id))
  }

  /** The one mutation under way is the last event of the trace. */
  predicate Alone(tasks: map<nat, Task>, trace: seq<Event>) {
    && (forall t :: t in tasks && MutationOf(tasks[t].stage).Some? ==>
          |trace| % 2 == 1 && trace[|trace| - 1] == Began(MutationOf(tasks[t].stage).value))
    && (forall t :: t in tasks && tasks[t].stage.Publishing? ==> tasks[t].stage.publication.version == |trace| - 1)
    && (forall t, u :: t in tasks && u in tasks && t != u ==>
          MutationOf(tasks[t].stage).None? || MutationOf(tasks[u].stage).None?)
  }

  /** No two mints hold the same exchange. */
  predicate OneEach(tasks: map<nat, Task>, actors: seq<Actor>) {
    && (forall i, j :: 0 <= i < j < |actors| ==> actors[i].identity != actors[j].identity)
    && (forall t, i :: t in tasks && tasks[t].stage.Minting? && 0 <= i < |actors| ==>
          tasks[t].stage.exchange.identity != actors[i].identity)
    && (forall t, u :: t in tasks && u in tasks && t != u && tasks[t].stage.Minting? && tasks[u].stage.Minting? ==>
          tasks[t].stage.exchange.identity != tasks[u].stage.exchange.identity)
  }

  predicate LedgerOk(p: Past, exchanges: map<string, Exchange>) {
    && (forall d :: d in exchanges ==> ExchangeOk(p, d, exchanges[d]))
    && (forall g :: 0 <= g < |p.grants| ==> p.grants[g].digest in exchanges)
    && (forall i :: i in p.reserved ==> i < |p.grants|)
  }

  ghost predicate TargetsOk(loads: seq<Loaded>, deletes: map<string, Target>) {
    && (forall id :: id in deletes <==> FirstLoad(loads, id).Some?)
    && (forall id :: id in deletes ==> FirstLoad(loads, id).value.digest == deletes[id].digest)
  }

  ghost predicate Kept(p: Past, tasks: map<nat, Task>, records: map<nat, Record>) {
    && (forall t :: t in tasks ==> StageOk(p, tasks[t].stage))
    && (forall r :: r in records ==> RecordOk(p, r, records[r]))
    && (forall g :: 0 <= g < |p.grants| ==> GrantOk(p.log, p.grants[g]))
    && (forall k :: 0 <= k < |p.log| ==> DispatchOk(p, p.log[k]))
    && (forall l :: 0 <= l < |p.loads| ==> LoadOk(p, p.loads[l]))
    && (forall a :: 0 <= a < |p.actors| ==> ActorOk(p, p.actors[a]))
  }

  ghost predicate Inv(c: Client) {
    && TraceOk(c.past.trace, c.entry.onlineMutationInFlight, c.entry.onlineVersions)
    && Alone(c.tasks, c.past.trace)
    && OneEach(c.tasks, c.past.actors)
    && LedgerOk(c.past, c.entry.onlineExchanges)
    && TargetsOk(c.past.loads, c.entry.onlineDeletes)
    && Kept(c.past, c.tasks, c.records)
  }

  // --------------------------------------------------------- the past only grows

  predicate Grows(p: Past, q: Past) {
    p.log <= q.log && p.trace <= q.trace && p.grants <= q.grants && p.reserved <= q.reserved && p.loads <= q.loads
  }

  lemma {:induction false} FirstLoadStays(loads: seq<Loaded>, more: seq<Loaded>, id: string)
    requires loads <= more && FirstLoad(loads, id).Some?
    ensures FirstLoad(more, id) == FirstLoad(loads, id)
  {
    if loads[0].id != id { FirstLoadStays(loads[1..], more[1..], id); }
  }

  lemma WitnessStays(grants: seq<Grant>, more: seq<Grant>, digest: string, evidence: Evidence)
    requires grants <= more && Witnessed(grants, digest, evidence)
    ensures Witnessed(more, digest, evidence)
  {
    var g :| 0 <= g < |grants| && grants[g].digest == digest && grants[g].evidence == evidence;
    assert more[g] == grants[g];
  }

  lemma PublishedStays(log: seq<Dispatch>, more: seq<Dispatch>, ref: nat, id: string, digest: string,
                       version: Option<nat>, evidence: Evidence)
    requires log <= more && Published(log, ref, id, digest, version, evidence)
    ensures Published(more, ref, id, digest, version, evidence)
  {
    var k :| 0 <= k < |log| && Publishes(log[k], ref, id, digest, version, evidence);
    assert more[k] == log[k];
  }

  lemma DatedStays(p: Past, q: Past, ref: nat, id: string, digest: string, o: Origin)
    requires Grows(p, q) && Dated(p, ref, id, digest, o)
    ensures Dated(q, ref, id, digest, o)
  {
    if LoadedSince(p.loads, ref, id, digest, o.since) {
      var l :| && 0 <= l < |p.loads| && p.loads[l].ref == ref && p.loads[l].id == id && p.loads[l].token == digest
               && p.loads[l].since == o.since;
      assert q.loads[l] == p.loads[l];
    } else {
      PublishedStays(p.log, q.log, ref, id, digest, o.version, o.evidence);
    }
  }

  lemma SourceStays(p: Past, q: Past, pub: Publication)
    requires Grows(p, q) && Sourced(p, pub)
    ensures Sourced(q, pub)
  {
    if pub.resaved { DatedStays(p, q, pub.ref, pub.id, pub.digest, pub.origin); }
    if pub.origin.authenticatedAt.Some? { WitnessStays(p.grants, q.grants, pub.digest, pub.evidence); }
  }

  lemma PublicationStaysOk(p: Past, q: Past, pub: Publication)
    requires Grows(p, q) && PublicationOk(p, pub)
    ensures PublicationOk(q, pub)
  {
    SourceStays(p, q, pub);
    hide Sourced;
  }

  lemma StageStaysOk(p: Past, q: Past, s: Stage)
    requires Grows(p, q) && StageOk(p, s)
    ensures StageOk(q, s)
  {
    match s {
      case Publishing(phase, ref, pub) =>
        PublicationStaysOk(p, q, pub);
        if !phase.Preparing? {
          PublishedStays(p.log, q.log, ref, pub.id, pub.digest, Some(pub.version), pub.evidence);
        }
      case Deleting(_, id, _) => FirstLoadStays(p.loads, q.loads, id);
      case Minting(_, ref, id, version, x) =>
        var g := p.grants[x.identity];
        PublishedStays(p.log, q.log, ref, id, g.digest, version, g.evidence);
      case _ =>
    }
  }

  lemma RecordStaysOk(p: Past, q: Past, ref: nat, r: Record)
    requires Grows(p, q) && RecordOk(p, ref, r)
    ensures RecordOk(q, ref, r)
  {
    DatedStays(p, q, ref, r.id, r.tokenDigest, r.origin);
    if r.origin.authenticatedAt.Some? {
      PublishedStays(p.log, q.log, ref, r.id, r.tokenDigest, r.origin.version, r.origin.evidence);
      WitnessStays(p.grants, q.grants, r.tokenDigest, r.origin.evidence);
    }
  }

  lemma DispatchStaysOk(p: Past, q: Past, d: Dispatch)
    requires Grows(p, q) && DispatchOk(p, d)
    ensures DispatchOk(q, d)
  {
    if d.request.DeleteOnline? { FirstLoadStays(p.loads, q.loads, d.request.id); }
    if d.request.Publish? { PublicationStaysOk(p, q, d.request.publication); }
  }

  lemma ActorStaysOk(p: Past, q: Past, a: Actor)
    requires Grows(p, q) && ActorOk(p, a)
    ensures ActorOk(q, a)
  {
    var g := p.grants[a.identity];
    PublishedStays(p.log, q.log, a.ref, a.id, g.digest, a.version, g.evidence);
  }

  /** A longer past keeps everything but what is new in it. */
  lemma PastGrows(p: Past, q: Past, tasks: map<nat, Task>, records: map<nat, Record>)
    requires Grows(p, q) && Kept(p, tasks, records)
    requires forall k :: |p.log| <= k < |q.log| ==> DispatchOk(q, q.log[k])
    requires forall l :: |p.loads| <= l < |q.loads| ==> LoadOk(q, q.loads[l])
    requires forall g :: |p.grants| <= g < |q.grants| ==> GrantOk(q.log, q.grants[g])
    requires forall a :: 0 <= a < |q.actors| ==>
               (a < |p.actors| && q.actors[a] == p.actors[a]) || ActorOk(q, q.actors[a])
    ensures Kept(q, tasks, records)
  {
    forall t | t in tasks ensures StageOk(q, tasks[t].stage) { StageStaysOk(p, q, tasks[t].stage); }
    forall r | r in records ensures RecordOk(q, r, records[r]) { RecordStaysOk(p, q, r, records[r]); }
    forall k | 0 <= k < |q.log| ensures DispatchOk(q, q.log[k]) {
      if k < |p.log| { DispatchStaysOk(p, q, p.log[k]); }
    }
    forall l | 0 <= l < |q.loads| ensures LoadOk(q, q.loads[l]) {
      if l < |p.loads| { assert LoadOk(p, p.loads[l]); }
    }
    forall g | 0 <= g < |q.grants| ensures GrantOk(q.log, q.grants[g]) {
      if g < |p.grants| { assert GrantOk(p.log, p.grants[g]); }
    }
    forall a | 0 <= a < |q.actors| ensures ActorOk(q, q.actors[a]) {
      if a < |p.actors| && q.actors[a] == p.actors[a] { ActorStaysOk(p, q, p.actors[a]); }
    }
  }
}
