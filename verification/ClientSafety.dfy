/** The promises about online sessions, over every run of a client from its
    acquisition and whatever it is answered. */
module ClientSafety {
  import opened Wrappers
  import opened Contract
  import opened SessionEntry
  import opened SessionClient
  import opened ClientOnline
  import opened ClientRuns

  /** A run of a client from its acquisition. */
  datatype History = History(shop: string, snapshot: Snapshot, lease: Lease, started: int, actions: seq<Action>)

  function Reached(h: History): Client {
    Run(Start(h.shop, h.snapshot, h.lease, h.started), h.actions)
  }

  lemma ReachedKeeps(h: History)
    ensures Inv(Reached(h))
  {
    StartKeeps(h.shop, h.snapshot, h.lease, h.started);
    RunKeeps(Start(h.shop, h.snapshot, h.lease, h.started), h.actions);
  }

  // --------------------------------------------------- turns and cached loads

  /** In a trace that takes turns, the mutation under way is the last event. */
  lemma InFlightIsLast(trace: seq<Event>, id: string, p: nat)
    requires p <= |trace|
    requires forall i :: 0 <= i < |trace| ==> (trace[i].Began? <==> i % 2 == 0)
    requires forall i :: 0 < i < |trace| && i % 2 == 1 ==> trace[i] == Ended(trace[i - 1].id)
    ensures InFlight(trace, id, p) <==> p % 2 == 1 && trace[p - 1] == Began(id)
  {
    if InFlight(trace, id, p) {
      var i :| 0 <= i < p && trace[i] == Began(id) && forall j :: i < j < p ==> trace[j] != Ended(id);
      assert i + 1 < |trace| ==> trace[i + 1] == Ended(id);
    }
    if p % 2 == 1 && trace[p - 1] == Began(id) {
      var i := p - 1;
      assert 0 <= i < p && trace[i] == Began(id);
    }
  }

  /** The publication or deletion that began at position `i` has not ended by `p`. */
  predicate Unmatched(trace: seq<Event>, i: nat, p: nat)
    requires p <= |trace|
  {
    i < p && trace[i].Began? && forall j :: i < j < p ==> trace[j] != Ended(trace[i].id)
  }

  /** At no moment are two publications or deletions under way on one entry, not even of
      the same id: at most one that has begun by then has not ended. */
  lemma MutationsTakeTurns(h: History, p: nat, i: nat, j: nat)
    requires p <= |Reached(h).past.trace|
    requires Unmatched(Reached(h).past.trace, i, p) && Unmatched(Reached(h).past.trace, j, p)
    ensures i == j
  {
    ReachedKeeps(h);
    UnmatchedIsLast(Reached(h).past.trace, i, p);
    UnmatchedIsLast(Reached(h).past.trace, j, p);
  }

  lemma UnmatchedIsLast(trace: seq<Event>, i: nat, p: nat)
    requires p <= |trace| && Unmatched(trace, i, p)
    requires forall i :: 0 <= i < |trace| ==> (trace[i].Began? <==> i % 2 == 0)
    requires forall i :: 0 < i < |trace| && i % 2 == 1 ==> trace[i] == Ended(trace[i - 1].id)
    ensures i == p - 1
  {
    var k := i + 1;
    assert k < |trace| ==> trace[k] == Ended(trace[k - 1].id);
  }

  /** A cached load returns a session only if no publication or deletion of its id was
      under way at any moment from its start to its return, not even one that began
      and ended in between. */
  lemma CachedLoadOverlapsNothing(h: History, l: nat, p: nat)
    requires l < |Reached(h).past.loads|
    requires Reached(h).past.loads[l].since <= p <= Reached(h).past.loads[l].until
    ensures p <= |Reached(h).past.trace|
    ensures !InFlight(Reached(h).past.trace, Reached(h).past.loads[l].id, p)
  {
    ReachedKeeps(h);
    var c := Reached(h);
    assert LoadOk(c.past, c.past.loads[l]);
    InFlightIsLast(c.past.trace, c.past.loads[l].id, p);
  }

  // -------------------------------------------------------- publication order

  /** A publication request leaves only if, since the evidence it rests on, nothing
      else has begun to publish or delete that id. The evidence is that of an exchange
      which returned this very token, and dates from when its request was sent; or that
      of this very session object, and dates from when the cached load that constructed
      it began, or from its own earlier publication with this token. */
  lemma PublicationsAreOrdered(h: History, k: nat)
    requires k < |Reached(h).past.log| && Reached(h).past.log[k].request.Publish?
    ensures
      var past := Reached(h).past;
      var sent := past.log[k];
      var p := sent.request.publication;
      && p.origin.since <= p.version < sent.moment <= |past.trace|
      && past.trace[p.version] == Began(p.id)
      && (forall j :: p.origin.since <= j < sent.moment && past.trace[j] == Began(p.id) ==> j == p.version)
      && (if p.resaved
          then || Republishes(past, p)
               || (exists l :: 0 <= l < |past.loads| && RestsOnLoad(past.loads[l], p))
          else p.granted <= |past.grants| && exists g :: 0 <= g < p.granted && RestsOnExchange(past, past.grants[g], p))
  {
    ReachedKeeps(h);
    var past := Reached(h).past;
    assert DispatchOk(past, past.log[k]);
    var p := past.log[k].request.publication;
    if p.resaved {
      if LoadedSince(past.loads, p.ref, p.id, p.digest, p.origin.since) {
        var l :| && 0 <= l < |past.loads| && past.loads[l].ref == p.ref && past.loads[l].id == p.id
                 && past.loads[l].token == p.digest && past.loads[l].since == p.origin.since;
        assert RestsOnLoad(past.loads[l], p);
      } else {
        var e :| 0 <= e < |past.log| && Publishes(past.log[e], p.ref, p.id, p.digest, p.origin.version, p.evidence);
      }
    } else {
      var g :| 0 <= g < p.granted && past.grants[g].digest == p.digest && past.grants[g].since == p.origin.since;
      assert GrantOk(past.log, past.grants[g]);
      assert RestsOnExchange(past, past.grants[g], p);
    }
  }

  /** The exchange returned the token that is published, and was asked for when the
      evidence dates from. */
  predicate RestsOnExchange(past: Past, g: Grant, p: Publication) {
    && g.digest == p.digest && g.since == p.origin.since
    && g.request < |past.log| && past.log[g.request].request.ExchangeToken? && past.log[g.request].moment == g.since
  }

  /** The load constructed the session object that is published, with this identifier and
      token, and began when the evidence dates from. */
  predicate RestsOnLoad(l: Loaded, p: Publication) {
    l.ref == p.ref && l.id == p.id && l.token == p.digest && l.since == p.origin.since
  }

  /** The same session object was published before, under the same identifier and token,
      just before the position that the evidence dates from. */
  predicate Republishes(past: Past, p: Publication) {
    && p.origin.version.Some? && p.origin.since == p.origin.version.value + 1
    && exists e :: 0 <= e < |past.log| && Publishes(past.log[e], p.ref, p.id, p.digest, p.origin.version, p.evidence)
  }

  // ---------------------------------------------------------- deletion targets

  /** The digest sent for an online deletion is the one the operation loaded first. */
  lemma DeletionTargetIsFirstLoaded(h: History, k: nat)
    requires k < |Reached(h).past.log| && Reached(h).past.log[k].request.DeleteOnline?
    ensures
      var past := Reached(h).past;
      var sent := past.log[k].request;
      FirstLoad(past.loads, sent.id).Some? && FirstLoad(past.loads, sent.id).value.digest == sent.digest
  {
    ReachedKeeps(h);
    assert DispatchOk(Reached(h).past, Reached(h).past.log[k]);
  }

  // -------------------------------------------------------------------- actors

  /** One actor per exchange: distinct actors used up distinct successful exchanges,
      even under parallel mints and repeated tokens. */
  lemma OneActorPerExchange(h: History, i: nat, j: nat)
    requires i < j < |Reached(h).past.actors|
    ensures
      var past := Reached(h).past;
      && past.actors[i].identity < |past.grants| && past.actors[j].identity < |past.grants|
      && past.actors[i].identity != past.actors[j].identity
  {
    ReachedKeeps(h);
    var past := Reached(h).past;
    assert ActorOk(past, past.actors[i]) && ActorOk(past, past.actors[j]);
  }

  /** A token never changes hands within an operation: all exchanges that return it
      agree on the user and on the version of the installation they were made from. */
  lemma TokensNameOneUser(h: History, f: nat, g: nat)
    requires f < |Reached(h).past.grants| && g < |Reached(h).past.grants|
    requires Reached(h).past.grants[f].digest == Reached(h).past.grants[g].digest
    ensures
      var grants := Reached(h).past.grants;
      grants[f].evidence == grants[g].evidence && SameObservation(grants[f].observed, grants[g].observed)
  {
    ReachedKeeps(h);
    var c := Reached(h);
    var digest := c.past.grants[f].digest;
    assert digest in c.entry.onlineExchanges && ExchangeOk(c.past, digest, c.entry.onlineExchanges[digest]);
  }

  /** An actor speaks for the user its exchange authenticated and is younger than the
      freshness bound. Its session is live, is the one this operation published last
      under that id, with the token that exchange returned and saying the same of the
      user, and nothing is being published or deleted when the actor is handed out. */
  lemma ActorsAreBacked(h: History, i: nat)
    requires i < |Reached(h).past.actors|
    ensures
      var past := Reached(h).past;
      var a := past.actors[i];
      && a.identity < |past.grants|
      && past.grants[a.identity].evidence.userId == a.userId
      && past.grants[a.identity].requestedAt == a.authenticatedAt
      && a.authenticatedAt <= a.issuedAt < a.authenticatedAt + ACTOR_MAX_AGE_MS && a.issuedAt < a.expires
      && Published(past.log, a.ref, a.id, past.grants[a.identity].digest, a.version, past.grants[a.identity].evidence)
      && a.version.Some? && a.version.value < a.moment <= |past.trace|
      && (forall j :: a.version.value < j < a.moment ==> past.trace[j] != Began(a.id))
      && (forall id :: !InFlight(past.trace, id, a.moment))
  {
    ReachedKeeps(h);
    var past := Reached(h).past;
    var a := past.actors[i];
    assert ActorOk(past, a);
    forall id ensures !InFlight(past.trace, id, a.moment) { InFlightIsLast(past.trace, id, a.moment); }
  }

  // -------------------------------------------------------------------- expiry

  /** A publication is live when it begins and says of the user what its origin says. One
      made from an exchange says what every exchange of that token said, and so does, of
      some exchange, one made again from a record that dates from an exchange. */
  lemma PublicationsAreIdentified(h: History, k: nat)
    requires k < |Reached(h).past.log| && Reached(h).past.log[k].request.Publish?
    ensures
      var past := Reached(h).past;
      var p := past.log[k].request.publication;
      && p.begunAt < p.expires && p.evidence == p.origin.evidence
      && (!p.resaved ==> NamedBy(past, p.digest, p.granted, p.evidence))
      && (p.origin.authenticatedAt.Some? ==> Witnessed(past.grants, p.digest, p.evidence))
  {
    ReachedKeeps(h);
    assert DispatchOk(Reached(h).past, Reached(h).past.log[k]);
  }

  /** A publication never outlives its origin. One made from an exchange never outlives
      any exchange recorded by then that returned the same token. One made again from a
      session object's own record stays within that record's first evidence, unless a
      caller lengthened the object's expiry while it was being published. */
  lemma PublishedExpiryIsClamped(h: History, k: nat)
    requires k < |Reached(h).past.log| && Reached(h).past.log[k].request.Publish?
    ensures
      var past := Reached(h).past;
      var p := past.log[k].request.publication;
      && p.expires <= p.origin.expiresAt
      && (!p.origin.stretched ==> p.expires <= p.origin.ceiling)
      && (!p.resaved ==> !p.origin.stretched && Clamped(past, p.digest, p.granted, p.expires))
  {
    ReachedKeeps(h);
    assert DispatchOk(Reached(h).past, Reached(h).past.log[k]);
  }

  /** The expiry kept under a token is the earliest of all its exchanges so far, so that
      exchanging the token again never extends it. */
  lemma KeptExpiryIsTheEarliest(h: History, digest: string)
    requires digest in Reached(h).entry.onlineExchanges
    ensures
      var past := Reached(h).past;
      var expires := Reached(h).entry.onlineExchanges[digest].expiresAt;
      && (forall g :: 0 <= g < |past.grants| && past.grants[g].digest == digest ==> expires <= past.grants[g].expiresAt)
      && (exists g :: 0 <= g < |past.grants| && past.grants[g].digest == digest && past.grants[g].expiresAt == expires)
  {
    ReachedKeeps(h);
    var c := Reached(h);
    assert ExchangeOk(c.past, digest, c.entry.onlineExchanges[digest]);
  }

  /** The session object is saved again with the token of its record. */
  predicate Resaves(c: Client, ref: nat, session: SessionView) {
    ref in c.records && session.tokenDigest == Some(c.records[ref].tokenDigest)
  }

  /** A resave looks at the object's record, not at later exchanges of its token. What a
      publication asks for respects every exchange of its token recorded by then exactly
      when it is no resave, or its session ends no later than the exchange kept under the
      token, which is the tightest of them. */
  lemma ResaveRespectsExchangesExactlyWhen(h: History, ref: nat, session: SessionView, wall: int)
    requires
      var c := Reached(h);
      BeginPublication(c.entry, ref, Get(c.records, ref), session, wall, |c.past.trace|, |c.past.grants|).Some?
    ensures session.tokenDigest.Some? && session.expires.Some?
    ensures
      var c := Reached(h);
      var digest := session.tokenDigest.value;
      var p := BeginPublication(c.entry, ref, Get(c.records, ref), session, wall, |c.past.trace|,
                                |c.past.grants|).value.1;
      && p.digest == digest
      && Clamped(c.past, digest, |c.past.grants|, p.expires)
         == (Resaves(c, ref, session) && digest in c.entry.onlineExchanges ==>
               session.expires.value <= c.entry.onlineExchanges[digest].expiresAt)
  {
    ReachedKeeps(h);
    var c := Reached(h);
    var begun := BeginPublication(c.entry, ref, Get(c.records, ref), session, wall, |c.past.trace|, |c.past.grants|);
    FreshIsKept(c.entry, ref, Get(c.records, ref), session, wall, |c.past.trace|, |c.past.grants|);
    hide Inv, BeginPublication, Clamped, Reached;
    KeptDecides(c, begun.value.1.digest, begun.value.1.expires);
  }

  lemma FreshIsKept(e: EntryState, ref: nat, record: Option<Record>, session: SessionView, wall: int, version: nat,
                    granted: nat)
    requires BeginPublication(e, ref, record, session, wall, version, granted).Some?
    ensures
      var p := BeginPublication(e, ref, record, session, wall, version, granted).value.1;
      && session.tokenDigest == Some(p.digest) && session.expires.Some?
      && (p.resaved <==> record.Some? && session.tokenDigest == Some(record.value.tokenDigest))
      && (p.resaved ==> p.expires == session.expires.value)
      && (!p.resaved ==> p.digest in e.onlineExchanges && p.expires <= e.onlineExchanges[p.digest].expiresAt)
  {
  }

  /** The exchange kept under a token decides for all exchanges of it. */
  lemma KeptDecides(c: Client, digest: string, expires: int)
    requires Inv(c)
    ensures
      Clamped(c.past, digest, |c.past.grants|, expires)
        == (digest in c.entry.onlineExchanges ==> expires <= c.entry.onlineExchanges[digest].expiresAt)
  {
    if digest in c.entry.onlineExchanges {
      assert ExchangeOk(c.past, digest, c.entry.onlineExchanges[digest]);
    }
  }
}
