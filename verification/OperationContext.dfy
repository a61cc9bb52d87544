/** `runOperation`: the context of an operation, the leases it takes on demand, the
    ownership check before it returns and the release of every lease afterwards. Each
    lease taken is a client of the session machine; the environment decides when
    acquisitions settle and interleaves the steps of every client. */
module OperationContext {
  import opened Wrappers
  import opened Contract
  import opened SessionEntry
  import opened SessionClient
  import Acquisition

  /** An element of `pending`: a promise under way since some moment, fulfilled or
      rejected. */
  datatype Pending = Acquiring(since: int) | Held(client: Client) | Rejected

  /** Where `runOperation` stands: in its body, awaiting the leases pending when the body
      returned, awaiting all that are pending after the close, and then releasing. */
  datatype Position = Working | Awaiting(awaited: set<string>) | Settling | Releasing | Finished

  datatype Operation = Operation(
    clock: int,
    pending: map<string, Pending>,
    closed: bool,
    phase: Position,
    returned: bool,
    asked: seq<string>,
    askedInBody: nat)

  datatype Occurrence =
    | Tick(until: int)
    | NeedEntry(shop: string)
    | Acquired(shop: string, snapshot: Snapshot, lease: Lease, started: int)
    | AcquisitionFailed(shop: string)
    | Act(shop: string, action: Action)
    | BodyReturned
    | BodyThrew
    | Checked
    | CheckFailed
    | AllSettled
    | ReleaseOne(shop: string)
    | Finish

  function Opened(now: int): Operation {
    Operation(now, map[], false, Working, false, [], 0)
  }

  // -------------------------------------------------------------- the stretches

  /** `entry(shop)`: at most one acquisition per shop, none after the close. */
  function OnNeedEntry(o: Operation, shop: string): Operation {
    if o.closed || shop in o.pending then o
    else o.(pending := o.pending[shop := Acquiring(o.clock)], asked := o.asked + [shop])
  }

  /** The close reaches every lease, for their methods look at the context. */
  function Closing(pending: map<string, Pending>): map<string, Pending> {
    map shop | shop in pending ::
      match pending[shop]
      case Held(c) => Held(Step(c, Close))
      case other => other
  }

  function StoppingHeartbeats(pending: map<string, Pending>): map<string, Pending> {
    map shop | shop in pending ::
      match pending[shop]
      case Held(c) => Held(Step(c, StopHeartbeat))
      case other => other
  }

  /** The start of the finally block. */
  function Closed(o: Operation, returned: bool): Operation {
    o.(pending := Closing(o.pending), closed := true, phase := Settling, returned := returned)
  }

  predicate AllOwned(pending: map<string, Pending>, shops: set<string>, now: int) {
    forall shop :: shop in shops ==> shop in pending && pending[shop].Held? && Owned(pending[shop].client.entry, now)
  }

  predicate AllHeld(pending: map<string, Pending>, shops: set<string>) {
    forall shop :: shop in shops ==> shop in pending && pending[shop].Held?
  }

  predicate NoneAcquiring(pending: map<string, Pending>) {
    forall shop :: shop in pending ==> !pending[shop].Acquiring?
  }

  predicate AllReleased(pending: map<string, Pending>) {
    forall shop :: shop in pending && pending[shop].Held? ==> pending[shop].client.drain.Released?
  }

  /** What callers, timers and replies do; the drain is the operation's own. */
  predicate Outside(a: Action) {
    !a.Close? && !a.StopHeartbeat? && !a.SendRelease?
  }

  /** An acquisition asks for its lease, and has its answer, within its budget. */
  predicate InBudget(since: int, started: int, now: int) {
    since <= started <= now < since + Acquisition.ACQUISITION_BUDGET_MS
  }

  function Next(o: Operation, e: Occurrence): Operation {
    match e
    case Tick(until) => if o.clock <= until then o.(clock := until) else o
    case NeedEntry(shop) => OnNeedEntry(o, shop)
    case Acquired(shop, snapshot, lease, started) =>
      if shop in o.pending && o.pending[shop].Acquiring? && InBudget(o.pending[shop].since, started, o.clock)
      then o.(pending := o.pending[shop := Held(Start(shop, snapshot, lease, started).(closed := o.closed))])
      else o
    case AcquisitionFailed(shop) =>
      if shop in o.pending && o.pending[shop].Acquiring? then o.(pending := o.pending[shop := Rejected]) else o
    case Act(shop, action) =>
      if && shop in o.pending && o.pending[shop].Held? && Outside(action)
         && (Clock(action).Some? ==> Clock(action).value == o.clock)
      then o.(pending := o.pending[shop := Held(Step(o.pending[shop].client, action))])
      else o
    case BodyReturned =>
      if o.phase.Working? then o.(phase := Awaiting(o.pending.Keys), askedInBody := |o.asked|) else o
    case BodyThrew =>
      if o.phase.Working? then Closed(o, false) else o
    case Checked =>
      if o.phase.Awaiting? && AllHeld(o.pending, o.phase.awaited)
      then Closed(o, AllOwned(o.pending, o.phase.awaited, o.clock))
      else o
    case CheckFailed =>
      if o.phase.Awaiting? && exists shop :: shop in o.phase.awaited && shop in o.pending && o.pending[shop].Rejected?
      then Closed(o, false)
      else o
    case AllSettled =>
      if o.phase.Settling? && NoneAcquiring(o.pending)
      then o.(pending := StoppingHeartbeats(o.pending), phase := Releasing)
      else o
    case ReleaseOne(shop) =>
      if o.phase.Releasing? && shop in o.pending && o.pending[shop].Held?
      then o.(pending := o.pending[shop := Held(Step(o.pending[shop].client, SendRelease(o.clock)))])
      else o
    case Finish =>
      if o.phase.Releasing? && AllReleased(o.pending) then o.(phase := Finished) else o
  }

  function Conduct(o: Operation, events: seq<Occurrence>): Operation
    decreases |events|
  {
    if events == [] then o else Conduct(Next(o, events[0]), events[1..])
  }

  // ----------------------------------------------------------------- the object

  class Context {
    ghost var clock: int
    var pending: map<string, Pending>
    var closed: bool
    ghost var phase: Position
    ghost var returned: bool
    ghost var asked: seq<string>
    ghost var askedInBody: nat

    ghost function State(): Operation
      reads this
    {
      Operation(clock, pending, closed, phase, returned, asked, askedInBody)
    }

    constructor (ghost now: int)
      ensures State() == Opened(now)
    {
      clock := now;
      pending, closed, phase, returned, asked, askedInBody := map[], false, Working, false, [], 0;
    }

    /** Whether an acquisition is to be started for the shop. */
    method Entry(shop: string, now: int) returns (acquires: bool)
      requires now == clock
      modifies this`pending, this`asked
      ensures acquires == (!old(closed) && shop !in old(pending))
      ensures State() == OnNeedEntry(old(State()), shop)
    {
      acquires := !closed && shop !in pending;
      if acquires {
        pending := pending[shop := Acquiring(now)];
        asked := asked + [shop];
      }
    }

    /** The loop over the leases awaited, and the close that follows it either way. */
    method CheckAndClose(awaited: set<string>, now: int) returns (owned: bool)
      requires now == clock && phase == Awaiting(awaited) && AllHeld(pending, awaited)
      modifies this
      ensures owned == AllOwned(old(pending), awaited, now)
      ensures State() == Next(old(State()), Checked)
    {
      owned := true;
      var left := awaited;
      while left != {} && owned
        invariant left <= awaited
        invariant owned ==> AllOwned(pending, awaited - left, now)
        invariant !owned ==> !AllOwned(pending, awaited, now)
        decreases left
      {
        var shop :| shop in left;
        owned := Owned(pending[shop].client.entry, now);
        left := left - {shop};
      }
      if owned { assert awaited - left == awaited; }
      returned := owned;
      Close();
    }

    /** Every lease sees the close at once. */
    method Close()
      modifies this`pending, this`closed, this`phase
      ensures closed && phase == Settling && pending == Closing(old(pending))
    {
      closed, phase := true, Settling;
      pending := Closing(pending);
    }

    /** After the last acquisition has settled, all heartbeats stop in one stretch. */
    method StopHeartbeats()
      requires phase.Settling? && NoneAcquiring(pending)
      modifies this`pending, this`phase
      ensures State() == Next(old(State()), AllSettled)
    {
      var left, stopped := pending.Keys, pending;
      while left != {}
        invariant left <= pending.Keys && stopped.Keys == pending.Keys
        invariant forall shop :: shop in left ==> stopped[shop] == pending[shop]
        invariant forall shop :: shop in pending.Keys - left ==> stopped[shop] == StoppingHeartbeats(pending)[shop]
        decreases left
      {
        var shop :| shop in left;
        if stopped[shop].Held? { stopped := stopped[shop := Held(Step(stopped[shop].client, StopHeartbeat))]; }
        left := left - {shop};
      }
      assert stopped == StoppingHeartbeats(pending);
      pending, phase := stopped, Releasing;
    }
  }

  /** A nested call runs in the operation around it while that is open, and leaves its
      check and its releases to it; only an owner goes on to check and close. */
  method Enter(existing: Context?, ghost now: int) returns (context: Context, owns: bool)
    ensures owns == (existing == null || existing.closed)
    ensures owns ==> fresh(context) && context.State() == Opened(now)
    ensures !owns ==> context == existing
  {
    if existing != null && !existing.closed { return existing, false; }
    context := new Context(now);
    owns := true;
  }

  // --------------------------------------------------------- releases of a client

  function Releases(log: seq<Dispatch>): nat {
    if log == [] then 0
    else Releases(log[..|log| - 1]) + if log[|log| - 1].request.Release? then 1 else 0
  }

  lemma ReleasesAfter(log: seq<Dispatch>, d: Dispatch)
    ensures Releases(log + [d]) == Releases(log) + if d.request.Release? then 1 else 0
  {
    assert (log + [d])[..|log|] == log;
  }
}
