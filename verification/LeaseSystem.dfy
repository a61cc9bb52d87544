/** Any number of operations of one shop against the coordination service. The network
    may process a request any number of times, at any later moment or never, and may
    lose or delay every reply; between the two, other parts of the application revoke
    the lease, purge the stored session or change the installation. A move whose guard
    does not hold leaves the system as it is. */
module LeaseSystem {
  import opened Wrappers
  import opened Contract
  import opened SessionEntry
  import opened SessionClient
  import opened ClientFence
  import opened ClientWire
  import Acquisition
  import S = Coordinator

  const ACQUISITION_BUDGET_MS: int := Acquisition.ACQUISITION_BUDGET_MS

  /** An acquisition under way: when it began and the requests it has sent. The loop that
      sends them is Acquisition.Acquire; SystemAcquisition proves that it only makes moves
      of this system. */
  datatype Attempt = Attempt(began: int, requests: seq<Asked>)

  datatype Asked = Asked(at: int, snapshot: Snapshot)

  /** A positive answer to an acquisition request. */
  datatype Answer = Answer(token: string, request: nat, lease: Lease)

  /** What the WeakMap holds for an offline session object, and the properties it was
      loaded with or published as. */
  datatype Recorded = Recorded(observed: Observation, properties: Properties)

  /** An ownership: whose it is and when the last term given to it ends. */
  datatype Ownership = Ownership(token: string, horizon: int)

  /** An offline mutation the service accepted: whose object it came from, what the
      request carried, what the row was, and what was stored there. A deletion comes from
      no object. */
  datatype Accepted = Accepted(
    ref: Option<nat>,
    observed: Observation,
    based: Option<Properties>,
    written: Option<Properties>,
    row: S.Row,
    stored: Option<Properties>)

  datatype System = System(
    now: int,
    row: S.Row,
    contents: Contents,
    served: set<Snapshot>,
    attempts: map<string, Attempt>,
    answers: set<Answer>,
    clients: map<string, Client>,
    sessions: map<nat, Recorded>,
    memories: set<Memory>,
    rows: map<string, string>,
    saving: map<(string, nat), nat>,
    renewed: set<(string, nat)>,
    fences: set<(string, nat, Fence)>,
    owners: map<nat, Ownership>,
    revoked: nat,
    freed: set<nat>,
    accepted: seq<Accepted>)

  datatype Move =
    | Tick(until: int)
    // the acquisition of a lease
    | ServeSnapshot(masked: bool)
    | BeginAcquisition(token: string)
    | AskForLease(token: string, snapshot: Snapshot)
    | ProcessAcquisition(token: string, request: nat)
    | Open(shop: string, token: string, request: nat, lease: Lease)
    // an operation that holds one
    | Act(token: string, action: Action)
    | Load(token: string, ref: nat)
    | LoadAlone(ref: nat, snapshot: Snapshot)
    | Save(token: string, task: nat, ref: nat, properties: Properties, scoped: bool)
    | Process(token: string, request: nat, digest: string, credential: Option<string>, agrees: bool)
    // the rest of the application
    | Revoke(digest: string, stored: Option<Properties>)
    | WriteLegacy(digest: string, stored: Option<Properties>, credential: Option<string>)
    | Purge(digest: string)
    | Reinstall(generation: Option<string>, credential: Option<string>)
    | ReplaceOnline(id: string, version: Option<string>)

  function Initial(now: int, row: S.Row, stored: Option<Properties>): System
  {
    System(now, row, map[row.digest := stored], {}, map[], {}, map[], map[], {}, map[], map[], {}, {}, map[], 0, {}, [])
  }

  // -------------------------------------------------------- the stored payload

  /** SHA-256 tells payloads apart: a digest in use stands for one payload. */
  predicate Fits(contents: Contents, digest: string, stored: Option<Properties>) {
    digest in contents ==> contents[digest] == stored
  }

  function Deposit(s: System, row: S.Row, stored: Option<Properties>): System {
    s.(row := row, contents := s.contents[row.digest := stored])
  }

  function Stored(s: System): Option<Properties> {
    if s.row.digest in s.contents then s.contents[s.row.digest] else None
  }

  /** A session object is recorded, and that is remembered. */
  function Remember(s: System, ref: nat, recorded: Recorded): System {
    s.(sessions := s.sessions[ref := recorded],
       memories := s.memories + {Memory(ref, recorded.observed, recorded.properties)})
  }

  function KnownTo(s: System): Known {
    Known(s.contents, s.memories)
  }

  // --------------------------------------------------------------- acquisition

  function OnServeSnapshot(s: System, masked: bool): System {
    s.(served := s.served + {Snapshot(S.Observe(s.row), if masked then None else Stored(s))})
  }

  function OnBeginAcquisition(s: System, token: string): System {
    if token in s.attempts then s else s.(attempts := s.attempts[token := Attempt(s.now, [])])
  }

  function OnAskForLease(s: System, token: string, snapshot: Snapshot): System {
    if token in s.attempts && snapshot in s.served && s.now < s.attempts[token].began + ACQUISITION_BUDGET_MS
    then
      var a := s.attempts[token];
      s.(attempts := s.attempts[token := a.(requests := a.requests + [Asked(s.now, snapshot)])])
    else s
  }

  function OnProcessAcquisition(s: System, token: string, request: nat): System {
    if token in s.attempts && request < |s.attempts[token].requests|
    then
      match S.Acquire(s.row, s.now, token, s.attempts[token].requests[request].snapshot.observed)
      case Refused(_) => s
      case Done((row, lease)) => Admit(s, token, request, row, lease)
    else s
  }

  function Admit(s: System, token: string, request: nat, row: S.Row, lease: Lease): System {
    s.(row := row,
       owners := if row.epoch == s.row.epoch then s.owners
                 else s.owners[row.epoch := Ownership(token, s.now + S.LEASE_MS)],
       answers := s.answers + {Answer(token, request, lease)})
  }

  /** The answer is back within the acquisition budget. */
  function OnOpen(s: System, shop: string, token: string, request: nat, lease: Lease): System {
    if Answer(token, request, lease) in s.answers && token in s.attempts && request < |s.attempts[token].requests|
       && token !in s.clients && s.now < s.attempts[token].began + ACQUISITION_BUDGET_MS
    then
      var asked := s.attempts[token].requests[request];
      if Admits(lease, token, asked.snapshot.observed)
      then s.(clients := s.clients[token := Start(shop, asked.snapshot, lease, asked.at)])
      else s
    else s
  }

  // ---------------------------------------------------------------- operations

  /** An action of the operation holding `token` reads the one clock and is given only
      replies that the service sent. Offline saves are the move Save. */
  predicate Possible(s: System, token: string, a: Action) {
    && token in s.clients
    && (Clock(a).Some? ==> Clock(a).value == s.now)
    && (a.Begin? ==> !a.call.StoreOffline?)
    && (a.Settle? && a.renewed ==> (token, a.renewal) in s.renewed)
    && (a.Receive? && a.reply.Fenced? && CommitOf(s.clients[token], a.task).Some? ==>
          (token, CommitOf(s.clients[token], a.task).value, a.reply.fence) in s.fences)
  }

  function CommitOf(c: Client, task: nat): Option<nat> {
    if task in c.tasks && c.tasks[task].stage.Committing? then Some(c.tasks[task].stage.write) else None
  }

  /** The session object whose save this action acknowledges. */
  function SavedBy(s: System, token: string, a: Action): Option<nat>
    requires token in s.clients
  {
    var c := s.clients[token];
    if && a.Receive? && CommitOf(c, a.task).Some? && c.tasks[a.task].wait.Elsewhere? && Acknowledges(c, a.reply)
       && (token, a.task) in s.saving
    then Some(s.saving[(token, a.task)])
    else None
  }

  /** An acknowledged save leaves its session object recorded as what it published. */
  function OnAct(s: System, token: string, a: Action): System {
    if Possible(s, token, a)
    then Acted(s, token, Step(s.clients[token], a), SavedBy(s, token, a))
    else s
  }

  function Acted(s: System, token: string, d: Client, ref: Option<nat>): System {
    var t := s.(clients := s.clients[token := d]);
    if ref.Some? && d.entry.snapshot.properties.Some?
    then Remember(t, ref.value, Recorded(d.entry.snapshot.observed, d.entry.snapshot.properties.value))
    else t
  }

  function OnLoad(s: System, token: string, ref: nat): System {
    if token in s.clients && s.clients[token].entry.snapshot.properties.Some? && ref !in s.sessions
    then
      var snapshot := s.clients[token].entry.snapshot;
      Remember(s, ref, Recorded(snapshot.observed, snapshot.properties.value))
    else s
  }

  /** A load outside any operation reads its own snapshot. */
  function OnLoadAlone(s: System, ref: nat, snapshot: Snapshot): System {
    if snapshot in s.served && snapshot.properties.Some? && ref !in s.sessions
    then Remember(s, ref, Recorded(snapshot.observed, snapshot.properties.value))
    else s
  }

  /** The object may have been loaded by an earlier operation, or be new. */
  function SaveCall(s: System, ref: nat, properties: Properties, scoped: bool): Call {
    if ref in s.sessions
    then StoreOffline(ref, Some(s.sessions[ref].observed), Some(s.sessions[ref].properties), properties, scoped)
    else StoreOffline(ref, None, None, properties, scoped)
  }

  function OnSave(s: System, token: string, task: nat, ref: nat, properties: Properties, scoped: bool): System {
    if token in s.clients && task !in s.clients[token].tasks
    then
      s.(clients := s.clients[token := Step(s.clients[token],
                                            Begin(task, s.now, SaveCall(s, ref, properties, scoped)))],
         saving := s.saving[(token, task) := ref])
    else s
  }

  // --------------------------------------------------------------- the service

  function Extend(s: System, row: S.Row): System {
    s.(row := row,
       owners := if row.epoch in s.owners
                 then s.owners[row.epoch := s.owners[row.epoch].(horizon := s.now + S.LEASE_MS)] else s.owners)
  }

  /** The service processes a request that left. `agrees` stands for its remaining
      checks; `digest` and `credential` belong to the payload it stores. */
  function OnProcess(s: System, token: string, request: nat, digest: string, credential: Option<string>,
                     agrees: bool): System {
    if token in s.clients && request < |s.clients[token].past.log| && agrees
    then OnRequest(s, token, request, s.clients[token].past.log[request].request, digest, credential)
    else s
  }

  function OnRequest(s: System, token: string, request: nat, r: Request, digest: string,
                     credential: Option<string>): System {
    match r
    case Renew(lease, checked) => OnRenew(s, token, request, lease, checked)
    case Publish(p, lease, observed) => OnPublish(s, p.id, lease, observed, digest)
    case DeleteOnline(id, expected, lease, observed) => OnDeleteOnline(s, id, expected, lease, observed)
    case Write(ref, properties, expectedHash, lease, observed, based) =>
      if !Fits(s.contents, digest, Some(properties)) then s
      else OnCommit(s, token, request, S.WriteOffline(s.row, s.now, lease, observed, expectedHash, digest, credential),
                    Some(ref), observed, based, Some(properties))
    case DeleteOffline(lease, observed) =>
      if !Fits(s.contents, digest, None) then s
      else OnCommit(s, token, request, S.DeleteOffline(s.row, s.now, lease, observed, digest), None, observed, None,
                    None)
    case Release(lease) => OnRelease(s, lease)
    case ExchangeToken => s
  }

  function OnRenew(s: System, token: string, request: nat, lease: Lease, checked: Option<Observation>): System {
    match S.Renew(s.row, s.now, lease, checked)
    case Refused(_) => s
    case Done(row) => Extend(s, row).(renewed := s.renewed + {(token, request)})
  }

  /** A release of the ownership that the row names frees its epoch; a late one, of an
      ownership that is over, does nothing. */
  function OnRelease(s: System, lease: Lease): System {
    s.(row := S.Release(s.row, lease), freed := if S.Names(s.row, lease) then s.freed + {s.row.epoch} else s.freed)
  }

  /** The online row takes the payload, whatever it held. */
  function OnPublish(s: System, id: string, lease: Lease, observed: Observation, digest: string): System {
    match S.TouchOnline(s.row, s.now, lease, observed)
    case Refused(_) => s
    case Done(row) => Extend(s, row).(rows := s.rows[id := digest])
  }

  /** A row that is gone is no error; one that differs from the version expected refuses
      the deletion, and with it the renewal of the lease. */
  function OnDeleteOnline(s: System, id: string, expected: string, lease: Lease, observed: Observation): System {
    match S.TouchOnline(s.row, s.now, lease, observed)
    case Refused(_) => s
    case Done(row) =>
      if id !in s.rows then Extend(s, row)
      else if s.rows[id] != expected then s
      else Extend(s, row).(rows := s.rows - {id})
  }

  function OnCommit(s: System, token: string, request: nat, outcome: S.Outcome<(S.Row, Fence)>, ref: Option<nat>,
                    observed: Observation, based: Option<Properties>, written: Option<Properties>): System {
    match outcome
    case Refused(_) => s
    case Done((row, fence)) =>
      Deposit(s, row, written).(fences := s.fences + {(token, request, fence)},
                              accepted := s.accepted + [Accepted(ref, observed, based, written, s.row, Stored(s))])
  }

  function OnRevoke(s: System, digest: string, stored: Option<Properties>): System {
    match S.Revoke(s.row)
    case Refused(_) => s
    case Done(row) =>
      if Fits(s.contents, digest, stored) then Deposit(s, row.(digest := digest), stored).(revoked := row.epoch) else s
  }

  function OnWriteLegacy(s: System, digest: string, stored: Option<Properties>, credential: Option<string>): System {
    match S.AdvanceLegacy(s.row)
    case Refused(_) => s
    case Done(row) =>
      if Fits(s.contents, digest, stored) then Deposit(s, row.(digest := digest, credential := credential), stored)
      else s
  }

  function Next(s: System, m: Move): System {
    match m
    case Tick(until) => if s.now <= until then s.(now := until) else s
    case ServeSnapshot(masked) => OnServeSnapshot(s, masked)
    case BeginAcquisition(token) => OnBeginAcquisition(s, token)
    case AskForLease(token, snapshot) => OnAskForLease(s, token, snapshot)
    case ProcessAcquisition(token, request) => OnProcessAcquisition(s, token, request)
    case Open(shop, token, request, lease) => OnOpen(s, shop, token, request, lease)
    case Act(token, action) => OnAct(s, token, action)
    case Load(token, ref) => OnLoad(s, token, ref)
    case LoadAlone(ref, snapshot) => OnLoadAlone(s, ref, snapshot)
    case Save(token, task, ref, properties, scoped) => OnSave(s, token, task, ref, properties, scoped)
    case Process(token, request, digest, credential, agrees) => OnProcess(s, token, request, digest, credential, agrees)
    case Revoke(digest, stored) => OnRevoke(s, digest, stored)
    case WriteLegacy(digest, stored, credential) => OnWriteLegacy(s, digest, stored, credential)
    case Purge(digest) => if Fits(s.contents, digest, None) then Deposit(s, s.row.(digest := digest), None) else s
    case ReplaceOnline(id, version) => s.(rows := if version.Some? then s.rows[id := version.value] else s.rows - {id})
    case Reinstall(generation, credential) => s.(row := s.row.(generation := generation, credential := credential))
  }

  function Go(s: System, moves: seq<Move>): System
    decreases |moves|
  {
    if moves == [] then s else Go(Next(s, moves[0]), moves[1..])
  }
}
