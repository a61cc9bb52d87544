/** The online rows of the service, while any number of operations publish and delete
    them and the network repeats and delays their requests. */
module SystemOnline {
  import opened Wrappers
  import opened Contract
  import opened SessionEntry
  import opened SessionClient
  import opened ClientWire
  import opened LeaseSystem
  import opened SystemRuns
  import opened SystemSafety
  import O = ClientOnline
  import R = ClientRuns
  import S = Coordinator

  /** Every client keeps what it keeps alone. */
  ghost predicate OnlineOk(s: System) {
    forall t :: t in s.clients ==> O.Inv(s.clients[t])
  }

  lemma NextKeepsOnline(s: System, m: Move)
    requires OnlineOk(s)
    ensures OnlineOk(Next(s, m))
  {
    hide O.Inv, Next, Step, Taken, Start;
    var t := Next(s, m);
    forall token | token in t.clients ensures O.Inv(t.clients[token]) {
      if token in s.clients {
        ClientMoves(s, m, token);
        var a := Taken(s, m, token);
        if a.Some? { R.StepKeeps(s.clients[token], a.value); }
      } else {
        ClientOpens(s, m, token);
        var shop: string, snapshot: Snapshot, lease: Lease, started: int :|
          t.clients[token] == Start(shop, snapshot, lease, started);
        R.StartKeeps(shop, snapshot, lease, started);
      }
    }
  }

  lemma {:induction false} GoKeepsOnline(s: System, moves: seq<Move>)
    requires OnlineOk(s)
    ensures OnlineOk(Go(s, moves))
    decreases |moves|
  {
    hide OnlineOk, Next;
    if moves != [] {
      NextKeepsOnline(s, moves[0]);
      GoKeepsOnline(Next(s, moves[0]), moves[1..]);
    }
  }

  lemma ReachedKeepsOnline(h: History)
    ensures OnlineOk(Reached(h))
  {
    GoKeepsOnline(Initial(h.now, h.row, h.stored), h.moves);
  }

  // ------------------------------------------------------------ what changes a row

  /** The request that a move has the service process. */
  function Processed(s: System, m: Move): Option<Request> {
    if m.Process? && m.agrees && m.token in s.clients && m.request < |s.clients[m.token].past.log|
    then Some(s.clients[m.token].past.log[m.request].request)
    else None
  }

  lemma ProcessingIsNext(s: System, m: Move)
    requires Processed(s, m).Some?
    ensures Next(s, m) == OnRequest(s, m.token, m.request, Processed(s, m).value, m.digest, m.credential)
  {
    hide OnRequest;
  }

  lemma NothingIsProcessed(s: System, m: Move, id: string)
    requires !TouchesClients(m) && Processed(s, m).None? && !(m.ReplaceOnline? && m.id == id)
    ensures Get(Next(s, m).rows, id) == Get(s.rows, id)
  {
    OthersLeave(s, m);
    hide OnRequest;
    if !m.Process? && !m.ReplaceOnline? { hide Next; }
  }

  /** A publication of this id is processed, or another part of the application moves. */
  predicate Replaces(s: System, m: Move, id: string) {
    || (m.ReplaceOnline? && m.id == id)
    || (Processed(s, m).Some? && Processed(s, m).value.Publish? && Processed(s, m).value.publication.id == id)
  }

  /** A deletion of this id is processed and passes the service's own checks, and its
      operation had loaded exactly this version first. */
  predicate Deletes(s: System, m: Move, id: string, version: string) {
    var r := Processed(s, m);
    && r.Some? && r.value.DeleteOnline? && r.value.id == id
    && S.TouchOnline(s.row, s.now, r.value.lease, r.value.observed).Done?
    && var first := O.FirstLoad(s.clients[m.token].past.loads, id);
       first.Some? && first.value.digest == version
  }

  /** The digest a deletion carries is that of the version first loaded. */
  lemma ProcessedDeletionAims(s: System, m: Move)
    requires OnlineOk(s) && Processed(s, m).Some? && Processed(s, m).value.DeleteOnline?
    ensures
      var r := Processed(s, m).value;
      var first := O.FirstLoad(s.clients[m.token].past.loads, r.id);
      first.Some? && first.value.digest == r.digest
  {
    var past := s.clients[m.token].past;
    assert O.Inv(s.clients[m.token]);
    assert O.DispatchOk(past, past.log[m.request]);
  }

  lemma RequestMovesRow(s: System, token: string, request: nat, r: Request, digest: string, credential: Option<string>,
                        id: string)
    requires id in s.rows && !(r.Publish? && r.publication.id == id)
    ensures
      var rows := OnRequest(s, token, request, r, digest, credential).rows;
      var gone := r.DeleteOnline? && r.id == id && r.digest == s.rows[id]
                  && S.TouchOnline(s.row, s.now, r.lease, r.observed).Done?;
      Get(rows, id) == if gone then None else Some(s.rows[id])
  {
    if !r.Publish? && !r.DeleteOnline? { RequestLeaves(s, token, request, r, digest, credential); }
    hide S.TouchOnline, S.WriteOffline, S.DeleteOffline, OnCommit, OnRenew, Fits;
  }

  lemma DeleterOwns(s: System, m: Move, id: string, version: string)
    requires Inv(s) && Deletes(s, m, id, version)
    ensures s.row.owner == Some(m.token) && S.Live(s.row, s.now)
  {
    RequestIsWired(s, m.token, m.request);
    hide Inv, IsHex64, S.Counter, SameObservation;
  }

  lemma RowMoves(s: System, m: Move, id: string)
    requires Inv(s) && OnlineOk(s) && id in s.rows && !Replaces(s, m, id)
    ensures Get(Next(s, m).rows, id) == if Deletes(s, m, id, s.rows[id]) then None else Some(s.rows[id])
    ensures Deletes(s, m, id, s.rows[id]) ==> s.row.owner == Some(m.token) && S.Live(s.row, s.now)
  {
    if Deletes(s, m, id, s.rows[id]) { DeleterOwns(s, m, id, s.rows[id]); }
    if Processed(s, m).Some? && Processed(s, m).value.DeleteOnline? { ProcessedDeletionAims(s, m); }
    hide Inv, OnlineOk, OnRequest, S.TouchOnline, S.Live, Next, Processed;
    if TouchesClients(m) {
      ClientsLeaveRows(s, m);
    } else if Processed(s, m).Some? {
      ProcessingIsNext(s, m);
      RequestMovesRow(s, m.token, m.request, Processed(s, m).value, m.digest, m.credential, id);
    } else {
      NothingIsProcessed(s, m, id);
    }
  }

  /** A stored online row that is not published over goes exactly when a deletion of its
      id is processed whose operation had loaded this very version first, whatever has
      been stored or loaded since that deletion left and however late it arrives; and
      then the service holds the deleting operation's lease live. */
  lemma RowIsDeletedExactlyWhen(h: History, m: Move, id: string)
    requires Begins(h) && id in Reached(h).rows && !Replaces(Reached(h), m, id)
    ensures
      var s := Reached(h);
      && Get(Next(s, m).rows, id) == (if Deletes(s, m, id, s.rows[id]) then None else Some(s.rows[id]))
      && (Deletes(s, m, id, s.rows[id]) ==> s.row.owner == Some(m.token) && S.Live(s.row, s.now))
  {
    ReachedKeeps(h);
    ReachedKeepsOnline(h);
    RowMoves(Reached(h), m, id);
  }

  // -------------------------------------------------------------- over every run

  /** In none of these moves is the row published over, or deleted by an operation that had
      loaded this version first. */
  predicate Undisturbed(s: System, moves: seq<Move>, id: string, version: string)
    decreases |moves|
  {
    moves == []
    || (!Replaces(s, moves[0], id) && !Deletes(s, moves[0], id, version)
        && Undisturbed(Next(s, moves[0]), moves[1..], id, version))
  }

  /** An online row stays through every run in which it is neither published over nor
      deleted by an operation that had loaded this very version first: deletions aimed at
      another version spare it, however long the network delays or repeats them. */
  lemma DelayedDeletionSparesOtherRows(h: History, id: string, later: seq<Move>)
    requires Begins(h) && id in Reached(h).rows && Undisturbed(Reached(h), later, id, Reached(h).rows[id])
    ensures Get(Go(Reached(h), later).rows, id) == Some(Reached(h).rows[id])
  {
    ReachedKeeps(h);
    ReachedKeepsOnline(h);
    RowStays(Reached(h), id, later);
  }

  lemma {:induction false} RowStays(s: System, id: string, later: seq<Move>)
    requires Inv(s) && OnlineOk(s) && id in s.rows && Undisturbed(s, later, id, s.rows[id])
    ensures Get(Go(s, later).rows, id) == Some(s.rows[id])
    decreases |later|
  {
    hide Inv, OnlineOk, Next, Replaces, Deletes;
    if later != [] {
      RowMoves(s, later[0], id);
      NextKeeps(s, later[0]);
      NextKeepsOnline(s, later[0]);
      RowStays(Next(s, later[0]), id, later[1..]);
    }
  }
}
