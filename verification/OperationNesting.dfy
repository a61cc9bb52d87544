/** Any number of calls of `runOperation`, nested, side by side or left running. A call
    joins the operation that surrounds it while that is open, and otherwise opens one of
    its own; which operation surrounds a call, and in which order calls end, is the
    environment's choice. */
module OperationNesting {
  import opened Wrappers
  import opened Contract
  import opened SessionClient
  import opened OperationContext
  import opened OperationSafety

  datatype Call = Call(context: nat, owns: bool, ended: bool)

  /** `starts` and `seen` are history: when each operation was opened, and all that has
      happened to it since. */
  datatype Calls = Calls(
    calls: seq<Call>,
    contexts: seq<Operation>,
    starts: seq<int>,
    seen: seq<seq<Occurrence>>)

  datatype Move =
    | Enter(store: Option<nat>, now: int)
    | End(call: nat, threw: bool)
    | Within(context: nat, occurrence: Occurrence)

  function Idle(): Calls {
    Calls([], [], [], [])
  }

  /** The end of a body is the end of a call; the rest happens inside an operation. */
  predicate EndsBody(e: Occurrence) {
    e.BodyReturned? || e.BodyThrew?
  }

  predicate Joins(s: Calls, store: Option<nat>) {
    store.Some? && store.value < |s.contexts| && !s.contexts[store.value].closed
  }

  function Happens(s: Calls, i: nat, e: Occurrence): Calls
    requires i < |s.contexts| == |s.seen|
  {
    s.(contexts := s.contexts[i := Next(s.contexts[i], e)], seen := s.seen[i := s.seen[i] + [e]])
  }

  function OnEnter(s: Calls, store: Option<nat>, now: int): Calls {
    if Joins(s, store) then s.(calls := s.calls + [Call(store.value, false, false)])
    else
      s.(calls := s.calls + [Call(|s.contexts|, true, false)],
         contexts := s.contexts + [Opened(now)],
         starts := s.starts + [now],
         seen := s.seen + [[]])
  }

  /** A nested call just returns or throws; only the call that opened an operation goes on
      to check and close it. */
  function OnEnd(s: Calls, k: nat, threw: bool): Calls
    requires Shaped(s)
  {
    if k < |s.calls| && !s.calls[k].ended
    then
      var t := s.(calls := s.calls[k := s.calls[k].(ended := true)]);
      if s.calls[k].owns then Happens(t, s.calls[k].context, if threw then BodyThrew else BodyReturned) else t
    else s
  }

  /** Every call runs in an operation. */
  predicate Shaped(s: Calls) {
    && |s.contexts| == |s.starts| == |s.seen|
    && forall k :: 0 <= k < |s.calls| ==> s.calls[k].context < |s.contexts|
  }

  function Step(s: Calls, m: Move): (t: Calls)
    requires Shaped(s)
    ensures Shaped(t)
  {
    match m
    case Enter(store, now) => OnEnter(s, store, now)
    case End(k, threw) => OnEnd(s, k, threw)
    case Within(i, e) => if i < |s.contexts| && !EndsBody(e) then Happens(s, i, e) else s
  }

  function Run(s: Calls, moves: seq<Move>): (t: Calls)
    requires Shaped(s)
    ensures Shaped(t)
    decreases |moves|
  {
    if moves == [] then s else Run(Step(s, moves[0]), moves[1..])
  }

  // -------------------------------------------------------------- the invariant

  function Ends(seen: seq<Occurrence>): nat {
    if seen == [] then 0 else Ends(seen[..|seen| - 1]) + if EndsBody(seen[|seen| - 1]) then 1 else 0
  }

  lemma EndsAfter(seen: seq<Occurrence>, e: Occurrence)
    ensures Ends(seen + [e]) == Ends(seen) + if EndsBody(e) then 1 else 0
  {
    assert (seen + [e])[..|seen|] == seen;
  }

  lemma {:induction false} ConductThen(o: Operation, events: seq<Occurrence>, e: Occurrence)
    ensures Conduct(o, events + [e]) == Next(Conduct(o, events), e)
    decreases |events|
  {
    hide Next;
    if events == [] {
      assert [] + [e] == [e] && [e][1..] == [];
    } else {
      assert (events + [e])[1..] == events[1..] + [e];
      ConductThen(Next(o, events[0]), events[1..], e);
    }
  }

  predicate Owns(s: Calls, k: nat, i: nat) {
    k < |s.calls| && s.calls[k].owns && s.calls[k].context == i
  }

  /** Operation `i` went through what it has seen, its body has ended as often as the call
      `k` that opened it, and no other call opened it. */
  ghost predicate OwnedBy(s: Calls, i: nat, k: nat)
    requires Shaped(s) && i < |s.contexts|
  {
    && Owns(s, k, i) && (forall j: nat :: Owns(s, j, i) ==> j == k)
    && Ends(s.seen[i]) == (if s.calls[k].ended then 1 else 0)
    && (s.contexts[i].phase.Working? <==> !s.calls[k].ended)
  }

  ghost predicate ContextOk(s: Calls, i: nat)
    requires Shaped(s) && i < |s.contexts|
  {
    s.contexts[i] == Conduct(Opened(s.starts[i]), s.seen[i]) && exists k: nat :: OwnedBy(s, i, k)
  }

  ghost predicate NestingOk(s: Calls) {
    Shaped(s) && forall i :: 0 <= i < |s.contexts| ==> ContextOk(s, i)
  }

  lemma BodyEnds(o: Operation, e: Occurrence)
    ensures Next(o, e).phase.Working? <==> o.phase.Working? && !EndsBody(e)
  {
    hide AllHeld, AllOwned, NoneAcquiring, AllReleased, SessionClient.Step, Closing, StoppingHeartbeats;
  }

  /** The calls of `s` are in `t` what they were, but for having ended. */
  predicate SameCalls(s: Calls, t: Calls) {
    && |s.calls| <= |t.calls|
    && forall k :: 0 <= k < |s.calls| ==>
         t.calls[k].context == s.calls[k].context && t.calls[k].owns == s.calls[k].owns
  }

  lemma HappensKeeps(s: Calls, t: Calls, i: nat, e: Occurrence)
    requires Shaped(s) && i < |s.contexts| && ContextOk(s, i)
    requires t.contexts == s.contexts && t.starts == s.starts && t.seen == s.seen && |t.calls| == |s.calls| && Shaped(t)
    requires SameCalls(s, t)
    requires
      forall k: nat :: Owns(s, k, i) ==>
        if EndsBody(e) then !s.calls[k].ended && t.calls[k].ended else t.calls[k].ended == s.calls[k].ended
    ensures ContextOk(Happens(t, i, e), i)
  {
    var u := Happens(t, i, e);
    var k: nat :| OwnedBy(s, i, k);
    ConductThen(Opened(s.starts[i]), s.seen[i], e);
    EndsAfter(s.seen[i], e);
    BodyEnds(s.contexts[i], e);
    hide Next, Conduct, Ends;
    assert Owns(s, k, i) && Owns(u, k, i);
    forall j: nat | Owns(u, j, i) ensures j == k { assert Owns(s, j, i); }
    assert OwnedBy(u, i, k);
  }

  /** An operation that is not touched, and whose own call does not end. */
  lemma ApartKeeps(s: Calls, t: Calls, i: nat)
    requires Shaped(s) && Shaped(t) && i < |s.contexts| <= |t.contexts| && ContextOk(s, i)
    requires t.contexts[i] == s.contexts[i] && t.starts[i] == s.starts[i] && t.seen[i] == s.seen[i]
    requires SameCalls(s, t) && forall k: nat :: Owns(t, k, i) ==> k < |s.calls|
    requires forall k: nat :: Owns(s, k, i) ==> t.calls[k].ended == s.calls[k].ended
    ensures ContextOk(t, i)
  {
    hide Conduct, Ends;
    var k: nat :| OwnedBy(s, i, k);
    assert Owns(s, k, i) && Owns(t, k, i);
    forall j: nat | Owns(t, j, i) ensures j == k { assert Owns(s, j, i); }
    assert OwnedBy(t, i, k);
  }

  lemma EnterKeeps(s: Calls, store: Option<nat>, now: int)
    requires NestingOk(s)
    ensures NestingOk(OnEnter(s, store, now))
  {
    var t := OnEnter(s, store, now);
    forall i | 0 <= i < |t.contexts| ensures ContextOk(t, i) {
      if i < |s.contexts| {
        ApartKeeps(s, t, i);
      } else {
        assert OwnedBy(t, i, |s.calls|);
      }
    }
  }

  lemma EndKeeps(s: Calls, k: nat, threw: bool)
    requires NestingOk(s)
    ensures NestingOk(OnEnd(s, k, threw))
  {
    var u := OnEnd(s, k, threw);
    if u == s { return; }
    var t := s.(calls := s.calls[k := s.calls[k].(ended := true)]);
    var n := s.calls[k].context;
    forall i | 0 <= i < |u.contexts| ensures ContextOk(u, i) {
      if i == n && s.calls[k].owns {
        assert Owns(s, k, i);
        SoleOwner(s, i, k);
        HappensKeeps(s, t, i, if threw then BodyThrew else BodyReturned);
      } else {
        ApartKeeps(s, u, i);
      }
    }
  }

  lemma SoleOwner(s: Calls, i: nat, k: nat)
    requires NestingOk(s) && i < |s.contexts| && Owns(s, k, i)
    ensures OwnedBy(s, i, k)
  {
    assert ContextOk(s, i);
    var j: nat :| OwnedBy(s, i, j);
  }

  lemma WithinKeeps(s: Calls, i: nat, e: Occurrence)
    requires NestingOk(s) && i < |s.contexts| && !EndsBody(e)
    ensures NestingOk(Happens(s, i, e))
  {
    var t := Happens(s, i, e);
    forall j | 0 <= j < |t.contexts| ensures ContextOk(t, j) {
      if j == i { HappensKeeps(s, s, i, e); } else { ApartKeeps(s, t, j); }
    }
  }

  lemma StepKeeps(s: Calls, m: Move)
    requires NestingOk(s)
    ensures NestingOk(Step(s, m))
  {
    hide NestingOk, OnEnter, OnEnd, Happens;
    match m {
      case Enter(store, now) => EnterKeeps(s, store, now);
      case End(k, threw) => EndKeeps(s, k, threw);
      case Within(i, e) => if i < |s.contexts| && !EndsBody(e) { WithinKeeps(s, i, e); }
    }
  }

  lemma {:induction false} RunKeeps(s: Calls, moves: seq<Move>)
    requires NestingOk(s)
    ensures NestingOk(Run(s, moves))
    decreases |moves|
  {
    assert Shaped(s);
    hide NestingOk, Step;
    if moves != [] {
      StepKeeps(s, moves[0]);
      RunKeeps(Step(s, moves[0]), moves[1..]);
    }
  }

  // --------------------------------------------------------------------- promises

  /** However calls nest and in whichever order they end, exactly one call owns each
      operation. The operation goes through a run as OperationSafety has it, in which its
      body ends when that call does and at no other time. Until then it is not checked,
      not closed and releases nothing, whatever nested calls have returned or thrown. */
  lemma OnlyOutermostCallCloses(moves: seq<Move>, i: nat) returns (k: nat)
    requires i < |Run(Idle(), moves).contexts|
    ensures
      var s := Run(Idle(), moves);
      && Owns(s, k, i) && (forall j: nat :: Owns(s, j, i) ==> j == k)
      && s.contexts[i] == Conduct(Opened(s.starts[i]), s.seen[i])
      && Ends(s.seen[i]) == (if s.calls[k].ended then 1 else 0)
      && (!s.calls[k].ended ==> Untouched(s.contexts[i]))
  {
    RunKeeps(Idle(), moves);
    var s := Run(Idle(), moves);
    assert ContextOk(s, i);
    k :| OwnedBy(s, i, k);
    ConductKeeps(Opened(s.starts[i]), s.seen[i]);
    if !s.calls[k].ended { WorkingIsUntouched(s.contexts[i]); }
    hide Inv, Conduct;
  }

  /** Open, with every lease it has taken held on to and beating. */
  predicate Untouched(o: Operation) {
    && !o.closed
    && forall shop :: shop in o.pending && o.pending[shop].Held? ==>
         var c := o.pending[shop].client;
         !c.closed && c.drain.Running? && Releases(c.past.log) == 0
  }

  lemma WorkingIsUntouched(o: Operation)
    requires Inv(o) && o.phase.Working?
    ensures Untouched(o)
  {
    forall shop | shop in o.pending && o.pending[shop].Held?
      ensures
        var c := o.pending[shop].client;
        !c.closed && c.drain.Running? && Releases(c.past.log) == 0 {
      assert HeldOk(o.pending[shop].client, o.closed, o.phase);
    }
  }

  /** So each lease of each operation is released once by its end and never twice, and not
      before the call that opened the operation has ended. */
  lemma LeasesAreReleasedByTheirCall(moves: seq<Move>, i: nat, shop: string) returns (k: nat)
    requires i < |Run(Idle(), moves).contexts| && shop in Run(Idle(), moves).contexts[i].pending
    requires Run(Idle(), moves).contexts[i].pending[shop].Held?
    ensures
      var s := Run(Idle(), moves);
      var releases := Releases(s.contexts[i].pending[shop].client.past.log);
      && Owns(s, k, i) && releases <= 1 && (releases == 1 ==> s.calls[k].ended)
      && (s.contexts[i].phase.Finished? ==> releases == 1)
  {
    k := OnlyOutermostCallCloses(moves, i);
    var s := Run(Idle(), moves);
    EveryLeaseIsReleasedOnce(s.starts[i], s.seen[i], shop);
    hide Conduct, Run;
  }
}
