/** Check-out gives exclusion, and the two rules callers must respect are exactly what is needed. */
module ProtocolDiscipline {
  import opened Common
  import opened RequestCore
  import opened Protocol
  import opened TokenLife
  import opened ProtocolInvariant

  // ----- exclusion -----

  /** In every reachable state a request whose handler is running is in its registry, held by nobody,
      or out of it, held by exactly one thread. */
  lemma RequestIsExclusive(steps: seq<Step>, r: Rid)
    requires DisciplinedRun(steps) && r in Run(steps).requests && Run(steps).requests[r].phase == Running
    ensures var s := Run(steps);
            if r in s.registry then Quiescent(s, r)
            else exists t :: t in s.threads && HeldRequest(s.threads[t]) == Some(r)
                             && forall u | u in s.threads && HeldRequest(s.threads[u]) == Some(r) :: u == t
  {
    RunInv(steps);
    var s := Run(steps);
    if r in s.registry {
      forall u | u in s.threads ensures HeldRequest(s.threads[u]) != Some(r) { assert ThreadOk(s, u); }
    } else {
      assert RequestHeld(s, r);
      var t :| t in s.threads && HeldRequest(s.threads[t]) == Some(r);
      OthersApart(s, t);
    }
  }

  ghost predicate FreeOfThreads(s: State, o: Oid) {
    forall t | t in s.threads :: HeldObject(s.threads[t]) != Some(o)
  }

  lemma LeakedIffLogged(s: State, o: Oid)
    requires Inv(s) && o in s.delayed
    ensures o in s.leaked <==> LeakLogged(s.events, s.delayed[o].tok)
  {
    var tok := s.delayed[o].tok;
    assert TokenOk(s, tok) && DelayedOk(s, o);
    StrandedIffLeaked(s.events, tok);
  }

  /** A delayed writer or retained websocket is in exactly one of three situations: leaked, which means a close of it
      threw, in its registry with its token, or out of it and held by exactly one thread. */
  lemma DelayedIsExclusive(steps: seq<Step>, o: Oid)
    requires DisciplinedRun(steps) && o in Run(steps).delayed
    ensures o in Run(steps).leaked <==> LeakLogged(Run(steps).events, Run(steps).delayed[o].tok)
    ensures var s := Run(steps);
            var h := Handle(s.delayed[o].kind, o);
            if o in s.leaked then h !in s.handles && FreeOfThreads(s, o)
            else if h in s.handles then s.delayed[o].holdsToken && FreeOfThreads(s, o)
            else exists t :: t in s.threads && HeldObject(s.threads[t]) == Some(o)
                             && forall u | u in s.threads && HeldObject(s.threads[u]) == Some(o) :: u == t
  {
    RunInv(steps);
    var s := Run(steps);
    var h := Handle(s.delayed[o].kind, o);
    LeakedIffLogged(s, o);
    if o in s.leaked || h in s.handles {
      if h in s.handles { assert Usable(s, h); }
      forall u | u in s.threads ensures HeldObject(s.threads[u]) != Some(o) { assert ThreadOk(s, u); }
    } else {
      assert ObjectHeld(s, o);
      var t :| t in s.threads && HeldObject(s.threads[t]) == Some(o);
      OthersApart(s, t);
    }
  }

  // ----- the rules are needed -----

  /** Some disciplined continuation uses a dead object or a moved-away token. */
  ghost predicate CanFault(s: State) {
    exists steps :: DisciplinedFrom(s, steps) && RunFrom(s, steps).fault
  }

  lemma FaultLater(s: State, step: Step)
    requires Enabled(s, step) && Disciplined(s, step) && CanFault(Do(s, step))
    ensures CanFault(s)
  {
    var steps :| DisciplinedFrom(Do(s, step), steps) && RunFrom(Do(s, step), steps).fault;
    RunFromCons(s, step, steps);
  }

  lemma FaultNow(s: State)
    requires s.fault
    ensures CanFault(s)
  {
    assert DisciplinedFrom(s, []) && RunFrom(s, []).fault;
  }

  lemma InvIsSafe(s: State)
    requires Inv(s)
    ensures !CanFault(s)
  {
    forall steps | DisciplinedFrom(s, steps) ensures !RunFrom(s, steps).fault {
      RunFromInv(s, steps);
    }
  }

  lemma {:induction false} Bound(ks: set<nat>) returns (b: nat)
    ensures forall k | k in ks :: k < b
  {
    if ks == {} {
      b := 0;
    } else {
      var k :| k in ks;
      var rest := Bound(ks - {k});
      b := if k < rest then rest else k + 1;
      assert forall j | j in ks :: j == k || j in ks - {k};
    }
  }

  /** A thread inside a call on a request that is already gone. */
  lemma HolderOfDeadFaults(s: State, t: Tid, r: Rid)
    requires t in s.threads && HeldRequest(s.threads[t]) == Some(r) && r !in s.requests
    ensures CanFault(s)
  {
    var pc := s.threads[t];
    if pc.Admitted? {
      var addr := Bound(s.delayed.Keys);
      assert addr !in s.delayed.Keys;
      FaultNow(Do(s, TakeEffect(t, addr)));
      FaultLater(s, TakeEffect(t, addr));
    } else if pc.calls != [] {
      FaultNow(Do(s, PassGate(t)));
      FaultLater(s, PassGate(t));
    } else {
      PutBackOfDeadFaults(s, t, r);
    }
  }

  /** A dead request put back into the registry is found by the next call on its handle. */
  lemma PutBackOfDeadFaults(s: State, t: Tid, r: Rid)
    requires Enabled(s, PutBack(t)) && s.threads[t].r == r && r !in s.requests
    ensures CanFault(s)
  {
    var s1 := Do(s, PutBack(t));
    var u := Bound(s1.threads.Keys);
    assert u !in s1.threads.Keys;
    var begin := Begin(u, r, [SendLater]);
    var s2 := Do(s1, begin);
    assert s2.threads[u] == Calling(r, [SendLater], [], None);
    FaultNow(Do(s2, PassGate(u)));
    FaultLater(s2, PassGate(u));
    FaultLater(s1, begin);
    FaultLater(s, PutBack(t));
  }

  /** The server finishes and destroys a returned request whatever the threads do. */
  lemma ReturnedGetsDestroyed(s: State, r: Rid, t: Tid)
    requires r in s.requests && s.requests[r].phase == Returned
    requires t in s.threads && HeldRequest(s.threads[t]) == Some(r)
    ensures CanFault(s)
  {
    var s1 := Do(s, FinishCas(r));
    if s1.requests[r].phase == Finishing {
      var s2 := Do(s1, FinishEffect(r));
      FinishedGetsDestroyed(s2, r, t);
      FaultLater(s1, FinishEffect(r));
    } else {
      FinishedGetsDestroyed(s1, r, t);
    }
    FaultLater(s, FinishCas(r));
  }

  lemma FinishedGetsDestroyed(s: State, r: Rid, t: Tid)
    requires r in s.requests && s.requests[r].phase == Finished
    requires t in s.threads && HeldRequest(s.threads[t]) == Some(r)
    ensures CanFault(s)
  {
    HolderOfDeadFaults(Do(s, Destroy(r)), t, r);
    FaultLater(s, Destroy(r));
  }

  /** The callback may return safely exactly when no thread holds its request: the `remove` that ends the
      callback does not wait, and any thread still holding the request will then use it after its end. */
  lemma ReturnIsSafeIffQuiescent(s: State, r: Rid)
    requires Inv(s) && Enabled(s, Return(r))
    ensures CanFault(Do(s, Return(r))) <==> !Quiescent(s, r)
  {
    if Quiescent(s, r) {
      ReturnInv(s, r);
      InvIsSafe(Do(s, Return(r)));
    } else {
      var t :| t in s.threads && HeldRequest(s.threads[t]) == Some(r);
      ReturnedGetsDestroyed(Do(s, Return(r)), r, t);
    }
  }

  /** Reading request metadata (or a websocket message) is safe exactly while the token is still there. */
  lemma ReadIsSafeIffTokenHeld(s: State, t: Tid, r: Rid, c: Call)
    requires Inv(s) && t !in s.threads && r in s.registry && ReadsToken(s.requests[r].obj.kind, c)
    ensures CanFault(Do(s, Begin(t, r, [c]))) <==> !s.requests[r].obj.holdsToken
  {
    var begin := Begin(t, r, [c]);
    if s.requests[r].obj.holdsToken {
      BeginInv(s, t, r, [c]);
      InvIsSafe(Do(s, begin));
    } else {
      var s1 := Do(s, begin);
      assert s1.threads[t] == Calling(r, [c], [], None);
      var s2 := Do(s1, PassGate(t));
      assert s2.threads[t] == Admitted(r, s.requests[r].tok, c, [], []);
      var addr := Bound(s2.delayed.Keys);
      assert addr !in s2.delayed.Keys;
      FaultNow(Do(s2, TakeEffect(t, addr)));
      FaultLater(s2, TakeEffect(t, addr));
      FaultLater(s1, PassGate(t));
    }
  }
}
