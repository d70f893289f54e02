/** One inductive invariant of the interleaved system, kept by every disciplined step. */
module ProtocolInvariant {
  import opened Common
  import opened Metadata
  import opened RequestCore
  import opened Protocol
  import opened TokenLife

  function LifeIn(s: State, tok: Tok): Life {
    LifeOf(s.events, tok)
  }

  /** Request `r` holds this token, with this state. */
  predicate InRequest(s: State, tok: Tok, r: Rid, obj: Obj) {
    r in s.requests && s.requests[r].tok == tok && s.requests[r].obj == obj
  }

  /** Delayed object `o` holds this token. */
  predicate InObject(s: State, tok: Tok, o: Oid, kind: Kind) {
    o in s.delayed && s.delayed[o] == Delayed(kind, tok, true)
  }

  /** Who claimed request `r` is at work on it. */
  predicate AtWork(s: State, r: Rid, kind: Kind, who: Claimant)
    requires r in s.requests
  {
    match who
    case Server => s.requests[r].phase == Finishing
    case Thread(t) =>
      s.requests[r].phase == Running && t in s.threads && s.threads[t].Admitted?
      && s.threads[t].r == r && Commits(kind, s.threads[t].call)
  }

  /** The object named by the life of a token holds that token, in the state the life says. */
  ghost predicate PlaceOk(s: State, tok: Tok) {
    match LifeIn(s, tok)
    case Open(r, kind, _) => InRequest(s, tok, r, Obj(kind, Created, true))
    case Claimed(r, kind, who, _) => InRequest(s, tok, r, Obj(kind, Committed, true)) && AtWork(s, r, kind, who)
    case Abandoned(r, kind, _) =>
      InRequest(s, tok, r, Obj(kind, Committed, true)) && s.requests[r].phase != Finishing
    case Held(o, kind, _) => InObject(s, tok, o, kind) && o !in s.leaked
    case Failing(o, kind, _) => InObject(s, tok, o, kind) && o !in s.leaked
    case Stranded(o, kind, _) => InObject(s, tok, o, kind) && o in s.leaked
    case _ => true
  }

  /** Transport and sender are as the life says. */
  predicate Backed(s: State, tok: Tok) {
    var life := LifeIn(s, tok);
    && life != Illegal
    && (tok in s.transports <==> life != Unborn)
    && (tok in s.transports ==> s.transports[tok] == life.transport)
    && (tok in s.senders <==> life.Streaming?)
  }

  ghost predicate TokenOk(s: State, tok: Tok) {
    Backed(s, tok) && PlaceOk(s, tok)
  }

  lemma EmitBacked(s: State, tok: Tok, what: What)
    requires Backed(s, tok) && Next(LifeIn(s, tok), what) != Illegal
    ensures Backed(Emit(s, tok, what), tok)
  {
    LifeOfSnoc(s.events, Event(tok, what), tok);
  }

  /** Past its request. */
  predicate GivenAway(life: Life) {
    life.Streaming? || life.Held? || life.Failing? || life.Stranded? || life.Ended?
  }

  /** A request that holds its token is the one its token's life names; one that does not has committed it away. */
  ghost predicate RequestOk(s: State, r: Rid) {
    r in s.requests &&
    var req := s.requests[r];
    var life := LifeIn(s, req.tok);
    && (req.obj.holdsToken ==> (life.Open? || life.Claimed? || life.Abandoned?) && life.r == r)
    && (!req.obj.holdsToken ==> req.obj.state == Committed && GivenAway(life))
    && (req.phase != Running ==> r !in s.registry)
    && (req.phase == Finishing ==> life.Claimed? && life.r == r)
    && (req.phase == Finished ==> req.obj.state == Committed)
  }

  ghost predicate DelayedOk(s: State, o: Oid) {
    o in s.delayed &&
    var d := s.delayed[o];
    var life := LifeIn(s, d.tok);
    if d.holdsToken then (life.Held? || life.Failing? || life.Stranded?) && life.o == o else life.Ended?
  }

  /** A delayed object ready for use. */
  predicate Usable(s: State, h: Handle) {
    && h.o in s.delayed && s.delayed[h.o].kind == h.kind && s.delayed[h.o].holdsToken && h.o !in s.leaked
    && LifeIn(s, s.delayed[h.o].tok).Held?
  }

  ghost predicate ReadsSafe(s: State, r: Rid, calls: seq<Call>)
    requires r in s.requests
  {
    forall c | c in calls :: ReadsToken(s.requests[r].obj.kind, c) ==> s.requests[r].obj.holdsToken
  }

  /** What is left of a script after its first call: nothing, or the send of `send_system_error`. */
  predicate IsTail(calls: seq<Call>) {
    calls == [] || (|calls| == 1 && calls[0].SendResponse?)
  }

  predicate CheckedOut(s: State, r: Rid) {
    r in s.requests && s.requests[r].phase == Running && r !in s.registry
  }

  ghost predicate ThreadOk(s: State, t: Tid) {
    t in s.threads &&
    match s.threads[t]
    case Calling(r, calls, _, out) =>
      && CheckedOut(s, r) && ReadsSafe(s, r, calls) && (IsScript(calls) || IsTail(calls))
      && (out.Some? ==> calls == [] && Usable(s, out.value) && out.value !in s.handles
                        && s.delayed[out.value.o].tok == s.requests[r].tok)
    case Admitted(r, tok, call, rest, _) =>
      && CheckedOut(s, r) && tok == s.requests[r].tok && IsTail(rest)
      && (call.SendLater? || call.RetainWebSocket? ==> rest == [])
      && (if Commits(s.requests[r].obj.kind, call) then
            LifeIn(s, s.requests[r].tok).Claimed? && LifeIn(s, s.requests[r].tok).who == Thread(t)
          else
            (call.SetMetadata? && s.requests[r].obj.kind == Http && s.requests[r].obj.state == Created)
            || ((call.ReadMetadata? || call.ReadData? || call.ReadForm? || call.ReadFilename?)
                && ReadsSafe(s, r, [call])))
    case Registering(h) => Usable(s, h) && h !in s.handles
    case Using(o, op) => Usable(s, Handle(OpKind(op), o)) && Handle(OpKind(op), o) !in s.handles
    case PuttingBack(o) => Usable(s, Handle(Http, o)) && Handle(Http, o) !in s.handles
    case Deleting(o) =>
      && o in s.delayed && o !in s.leaked
      && (s.delayed[o].holdsToken ==> LifeIn(s, s.delayed[o].tok).Failing?)
      && Handle(Http, o) !in s.handles && Handle(WebSocket, o) !in s.handles
  }

  /** Two threads never hold the same request or the same delayed object. */
  predicate Apart(p: Pc, q: Pc) {
    && (HeldRequest(p).None? || HeldRequest(p) != HeldRequest(q))
    && (HeldObject(p).None? || HeldObject(p) != HeldObject(q))
  }

  ghost predicate Exclusive(s: State) {
    forall t, u | t in s.threads && u in s.threads && t != u :: Apart(s.threads[t], s.threads[u])
  }

  ghost predicate RequestHeld(s: State, r: Rid) {
    exists t :: t in s.threads && HeldRequest(s.threads[t]) == Some(r)
  }

  ghost predicate ObjectHeld(s: State, o: Oid) {
    exists t :: t in s.threads && HeldObject(s.threads[t]) == Some(o)
  }

  /** No request is lost while its handler runs, and no delayed object ever, except a leaked one. */
  ghost predicate Accounted(s: State) {
    && (forall r | r in s.requests && s.requests[r].phase == Running :: r in s.registry || RequestHeld(s, r))
    && (forall o | o in s.delayed ::
          o in s.leaked || Handle(s.delayed[o].kind, o) in s.handles || ObjectHeld(s, o))
  }

  ghost predicate Inv(s: State) {
    && !s.fault
    && (forall tok: Tok :: TokenOk(s, tok))
    && (forall r | r in s.requests :: RequestOk(s, r))
    && (forall r | r in s.registry :: r in s.requests)
    && (forall o | o in s.delayed :: DelayedOk(s, o))
    && (forall h | h in s.handles :: Usable(s, h))
    && (forall o | o in s.leaked :: o in s.delayed && LifeIn(s, s.delayed[o].tok).Stranded?)
    && (forall t | t in s.threads :: ThreadOk(s, t))
    && Exclusive(s)
    && Accounted(s)
  }

  lemma InitialInv()
    ensures Inv(INITIAL)
  {
  }

  /** The events after one more. */
  lemma EmitLife(s: State, tok: Tok, what: What, other: Tok)
    ensures LifeIn(Emit(s, tok, what), other) ==
            if other == tok then Next(LifeIn(s, tok), what) else LifeIn(s, other)
  {
    LifeOfSnoc(s.events, Event(tok, what), other);
  }

  lemma EmitLives(s: State, tok: Tok, what: What)
    ensures forall other: Tok :: LifeIn(Emit(s, tok, what), other) ==
                                 if other == tok then Next(LifeIn(s, tok), what) else LifeIn(s, other)
  {
    forall other: Tok ensures LifeIn(Emit(s, tok, what), other) ==
                              if other == tok then Next(LifeIn(s, tok), what) else LifeIn(s, other)
    {
      EmitLife(s, tok, what, other);
    }
  }

  /** The life of the token of a request. */
  lemma RequestLife(s: State, r: Rid)
    requires Inv(s) && r in s.requests
    ensures var req := s.requests[r];
            req.tok in s.transports
            && (req.obj.holdsToken ==>
                  match LifeIn(s, req.tok)
                  case Open(q, kind, x) => q == r && req.obj == Obj(kind, Created, true)
                  case Claimed(q, kind, _, x) => q == r && req.obj == Obj(kind, Committed, true)
                  case Abandoned(q, kind, x) => q == r && req.obj == Obj(kind, Committed, true)
                  case _ => false)
  {
    var tok := s.requests[r].tok;
    assert RequestOk(s, r) && TokenOk(s, tok) && PlaceOk(s, tok);
  }

  // ----- what a step leaves alone -----

  /** The request, delayed object, token and thread a step is about. */
  datatype Scope = Scope(r: Option<Rid>, o: Option<Oid>, tok: Tok, t: Option<Tid>)

  predicate SameRequest(s: State, s': State, q: Rid) {
    && (q in s'.requests <==> q in s.requests)
    && (q in s.requests && q in s'.requests ==> s'.requests[q] == s.requests[q])
    && (q in s'.registry <==> q in s.registry)
  }

  predicate SameObject(s: State, s': State, p: Oid) {
    && (p in s'.delayed <==> p in s.delayed)
    && (p in s.delayed && p in s'.delayed ==> s'.delayed[p] == s.delayed[p])
    && (p in s'.leaked <==> p in s.leaked)
    && (Handle(Http, p) in s'.handles <==> Handle(Http, p) in s.handles)
    && (Handle(WebSocket, p) in s'.handles <==> Handle(WebSocket, p) in s.handles)
  }

  predicate SameToken(s: State, s': State, k: Tok) {
    && LifeIn(s', k) == LifeIn(s, k)
    && (k in s'.transports <==> k in s.transports)
    && (k in s.transports && k in s'.transports ==> s'.transports[k] == s.transports[k])
    && (k in s'.senders <==> k in s.senders)
  }

  predicate SameThread(s: State, s': State, u: Tid) {
    && (u in s'.threads <==> u in s.threads)
    && (u in s.threads && u in s'.threads ==> s'.threads[u] == s.threads[u])
  }

  ghost predicate SameElsewhere(s: State, s': State, w: Scope) {
    && (forall q: Rid | w.r != Some(q) :: SameRequest(s, s', q))
    && (forall p: Oid | w.o != Some(p) :: SameObject(s, s', p))
    && (forall k: Tok | k != w.tok :: SameToken(s, s', k))
    && (forall u: Tid | w.t != Some(u) :: SameThread(s, s', u))
  }

  /** The token of the scope was, if its life changes, with the scope's request or object. */
  predicate LifeInScope(s: State, s': State, w: Scope) {
    var life, life' := LifeIn(s, w.tok), LifeIn(s', w.tok);
    || life' == life
    || life == Unborn
    || ((life.Open? || life.Claimed? || life.Abandoned?) && w.r == Some(life.r))
    || (life.Held? && w.o == Some(life.o)
        && (life'.Held? || life'.Failing? || life'.Stranded? || life'.Ended?))
    || (life.Failing? && w.o == Some(life.o) && life'.Ended?)
    || (life.Streaming? && life'.Ended?)
  }

  predicate HoldsWithin(pc: Pc, w: Scope) {
    && (HeldRequest(pc).None? || HeldRequest(pc) == w.r)
    && (HeldObject(pc).None? || HeldObject(pc) == w.o)
  }

  /** Nobody but the scope's thread holds the scope's request or object. */
  ghost predicate ScopeIsOwn(s: State, w: Scope) {
    && (w.r.Some? && w.r.value in s.requests ==> s.requests[w.r.value].tok == w.tok)
    && (w.o.Some? && w.o.value in s.delayed ==> s.delayed[w.o.value].tok == w.tok)
    && (w.t.Some? && w.t.value in s.threads ==> HoldsWithin(s.threads[w.t.value], w))
    && (forall u | u in s.threads && w.t != Some(u) ::
          && (w.r.None? || HeldRequest(s.threads[u]) != w.r)
          && (w.o.None? || HeldObject(s.threads[u]) != w.o))
  }

  /** The invariant for what the step is about. */
  ghost predicate ScopeOk(s: State, w: Scope) {
    && !s.fault
    && TokenOk(s, w.tok)
    && (w.r.Some? ==> (w.r.value in s.requests ==> RequestOk(s, w.r.value))
                      && (w.r.value in s.registry ==> w.r.value in s.requests))
    && (w.o.Some? ==>
          && (w.o.value in s.delayed ==> DelayedOk(s, w.o.value))
          && (Handle(Http, w.o.value) in s.handles ==> Usable(s, Handle(Http, w.o.value)))
          && (Handle(WebSocket, w.o.value) in s.handles ==> Usable(s, Handle(WebSocket, w.o.value)))
          && (w.o.value in s.leaked ==> w.o.value in s.delayed && LifeIn(s, s.delayed[w.o.value].tok).Stranded?))
    && (w.t.Some? && w.t.value in s.threads ==> ThreadOk(s, w.t.value) && HoldsWithin(s.threads[w.t.value], w))
    && (w.r.Some? && w.r.value in s.requests && s.requests[w.r.value].phase == Running ==>
          w.r.value in s.registry
          || (w.t.Some? && w.t.value in s.threads && HeldRequest(s.threads[w.t.value]) == w.r))
    && (w.o.Some? && w.o.value in s.delayed ==>
          w.o.value in s.leaked || Handle(s.delayed[w.o.value].kind, w.o.value) in s.handles
          || (w.t.Some? && w.t.value in s.threads && HeldObject(s.threads[w.t.value]) == w.o))
  }

  ghost predicate LocalStep(s: State, s': State, w: Scope) {
    Inv(s) && SameElsewhere(s, s', w) && LifeInScope(s, s', w) && ScopeIsOwn(s, w) && ScopeOk(s', w)
  }

  lemma LocalTokens(s: State, s': State, w: Scope, k: Tok)
    requires LocalStep(s, s', w)
    ensures TokenOk(s', k)
  {
    if k != w.tok {
      assert TokenOk(s, k) && SameToken(s, s', k);
      match LifeIn(s, k) {
        case Open(r, _, _) => assert w.r != Some(r) ==> SameRequest(s, s', r);
        case Failing(o, _, _) => assert w.o != Some(o) ==> SameObject(s, s', o);
        case Claimed(r, _, who, _) =>
          assert w.r != Some(r) ==> SameRequest(s, s', r);
          if who.Thread? { assert w.t != Some(who.t) ==> SameThread(s, s', who.t); }
        case Abandoned(r, _, _) => assert w.r != Some(r) ==> SameRequest(s, s', r);
        case Held(o, _, _) => assert w.o != Some(o) ==> SameObject(s, s', o);
        case Stranded(o, _, _) => assert w.o != Some(o) ==> SameObject(s, s', o);
        case _ =>
      }
    }
  }

  lemma LocalRequests(s: State, s': State, w: Scope, q: Rid)
    requires LocalStep(s, s', w)
    ensures q in s'.registry ==> q in s'.requests
    ensures q in s'.requests ==> RequestOk(s', q)
  {
    if w.r != Some(q) {
      assert SameRequest(s, s', q);
      if q in s.requests {
        assert RequestOk(s, q);
        assert s.requests[q].tok != w.tok ==> SameToken(s, s', s.requests[q].tok);
      }
    }
  }

  lemma LocalObjects(s: State, s': State, w: Scope, p: Oid)
    requires LocalStep(s, s', w)
    ensures p in s'.delayed ==> DelayedOk(s', p)
    ensures p in s'.leaked ==> p in s'.delayed && LifeIn(s', s'.delayed[p].tok).Stranded?
    ensures Handle(Http, p) in s'.handles ==> Usable(s', Handle(Http, p))
    ensures Handle(WebSocket, p) in s'.handles ==> Usable(s', Handle(WebSocket, p))
  {
    if w.o != Some(p) {
      assert SameObject(s, s', p);
      if p in s.delayed {
        assert DelayedOk(s, p);
        assert s.delayed[p].tok != w.tok ==> SameToken(s, s', s.delayed[p].tok);
        if Handle(Http, p) in s.handles { LocalUsable(s, s', w, Handle(Http, p)); }
        if Handle(WebSocket, p) in s.handles { LocalUsable(s, s', w, Handle(WebSocket, p)); }
      }
    }
  }

  /** A delayed object outside the scope stays usable. */
  lemma LocalUsable(s: State, s': State, w: Scope, h: Handle)
    requires LocalStep(s, s', w) && w.o != Some(h.o) && Usable(s, h)
    ensures Usable(s', h)
  {
    assert SameObject(s, s', h.o) && DelayedOk(s, h.o);
    assert s.delayed[h.o].tok != w.tok ==> SameToken(s, s', s.delayed[h.o].tok);
  }

  /** A request held by a thread outside the scope stays as it is. */
  lemma LocalHeldRequest(s: State, s': State, w: Scope, u: Tid)
    requires LocalStep(s, s', w) && u in s.threads && w.t != Some(u) && HeldRequest(s.threads[u]).Some?
    ensures var q := HeldRequest(s.threads[u]).value;
            CheckedOut(s, q) && CheckedOut(s', q) && s'.requests[q] == s.requests[q]
            && (LifeIn(s, s.requests[q].tok).Claimed? ==>
                  LifeIn(s', s.requests[q].tok) == LifeIn(s, s.requests[q].tok))
  {
    var q := HeldRequest(s.threads[u]).value;
    assert ThreadOk(s, u) && SameRequest(s, s', q) && RequestOk(s, q);
    var tok := s.requests[q].tok;
    assert tok != w.tok ==> SameToken(s, s', tok);
  }

  /** So does a delayed object held by such a thread. */
  lemma LocalHeldObject(s: State, s': State, w: Scope, u: Tid)
    requires LocalStep(s, s', w) && u in s.threads && w.t != Some(u) && HeldObject(s.threads[u]).Some?
    ensures var o := HeldObject(s.threads[u]).value;
            o in s.delayed && SameObject(s, s', o)
            && (Usable(s, Handle(s.delayed[o].kind, o)) ==> Usable(s', Handle(s.delayed[o].kind, o)))
            && (LifeIn(s, s.delayed[o].tok).Failing? ==> LifeIn(s', s.delayed[o].tok) == LifeIn(s, s.delayed[o].tok))
  {
    var o := HeldObject(s.threads[u]).value;
    assert ThreadOk(s, u) && SameObject(s, s', o) && DelayedOk(s, o);
    if Usable(s, Handle(s.delayed[o].kind, o)) {
      LocalUsable(s, s', w, Handle(s.delayed[o].kind, o));
    }
    if LifeIn(s, s.delayed[o].tok).Failing? {
      assert s.delayed[o].tok != w.tok ==> SameToken(s, s', s.delayed[o].tok);
    }
  }

  lemma LocalThreads(s: State, s': State, w: Scope, u: Tid)
    requires LocalStep(s, s', w) && u in s'.threads
    ensures ThreadOk(s', u)
  {
    if w.t != Some(u) {
      assert SameThread(s, s', u) && ThreadOk(s, u);
      if HeldRequest(s.threads[u]).Some? { LocalHeldRequest(s, s', w, u); }
      if HeldObject(s.threads[u]).Some? { LocalHeldObject(s, s', w, u); }
      SameThreadOk(s, s', u);
    }
  }

  /** A thread whose part of the state is unchanged is still in order. */
  lemma SameThreadOk(s: State, s': State, u: Tid)
    requires u in s.threads && u in s'.threads && s'.threads[u] == s.threads[u] && ThreadOk(s, u)
    requires HeldRequest(s.threads[u]).Some? ==>
               var q := HeldRequest(s.threads[u]).value;
               CheckedOut(s, q) && CheckedOut(s', q) && s'.requests[q] == s.requests[q]
               && (LifeIn(s, s.requests[q].tok).Claimed? ==>
                     LifeIn(s', s.requests[q].tok) == LifeIn(s, s.requests[q].tok))
    requires HeldObject(s.threads[u]).Some? ==>
               var o := HeldObject(s.threads[u]).value;
               o in s.delayed && SameObject(s, s', o)
               && (Usable(s, Handle(s.delayed[o].kind, o)) ==> Usable(s', Handle(s.delayed[o].kind, o)))
               && (LifeIn(s, s.delayed[o].tok).Failing? ==>
                     LifeIn(s', s.delayed[o].tok) == LifeIn(s, s.delayed[o].tok))
    ensures ThreadOk(s', u)
  {
    var kind := if HeldObject(s.threads[u]).Some? then s.delayed[HeldObject(s.threads[u]).value].kind else Http;
    assert kind == Http || kind == WebSocket;
  }

  lemma LocalExclusive(s: State, s': State, w: Scope)
    requires LocalStep(s, s', w)
    ensures Exclusive(s')
  {
    forall t, u | t in s'.threads && u in s'.threads && t != u ensures Apart(s'.threads[t], s'.threads[u]) {
      assert w.t != Some(t) ==> SameThread(s, s', t);
      assert w.t != Some(u) ==> SameThread(s, s', u);
    }
  }

  lemma LocalAccounted(s: State, s': State, w: Scope)
    requires LocalStep(s, s', w)
    ensures Accounted(s')
  {
    forall r | r in s'.requests && s'.requests[r].phase == Running ensures r in s'.registry || RequestHeld(s', r) {
      if w.r != Some(r) {
        assert SameRequest(s, s', r);
        if r !in s.registry {
          var t :| t in s.threads && HeldRequest(s.threads[t]) == Some(r);
          assert SameThread(s, s', t);
        }
      }
    }
    forall o | o in s'.delayed
      ensures o in s'.leaked || Handle(s'.delayed[o].kind, o) in s'.handles || ObjectHeld(s', o)
    {
      if w.o != Some(o) {
        assert SameObject(s, s', o);
        var kind := s.delayed[o].kind;
        assert kind == Http || kind == WebSocket;
        if o !in s.leaked && Handle(kind, o) !in s.handles {
          var t :| t in s.threads && HeldObject(s.threads[t]) == Some(o);
          assert SameThread(s, s', t);
        }
      }
    }
  }

  /** A step that stays within its scope keeps the invariant. */
  lemma LocalInv(s: State, s': State, w: Scope)
    requires LocalStep(s, s', w)
    ensures Inv(s')
  {
    forall k: Tok ensures TokenOk(s', k) { LocalTokens(s, s', w, k); }
    forall q: Rid ensures (q in s'.registry ==> q in s'.requests) && (q in s'.requests ==> RequestOk(s', q)) {
      LocalRequests(s, s', w, q);
    }
    forall p | p in s'.delayed ensures DelayedOk(s', p) { LocalObjects(s, s', w, p); }
    forall p | p in s'.leaked ensures p in s'.delayed && LifeIn(s', s'.delayed[p].tok).Stranded? {
      LocalObjects(s, s', w, p);
    }
    forall h | h in s'.handles ensures Usable(s', h) {
      LocalObjects(s, s', w, h.o);
      assert h.kind == Http || h.kind == WebSocket;
      assert h == Handle(h.kind, h.o);
    }
    forall u | u in s'.threads ensures ThreadOk(s', u) { LocalThreads(s, s', w, u); }
    LocalExclusive(s, s', w);
    LocalAccounted(s, s', w);
  }

  /** Logging an event of the scope's token touches nothing outside the scope. */
  lemma EmitElsewhere(s: State, mid: State, what: What, w: Scope)
    requires mid.events == s.events && mid.transports == s.transports && mid.senders == s.senders
    requires SameElsewhere(s, mid, w)
    ensures SameElsewhere(s, Emit(mid, w.tok, what), w)
    ensures LifeIn(Emit(mid, w.tok, what), w.tok) == Next(LifeIn(s, w.tok), what)
    ensures Backed(s, w.tok) && Next(LifeIn(s, w.tok), what) != Illegal ==> Backed(Emit(mid, w.tok, what), w.tok)
  {
    EmitLives(mid, w.tok, what);
    if Backed(s, w.tok) && Next(LifeIn(s, w.tok), what) != Illegal { EmitBacked(mid, w.tok, what); }
    var s' := Emit(mid, w.tok, what);
    forall q: Rid | w.r != Some(q) ensures SameRequest(s, s', q) { assert SameRequest(s, mid, q); }
    forall p: Oid | w.o != Some(p) ensures SameObject(s, s', p) { assert SameObject(s, mid, p); }
    forall u: Tid | w.t != Some(u) ensures SameThread(s, s', u) { assert SameThread(s, mid, u); }
  }

  // ----- the steps -----

  /** The other threads of a state hold neither what one thread holds nor what is registered. */
  lemma OthersApart(s: State, t: Tid)
    requires Inv(s) && t in s.threads
    ensures forall u | u in s.threads && u != t :: Apart(s.threads[u], s.threads[t])
  {
  }

  /** A thread at work on a delayed object has it to itself. */
  lemma ObjectIsOwn(s: State, t: Tid)
    requires Inv(s) && t in s.threads && HeldObject(s.threads[t]).Some? && HeldRequest(s.threads[t]).None?
    ensures var o := HeldObject(s.threads[t]).value;
            o in s.delayed && ThreadOk(s, t) && DelayedOk(s, o) && TokenOk(s, s.delayed[o].tok)
            && ScopeIsOwn(s, Scope(None, Some(o), s.delayed[o].tok, Some(t)))
  {
    assert ThreadOk(s, t) && DelayedOk(s, HeldObject(s.threads[t]).value);
    assert TokenOk(s, s.delayed[HeldObject(s.threads[t]).value].tok);
    OthersApart(s, t);
  }

  /** A request past its callback, or about to return with nobody holding it, is the server's own. */
  lemma RequestIsServers(s: State, r: Rid)
    requires Inv(s) && r in s.requests && Quiescent(s, r)
    ensures RequestOk(s, r) && TokenOk(s, s.requests[r].tok)
    ensures ScopeIsOwn(s, Scope(Some(r), None, s.requests[r].tok, None))
  {
    assert RequestOk(s, r) && TokenOk(s, s.requests[r].tok);
  }

  lemma ArriveOk(s: State, r: Rid, tok: Tok, kind: Kind, allowed: bool, start: Response)
    requires !s.fault && Enabled(s, Arrive(r, tok, kind, allowed, start)) && TokenOk(s, tok)
    ensures var w := Scope(Some(r), None, tok, None);
            var s' := DoArrive(s, r, tok, kind, allowed, start);
            SameElsewhere(s, s', w) && ScopeOk(s', w)
  {
    var req := Req(Obj(kind, if allowed then Created else Committed, true), tok, Running);
    EmitElsewhere(s, s.(requests := s.requests[r := req], registry := s.registry + {r}),
                  Arrived(r, kind, allowed, start), Scope(Some(r), None, tok, None));
  }

  lemma ArriveInv(s: State, r: Rid, tok: Tok, kind: Kind, allowed: bool, start: Response)
    requires Inv(s) && Enabled(s, Arrive(r, tok, kind, allowed, start))
    ensures Inv(DoArrive(s, r, tok, kind, allowed, start))
  {
    assert TokenOk(s, tok);
    ArriveOk(s, r, tok, kind, allowed, start);
    forall u | u in s.threads ensures HeldRequest(s.threads[u]) != Some(r) { assert ThreadOk(s, u); }
    LocalInv(s, DoArrive(s, r, tok, kind, allowed, start), Scope(Some(r), None, tok, None));
  }

  lemma BeginOk(s: State, t: Tid, r: Rid, calls: seq<Call>)
    requires !s.fault && Enabled(s, Begin(t, r, calls)) && r in s.registry && RequestOk(s, r)
    requires s.requests[r].phase == Running && ReadsSafe(s, r, calls) && TokenOk(s, s.requests[r].tok)
    ensures var w := Scope(Some(r), None, s.requests[r].tok, Some(t));
            SameElsewhere(s, DoBegin(s, t, r, calls), w) && ScopeOk(DoBegin(s, t, r, calls), w)
  {
  }

  lemma BeginInv(s: State, t: Tid, r: Rid, calls: seq<Call>)
    requires Inv(s) && Enabled(s, Begin(t, r, calls)) && Disciplined(s, Begin(t, r, calls))
    ensures Inv(DoBegin(s, t, r, calls))
  {
    if r in s.registry {
      assert RequestOk(s, r) && TokenOk(s, s.requests[r].tok);
      RequestLife(s, r);
      forall u | u in s.threads ensures HeldRequest(s.threads[u]) != Some(r) { assert ThreadOk(s, u); }
      BeginOk(s, t, r, calls);
      LocalInv(s, DoBegin(s, t, r, calls), Scope(Some(r), None, s.requests[r].tok, Some(t)));
    }
  }

  lemma RequestUpdateElsewhere(s: State, t: Tid, r: Rid, obj: Obj, pc: Pc, what: Option<What>)
    requires r in s.requests && (what.Some? ==> !what.value.Arrived?)
    ensures SameElsewhere(s, RequestUpdate(s, t, r, obj, pc, what), Scope(Some(r), None, s.requests[r].tok, Some(t)))
    ensures var life := LifeIn(s, s.requests[r].tok);
            LifeIn(RequestUpdate(s, t, r, obj, pc, what), s.requests[r].tok) ==
            if what.Some? then Next(life, what.value) else life
    ensures var life := LifeIn(s, s.requests[r].tok);
            Backed(s, s.requests[r].tok) && (what.Some? ==> Next(life, what.value) != Illegal) ==>
              Backed(RequestUpdate(s, t, r, obj, pc, what), s.requests[r].tok)
  {
    var mid := RequestUpdate(s, t, r, obj, pc, None);
    if what.Some? {
      EmitElsewhere(s, mid, what.value, Scope(Some(r), None, s.requests[r].tok, Some(t)));
    }
  }

  /** A thread in a script has its request, and the object it made, to itself. */
  lemma ScriptIsOwn(s: State, t: Tid)
    requires Inv(s) && t in s.threads && HeldRequest(s.threads[t]).Some?
    ensures var r := HeldRequest(s.threads[t]).value;
            r in s.requests && ThreadOk(s, t) && RequestOk(s, r) && TokenOk(s, s.requests[r].tok)
            && ScopeIsOwn(s, Scope(Some(r), HeldObject(s.threads[t]), s.requests[r].tok, Some(t)))
  {
    var r := HeldRequest(s.threads[t]).value;
    assert ThreadOk(s, t) && RequestOk(s, r) && TokenOk(s, s.requests[r].tok);
    OthersApart(s, t);
  }

  /** A step of a thread on the request it holds stays within its scope. */
  lemma RequestUpdateLocal(s: State, t: Tid, obj: Obj, pc: Pc, what: Option<What>)
    requires Inv(s) && t in s.threads && HeldRequest(s.threads[t]).Some? && HeldObject(s.threads[t]).None?
    requires what.Some? ==> !what.value.Arrived?
    ensures var r := HeldRequest(s.threads[t]).value;
            r in s.requests
            && var w := Scope(Some(r), None, s.requests[r].tok, Some(t));
               SameElsewhere(s, RequestUpdate(s, t, r, obj, pc, what), w) && ScopeIsOwn(s, w)
  {
    ScriptIsOwn(s, t);
    RequestUpdateElsewhere(s, t, HeldRequest(s.threads[t]).value, obj, pc, what);
  }

  /** What a gate can do: refuse, let pass unchanged, or commit. */
  lemma GateCases(o: Obj, c: Call)
    ensures match Gate(o, c)
            case Refused(_) => true
            case Passed(o') =>
              if Commits(o.kind, c) then o.state == Created && o' == o.(state := Committed)
              else o' == o
                   && ((c.SetMetadata? && o.kind == Http && o.state == Created)
                       || c.ReadMetadata? || c.ReadData? || c.ReadForm? || c.ReadFilename?)
  {
  }

  function ClaimEvent(t: Tid, o: Obj, c: Call): Option<What> {
    if Commits(o.kind, c) then Some(ClaimedBy(Thread(t))) else None
  }

  lemma PassGateInv(s: State, t: Tid)
    requires Inv(s) && Enabled(s, PassGate(t))
    ensures Inv(DoPassGate(s, t))
  {
    var pc := s.threads[t];
    assert ThreadOk(s, t) && RequestOk(s, pc.r) && TokenOk(s, s.requests[pc.r].tok);
    RequestLife(s, pc.r);
    var req := s.requests[pc.r];
    assert pc.out == None;
    match Gate(req.obj, pc.calls[0]) {
      case Refused(e) =>
        var done := pc.done + [Reply(req.tok, pc.calls[0], Some(e))];
        RefusedOk(s, t, done);
        assert req.(obj := req.obj) == req && s.requests[pc.r := req] == s.requests;
        RequestUpdateLocal(s, t, req.obj, Calling(pc.r, pc.calls[1..], done, None), None);
        LocalInv(s, DoPassGate(s, t), Scope(Some(pc.r), None, req.tok, Some(t)));
      case Passed(obj) =>
        GateCases(req.obj, pc.calls[0]);
        PassedOk(s, t);
        RequestUpdateLocal(s, t, obj, Admitted(pc.r, req.tok, pc.calls[0], pc.calls[1..], pc.done),
                           ClaimEvent(t, req.obj, pc.calls[0]));
        LocalInv(s, DoPassGate(s, t), Scope(Some(pc.r), None, req.tok, Some(t)));
    }
  }

  lemma RefusedOk(s: State, t: Tid, done: seq<Reply>)
    requires !s.fault && Enabled(s, PassGate(t)) && ThreadOk(s, t) && s.threads[t].out == None
    requires RequestOk(s, s.threads[t].r) && TokenOk(s, s.requests[s.threads[t].r].tok)
    ensures var pc := s.threads[t];
            var req := s.requests[pc.r];
            var s' := RequestUpdate(s, t, pc.r, req.obj, Calling(pc.r, pc.calls[1..], done, None), None);
            ScopeOk(s', Scope(Some(pc.r), None, req.tok, Some(t)))
  {
    var pc := s.threads[t];
    RequestUpdateElsewhere(s, t, pc.r, s.requests[pc.r].obj, Calling(pc.r, pc.calls[1..], done, None), None);
  }

  lemma PassedOk(s: State, t: Tid)
    requires !s.fault && Enabled(s, PassGate(t)) && ThreadOk(s, t) && s.threads[t].out == None
    requires RequestOk(s, s.threads[t].r) && TokenOk(s, s.requests[s.threads[t].r].tok)
    requires Gate(s.requests[s.threads[t].r].obj, s.threads[t].calls[0]).Passed?
    ensures var pc := s.threads[t];
            var req := s.requests[pc.r];
            var s' := RequestUpdate(s, t, pc.r, Gate(req.obj, pc.calls[0]).obj,
                                    Admitted(pc.r, req.tok, pc.calls[0], pc.calls[1..], pc.done),
                                    ClaimEvent(t, req.obj, pc.calls[0]));
            var w := Scope(Some(pc.r), None, req.tok, Some(t));
            ScopeOk(s', w) && LifeInScope(s, s', w)
  {
    var pc := s.threads[t];
    var req := s.requests[pc.r];
    GateCases(req.obj, pc.calls[0]);
    assert pc.calls[0] in pc.calls;
    RequestUpdateElsewhere(s, t, pc.r, Gate(req.obj, pc.calls[0]).obj,
                           Admitted(pc.r, req.tok, pc.calls[0], pc.calls[1..], pc.done),
                           ClaimEvent(t, req.obj, pc.calls[0]));
  }

  /** What an effect can do, other than handing the token over. */
  lemma EffectCases(o: Obj, c: Call)
    requires Effect(o, c).Effected? && Effect(o, c).act != HandOff
    ensures var e := Effect(o, c);
            if c.SetMetadata? then e.obj == o && o.holdsToken && e.act == Meta(c.md) && e.error == None
            else if Abandons(c) then
              e.obj == o && e.act == Nothing && e.error == ReplyOf(c)
            else if c.SendResponse? || c.SendFile? || c.SendMustache? then
              e.obj == o.(holdsToken := false) && o.holdsToken && e.error == None
              && e.act == (if c.SendResponse? then Send(c.body) else Stream(c.path))
            else e.obj == o && e.act == Nothing && e.error == None
  {
  }

  lemma TakeEffectInv(s: State, t: Tid, addr: Oid)
    requires Inv(s) && Enabled(s, TakeEffect(t, addr))
    ensures Inv(DoTakeEffect(s, t, addr))
  {
    var pc := s.threads[t];
    assert ThreadOk(s, t) && RequestOk(s, pc.r);
    var req := s.requests[pc.r];
    RequestLife(s, pc.r);
    assert pc.call in [pc.call];
    if pc.call.SendLater? || pc.call.RetainWebSocket? {
      HandOffInv(s, t, addr);
    } else {
      PlainEffectInv(s, t, addr);
    }
  }

  /** A free address is known to nobody. */
  lemma AddressUnused(s: State, addr: Oid)
    requires Inv(s) && addr !in s.delayed
    ensures addr !in s.leaked
    ensures forall u | u in s.threads :: HeldObject(s.threads[u]) != Some(addr)
    ensures forall h | h in s.handles :: h.o != addr
  {
    forall u | u in s.threads ensures HeldObject(s.threads[u]) != Some(addr) { assert ThreadOk(s, u); }
    forall h | h in s.handles ensures h.o != addr { assert Usable(s, h); }
  }

  lemma HandOffElsewhere(s: State, t: Tid, addr: Oid, kind: Kind, pc: Pc, r: Rid, obj: Obj)
    requires r in s.requests && (forall h | h in s.handles :: h.o != addr)
    ensures var s' := RequestUpdate(s.(delayed := s.delayed[addr := Delayed(kind, s.requests[r].tok, true)]), t, r,
                                    obj, pc, Some(HandedOff(addr)));
            SameElsewhere(s, s', Scope(Some(r), Some(addr), s.requests[r].tok, Some(t)))
            && LifeIn(s', s.requests[r].tok) == Next(LifeIn(s, s.requests[r].tok), HandedOff(addr))
            && (Backed(s, s.requests[r].tok) && LifeIn(s', s.requests[r].tok) != Illegal ==>
                  Backed(s', s.requests[r].tok))
  {
    var mid := RequestUpdate(s.(delayed := s.delayed[addr := Delayed(kind, s.requests[r].tok, true)]), t, r, obj, pc,
                             None);
    EmitElsewhere(s, mid, HandedOff(addr), Scope(Some(r), Some(addr), s.requests[r].tok, Some(t)));
  }

  /** A thread about to hand its request's token over to a new object at `addr`. */
  ghost predicate HandOffReady(s: State, t: Tid, addr: Oid) {
    && !s.fault && Enabled(s, TakeEffect(t, addr)) && ThreadOk(s, t)
    && (s.threads[t].call.SendLater? || s.threads[t].call.RetainWebSocket?)
    && RequestOk(s, s.threads[t].r) && TokenOk(s, s.requests[s.threads[t].r].tok)
    && addr !in s.leaked && forall h | h in s.handles :: h.o != addr
  }

  function HandOffAfter(s: State, t: Tid, addr: Oid): State
    requires t in s.threads && s.threads[t].Admitted? && s.threads[t].r in s.requests
  {
    var pc := s.threads[t];
    var req := s.requests[pc.r];
    RequestUpdate(s.(delayed := s.delayed[addr := Delayed(req.obj.kind, req.tok, true)]), t, pc.r,
                  req.obj.(holdsToken := false),
                  Calling(pc.r, pc.rest, pc.done + [Reply(pc.tok, pc.call, None)], Some(Handle(req.obj.kind, addr))),
                  Some(HandedOff(addr)))
  }

  lemma HandOffShape(s: State, t: Tid, addr: Oid)
    requires HandOffReady(s, t, addr)
    ensures DoTakeEffect(s, t, addr) == HandOffAfter(s, t, addr)
    ensures LifeIn(s, s.requests[s.threads[t].r].tok).Claimed?
  {
    assert s.threads[t].call == SendLater <==> s.requests[s.threads[t].r].obj.kind == Http;
  }

  lemma HandOffOk(s: State, t: Tid, addr: Oid)
    requires HandOffReady(s, t, addr) && LifeIn(s, s.requests[s.threads[t].r].tok).Claimed?
    ensures var pc := s.threads[t];
            var w := Scope(Some(pc.r), Some(addr), s.requests[pc.r].tok, Some(t));
            var s' := HandOffAfter(s, t, addr);
            SameElsewhere(s, s', w) && ScopeOk(s', w) && LifeInScope(s, s', w)
  {
    var pc := s.threads[t];
    var req := s.requests[pc.r];
    HandOffElsewhere(s, t, addr, req.obj.kind, HandOffAfter(s, t, addr).threads[t], pc.r,
                     req.obj.(holdsToken := false));
    HandOffPartsOk(s, t, addr);
  }

  lemma HandOffPartsOk(s: State, t: Tid, addr: Oid)
    requires HandOffReady(s, t, addr) && LifeIn(s, s.requests[s.threads[t].r].tok).Claimed?
    requires var req := s.requests[s.threads[t].r];
             LifeIn(HandOffAfter(s, t, addr), req.tok) == Next(LifeIn(s, req.tok), HandedOff(addr))
             && Backed(HandOffAfter(s, t, addr), req.tok)
    ensures ScopeOk(HandOffAfter(s, t, addr),
                    Scope(Some(s.threads[t].r), Some(addr), s.requests[s.threads[t].r].tok, Some(t)))
  {
    var req := s.requests[s.threads[t].r];
    var s' := HandOffAfter(s, t, addr);
    assert LifeIn(s', req.tok).Held? && LifeIn(s', req.tok).o == addr;
    assert s'.delayed[addr] == Delayed(req.obj.kind, req.tok, true);
    assert ThreadOk(s', t);
  }

  lemma HandOffOwn(s: State, t: Tid, addr: Oid)
    requires Inv(s) && Enabled(s, TakeEffect(t, addr)) && s.threads[t].r in s.requests
    ensures addr !in s.leaked && forall h | h in s.handles :: h.o != addr
    ensures ScopeIsOwn(s, Scope(Some(s.threads[t].r), Some(addr), s.requests[s.threads[t].r].tok, Some(t)))
  {
    OthersApart(s, t);
    AddressUnused(s, addr);
  }

  lemma HandOffInv(s: State, t: Tid, addr: Oid)
    requires Inv(s) && Enabled(s, TakeEffect(t, addr)) && s.threads[t].r in s.requests
    requires s.threads[t].call.SendLater? || s.threads[t].call.RetainWebSocket?
    ensures Inv(DoTakeEffect(s, t, addr))
  {
    var pc := s.threads[t];
    assert ThreadOk(s, t) && RequestOk(s, pc.r) && TokenOk(s, s.requests[pc.r].tok);
    HandOffOwn(s, t, addr);
    HandOffShape(s, t, addr);
    HandOffOk(s, t, addr);
    LocalInv(s, HandOffAfter(s, t, addr), Scope(Some(pc.r), Some(addr), s.requests[pc.r].tok, Some(t)));
  }

  lemma PlainEffectInv(s: State, t: Tid, addr: Oid)
    requires Inv(s) && Enabled(s, TakeEffect(t, addr)) && s.threads[t].r in s.requests
    requires !s.threads[t].call.SendLater? && !s.threads[t].call.RetainWebSocket?
    requires Effect(s.requests[s.threads[t].r].obj, s.threads[t].call).Effected?
    ensures Inv(DoTakeEffect(s, t, addr))
  {
    var pc := s.threads[t];
    assert ThreadOk(s, t) && RequestOk(s, pc.r) && TokenOk(s, s.requests[pc.r].tok);
    var e := Effect(s.requests[pc.r].obj, pc.call);
    var done := pc.done + [Reply(pc.tok, pc.call, e.error)];
    PlainEffectOk(s, t, done);
    RequestUpdateLocal(s, t, e.obj, Calling(pc.r, pc.rest, done, None), EffectEvent(e.act, e.error));
    LocalInv(s, PlainAfter(s, t, done), Scope(Some(pc.r), None, s.requests[pc.r].tok, Some(t)));
  }

  /** A thread about to take an effect that is not a hand-over, its own part of the state in order. */
  ghost predicate PlainReady(s: State, t: Tid) {
    && !s.fault && t in s.threads && s.threads[t].Admitted? && ThreadOk(s, t)
    && !s.threads[t].call.SendLater? && !s.threads[t].call.RetainWebSocket?
    && RequestOk(s, s.threads[t].r) && TokenOk(s, s.requests[s.threads[t].r].tok)
    && Effect(s.requests[s.threads[t].r].obj, s.threads[t].call).Effected?
  }

  function PlainAfter(s: State, t: Tid, done: seq<Reply>): State
    requires t in s.threads && s.threads[t].Admitted? && s.threads[t].r in s.requests
    requires Effect(s.requests[s.threads[t].r].obj, s.threads[t].call).Effected?
  {
    var pc := s.threads[t];
    var e := Effect(s.requests[pc.r].obj, pc.call);
    RequestUpdate(s, t, pc.r, e.obj, Calling(pc.r, pc.rest, done, None), EffectEvent(e.act, e.error))
  }

  /** The effect leaves its scope in order. */
  ghost predicate PlainOk(s: State, t: Tid, done: seq<Reply>)
    requires PlainReady(s, t)
  {
    var w := Scope(Some(s.threads[t].r), None, s.requests[s.threads[t].r].tok, Some(t));
    ScopeOk(PlainAfter(s, t, done), w) && LifeInScope(s, PlainAfter(s, t, done), w)
  }

  lemma MetaOk(s: State, t: Tid, done: seq<Reply>)
    requires PlainReady(s, t) && s.threads[t].call.SetMetadata?
    ensures PlainOk(s, t, done)
  {
    var pc := s.threads[t];
    var req := s.requests[pc.r];
    assert LifeIn(s, req.tok).Open?;
    RequestUpdateElsewhere(s, t, pc.r, req.obj, Calling(pc.r, pc.rest, done, None), Some(Acted(Meta(pc.call.md))));
  }

  lemma AbandonOk(s: State, t: Tid, done: seq<Reply>)
    requires PlainReady(s, t) && Abandons(s.threads[t].call)
    ensures PlainOk(s, t, done)
  {
    var pc := s.threads[t];
    var req := s.requests[pc.r];
    assert Commits(req.obj.kind, pc.call) && LifeIn(s, req.tok).Claimed?;
    var what := if pc.call.SendMustache? then TemplateFailed else SendFailed;
    RequestUpdateElsewhere(s, t, pc.r, req.obj, Calling(pc.r, pc.rest, done, None), Some(what));
  }

  lemma SendOk(s: State, t: Tid, done: seq<Reply>)
    requires PlainReady(s, t) && s.threads[t].call.SendResponse? && s.threads[t].call.writes
    ensures PlainOk(s, t, done)
  {
    var pc := s.threads[t];
    var req := s.requests[pc.r];
    assert Commits(req.obj.kind, pc.call) && LifeIn(s, req.tok).Claimed?;
    RequestUpdateElsewhere(s, t, pc.r, req.obj.(holdsToken := false), Calling(pc.r, pc.rest, done, None),
                           Some(Acted(Send(pc.call.body))));
  }

  lemma StreamOk(s: State, t: Tid, done: seq<Reply>)
    requires PlainReady(s, t) && !Abandons(s.threads[t].call)
    requires s.threads[t].call.SendFile? || s.threads[t].call.SendMustache?
    ensures PlainOk(s, t, done)
  {
    var pc := s.threads[t];
    var req := s.requests[pc.r];
    assert Commits(req.obj.kind, pc.call) && LifeIn(s, req.tok).Claimed?;
    RequestUpdateElsewhere(s, t, pc.r, req.obj.(holdsToken := false), Calling(pc.r, pc.rest, done, None),
                           Some(Acted(Stream(pc.call.path))));
  }

  /** A thread that only moves on to the rest of its script. */
  lemma ThreadMovesOk(s: State, t: Tid, done: seq<Reply>)
    requires PlainReady(s, t) && !Commits(s.requests[s.threads[t].r].obj.kind, s.threads[t].call)
    ensures var pc := s.threads[t];
            var s' := s.(threads := s.threads[t := Calling(pc.r, pc.rest, done, None)]);
            var w := Scope(Some(pc.r), None, s.requests[pc.r].tok, Some(t));
            ScopeOk(s', w) && LifeInScope(s, s', w)
  {
    var pc := s.threads[t];
    var tok := s.requests[pc.r].tok;
    var s' := s.(threads := s.threads[t := Calling(pc.r, pc.rest, done, None)]);
    assert s'.events == s.events;
    assert ThreadOk(s', t);
    assert PlaceOk(s', tok) by {
      assert PlaceOk(s, tok);
    }
  }

  lemma ReadOk(s: State, t: Tid, done: seq<Reply>)
    requires PlainReady(s, t)
    requires s.threads[t].call.ReadMetadata? || s.threads[t].call.ReadData? || s.threads[t].call.ReadForm?
             || s.threads[t].call.ReadFilename?
    ensures PlainOk(s, t, done)
  {
    var pc := s.threads[t];
    var req := s.requests[pc.r];
    assert req.(obj := req.obj) == req && s.requests[pc.r := req] == s.requests;
    assert PlainAfter(s, t, done) == s.(threads := s.threads[t := Calling(pc.r, pc.rest, done, None)]);
    ThreadMovesOk(s, t, done);
  }

  lemma PlainEffectOk(s: State, t: Tid, done: seq<Reply>)
    requires PlainReady(s, t)
    ensures PlainOk(s, t, done)
    ensures Effect(s.requests[s.threads[t].r].obj, s.threads[t].call).act != HandOff
  {
    var c := s.threads[t].call;
    EffectCases(s.requests[s.threads[t].r].obj, c);
    if c.SetMetadata? {
      MetaOk(s, t, done);
    } else if Abandons(c) {
      AbandonOk(s, t, done);
    } else if c.SendResponse? {
      SendOk(s, t, done);
    } else if c.SendFile? || c.SendMustache? {
      StreamOk(s, t, done);
    } else {
      ReadOk(s, t, done);
    }
  }

  lemma PutBackInv(s: State, t: Tid)
    requires Inv(s) && Enabled(s, PutBack(t))
    ensures Inv(DoPutBack(s, t))
  {
    var pc := s.threads[t];
    ScriptIsOwn(s, t);
    if pc.out.Some? { assert DelayedOk(s, pc.out.value.o); }
    PutBackOk(s, t);
    LocalInv(s, DoPutBack(s, t), Scope(Some(pc.r), HeldObject(pc), s.requests[pc.r].tok, Some(t)));
  }

  lemma PutBackElsewhere(s: State, t: Tid)
    requires Enabled(s, PutBack(t)) && s.threads[t].r in s.requests
    ensures var pc := s.threads[t];
            SameElsewhere(s, DoPutBack(s, t), Scope(Some(pc.r), HeldObject(pc), s.requests[pc.r].tok, Some(t)))
  {
  }

  lemma PutBackOk(s: State, t: Tid)
    requires !s.fault && Enabled(s, PutBack(t)) && ThreadOk(s, t)
    requires RequestOk(s, s.threads[t].r) && TokenOk(s, s.requests[s.threads[t].r].tok)
    requires s.threads[t].out.Some? ==> DelayedOk(s, s.threads[t].out.value.o)
    requires s.threads[t].out.Some? ==>
               forall k: Kind :: Handle(k, s.threads[t].out.value.o) in s.handles ==> k == s.threads[t].out.value.kind
    ensures var pc := s.threads[t];
            var w := Scope(Some(pc.r), HeldObject(pc), s.requests[pc.r].tok, Some(t));
            SameElsewhere(s, DoPutBack(s, t), w) && ScopeOk(DoPutBack(s, t), w)
  {
    PutBackElsewhere(s, t);
    assert PlaceOk(s, s.requests[s.threads[t].r].tok);
  }

  lemma RegisterOk(s: State, t: Tid)
    requires !s.fault && Enabled(s, Register(t)) && ThreadOk(s, t)
    requires DelayedOk(s, s.threads[t].h.o) && TokenOk(s, s.delayed[s.threads[t].h.o].tok)
    requires forall h | h in s.handles :: Usable(s, h)
    ensures var o := s.threads[t].h.o;
            var w := Scope(None, Some(o), s.delayed[o].tok, Some(t));
            SameElsewhere(s, DoRegister(s, t), w) && ScopeOk(DoRegister(s, t), w)
  {
  }

  lemma RegisterInv(s: State, t: Tid)
    requires Inv(s) && Enabled(s, Register(t))
    ensures Inv(DoRegister(s, t))
  {
    var o := s.threads[t].h.o;
    ObjectIsOwn(s, t);
    RegisterOk(s, t);
    LocalInv(s, DoRegister(s, t), Scope(None, Some(o), s.delayed[o].tok, Some(t)));
  }

  lemma BeginDelayedOk(s: State, t: Tid, o: Oid, op: DelayedOp)
    requires !s.fault && Enabled(s, BeginDelayed(t, o, op)) && Handle(OpKind(op), o) in s.handles
    requires DelayedOk(s, o) && TokenOk(s, s.delayed[o].tok) && forall h | h in s.handles :: Usable(s, h)
    ensures var w := Scope(None, Some(o), s.delayed[o].tok, Some(t));
            SameElsewhere(s, DoBeginDelayed(s, t, o, op), w) && ScopeOk(DoBeginDelayed(s, t, o, op), w)
  {
  }

  lemma BeginDelayedInv(s: State, t: Tid, o: Oid, op: DelayedOp)
    requires Inv(s) && Enabled(s, BeginDelayed(t, o, op))
    ensures Inv(DoBeginDelayed(s, t, o, op))
  {
    if Handle(OpKind(op), o) in s.handles {
      assert DelayedOk(s, o) && TokenOk(s, s.delayed[o].tok);
      forall u | u in s.threads ensures HeldObject(s.threads[u]) != Some(o) { assert ThreadOk(s, u); }
      BeginDelayedOk(s, t, o, op);
      LocalInv(s, DoBeginDelayed(s, t, o, op), Scope(None, Some(o), s.delayed[o].tok, Some(t)));
    }
  }

  /** A change to one thread and one object only. */
  lemma ObjectChangeElsewhere(s: State, mid: State, t: Tid, o: Oid, d: Delayed, leaked: bool, pc: Option<Pc>)
    requires mid == s.(delayed := s.delayed[o := d], leaked := if leaked then s.leaked + {o} else s.leaked,
                       threads := if pc.Some? then s.threads[t := pc.value] else s.threads - {t})
    ensures SameElsewhere(s, mid, Scope(None, Some(o), d.tok, Some(t)))
  {
  }

  lemma AfterOpElsewhere(s: State, t: Tid, o: Oid, op: DelayedOp, w: Scope)
    requires o in s.delayed && w == Scope(None, Some(o), s.delayed[o].tok, Some(t))
    ensures var mid := AfterOp(s, t, o, op);
            SameElsewhere(s, mid, w)
            && mid.events == s.events && mid.transports == s.transports && mid.senders == s.senders
  {
    var d := s.delayed[o];
    assert s.delayed[o := d] == s.delayed;
    if op.WriterSetMetadata? {
      ObjectChangeElsewhere(s, AfterOp(s, t, o, op), t, o, d, false, Some(PuttingBack(o)));
    } else if op.SocketClose? && op.throws {
      ObjectChangeElsewhere(s, AfterOp(s, t, o, op), t, o, d, true, None);
    } else {
      ObjectChangeElsewhere(s, AfterOp(s, t, o, op), t, o, d.(holdsToken := d.holdsToken && op.throws), false,
                            Some(Deleting(o)));
    }
  }

  lemma DelayedEffectElsewhere(s: State, t: Tid)
    requires Enabled(s, DelayedEffect(t)) && Usable(s, Handle(OpKind(s.threads[t].op), s.threads[t].o))
    ensures var o := s.threads[t].o;
            var tok := s.delayed[o].tok;
            var s' := DoDelayedEffect(s, t);
            SameElsewhere(s, s', Scope(None, Some(o), tok, Some(t)))
            && LifeIn(s', tok) == Next(LifeIn(s, tok), OpEvent(s.threads[t].op))
            && (Backed(s, tok) && LifeIn(s', tok) != Illegal ==> Backed(s', tok))
  {
    var o, op := s.threads[t].o, s.threads[t].op;
    var w := Scope(None, Some(o), s.delayed[o].tok, Some(t));
    AfterOpElsewhere(s, t, o, op, w);
    EmitElsewhere(s, AfterOp(s, t, o, op), OpEvent(op), w);
  }

  /** An operation that throws: a send still deletes, a close forgets. */
  lemma ThrowingEffectOk(s: State, t: Tid)
    requires !s.fault && Enabled(s, DelayedEffect(t)) && ThreadOk(s, t)
    requires DelayedOk(s, s.threads[t].o) && TokenOk(s, s.delayed[s.threads[t].o].tok)
    requires forall k: Kind :: Handle(k, s.threads[t].o) !in s.handles
    requires !s.threads[t].op.WriterSetMetadata? && s.threads[t].op.throws
    ensures var o := s.threads[t].o;
            var w := Scope(None, Some(o), s.delayed[o].tok, Some(t));
            var s' := DoDelayedEffect(s, t);
            ScopeOk(s', w) && LifeInScope(s, s', w)
  {
    DelayedEffectElsewhere(s, t);
  }

  lemma MetadataEffectOk(s: State, t: Tid)
    requires !s.fault && Enabled(s, DelayedEffect(t)) && ThreadOk(s, t)
    requires DelayedOk(s, s.threads[t].o) && TokenOk(s, s.delayed[s.threads[t].o].tok)
    requires forall k: Kind :: Handle(k, s.threads[t].o) !in s.handles
    requires s.threads[t].op.WriterSetMetadata?
    ensures var o := s.threads[t].o;
            var w := Scope(None, Some(o), s.delayed[o].tok, Some(t));
            var s' := DoDelayedEffect(s, t);
            ScopeOk(s', w) && LifeInScope(s, s', w)
  {
    DelayedEffectElsewhere(s, t);
  }

  lemma SendEffectOk(s: State, t: Tid)
    requires !s.fault && Enabled(s, DelayedEffect(t)) && ThreadOk(s, t)
    requires DelayedOk(s, s.threads[t].o) && TokenOk(s, s.delayed[s.threads[t].o].tok)
    requires forall k: Kind :: Handle(k, s.threads[t].o) !in s.handles
    requires !s.threads[t].op.WriterSetMetadata? && !s.threads[t].op.throws
    ensures var o := s.threads[t].o;
            var w := Scope(None, Some(o), s.delayed[o].tok, Some(t));
            var s' := DoDelayedEffect(s, t);
            ScopeOk(s', w) && LifeInScope(s, s', w)
  {
    DelayedEffectElsewhere(s, t);
  }

  /** The object a thread uses has no handle, of either kind. */
  lemma UserUnregistered(s: State, t: Tid)
    requires Inv(s) && t in s.threads && s.threads[t].Using?
    ensures forall k: Kind :: Handle(k, s.threads[t].o) !in s.handles
  {
    assert ThreadOk(s, t);
    forall k: Kind ensures Handle(k, s.threads[t].o) !in s.handles {
      assert Handle(k, s.threads[t].o) in s.handles ==> Usable(s, Handle(k, s.threads[t].o));
    }
  }

  lemma DelayedEffectInv(s: State, t: Tid)
    requires Inv(s) && Enabled(s, DelayedEffect(t))
    ensures Inv(DoDelayedEffect(s, t))
  {
    var o, op := s.threads[t].o, s.threads[t].op;
    ObjectIsOwn(s, t);
    UserUnregistered(s, t);
    DelayedEffectElsewhere(s, t);
    if op.WriterSetMetadata? {
      MetadataEffectOk(s, t);
    } else if op.throws {
      ThrowingEffectOk(s, t);
    } else {
      SendEffectOk(s, t);
    }
    LocalInv(s, DoDelayedEffect(s, t), Scope(None, Some(o), s.delayed[o].tok, Some(t)));
  }

  lemma DelayedPutBackOk(s: State, t: Tid)
    requires !s.fault && Enabled(s, DelayedPutBack(t)) && ThreadOk(s, t)
    requires DelayedOk(s, s.threads[t].o) && TokenOk(s, s.delayed[s.threads[t].o].tok)
    requires forall h | h in s.handles :: Usable(s, h)
    ensures var o := s.threads[t].o;
            var w := Scope(None, Some(o), s.delayed[o].tok, Some(t));
            SameElsewhere(s, DoDelayedPutBack(s, t), w) && ScopeOk(DoDelayedPutBack(s, t), w)
  {
  }

  lemma DelayedPutBackInv(s: State, t: Tid)
    requires Inv(s) && Enabled(s, DelayedPutBack(t))
    ensures Inv(DoDelayedPutBack(s, t))
  {
    var o := s.threads[t].o;
    ObjectIsOwn(s, t);
    DelayedPutBackOk(s, t);
    LocalInv(s, DoDelayedPutBack(s, t), Scope(None, Some(o), s.delayed[o].tok, Some(t)));
  }

  lemma DeleteOk(s: State, t: Tid)
    requires !s.fault && Enabled(s, Delete(t)) && ThreadOk(s, t)
    requires DelayedOk(s, s.threads[t].o) && TokenOk(s, s.delayed[s.threads[t].o].tok)
    ensures var o := s.threads[t].o;
            var w := Scope(None, Some(o), s.delayed[o].tok, Some(t));
            var s' := DoDelete(s, t);
            SameElsewhere(s, s', w) && ScopeOk(s', w) && LifeInScope(s, s', w)
  {
    var o := s.threads[t].o;
    var w := Scope(None, Some(o), s.delayed[o].tok, Some(t));
    EmitElsewhere(s, Leave(s.(delayed := s.delayed - {o}), t), Acted(Drop), w);
  }

  lemma DeleteInv(s: State, t: Tid)
    requires Inv(s) && Enabled(s, Delete(t))
    ensures Inv(DoDelete(s, t))
  {
    var o := s.threads[t].o;
    ObjectIsOwn(s, t);
    DeleteOk(s, t);
    LocalInv(s, DoDelete(s, t), Scope(None, Some(o), s.delayed[o].tok, Some(t)));
  }

  lemma EndSenderInv(s: State, tok: Tok, complete: bool)
    requires Inv(s) && Enabled(s, EndSender(tok, complete))
    ensures Inv(DoEndSender(s, tok, complete))
  {
    var w := Scope(None, None, tok, None);
    assert TokenOk(s, tok);
    EmitElsewhere(s, s, SenderEnded(complete), w);
    LocalInv(s, DoEndSender(s, tok, complete), w);
  }

  lemma ReturnInv(s: State, r: Rid)
    requires Inv(s) && Enabled(s, Return(r)) && Quiescent(s, r)
    ensures Inv(DoReturn(s, r))
  {
    RequestIsServers(s, r);
    ReturnOk(s, r);
    LocalInv(s, DoReturn(s, r), Scope(Some(r), None, s.requests[r].tok, None));
  }

  lemma ReturnOk(s: State, r: Rid)
    requires !s.fault && Enabled(s, Return(r)) && RequestOk(s, r) && TokenOk(s, s.requests[r].tok)
    requires Quiescent(s, r)
    ensures var w := Scope(Some(r), None, s.requests[r].tok, None);
            SameElsewhere(s, DoReturn(s, r), w) && ScopeOk(DoReturn(s, r), w)
  {
  }

  /** Past its callback, a request is held by no thread. */
  lemma ReturnedIsQuiescent(s: State, r: Rid)
    requires Inv(s) && r in s.requests && s.requests[r].phase != Running
    ensures Quiescent(s, r)
  {
    forall u | u in s.threads ensures HeldRequest(s.threads[u]) != Some(r) { assert ThreadOk(s, u); }
  }

  lemma FinishWinsOk(s: State, r: Rid)
    requires !s.fault && Enabled(s, FinishCas(r)) && RequestOk(s, r) && TokenOk(s, s.requests[r].tok)
    requires s.requests[r].obj.state == Created
    ensures var w := Scope(Some(r), None, s.requests[r].tok, None);
            var s' := DoFinishCas(s, r);
            SameElsewhere(s, s', w) && ScopeOk(s', w) && LifeInScope(s, s', w)
  {
    var req := s.requests[r];
    assert LifeIn(s, req.tok).Open?;
    EmitElsewhere(s, s.(requests := s.requests[r := req.(obj := req.obj.(state := Committed), phase := Finishing)]),
                  ClaimedBy(Server), Scope(Some(r), None, req.tok, None));
  }

  lemma FinishLosesOk(s: State, r: Rid)
    requires !s.fault && Enabled(s, FinishCas(r)) && RequestOk(s, r) && TokenOk(s, s.requests[r].tok)
    requires s.requests[r].obj.state == Committed
    ensures var w := Scope(Some(r), None, s.requests[r].tok, None);
            SameElsewhere(s, DoFinishCas(s, r), w) && ScopeOk(DoFinishCas(s, r), w)
  {
    assert !LifeIn(s, s.requests[r].tok).Open? && !LifeIn(s, s.requests[r].tok).Claimed?;
  }

  lemma FinishCasInv(s: State, r: Rid)
    requires Inv(s) && Enabled(s, FinishCas(r))
    ensures Inv(DoFinishCas(s, r))
  {
    ReturnedIsQuiescent(s, r);
    RequestIsServers(s, r);
    if s.requests[r].obj.state == Created { FinishWinsOk(s, r); } else { FinishLosesOk(s, r); }
    LocalInv(s, DoFinishCas(s, r), Scope(Some(r), None, s.requests[r].tok, None));
  }

  lemma FinishEffectOk(s: State, r: Rid)
    requires !s.fault && Enabled(s, FinishEffect(r)) && RequestOk(s, r) && TokenOk(s, s.requests[r].tok)
    ensures var w := Scope(Some(r), None, s.requests[r].tok, None);
            var s' := DoFinishEffect(s, r);
            SameElsewhere(s, s', w) && ScopeOk(s', w) && LifeInScope(s, s', w)
  {
    var req := s.requests[r];
    EmitElsewhere(s, s.(requests := s.requests[r := req.(obj := req.obj.(holdsToken := false), phase := Finished)]),
                  Acted(FinishAct(req.obj.kind)), Scope(Some(r), None, req.tok, None));
  }

  lemma FinishEffectInv(s: State, r: Rid)
    requires Inv(s) && Enabled(s, FinishEffect(r))
    ensures Inv(DoFinishEffect(s, r))
  {
    ReturnedIsQuiescent(s, r);
    RequestIsServers(s, r);
    FinishEffectOk(s, r);
    LocalInv(s, DoFinishEffect(s, r), Scope(Some(r), None, s.requests[r].tok, None));
  }

  lemma DestroyOk(s: State, r: Rid)
    requires !s.fault && Enabled(s, Destroy(r)) && RequestOk(s, r) && TokenOk(s, s.requests[r].tok)
    ensures var w := Scope(Some(r), None, s.requests[r].tok, None);
            var s' := DoDestroy(s, r);
            SameElsewhere(s, s', w) && ScopeOk(s', w) && LifeInScope(s, s', w)
  {
    EmitElsewhere(s, s.(requests := s.requests - {r}), Acted(Drop), Scope(Some(r), None, s.requests[r].tok, None));
  }

  lemma DestroyInv(s: State, r: Rid)
    requires Inv(s) && Enabled(s, Destroy(r))
    ensures Inv(DoDestroy(s, r))
  {
    ReturnedIsQuiescent(s, r);
    RequestIsServers(s, r);
    DestroyOk(s, r);
    LocalInv(s, DoDestroy(s, r), Scope(Some(r), None, s.requests[r].tok, None));
  }

  lemma ServerStepInv(s: State, step: Step)
    requires Inv(s) && Enabled(s, step) && Disciplined(s, step)
    requires step.Arrive? || step.Return? || step.FinishCas? || step.FinishEffect? || step.Destroy? || step.EndSender?
    ensures Inv(Do(s, step))
  {
    match step
    case Arrive(r, tok, kind, allowed, start) => ArriveInv(s, r, tok, kind, allowed, start);
    case Return(r) => ReturnInv(s, r);
    case FinishCas(r) => FinishCasInv(s, r);
    case FinishEffect(r) => FinishEffectInv(s, r);
    case Destroy(r) => DestroyInv(s, r);
    case EndSender(tok, complete) => EndSenderInv(s, tok, complete);
  }

  /** Every disciplined step keeps the invariant. */
  lemma StepInv(s: State, step: Step)
    requires Inv(s) && Enabled(s, step) && Disciplined(s, step)
    ensures Inv(Do(s, step))
  {
    match step
    case Begin(t, r, calls) => BeginInv(s, t, r, calls);
    case PassGate(t) => PassGateInv(s, t);
    case TakeEffect(t, addr) => TakeEffectInv(s, t, addr);
    case PutBack(t) => PutBackInv(s, t);
    case Register(t) => RegisterInv(s, t);
    case BeginDelayed(t, o, op) => BeginDelayedInv(s, t, o, op);
    case DelayedEffect(t) => DelayedEffectInv(s, t);
    case DelayedPutBack(t) => DelayedPutBackInv(s, t);
    case Delete(t) => DeleteInv(s, t);
    case _ => ServerStepInv(s, step);
  }

  lemma {:induction false} RunFromInv(start: State, steps: seq<Step>)
    requires Inv(start) && DisciplinedFrom(start, steps)
    ensures Inv(RunFrom(start, steps))
    decreases |steps|
  {
    if steps != [] {
      var front, last := steps[..|steps| - 1], steps[|steps| - 1];
      RunFromInv(start, front);
      if Enabled(RunFrom(start, front), last) {
        StepInv(RunFrom(start, front), last);
      }
    }
  }

  /** Every state of every disciplined run, over any number of threads, requests and delayed objects,
      satisfies the invariant. */
  lemma RunInv(steps: seq<Step>)
    requires DisciplinedRun(steps)
    ensures Inv(Run(steps))
  {
    InitialInv();
    RunFromInv(INITIAL, steps);
  }
}
