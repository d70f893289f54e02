/** What the invariant says about every run. */
module ProtocolTheorems {
  import opened Metadata
  import opened RequestCore
  import opened Protocol
  import opened TokenLife
  import opened ProtocolInvariant

  /** No disciplined run ever uses a dead request, a freed delayed object or a moved-away token,
      and none frees an object twice. */
  lemma NoFault(steps: seq<Step>)
    requires DisciplinedRun(steps)
    ensures !Run(steps).fault
  {
    RunInv(steps);
  }

  /** The interleaved system refines the sequential life of each token. */
  lemma RunsRefineTokenLife(steps: seq<Step>, tok: Tok)
    requires DisciplinedRun(steps)
    ensures var s := Run(steps);
            var life := LifeOf(s.events, tok);
            life != Illegal
            && (life == Unborn <==> tok !in s.transports)
            && (life != Unborn ==> s.transports[tok] == life.transport)
  {
    RunInv(steps);
    assert TokenOk(Run(steps), tok);
  }

  // ----- each token is in exactly one place -----

  datatype Place = InItsRequest(r: Rid) | InDelayed(o: Oid) | InSender | Disposed(entry: nat)

  predicate At(s: State, tok: Tok, p: Place) {
    match p
    case InItsRequest(r) => r in s.requests && s.requests[r].tok == tok && s.requests[r].obj.holdsToken
    case InDelayed(o) => o in s.delayed && s.delayed[o].tok == tok && s.delayed[o].holdsToken
    case InSender => tok in s.senders
    case Disposed(entry) => tok in s.transports && tok !in s.senders && entry < |s.transports[tok].log|
  }

  function PlaceOf(life: Life): Place
    requires life != Unborn && life != Illegal
  {
    match life
    case Open(r, _, _) => InItsRequest(r)
    case Claimed(r, _, _, _) => InItsRequest(r)
    case Abandoned(r, _, _) => InItsRequest(r)
    case Streaming(_) => InSender
    case Held(o, _, _) => InDelayed(o)
    case Failing(o, _, _) => InDelayed(o)
    case Stranded(o, _, _) => InDelayed(o)
    case Ended(_) => Disposed(0)
  }

  lemma InvPlace(s: State, tok: Tok, p: Place)
    requires Inv(s) && tok in s.transports
    ensures LifeIn(s, tok) != Unborn && LifeIn(s, tok) != Illegal
    ensures At(s, tok, p) <==> p == PlaceOf(LifeIn(s, tok))
  {
    assert TokenOk(s, tok);
    LifeLogsOnce(s.events, tok);
    if At(s, tok, p) {
      match p
      case InItsRequest(r) => assert RequestOk(s, r);
      case InDelayed(o) => assert DelayedOk(s, o);
      case _ =>
    }
  }

  /** In every reachable state every token that ever arrived is in exactly one place: one live request, one
      live delayed object, one running stream sender, or one entry of the log of how it ended. */
  lemma TokenInOnePlace(steps: seq<Step>, tok: Tok)
    requires DisciplinedRun(steps) && tok in Run(steps).transports
    ensures exists p :: At(Run(steps), tok, p) && forall q | At(Run(steps), tok, q) :: q == p
  {
    RunInv(steps);
    var s := Run(steps);
    var p := Disposed(0);
    InvPlace(s, tok, p);
    p := PlaceOf(LifeIn(s, tok));
    InvPlace(s, tok, p);
    forall q | At(s, tok, q) ensures q == p {
      InvPlace(s, tok, q);
    }
  }

  /** When no request and no delayed object is left, every token has been answered or dropped, exactly once, and
      only a streamed answer can still be on its way. */
  lemma EverythingIsDisposed(steps: seq<Step>, tok: Tok)
    requires DisciplinedRun(steps) && tok in Run(steps).transports
    requires Run(steps).requests == map[] && Run(steps).delayed == map[]
    ensures |Run(steps).transports[tok].log| == 1
    ensures tok in Run(steps).senders ==> Run(steps).transports[tok].log[0].Streamed?
  {
    RunInv(steps);
    assert TokenOk(Run(steps), tok);
    LifeLogsOnce(Run(steps).events, tok);
  }

  /** A disposal that carries a response carries this one. */
  predicate Carries(d: Disposal, response: Response) {
    match d
    case Sent(r, _) => r == response
    case Streamed(r, _) => r == response
    case _ => true
  }

  lemma EndedCarriesFold(events: seq<Event>, tok: Tok) returns (start: Response)
    requires LifeOf(events, tok).Ended? || LifeOf(events, tok).Streaming?
    ensures StartsWith(events, tok, start)
    ensures forall d | d in LifeOf(events, tok).transport.log :: Carries(d, Fold(start, Metas(events, tok)))
  {
    start := LifeFoldsMetadata(events, tok);
    LifeLogsOnce(events, tok);
  }

  /** The response finally sent or streamed is the left-to-right fold of exactly the metadata accepted for its
      token, before the commit and, after a hand-over, through the delayed writer. */
  lemma SentResponseIsFold(steps: seq<Step>, tok: Tok) returns (start: Response)
    requires DisciplinedRun(steps) && tok in Run(steps).transports && Run(steps).transports[tok].log != []
    ensures StartsWith(Run(steps).events, tok, start)
    ensures forall d | d in Run(steps).transports[tok].log ::
              Carries(d, Fold(start, Metas(Run(steps).events, tok)))
  {
    RunInv(steps);
    var s := Run(steps);
    assert TokenOk(s, tok);
    LifeLogsOnce(s.events, tok);
    start := EndedCarriesFold(s.events, tok);
  }

  /** In a disciplined run an exchange that is over ended unanswered if and only if its template failed to load,
      a send of its token failed, or it was a websocket already closing. */
  lemma UnansweredIffExcused(steps: seq<Step>, tok: Tok)
    requires DisciplinedRun(steps) && tok in Run(steps).transports && Run(steps).transports[tok].log != []
    ensures Run(steps).transports[tok].log == [Dropped] <==> Excused(Run(steps).events, tok)
  {
    var events := Run(steps).events;
    RunsRefineTokenLife(steps, tok);
    DoomedIffExcused(events, tok);
    LifeLogsOnce(events, tok);
  }

  /** What went wrong with a dropped token is on record before it is dropped. */
  lemma DroppedAfterExcuse(steps: seq<Step>, tok: Tok, n: nat)
    requires DisciplinedRun(steps) && n < |Run(steps).events|
    requires Run(steps).events[n] == Event(tok, Acted(Drop))
    ensures Excused(Run(steps).events[..n], tok)
  {
    RunsRefineTokenLife(steps, tok);
    DropIsExcused(Run(steps).events, tok, n);
  }

  /** In a disciplined run, metadata reaches a committed token only through the delayed writer holding it. */
  lemma MetadataAfterCommitOnlyDelayed(steps: seq<Step>, tok: Tok, n: nat)
    requires DisciplinedRun(steps) && n < |Run(steps).events|
    requires Run(steps).events[n].tok == tok
    requires Run(steps).events[n].what.Acted? && Run(steps).events[n].what.act.Meta?
    ensures LifeOf(Run(steps).events[..n], tok).Open? || LifeOf(Run(steps).events[..n], tok).Held?
  {
    RunsRefineTokenLife(steps, tok);
    MetadataAfterCommitIsDelayed(Run(steps).events, tok, n);
  }

  // ----- no thread is ever stuck -----

  /** The steps a thread still has before it leaves its call. */
  function Work(pc: Pc): nat {
    match pc
    case Calling(_, calls, _, _) => 2 * |calls| + 2
    case Admitted(_, _, _, rest, _) => 2 * |rest| + 3
    case Registering(_) => 1
    case Using(_, _) => 2
    case PuttingBack(_) => 1
    case Deleting(_) => 1
  }

  /** The step a thread inside a call takes next. */
  function NextStep(s: State, t: Tid, addr: Oid): Step
    requires t in s.threads
  {
    match s.threads[t]
    case Calling(_, calls, _, _) => if calls == [] then PutBack(t) else PassGate(t)
    case Admitted(_, _, _, _, _) => TakeEffect(t, addr)
    case Registering(_) => Register(t)
    case Using(_, _) => DelayedEffect(t)
    case PuttingBack(_) => DelayedPutBack(t)
    case Deleting(_) => Delete(t)
  }

  /** In every state a thread inside a call can move whatever the others do, and after at most `Work` moves
      of its own it is out of the call: no call blocks, loops or waits for another. */
  lemma CallsTerminate(s: State, t: Tid, addr: Oid)
    requires t in s.threads && addr !in s.delayed
    ensures var step := NextStep(s, t, addr);
            Enabled(s, step) && Disciplined(s, step)
            && (t in Do(s, step).threads ==> Work(Do(s, step).threads[t]) < Work(s.threads[t]))
            && forall u | u in s.threads && u != t :: u in Do(s, step).threads && Do(s, step).threads[u] == s.threads[u]
  {
    if s.threads[t].Calling? && s.threads[t].calls != [] {
      GateMoves(s, t);
    } else if s.threads[t].Admitted? {
      EffectMoves(s, t, addr);
    } else if s.threads[t].Using? {
      UseMoves(s, t);
    }
  }

  lemma AfterOpMoves(s: State, t: Tid, o: Oid, op: DelayedOp)
    requires t in s.threads && s.threads[t] == Using(o, op) && o in s.delayed
    ensures var s' := AfterOp(s, t, o, op);
            (t in s'.threads ==> Work(s'.threads[t]) == 1)
            && forall u | u in s.threads && u != t :: u in s'.threads && s'.threads[u] == s.threads[u]
  {
  }

  lemma UseMoves(s: State, t: Tid)
    requires Enabled(s, DelayedEffect(t))
    ensures var s' := DoDelayedEffect(s, t);
            (t in s'.threads ==> Work(s'.threads[t]) < Work(s.threads[t]))
            && forall u | u in s.threads && u != t :: u in s'.threads && s'.threads[u] == s.threads[u]
  {
    var o, op := s.threads[t].o, s.threads[t].op;
    if o in s.delayed {
      AfterOpMoves(s, t, o, op);
      assert DoDelayedEffect(s, t).threads == AfterOp(s, t, o, op).threads || DoDelayedEffect(s, t) == Crash(s, t);
    }
  }

  lemma GateMoves(s: State, t: Tid)
    requires Enabled(s, PassGate(t))
    ensures var s' := DoPassGate(s, t);
            (t in s'.threads ==> Work(s'.threads[t]) < Work(s.threads[t]))
            && forall u | u in s.threads && u != t :: u in s'.threads && s'.threads[u] == s.threads[u]
  {
    var pc := s.threads[t];
    if pc.r in s.requests {
      GateCases(s.requests[pc.r].obj, pc.calls[0]);
    }
  }

  lemma EffectMoves(s: State, t: Tid, addr: Oid)
    requires Enabled(s, TakeEffect(t, addr))
    ensures var s' := DoTakeEffect(s, t, addr);
            (t in s'.threads ==> Work(s'.threads[t]) < Work(s.threads[t]))
            && forall u | u in s.threads && u != t :: u in s'.threads && s'.threads[u] == s.threads[u]
  {
    var s' := DoTakeEffect(s, t, addr);
    assert s'.threads == s.threads - {t} || (t in s'.threads && s'.threads == s.threads[t := s'.threads[t]]);
  }
}
