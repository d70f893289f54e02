/**
 What the callers of a request are told: in every run at all, disciplined or not, at most one committing call per
 request wins, and the others are refused and leave no trace.
 */
module ProtocolReplies {
  import opened Common
  import opened Metadata
  import opened RequestCore
  import opened Protocol
  import opened ProtocolInvariant

  // ----- one winner, in every run at all -----

  function Claims(events: seq<Event>, tok: Tok): nat
    decreases |events|
  {
    if events == [] then 0
    else
      var last := events[|events| - 1];
      Claims(events[..|events| - 1], tok) + if last.tok == tok && last.what.ClaimedBy? then 1 else 0
  }

  lemma ClaimsSnoc(events: seq<Event>, e: Event, tok: Tok)
    ensures Claims(events + [e], tok) == Claims(events, tok) + if e.tok == tok && e.what.ClaimedBy? then 1 else 0
  {
    assert (events + [e])[..|events|] == events;
  }

  /** Requests have tokens of their own, and a token is claimed only when its request commits. */
  ghost predicate ClaimsOk(s: State) {
    && (forall tok: Tok :: Claims(s.events, tok) <= 1)
    && (forall tok: Tok :: tok !in s.transports ==> Claims(s.events, tok) == 0)
    && (forall r | r in s.requests ::
          s.requests[r].tok in s.transports
          && (s.requests[r].obj.state == Created ==> Claims(s.events, s.requests[r].tok) == 0))
    && (forall r, q | r in s.requests && q in s.requests && r != q :: s.requests[r].tok != s.requests[q].tok)
  }

  lemma EmitClaims(s: State, tok: Tok, what: What)
    ensures forall k: Tok :: Claims(Emit(s, tok, what).events, k)
                             == Claims(s.events, k) + if k == tok && what.ClaimedBy? then 1 else 0
    ensures forall k: Tok :: k in Emit(s, tok, what).transports
                             <==> k in s.transports || (k == tok && what.Arrived?)
  {
    forall k: Tok ensures Claims(Emit(s, tok, what).events, k)
                          == Claims(s.events, k) + if k == tok && what.ClaimedBy? then 1 else 0
    {
      ClaimsSnoc(s.events, Event(tok, what), k);
    }
  }

  /** Nothing logged and no request committed since `s`. */
  ghost predicate SameCommits(s: State, mid: State) {
    && mid.events == s.events && mid.transports == s.transports
    && (forall r | r in mid.requests ::
          r in s.requests && mid.requests[r].tok == s.requests[r].tok
          && mid.requests[r].obj.state == s.requests[r].obj.state)
  }

  lemma KeepClaims(s: State, mid: State)
    requires ClaimsOk(s) && SameCommits(s, mid)
    ensures ClaimsOk(mid)
  {
  }

  lemma EmitKeepsClaims(s: State, mid: State, tok: Tok, what: Option<What>)
    requires ClaimsOk(s) && SameCommits(s, mid)
    requires what.Some? ==> !what.value.ClaimedBy? && !what.value.Arrived?
    ensures ClaimsOk(EmitIf(mid, tok, what))
  {
    KeepClaims(s, mid);
    if what.Some? { EmitClaims(mid, tok, what.value); }
  }

  /** One request commits and its token is claimed. */
  lemma ClaimKeepsClaims(s: State, mid: State, r: Rid, who: Claimant)
    requires ClaimsOk(s) && r in s.requests && s.requests[r].obj.state == Created
    requires mid.events == s.events && mid.transports == s.transports && mid.requests.Keys == s.requests.Keys
    requires mid.requests[r].tok == s.requests[r].tok && mid.requests[r].obj.state == Committed
    requires forall q | q in s.requests && q != r :: mid.requests[q] == s.requests[q]
    ensures ClaimsOk(Emit(mid, s.requests[r].tok, ClaimedBy(who)))
  {
    EmitClaims(mid, s.requests[r].tok, ClaimedBy(who));
  }

  lemma GateClaims(s: State, t: Tid)
    requires ClaimsOk(s) && Enabled(s, PassGate(t))
    ensures ClaimsOk(DoPassGate(s, t))
  {
    var pc := s.threads[t];
    if pc.r in s.requests {
      var req := s.requests[pc.r];
      GateCases(req.obj, pc.calls[0]);
      match Gate(req.obj, pc.calls[0])
      case Refused(_) => KeepClaims(s, DoPassGate(s, t));
      case Passed(obj) =>
        var mid := RequestUpdate(s, t, pc.r, obj, Admitted(pc.r, req.tok, pc.calls[0], pc.calls[1..], pc.done), None);
        if obj == req.obj {
          KeepClaims(s, mid);
        } else {
          ClaimKeepsClaims(s, mid, pc.r, Thread(t));
        }
    }
  }

  lemma EffectKeepsState(o: Obj, c: Call)
    ensures Effect(o, c).Effected? ==> Effect(o, c).obj.state == o.state
  {
  }

  lemma EffectClaims(s: State, t: Tid, addr: Oid)
    requires ClaimsOk(s) && Enabled(s, TakeEffect(t, addr))
    ensures ClaimsOk(DoTakeEffect(s, t, addr))
  {
    var pc := s.threads[t];
    if pc.r in s.requests && Effect(s.requests[pc.r].obj, pc.call).Effected? {
      var req := s.requests[pc.r];
      var e := Effect(req.obj, pc.call);
      var done := pc.done + [Reply(pc.tok, pc.call, e.error)];
      EffectKeepsState(req.obj, pc.call);
      if e.act == HandOff {
        var h := Handle(if pc.call == SendLater then Http else WebSocket, addr);
        var s1 := s.(delayed := s.delayed[addr := Delayed(h.kind, req.tok, true)]);
        EmitKeepsClaims(s, RequestUpdate(s1, t, pc.r, e.obj, Calling(pc.r, pc.rest, done, Some(h)), None), req.tok,
                        Some(HandedOff(addr)));
      } else {
        EmitKeepsClaims(s, RequestUpdate(s, t, pc.r, e.obj, Calling(pc.r, pc.rest, done, None), None), req.tok,
                        EffectEvent(e.act, e.error));
      }
    }
  }

  lemma DelayedEffectClaims(s: State, t: Tid)
    requires ClaimsOk(s) && Enabled(s, DelayedEffect(t))
    ensures ClaimsOk(DoDelayedEffect(s, t))
  {
    var o, op := s.threads[t].o, s.threads[t].op;
    if o in s.delayed {
      EmitKeepsClaims(s, AfterOp(s, t, o, op), s.delayed[o].tok, Some(OpEvent(op)));
    }
  }

  lemma DeleteClaims(s: State, t: Tid)
    requires ClaimsOk(s) && Enabled(s, Delete(t))
    ensures ClaimsOk(DoDelete(s, t))
  {
    var o := s.threads[t].o;
    if o in s.delayed {
      EmitKeepsClaims(s, Leave(s.(delayed := s.delayed - {o}), t), s.delayed[o].tok,
                      if s.delayed[o].holdsToken then Some(Acted(Drop)) else None);
    }
  }

  lemma FinishCasClaims(s: State, r: Rid)
    requires ClaimsOk(s) && Enabled(s, FinishCas(r))
    ensures ClaimsOk(DoFinishCas(s, r))
  {
    var req := s.requests[r];
    if req.obj.state == Created {
      var obj := req.obj.(state := Committed);
      ClaimKeepsClaims(s, s.(requests := s.requests[r := req.(obj := obj, phase := Finishing)]), r, Server);
    } else {
      KeepClaims(s, DoFinishCas(s, r));
    }
  }

  lemma FinishEffectClaims(s: State, r: Rid)
    requires ClaimsOk(s) && Enabled(s, FinishEffect(r))
    ensures ClaimsOk(DoFinishEffect(s, r))
  {
    var req := s.requests[r];
    if req.obj.holdsToken {
      EmitKeepsClaims(s, s.(requests := s.requests[r := req.(obj := req.obj.(holdsToken := false), phase := Finished)]),
                      req.tok, Some(Acted(FinishAct(req.obj.kind))));
    } else {
      KeepClaims(s, DoFinishEffect(s, r));
    }
  }

  lemma DestroyClaims(s: State, r: Rid)
    requires ClaimsOk(s) && Enabled(s, Destroy(r))
    ensures ClaimsOk(DoDestroy(s, r))
  {
    EmitKeepsClaims(s, s.(requests := s.requests - {r}), s.requests[r].tok,
                    if s.requests[r].obj.holdsToken then Some(Acted(Drop)) else None);
  }

  lemma ArriveClaims(s: State, r: Rid, tok: Tok, kind: Kind, allowed: bool, start: Response)
    requires ClaimsOk(s) && Enabled(s, Arrive(r, tok, kind, allowed, start))
    ensures ClaimsOk(DoArrive(s, r, tok, kind, allowed, start))
  {
    var req := Req(Obj(kind, if allowed then Created else Committed, true), tok, Running);
    EmitClaims(s.(requests := s.requests[r := req], registry := s.registry + {r}), tok, Arrived(r, kind, allowed,
        start));
  }

  /** Steps that log nothing and commit nothing. */
  lemma QuietSteps(s: State, step: Step)
    requires Enabled(s, step)
    requires step.Begin? || step.PutBack? || step.Register? || step.BeginDelayed? || step.DelayedPutBack?
             || step.Return?
    ensures SameCommits(s, Do(s, step))
  {
    assert Do(s, step).events == s.events && Do(s, step).transports == s.transports;
    assert step.Return? || Do(s, step).requests == s.requests;
  }

  lemma StepClaims(s: State, step: Step)
    requires ClaimsOk(s) && Enabled(s, step)
    ensures ClaimsOk(Do(s, step))
  {
    match step
    case Arrive(r, tok, kind, allowed, start) => ArriveClaims(s, r, tok, kind, allowed, start);
    case PassGate(t) => GateClaims(s, t);
    case TakeEffect(t, addr) => EffectClaims(s, t, addr);
    case DelayedEffect(t) => DelayedEffectClaims(s, t);
    case Delete(t) => DeleteClaims(s, t);
    case EndSender(tok, complete) => EmitKeepsClaims(s, s, tok, Some(SenderEnded(complete)));
    case FinishCas(r) => FinishCasClaims(s, r);
    case FinishEffect(r) => FinishEffectClaims(s, r);
    case Destroy(r) => DestroyClaims(s, r);
    case _ =>
      QuietSteps(s, step);
      KeepClaims(s, Do(s, step));
  }

  /** Whatever the threads do, disciplined or not, no request is ever committed twice. */
  lemma {:induction false} CommittedAtMostOnce(steps: seq<Step>, tok: Tok)
    ensures ClaimsOk(Run(steps))
    ensures Claims(Run(steps).events, tok) <= 1
    decreases |steps|
  {
    if steps != [] {
      var front, last := steps[..|steps| - 1], steps[|steps| - 1];
      CommittedAtMostOnce(front, tok);
      if Enabled(Run(front), last) {
        StepClaims(Run(front), last);
      }
    }
  }

  // ----- one winner among the replies -----

  /** Calls that try to commit the request. */
  predicate IsCommitting(c: Call) {
    c.SendResponse? || c.SendFile? || c.SendMustache? || c.SendLater? || c.RetainWebSocket?
  }

  /** The caller is told of success, or of an error that came after the commit. */
  predicate Won(reply: Reply) {
    IsCommitting(reply.call) && (reply.error.None? || AfterCommit(reply.error.value))
  }

  /** The caller is told of an error raised before any commit of its own. */
  predicate Lost(reply: Reply) {
    reply.error.Some? && !AfterCommit(reply.error.value)
  }

  /** Where a winning reply can be: told, about to be told, or the call still at work. */
  datatype Site = Recorded(i: nat) | Pending(t: Tid, j: nat) | InProgress(t: Tid)

  function DoneOf(pc: Pc): seq<Reply> {
    match pc
    case Calling(_, _, done, _) => done
    case Admitted(_, _, _, _, done) => done
    case _ => []
  }

  predicate WonAt(s: State, site: Site, tok: Tok) {
    match site
    case Recorded(i) => i < |s.replies| && s.replies[i].tok == tok && Won(s.replies[i])
    case Pending(t, j) =>
      t in s.threads && j < |DoneOf(s.threads[t])|
      && DoneOf(s.threads[t])[j].tok == tok && Won(DoneOf(s.threads[t])[j])
    case InProgress(t) =>
      t in s.threads && s.threads[t].Admitted? && s.threads[t].tok == tok && IsCommitting(s.threads[t].call)
  }

  ghost predicate OneWinner(s: State) {
    && (forall site: Site, tok: Tok :: WonAt(s, site, tok) ==> Claims(s.events, tok) >= 1)
    && (forall a: Site, b: Site, tok: Tok :: WonAt(s, a, tok) && WonAt(s, b, tok) ==> a == b)
  }

  /** Every winner of `s'` was one of `s`, possibly somewhere else. */
  ghost predicate NoNewWinner(s: State, s': State, back: Site -> Site) {
    && (forall site: Site, tok: Tok :: WonAt(s', site, tok) ==> WonAt(s, back(site), tok))
    && (forall a: Site, b: Site, tok: Tok :: WonAt(s', a, tok) && WonAt(s', b, tok) && back(a) == back(b) ==> a == b)
  }

  lemma WinnersMove(s: State, s': State, back: Site -> Site)
    requires OneWinner(s) && NoNewWinner(s, s', back)
    requires forall tok: Tok :: Claims(s'.events, tok) >= Claims(s.events, tok)
    ensures OneWinner(s')
  {
    forall a: Site, b: Site, tok: Tok | WonAt(s', a, tok) && WonAt(s', b, tok) ensures a == b {
      assert WonAt(s, back(a), tok) && WonAt(s, back(b), tok);
    }
  }

  lemma {:induction false} ClaimsGrow(events: seq<Event>, e: Event)
    ensures forall tok: Tok :: Claims(events + [e], tok) >= Claims(events, tok)
  {
    forall tok: Tok ensures Claims(events + [e], tok) >= Claims(events, tok) { ClaimsSnoc(events, e, tok); }
  }

  /** The events of `s'` are those of `s` and at most one more. */
  predicate OneMoreEvent(s: State, s': State) {
    s'.events == s.events || (s'.events != [] && s'.events[..|s'.events| - 1] == s.events)
  }

  lemma EventsGrow(s: State, s': State)
    requires OneMoreEvent(s, s')
    ensures forall tok: Tok :: Claims(s'.events, tok) >= Claims(s.events, tok)
  {
    if s'.events != s.events {
      ClaimsGrow(s.events, s'.events[|s.events|]);
      assert s'.events == s.events + [s'.events[|s.events|]];
    }
  }

  /** Threads come out of a call, or go on, without anything new for their callers. */
  ghost predicate NothingForCallers(s: State, s': State) {
    && OneMoreEvent(s, s') && s'.replies == s.replies
    && forall t | t in s'.threads ::
         (DoneOf(s'.threads[t]) == [] && !s'.threads[t].Admitted?)
         || (t in s.threads && s'.threads[t] == s.threads[t])
  }

  lemma WinnersStay(s: State, s': State)
    requires OneWinner(s) && NothingForCallers(s, s')
    ensures OneWinner(s')
  {
    EventsGrow(s, s');
    WinnersMove(s, s', (site: Site) => site);
  }

  lemma RefusedWinners(s: State, t: Tid)
    requires OneWinner(s) && Enabled(s, PassGate(t)) && s.threads[t].r in s.requests
    requires Gate(s.requests[s.threads[t].r].obj, s.threads[t].calls[0]).Refused?
    ensures OneWinner(DoPassGate(s, t))
  {
    var pc := s.threads[t];
    var e := Gate(s.requests[pc.r].obj, pc.calls[0]).error;
    assert !AfterCommit(e);
    WinnersMove(s, DoPassGate(s, t), (site: Site) => site);
  }

  /** A commit: nobody had won before, and now one call is at work. */
  lemma CommitWinners(s: State, t: Tid)
    requires OneWinner(s) && ClaimsOk(s) && Enabled(s, PassGate(t)) && s.threads[t].r in s.requests
    requires Gate(s.requests[s.threads[t].r].obj, s.threads[t].calls[0]).Passed?
    requires Commits(s.requests[s.threads[t].r].obj.kind, s.threads[t].calls[0])
    ensures OneWinner(DoPassGate(s, t))
  {
    var pc := s.threads[t];
    var req := s.requests[pc.r];
    var s' := DoPassGate(s, t);
    GateCases(req.obj, pc.calls[0]);
    assert Claims(s.events, req.tok) == 0;
    ClaimsSnoc(s.events, Event(req.tok, ClaimedBy(Thread(t))), req.tok);
    assert s'.events == s.events + [Event(req.tok, ClaimedBy(Thread(t)))];
    ClaimsGrow(s.events, Event(req.tok, ClaimedBy(Thread(t))));
    forall site: Site, tok: Tok | WonAt(s', site, tok)
      ensures (site == InProgress(t) && tok == req.tok) || (site != InProgress(t) && WonAt(s, site, tok)) {
    }
  }

  lemma PassedWinners(s: State, t: Tid)
    requires OneWinner(s) && Enabled(s, PassGate(t)) && s.threads[t].r in s.requests
    requires Gate(s.requests[s.threads[t].r].obj, s.threads[t].calls[0]).Passed?
    requires !Commits(s.requests[s.threads[t].r].obj.kind, s.threads[t].calls[0])
    ensures OneWinner(DoPassGate(s, t))
  {
    var pc := s.threads[t];
    GateCases(s.requests[pc.r].obj, pc.calls[0]);
    WinnersMove(s, DoPassGate(s, t), (site: Site) => site);
  }

  lemma EffectShape(s: State, t: Tid, addr: Oid)
    requires Enabled(s, TakeEffect(t, addr)) && s.threads[t].r in s.requests
    requires Effect(s.requests[s.threads[t].r].obj, s.threads[t].call).Effected?
    ensures var pc := s.threads[t];
            var s' := DoTakeEffect(s, t, addr);
            var e := Effect(s.requests[pc.r].obj, pc.call);
            s'.replies == s.replies && OneMoreEvent(s, s')
            && t in s'.threads && s'.threads == s.threads[t := s'.threads[t]] && !s'.threads[t].Admitted?
            && DoneOf(s'.threads[t]) == pc.done + [Reply(pc.tok, pc.call, e.error)]
  {
  }

  /** The call at work is through: its reply is pending. */
  lemma EffectWinners(s: State, s': State, t: Tid, error: Option<Error>)
    requires OneWinner(s) && t in s.threads && s.threads[t].Admitted? && t in s'.threads
    requires s'.replies == s.replies && OneMoreEvent(s, s') && s'.threads == s.threads[t := s'.threads[t]]
    requires !s'.threads[t].Admitted?
    requires DoneOf(s'.threads[t]) == s.threads[t].done + [Reply(s.threads[t].tok, s.threads[t].call, error)]
    ensures OneWinner(s')
  {
    EventsGrow(s, s');
    var pc := s.threads[t];
    var back := (site: Site) => if site == Pending(t, |pc.done|) then InProgress(t) else site;
    forall site: Site, tok: Tok | WonAt(s', site, tok) ensures WonAt(s, back(site), tok) && site != InProgress(t) {
    }
    WinnersMove(s, s', back);
  }

  /** The replies of a script are handed over. */
  lemma PutBackWinners(s: State, t: Tid)
    requires OneWinner(s) && Enabled(s, PutBack(t))
    ensures OneWinner(DoPutBack(s, t))
  {
    var s' := DoPutBack(s, t);
    var n := |s.replies|;
    var back := (site: Site) => if site.Recorded? && site.i >= n then Pending(t, site.i - n) else site;
    assert t in s'.threads ==> DoneOf(s'.threads[t]) == [] && !s'.threads[t].Admitted?;
    forall site: Site, tok: Tok | WonAt(s', site, tok)
      ensures WonAt(s, back(site), tok) && (site.Pending? ==> site.t != t) {
    }
    WinnersMove(s, s', back);
  }

  lemma GateWinners(s: State, t: Tid)
    requires OneWinner(s) && ClaimsOk(s) && Enabled(s, PassGate(t))
    ensures OneWinner(DoPassGate(s, t))
  {
    if s.threads[t].r !in s.requests {
      WinnersStay(s, DoPassGate(s, t));
    } else if Gate(s.requests[s.threads[t].r].obj, s.threads[t].calls[0]).Refused? {
      RefusedWinners(s, t);
    } else if Commits(s.requests[s.threads[t].r].obj.kind, s.threads[t].calls[0]) {
      CommitWinners(s, t);
    } else {
      PassedWinners(s, t);
    }
  }

  lemma TakeEffectWinners(s: State, t: Tid, addr: Oid)
    requires OneWinner(s) && Enabled(s, TakeEffect(t, addr))
    ensures OneWinner(DoTakeEffect(s, t, addr))
  {
    var pc := s.threads[t];
    if pc.r in s.requests && Effect(s.requests[pc.r].obj, pc.call).Effected? {
      EffectShape(s, t, addr);
      EffectWinners(s, DoTakeEffect(s, t, addr), t, Effect(s.requests[pc.r].obj, pc.call).error);
    } else {
      WinnersStay(s, DoTakeEffect(s, t, addr));
    }
  }

  lemma UseQuiet(s: State, t: Tid)
    requires Enabled(s, DelayedEffect(t))
    ensures NothingForCallers(s, DoDelayedEffect(s, t))
  {
    var o, op := s.threads[t].o, s.threads[t].op;
    if o in s.delayed && s.delayed[o].holdsToken {
      var mid := AfterOp(s, t, o, op);
      assert mid.events == s.events && mid.replies == s.replies;
      assert mid.threads == s.threads - {t} || mid.threads == s.threads[t := mid.threads[t]];
    }
  }

  lemma ObjectStepsQuiet(s: State, step: Step)
    requires Enabled(s, step)
    requires step.Register? || step.BeginDelayed? || step.DelayedPutBack? || step.Delete?
    ensures NothingForCallers(s, Do(s, step))
  {
    assert Do(s, step).replies == s.replies && OneMoreEvent(s, Do(s, step));
  }

  lemma FinishStepsQuiet(s: State, step: Step)
    requires Enabled(s, step) && (step.FinishCas? || step.FinishEffect?)
    ensures NothingForCallers(s, Do(s, step))
  {
    assert Do(s, step).threads == s.threads && Do(s, step).replies == s.replies;
  }

  lemma EntryStepsQuiet(s: State, step: Step)
    requires Enabled(s, step)
    requires step.Arrive? || step.Begin? || step.Return? || step.EndSender? || step.Destroy?
    ensures NothingForCallers(s, Do(s, step))
  {
    assert step.Begin? || Do(s, step).threads == s.threads;
  }

  lemma OtherStepsQuiet(s: State, step: Step)
    requires Enabled(s, step) && !step.PassGate? && !step.TakeEffect? && !step.PutBack? && !step.DelayedEffect?
    ensures NothingForCallers(s, Do(s, step))
  {
    if step.Register? || step.BeginDelayed? || step.DelayedPutBack? || step.Delete? {
      ObjectStepsQuiet(s, step);
    } else if step.FinishCas? || step.FinishEffect? {
      FinishStepsQuiet(s, step);
    } else {
      EntryStepsQuiet(s, step);
    }
  }

  lemma StepWinners(s: State, step: Step)
    requires OneWinner(s) && ClaimsOk(s) && Enabled(s, step)
    ensures OneWinner(Do(s, step))
  {
    match step
    case PassGate(t) => GateWinners(s, t);
    case TakeEffect(t, addr) => TakeEffectWinners(s, t, addr);
    case PutBack(t) => PutBackWinners(s, t);
    case DelayedEffect(t) =>
      UseQuiet(s, t);
      WinnersStay(s, DoDelayedEffect(s, t));
    case _ =>
      OtherStepsQuiet(s, step);
      WinnersStay(s, Do(s, step));
  }

  lemma {:induction false} RunWinners(steps: seq<Step>)
    ensures OneWinner(Run(steps))
    decreases |steps|
  {
    if steps != [] {
      var front, last := steps[..|steps| - 1], steps[|steps| - 1];
      RunWinners(front);
      if Enabled(Run(front), last) {
        CommittedAtMostOnce(front, 0);
        StepWinners(Run(front), last);
      }
    }
  }

  /** In every run at all, of any two committing calls on one request at most one is told of anything but an error
      raised before its commit. */
  lemma OneReplyWins(steps: seq<Step>, i: nat, j: nat)
    requires i < j < |Run(steps).replies| && Run(steps).replies[i].tok == Run(steps).replies[j].tok
    requires IsCommitting(Run(steps).replies[i].call) && IsCommitting(Run(steps).replies[j].call)
    ensures Lost(Run(steps).replies[i]) || Lost(Run(steps).replies[j])
  {
    RunWinners(steps);
    var s := Run(steps);
    var tok := s.replies[i].tok;
    if Won(s.replies[i]) && Won(s.replies[j]) {
      assert WonAt(s, Recorded(i), tok) && WonAt(s, Recorded(j), tok);
    }
  }

  // ----- losers leave no trace -----

  /** A committing call that does not get through its gate. */
  predicate Loses(o: Obj, c: Call) {
    IsCommitting(c) && Gate(o, c).Refused?
  }

  /** A committing call loses exactly when the request is committed already or the call could never commit it. */
  lemma LosesIff(o: Obj, c: Call)
    requires IsCommitting(c)
    ensures Loses(o, c) <==> o.state == Committed || !Commits(o.kind, c)
    ensures Loses(o, c) ==> !AfterCommit(Gate(o, c).error)
  {
  }

  /** What the caller of a losing call is told. */
  function Refusal(req: Req, c: Call): (reply: Reply)
    requires Loses(req.obj, c)
    ensures Lost(reply)
  {
    Reply(req.tok, c, Some(Gate(req.obj, c).error))
  }

  /** The same but for which threads are in which call, who has what checked out, and what callers were told. */
  predicate SameWorld(s: State, s': State) {
    && s'.requests == s.requests && s'.delayed == s.delayed && s'.handles == s.handles && s'.leaked == s.leaked
    && s'.senders == s.senders && s'.transports == s.transports && s'.events == s.events && s'.fault == s.fault
  }

  lemma LoserAtGate(s: State, t: Tid, r: Rid, c: Call)
    requires t in s.threads && s.threads[t] == Calling(r, [c], [], None) && r in s.requests
    requires Loses(s.requests[r].obj, c)
    ensures var reply := Refusal(s.requests[r], c);
            Do(s, PassGate(t)) == s.(threads := s.threads[t := Calling(r, [], [reply], None)])
  {
    var reply := Refusal(s.requests[r], c);
    assert [c][1..] == [] && [] + [reply] == [reply];
  }

  /** Putting back undoes the check-out. */
  lemma LoserRestores(s: State, s2: State, t: Tid, r: Rid, reply: Reply)
    requires t !in s.threads && r in s.registry
    requires s2 == s.(registry := s.registry - {r}, threads := s.threads[t := Calling(r, [], [reply], None)])
    ensures Do(s2, PutBack(t)) == s.(replies := s.replies + [reply])
  {
    assert s.registry - {r} + {r} == s.registry;
    assert s2.threads - {t} == s.threads;
  }

  /** A losing call by itself: afterwards everything is exactly as before, and one refusal more has been told. */
  lemma LoserLeavesNoTrace(s: State, t: Tid, r: Rid, c: Call)
    requires t !in s.threads && r in s.registry && r in s.requests && Loses(s.requests[r].obj, c)
    ensures var reply := Refusal(s.requests[r], c);
            RunFrom(s, [Begin(t, r, [c]), PassGate(t), PutBack(t)]) == s.(replies := s.replies + [reply])
  {
    var s1 := Do(s, Begin(t, r, [c]));
    LoserAtGate(s1, t, r, c);
    var s2 := s.(registry := s.registry - {r},
                 threads := s.threads[t := Calling(r, [], [Refusal(s.requests[r], c)], None)]);
    assert Do(s1, PassGate(t)) == s2 by {
      assert s1.threads[t := Calling(r, [], [Refusal(s.requests[r], c)], None)] == s2.threads;
    }
    LoserRestores(s, Do(s1, PassGate(t)), t, r, Refusal(s.requests[r], c));
    ThreeSteps(s, Begin(t, r, [c]), PassGate(t), PutBack(t));
  }

  /** The thread that takes a step, if one does. */
  function Mover(step: Step): Option<Tid> {
    match step
    case Begin(t, _, _) => Some(t)
    case PassGate(t) => Some(t)
    case TakeEffect(t, _) => Some(t)
    case PutBack(t) => Some(t)
    case Register(t) => Some(t)
    case BeginDelayed(t, _, _) => Some(t)
    case DelayedEffect(t) => Some(t)
    case DelayedPutBack(t) => Some(t)
    case Delete(t) => Some(t)
    case _ => None
  }

  /** Thread `t` has request `r` checked out, and both are the same in the two states. */
  predicate StillHeld(s: State, s': State, t: Tid, r: Rid) {
    && t in s.threads && t in s'.threads && s'.threads[t] == s.threads[t] && HeldRequest(s.threads[t]) == Some(r)
    && r in s.requests && r in s'.requests && s'.requests[r] == s.requests[r]
    && (r in s'.registry <==> r in s.registry)
  }

  /** The request a step works on or takes in or out of its registry. */
  function Touched(s: State, step: Step): Option<Rid>
    requires Enabled(s, step)
  {
    match step
    case Arrive(r, _, _, _, _) => Some(r)
    case Begin(_, r, _) => if r in s.registry then Some(r) else None
    case PassGate(t) => Some(s.threads[t].r)
    case TakeEffect(t, _) => Some(s.threads[t].r)
    case PutBack(t) => Some(s.threads[t].r)
    case Return(r) => Some(r)
    case FinishCas(r) => Some(r)
    case FinishEffect(r) => Some(r)
    case Destroy(r) => Some(r)
    case _ => None
  }

  /** Nobody else can touch a request while a thread has it checked out. */
  lemma HeldIsNotTouched(s: State, step: Step, t: Tid, r: Rid)
    requires Inv(s) && Enabled(s, step) && Disciplined(s, step) && Mover(step) != Some(t)
    requires t in s.threads && HeldRequest(s.threads[t]) == Some(r)
    ensures CheckedOut(s, r) && Touched(s, step) != Some(r)
  {
    assert ThreadOk(s, t);
    OthersApart(s, t);
  }

  lemma UseLeavesHeld(s: State, u: Tid, t: Tid, r: Rid)
    requires Enabled(s, DelayedEffect(u)) && u != t && t in s.threads && HeldRequest(s.threads[t]) == Some(r)
    requires CheckedOut(s, r)
    ensures StillHeld(s, DoDelayedEffect(s, u), t, r)
  {
    var o, op := s.threads[u].o, s.threads[u].op;
    if o in s.delayed {
      var mid := AfterOp(s, u, o, op);
      assert mid.requests == s.requests && mid.registry == s.registry;
      assert mid.threads == s.threads - {u} || mid.threads == s.threads[u := mid.threads[u]];
    }
  }

  lemma ScriptLeavesHeld(s: State, step: Step, t: Tid, r: Rid)
    requires Enabled(s, step) && Touched(s, step) != Some(r) && Mover(step) != Some(t)
    requires t in s.threads && HeldRequest(s.threads[t]) == Some(r) && CheckedOut(s, r)
    requires step.Begin? || step.PassGate? || step.PutBack?
    ensures StillHeld(s, Do(s, step), t, r)
  {
  }

  lemma EffectLeavesHeld(s: State, u: Tid, addr: Oid, t: Tid, r: Rid)
    requires Enabled(s, TakeEffect(u, addr)) && s.threads[u].r != r && u != t
    requires t in s.threads && HeldRequest(s.threads[t]) == Some(r) && CheckedOut(s, r)
    ensures StillHeld(s, DoTakeEffect(s, u, addr), t, r)
  {
  }

  lemma ObjectLeavesHeld(s: State, step: Step, t: Tid, r: Rid)
    requires Enabled(s, step) && Mover(step) != Some(t)
    requires t in s.threads && HeldRequest(s.threads[t]) == Some(r) && CheckedOut(s, r)
    requires step.Register? || step.BeginDelayed? || step.DelayedPutBack? || step.Delete?
    ensures StillHeld(s, Do(s, step), t, r)
  {
  }

  lemma ServerLeavesHeld(s: State, step: Step, t: Tid, r: Rid)
    requires Enabled(s, step) && Touched(s, step) != Some(r)
    requires t in s.threads && HeldRequest(s.threads[t]) == Some(r) && CheckedOut(s, r)
    requires step.Arrive? || step.EndSender? || step.Return? || step.FinishCas? || step.FinishEffect? || step.Destroy?
    ensures StillHeld(s, Do(s, step), t, r)
  {
    assert Do(s, step).threads == s.threads;
  }

  lemma OthersLeaveHeld(s: State, step: Step, t: Tid, r: Rid)
    requires Inv(s) && Enabled(s, step) && Disciplined(s, step) && Mover(step) != Some(t)
    requires t in s.threads && HeldRequest(s.threads[t]) == Some(r)
    ensures StillHeld(s, Do(s, step), t, r)
  {
    HeldIsNotTouched(s, step, t, r);
    match step
    case TakeEffect(u, addr) => EffectLeavesHeld(s, u, addr, t, r);
    case DelayedEffect(u) => UseLeavesHeld(s, u, t, r);
    case _ =>
      if step.Begin? || step.PassGate? || step.PutBack? {
        ScriptLeavesHeld(s, step, t, r);
      } else if step.Register? || step.BeginDelayed? || step.DelayedPutBack? || step.Delete? {
        ObjectLeavesHeld(s, step, t, r);
      } else {
        ServerLeavesHeld(s, step, t, r);
      }
  }

  lemma {:induction false} OthersLeaveHeldFor(s: State, steps: seq<Step>, t: Tid, r: Rid)
    requires Inv(s) && DisciplinedFrom(s, steps) && t in s.threads && HeldRequest(s.threads[t]) == Some(r)
    requires forall step | step in steps :: Mover(step) != Some(t)
    ensures Inv(RunFrom(s, steps)) && StillHeld(s, RunFrom(s, steps), t, r)
    decreases |steps|
  {
    if steps == [] {
      assert ThreadOk(s, t);
    } else {
      var front, last := steps[..|steps| - 1], steps[|steps| - 1];
      assert forall step | step in front :: step in steps;
      OthersLeaveHeldFor(s, front, t, r);
      if Enabled(RunFrom(s, front), last) {
        OthersLeaveHeld(RunFrom(s, front), last, t, r);
        StepInv(RunFrom(s, front), last);
      }
    }
  }

  /** Request `r` is the same in both states. */
  predicate SameIn(s: State, s': State, r: Rid) {
    r in s.requests && r in s'.requests && s'.requests[r] == s.requests[r]
  }

  lemma LoserBegins(t: Tid, r: Rid, c: Call, s: State, s': State)
    requires Inv(s) && r in s.registry && r in s.requests && IsCommitting(c)
    requires Enabled(s, Begin(t, r, [c])) && s' == DoBegin(s, t, r, [c])
    ensures Inv(s') && SameWorld(s, s') && SameIn(s, s', r)
    ensures t in s'.threads && s'.threads[t] == Calling(r, [c], [], None)
  {
    BeginInv(s, t, r, [c]);
  }

  /** From check-out to refusal. */
  lemma LoserUpToGate(t: Tid, r: Rid, c: Call, reply: Reply, s: State, a: seq<Step>, s2: State, s3: State)
    requires Inv(s) && t in s.threads && s.threads[t] == Calling(r, [c], [], None)
    requires r in s.requests && Loses(s.requests[r].obj, c)
    requires reply == Refusal(s.requests[r], c)
    requires forall step | step in a :: Mover(step) != Some(t)
    requires DisciplinedFrom(s, a) && s2 == RunFrom(s, a) && Enabled(s2, PassGate(t)) && s3 == DoPassGate(s2, t)
    ensures Inv(s3) && SameWorld(s2, s3) && SameIn(s, s2, r) && SameIn(s, s3, r) && r !in s2.registry
    ensures t in s3.threads && s3.threads[t] == Calling(r, [], [reply], None)
  {
    assert ThreadOk(s, t);
    OthersLeaveHeldFor(s, a, t, r);
    LoserAtGate(s2, t, r, c);
    PassGateInv(s2, t);
  }

  /** From refusal to put-back. */
  lemma LoserUpToPutBack(t: Tid, r: Rid, reply: Reply, s: State, b: seq<Step>, s4: State, s5: State)
    requires Inv(s) && t in s.threads && s.threads[t] == Calling(r, [], [reply], None)
    requires forall step | step in b :: Mover(step) != Some(t)
    requires DisciplinedFrom(s, b) && s4 == RunFrom(s, b) && Enabled(s4, PutBack(t)) && s5 == DoPutBack(s4, t)
    ensures SameWorld(s4, s5) && SameIn(s, s4, r) && r !in s4.registry
    ensures t !in s5.threads && s5.registry == s4.registry + {r} && s5.replies == s4.replies + [reply]
  {
    assert ThreadOk(s, t);
    OthersLeaveHeldFor(s, b, t, r);
  }

  /** From check-out to put-back. */
  lemma LoserFromCheckOut(t: Tid, r: Rid, c: Call, reply: Reply, s1: State, a: seq<Step>, s2: State, s3: State,
                          b: seq<Step>, s4: State, s5: State)
    requires Inv(s1) && t in s1.threads && s1.threads[t] == Calling(r, [c], [], None)
    requires r in s1.requests && Loses(s1.requests[r].obj, c)
    requires reply == Refusal(s1.requests[r], c)
    requires DisciplinedFrom(s1, a) && s2 == RunFrom(s1, a) && Enabled(s2, PassGate(t)) && s3 == DoPassGate(s2, t)
    requires DisciplinedFrom(s3, b) && s4 == RunFrom(s3, b) && Enabled(s4, PutBack(t)) && s5 == DoPutBack(s4, t)
    requires forall step | step in a || step in b :: Mover(step) != Some(t)
    ensures SameWorld(s2, s3) && SameWorld(s4, s5)
    ensures SameIn(s1, s2, r) && SameIn(s1, s4, r) && r !in s2.registry && r !in s4.registry
    ensures t !in s5.threads && s5.registry == s4.registry + {r} && s5.replies == s4.replies + [reply]
  {
    LoserUpToGate(t, r, c, reply, s1, a, s2, s3);
    LoserUpToPutBack(t, r, reply, s3, b, s4, s5);
  }

  /** A losing call in the middle of anything: thread `t` takes out `r`, is refused and puts `r` back, while others
      do what they like, `a` before the refusal and `b` after it. None of its three steps changes any request,
      token, delayed object or log, nobody else gets at the request in between, and its caller is told. */
  lemma LosingCall(t: Tid, r: Rid, c: Call, s: State, s1: State, a: seq<Step>, s2: State, s3: State, b: seq<Step>,
                   s4: State, s5: State)
    requires Inv(s) && r in s.requests && r in s.registry && Loses(s.requests[r].obj, c)
    requires Enabled(s, Begin(t, r, [c])) && s1 == DoBegin(s, t, r, [c])
    requires DisciplinedFrom(s1, a) && s2 == RunFrom(s1, a) && Enabled(s2, PassGate(t)) && s3 == DoPassGate(s2, t)
    requires DisciplinedFrom(s3, b) && s4 == RunFrom(s3, b) && Enabled(s4, PutBack(t)) && s5 == DoPutBack(s4, t)
    requires forall step | step in a || step in b :: Mover(step) != Some(t)
    ensures SameWorld(s, s1) && SameWorld(s2, s3) && SameWorld(s4, s5)
    ensures SameIn(s, s2, r) && SameIn(s, s4, r) && r !in s2.registry && r !in s4.registry
    ensures t !in s5.threads && s5.registry == s4.registry + {r}
    ensures s5.replies == s4.replies + [Refusal(s.requests[r], c)]
  {
    LoserBegins(t, r, c, s, s1);
    LoserFromCheckOut(t, r, c, Refusal(s.requests[r], c), s1, a, s2, s3, b, s4, s5);
  }

  // ----- scripts are kept -----

  function CallsOf(done: seq<Reply>): (calls: seq<Call>)
    ensures |calls| == |done|
  {
    seq(|done|, i requires 0 <= i < |done| => done[i].call)
  }

  /** The calls of a thread's script: those already through, the one at work, and those to come. */
  function ScriptOf(pc: Pc): seq<Call>
    requires HeldRequest(pc).Some?
  {
    match pc
    case Calling(_, calls, done, _) => CallsOf(done) + calls
    case Admitted(_, _, call, rest, done) => CallsOf(done) + ([call] + rest)
  }

  lemma CallsSnoc(done: seq<Reply>, reply: Reply, rest: seq<Call>)
    ensures CallsOf(done + [reply]) + rest == CallsOf(done) + ([reply.call] + rest)
  {
    assert CallsOf(done + [reply]) == CallsOf(done) + [reply.call];
  }

  lemma GateKeepsScript(s: State, t: Tid)
    requires Enabled(s, PassGate(t)) && s.threads[t].r in s.requests
    ensures var pc := DoPassGate(s, t).threads[t];
            HeldRequest(pc) == HeldRequest(s.threads[t]) && ScriptOf(pc) == ScriptOf(s.threads[t])
  {
    var pc := s.threads[t];
    var req := s.requests[pc.r];
    assert pc.calls == [pc.calls[0]] + pc.calls[1..];
    match Gate(req.obj, pc.calls[0])
    case Refused(e) => CallsSnoc(pc.done, Reply(req.tok, pc.calls[0], Some(e)), pc.calls[1..]);
    case Passed(_) =>
  }

  lemma EffectKeepsScript(s: State, t: Tid, addr: Oid)
    requires Enabled(s, TakeEffect(t, addr)) && s.threads[t].r in s.requests
    requires Effect(s.requests[s.threads[t].r].obj, s.threads[t].call).Effected?
    ensures var pc := DoTakeEffect(s, t, addr).threads[t];
            HeldRequest(pc) == HeldRequest(s.threads[t]) && ScriptOf(pc) == ScriptOf(s.threads[t])
  {
    var pc := s.threads[t];
    var e := Effect(s.requests[pc.r].obj, pc.call);
    CallsSnoc(pc.done, Reply(pc.tok, pc.call, e.error), pc.rest);
    EffectShape(s, t, addr);
  }

  /** The step a thread inside a script takes next. */
  function NextInScript(s: State, t: Tid, addr: Oid): Step
    requires t in s.threads && HeldRequest(s.threads[t]).Some?
  {
    if s.threads[t].Admitted? then TakeEffect(t, addr)
    else if s.threads[t].calls != [] then PassGate(t)
    else PutBack(t)
  }

  lemma BeginStartsScript(s: State, t: Tid, r: Rid, calls: seq<Call>)
    requires Enabled(s, Begin(t, r, calls)) && r in s.registry
    ensures var s' := Do(s, Begin(t, r, calls));
            t in s'.threads && HeldRequest(s'.threads[t]) == Some(r) && ScriptOf(s'.threads[t]) == calls
  {
    assert CallsOf([]) + calls == calls;
  }

  /** In every state, as long as nothing goes wrong, a thread inside a script goes on with that very script, call after
      call, until it puts its request back; its caller is then told of every call of the script, in order. */
  lemma ScriptsAreKept(s: State, t: Tid, addr: Oid)
    requires t in s.threads && HeldRequest(s.threads[t]).Some? && addr !in s.delayed && !s.fault
    ensures var step := NextInScript(s, t, addr);
            Enabled(s, step)
            && (step.PutBack? ==>
                  CallsOf(s.threads[t].done) == ScriptOf(s.threads[t])
                  && Do(s, step).replies == s.replies + s.threads[t].done)
            && (!step.PutBack? && !Do(s, step).fault ==>
                  t in Do(s, step).threads && HeldRequest(Do(s, step).threads[t]) == HeldRequest(s.threads[t])
                  && ScriptOf(Do(s, step).threads[t]) == ScriptOf(s.threads[t]))
  {
    var pc := s.threads[t];
    if pc.Admitted? {
      if pc.r in s.requests && Effect(s.requests[pc.r].obj, pc.call).Effected? {
        EffectKeepsScript(s, t, addr);
        EffectShape(s, t, addr);
      }
    } else if pc.calls != [] {
      if pc.r in s.requests { GateKeepsScript(s, t); }
    } else {
      assert CallsOf(pc.done) + [] == CallsOf(pc.done);
    }
  }
}
