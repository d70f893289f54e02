/**
 What every run does to the clients, said from the calls themselves: which metadata, data, files and closings scripts
 and server asked for, step by step, and that exactly this reached the transports. Events are not mentioned.
 */
module ProtocolDeeds {
  import opened Common
  import opened Metadata
  import opened RequestCore
  import opened Protocol
  import opened TokenLife
  import opened ProtocolInvariant

  datatype Deed =
    | SetsMetadata(md: ResponseMetadata)
    | Answers(body: string)
    | Streams(source: string)
    | Rearms
    | Closes
    | Drops

  /** What a call on a request asks for, once it is past its gate. */
  function AskedByCall(c: Call): Option<Deed> {
    match c
    case SetMetadata(md) => Some(SetsMetadata(md))
    case SendResponse(body, writes) => if writes then Some(Answers(body)) else None
    case SendFile(path, _) => Some(Streams(path))
    case SendMustache(path, loads) => if loads then Some(Streams(path)) else None
    case _ => None
  }

  /** What a call on a delayed object asks for. */
  function AskedByOp(op: DelayedOp): Option<Deed> {
    match op
    case WriterSetMetadata(md) => Some(SetsMetadata(md))
    case WriterSend(body, throws) => if throws then None else Some(Answers(body))
    case SocketSend(body, throws) => if throws then None else Some(Answers(body))
    case SocketClose(throws) => if throws then None else Some(Closes)
  }

  /** What a step does to which token. */
  function DeedOf(s: State, step: Step): Option<(Tok, Deed)>
    requires Enabled(s, step)
  {
    match step
    case TakeEffect(t, _) =>
      if s.threads[t].r !in s.requests then None
      else OnToken(s.requests[s.threads[t].r].tok, AskedByCall(s.threads[t].call))
    case DelayedEffect(t) =>
      if s.threads[t].o !in s.delayed then None
      else OnToken(s.delayed[s.threads[t].o].tok, AskedByOp(s.threads[t].op))
    case Delete(t) =>
      var o := s.threads[t].o;
      if o in s.delayed && s.delayed[o].holdsToken then Some((s.delayed[o].tok, Drops)) else None
    case FinishEffect(r) => Some((s.requests[r].tok, if s.requests[r].obj.kind == Http then Answers("") else Rearms))
    case Destroy(r) => if s.requests[r].obj.holdsToken then Some((s.requests[r].tok, Drops)) else None
    case _ => None
  }

  function OnToken(tok: Tok, deed: Option<Deed>): Option<(Tok, Deed)> {
    if deed.Some? then Some((tok, deed.value)) else None
  }

  /** A transport after a deed. */
  function Suffer(tr: Transport, d: Deed): Transport {
    match d
    case SetsMetadata(md) => Transport(Apply(tr.response, md), tr.log)
    case Answers(body) => Transport(tr.response, tr.log + [Sent(tr.response, body)])
    case Streams(source) => Transport(tr.response, tr.log + [Streamed(tr.response, source)])
    case Rearms => Transport(tr.response, tr.log + [Rearmed])
    case Closes => Transport(tr.response, tr.log + [Closed])
    case Drops => Transport(tr.response, tr.log + [Dropped])
  }

  /** The step does its deed, if it has one, to a token that is still unanswered, and leaves all others alone. */
  ghost predicate DoesItsDeed(s: State, step: Step)
    requires Enabled(s, step)
  {
    var s' := Do(s, step);
    match DeedOf(s, step)
    case None => forall tok | tok in s.transports :: tok in s'.transports && s'.transports[tok] == s.transports[tok]
    case Some(p) =>
      p.0 in s.transports && s.transports[p.0].log == []
      && s'.transports == s.transports[p.0 := Suffer(s.transports[p.0], p.1)]
  }

  /** A token in a request or object that still has it is unanswered. */
  lemma RequestUnanswered(s: State, r: Rid)
    requires Inv(s) && r in s.requests && s.requests[r].obj.holdsToken
    ensures s.requests[r].tok in s.transports && s.transports[s.requests[r].tok].log == []
  {
    RequestLife(s, r);
    assert TokenOk(s, s.requests[r].tok);
    LifeLogsOnce(s.events, s.requests[r].tok);
  }

  lemma ObjectUnanswered(s: State, o: Oid)
    requires Inv(s) && o in s.delayed && s.delayed[o].holdsToken
    ensures s.delayed[o].tok in s.transports && s.transports[s.delayed[o].tok].log == []
  {
    assert DelayedOk(s, o) && TokenOk(s, s.delayed[o].tok);
    LifeLogsOnce(s.events, s.delayed[o].tok);
  }

  /** What an effect asks for is what it does. */
  lemma EffectAsAsked(o: Obj, c: Call, tr: Transport)
    requires Effect(o, c).Effected?
    ensures match AskedByCall(c)
            case Some(d) => o.holdsToken && Deliver(tr, Effect(o, c).act) == Suffer(tr, d)
            case None => Effect(o, c).act == Nothing || Effect(o, c).act == HandOff
  {
  }

  /** An admitted call finds its request, and its effect what it needs. */
  lemma AdmittedHolds(s: State, t: Tid)
    requires Inv(s) && t in s.threads && s.threads[t].Admitted?
    ensures var pc := s.threads[t];
            pc.r in s.requests && s.requests[pc.r].tok in s.transports
            && Effect(s.requests[pc.r].obj, pc.call).Effected?
  {
    assert ThreadOk(s, t);
    RequestLife(s, s.threads[t].r);
    assert s.threads[t].call in [s.threads[t].call];
  }

  lemma TakeEffectDeed(s: State, t: Tid, addr: Oid)
    requires Inv(s) && Enabled(s, TakeEffect(t, addr))
    ensures DoesItsDeed(s, TakeEffect(t, addr))
  {
    AdmittedHolds(s, t);
    var pc := s.threads[t];
    var req := s.requests[pc.r];
    EffectAsAsked(req.obj, pc.call, s.transports[req.tok]);
    if req.obj.holdsToken { RequestUnanswered(s, pc.r); }
    EffectTransports(s, t, addr);
  }

  lemma EffectTransports(s: State, t: Tid, addr: Oid)
    requires Enabled(s, TakeEffect(t, addr)) && s.threads[t].r in s.requests
    requires Effect(s.requests[s.threads[t].r].obj, s.threads[t].call).Effected?
    requires s.requests[s.threads[t].r].tok in s.transports
    ensures var tok := s.requests[s.threads[t].r].tok;
            var act := Effect(s.requests[s.threads[t].r].obj, s.threads[t].call).act;
            DoTakeEffect(s, t, addr).transports ==
            if act == Nothing || act == HandOff then s.transports
            else s.transports[tok := Deliver(s.transports[tok], act)]
  {
  }

  lemma DelayedEffectDeed(s: State, t: Tid)
    requires Inv(s) && Enabled(s, DelayedEffect(t))
    ensures DoesItsDeed(s, DelayedEffect(t))
  {
    assert ThreadOk(s, t);
    var o, op := s.threads[t].o, s.threads[t].op;
    ObjectUnanswered(s, o);
    UseTransports(s, t);
  }

  lemma UseTransports(s: State, t: Tid)
    requires Enabled(s, DelayedEffect(t)) && s.threads[t].o in s.delayed && s.delayed[s.threads[t].o].holdsToken
    requires s.delayed[s.threads[t].o].tok in s.transports
    ensures var tok := s.delayed[s.threads[t].o].tok;
            DoDelayedEffect(s, t).transports ==
            match AskedByOp(s.threads[t].op)
            case Some(d) => s.transports[tok := Suffer(s.transports[tok], d)]
            case None => s.transports
  {
  }

  lemma DeleteDeed(s: State, t: Tid)
    requires Inv(s) && Enabled(s, Delete(t))
    ensures DoesItsDeed(s, Delete(t))
  {
    assert ThreadOk(s, t);
    if s.delayed[s.threads[t].o].holdsToken { ObjectUnanswered(s, s.threads[t].o); }
  }

  lemma FinishEffectDeed(s: State, r: Rid)
    requires Inv(s) && Enabled(s, FinishEffect(r))
    ensures DoesItsDeed(s, FinishEffect(r))
  {
    assert RequestOk(s, r);
    RequestLife(s, r);
    RequestUnanswered(s, r);
  }

  lemma DestroyDeed(s: State, r: Rid)
    requires Inv(s) && Enabled(s, Destroy(r))
    ensures DoesItsDeed(s, Destroy(r))
  {
    RequestLife(s, r);
    if s.requests[r].obj.holdsToken { RequestUnanswered(s, r); }
  }

  lemma OtherStepsNoDeed(s: State, step: Step)
    requires Enabled(s, step) && DeedOf(s, step).None?
    requires step.Arrive? || step.Begin? || step.PassGate? || step.PutBack? || step.Register? || step.BeginDelayed?
             || step.DelayedPutBack? || step.EndSender? || step.Return? || step.FinishCas?
    ensures forall tok | tok in s.transports ::
              tok in Do(s, step).transports && Do(s, step).transports[tok] == s.transports[tok]
  {
    assert step.Arrive? || Do(s, step).transports == s.transports;
  }

  lemma StepDeed(s: State, step: Step)
    requires Inv(s) && Enabled(s, step)
    ensures DoesItsDeed(s, step)
  {
    match step
    case TakeEffect(t, addr) => TakeEffectDeed(s, t, addr);
    case DelayedEffect(t) => DelayedEffectDeed(s, t);
    case Delete(t) => DeleteDeed(s, t);
    case FinishEffect(r) => FinishEffectDeed(s, r);
    case Destroy(r) => DestroyDeed(s, r);
    case _ => OtherStepsNoDeed(s, step);
  }

  // ----- whole runs -----

  /** Everything a run asked of a token, in order. */
  function Deeds(steps: seq<Step>, tok: Tok): seq<Deed>
    decreases |steps|
  {
    if steps == [] then []
    else
      var front, last := steps[..|steps| - 1], steps[|steps| - 1];
      var before := Deeds(front, tok);
      if !Enabled(Run(front), last) then before
      else
        match DeedOf(Run(front), last)
        case Some(p) => if p.0 == tok then before + [p.1] else before
        case None => before
  }

  /** The response the token arrived with. */
  function StartOf(steps: seq<Step>, tok: Tok): Option<Response>
    decreases |steps|
  {
    if steps == [] then None
    else
      var front, last := steps[..|steps| - 1], steps[|steps| - 1];
      if last.Arrive? && last.tok == tok && Enabled(Run(front), last) then Some(last.start) else StartOf(front, tok)
  }

  /** The metadata among these deeds. */
  function MetadataOf(ds: seq<Deed>): seq<ResponseMetadata>
    decreases |ds|
  {
    if ds == [] then []
    else
      var before, last := MetadataOf(ds[..|ds| - 1]), ds[|ds| - 1];
      if last.SetsMetadata? then before + [last.md] else before
  }

  /** The log after these deeds: the entry of the one that ended the exchange, if one did. */
  function LogOf(ds: seq<Deed>, response: Response): seq<Disposal> {
    if ds == [] then []
    else
      match ds[|ds| - 1]
      case SetsMetadata(_) => []
      case Answers(body) => [Sent(response, body)]
      case Streams(source) => [Streamed(response, source)]
      case Rearms => [Rearmed]
      case Closes => [Closed]
      case Drops => [Dropped]
  }

  /** Metadata as long as the exchange is open, and at most one deed that ends it, the last. */
  ghost predicate Orderly(ds: seq<Deed>) {
    forall i | 0 <= i < |ds| - 1 :: ds[i].SetsMetadata?
  }

  /** A transport after an orderly list of deeds. */
  ghost predicate IsAfter(tr: Transport, start: Response, ds: seq<Deed>) {
    && Orderly(ds) && tr.response == Fold(start, MetadataOf(ds)) && tr.log == LogOf(ds, tr.response)
  }

  lemma AfterOneMore(tr: Transport, start: Response, ds: seq<Deed>, d: Deed)
    requires IsAfter(tr, start, ds) && tr.log == []
    ensures IsAfter(Suffer(tr, d), start, ds + [d])
  {
    var all := ds + [d];
    assert all[..|all| - 1] == ds && all[|all| - 1] == d;
    assert ds != [] ==> ds[|ds| - 1].SetsMetadata?;
    assert Orderly(all);
    if d.SetsMetadata? {
      var mds := MetadataOf(ds);
      assert (mds + [d.md])[..|mds|] == mds;
    } else {
      assert Suffer(tr, d).log == LogOf(all, tr.response);
    }
  }

  /** A token that has not arrived is asked nothing. */
  ghost predicate TokenAsAsked(steps: seq<Step>, tok: Tok) {
    if tok in Run(steps).transports then
      StartOf(steps, tok).Some? && IsAfter(Run(steps).transports[tok], StartOf(steps, tok).value, Deeds(steps, tok))
    else StartOf(steps, tok).None? && Deeds(steps, tok) == []
  }

  lemma ArriveAsAsked(steps: seq<Step>, tok: Tok)
    requires steps != [] && TokenAsAsked(steps[..|steps| - 1], tok)
    requires steps[|steps| - 1].Arrive? && Enabled(Run(steps[..|steps| - 1]), steps[|steps| - 1])
    ensures TokenAsAsked(steps, tok)
  {
    var front, last := steps[..|steps| - 1], steps[|steps| - 1];
    var s := Run(front);
    assert Run(steps).transports == s.transports[last.tok := Transport(last.start, [])];
    if last.tok == tok {
      assert Deeds(steps, tok) == [];
    }
  }

  lemma StepAsAsked(steps: seq<Step>, tok: Tok)
    requires steps != [] && TokenAsAsked(steps[..|steps| - 1], tok) && Inv(Run(steps[..|steps| - 1]))
    requires !steps[|steps| - 1].Arrive? && Enabled(Run(steps[..|steps| - 1]), steps[|steps| - 1])
    ensures TokenAsAsked(steps, tok)
  {
    var front, last := steps[..|steps| - 1], steps[|steps| - 1];
    var s := Run(front);
    StepDeed(s, last);
    TokensStay(s, last);
    if DeedOf(s, last).Some? && DeedOf(s, last).value.0 == tok {
      AfterOneMore(s.transports[tok], StartOf(front, tok).value, Deeds(front, tok), DeedOf(s, last).value.1);
    }
  }

  lemma TokensStay(s: State, step: Step)
    requires Inv(s) && Enabled(s, step) && !step.Arrive?
    ensures Do(s, step).transports.Keys == s.transports.Keys
  {
    StepDeed(s, step);
    if DeedOf(s, step).None? {
      NoNewTokens(s, step);
    }
  }

  lemma NoNewTokens(s: State, step: Step)
    requires Enabled(s, step) && !step.Arrive?
    ensures Do(s, step).transports.Keys <= s.transports.Keys
  {
    match step
    case DelayedEffect(t) => UseMakesNoToken(s, t);
    case TakeEffect(t, addr) => EffectMakesNoToken(s, t, addr);
    case _ =>
  }

  lemma UseMakesNoToken(s: State, t: Tid)
    requires Enabled(s, DelayedEffect(t))
    ensures DoDelayedEffect(s, t).transports.Keys <= s.transports.Keys
  {
  }

  lemma EffectMakesNoToken(s: State, t: Tid, addr: Oid)
    requires Enabled(s, TakeEffect(t, addr))
    ensures DoTakeEffect(s, t, addr).transports.Keys <= s.transports.Keys
  {
  }

  lemma {:induction false} RunAsAsked(steps: seq<Step>, tok: Tok)
    requires DisciplinedRun(steps)
    ensures TokenAsAsked(steps, tok)
    decreases |steps|
  {
    if steps != [] {
      var front, last := steps[..|steps| - 1], steps[|steps| - 1];
      RunAsAsked(front, tok);
      RunInv(front);
      if Enabled(Run(front), last) {
        if last.Arrive? {
          ArriveAsAsked(steps, tok);
        } else {
          StepAsAsked(steps, tok);
        }
      }
    }
  }

  /** In every disciplined run each client gets what the calls on its request, on its delayed object and the server
      asked for, and nothing else: the response is the one it arrived with, changed by the metadata of those calls from
      left to right, and its exchange has the one end that was asked for last, with that response, or none yet. */
  lemma ClientsGetWhatWasAsked(steps: seq<Step>, tok: Tok)
    requires DisciplinedRun(steps) && tok in Run(steps).transports
    ensures Orderly(Deeds(steps, tok)) && StartOf(steps, tok).Some?
    ensures var response := Fold(StartOf(steps, tok).value, MetadataOf(Deeds(steps, tok)));
            Run(steps).transports[tok] == Transport(response, LogOf(Deeds(steps, tok), response))
  {
    RunAsAsked(steps, tok);
  }

  // ----- the log agrees -----

  /** The metadata a step asks a token to take. */
  function AskedMetadata(s: State, step: Step, tok: Tok): seq<ResponseMetadata>
    requires Enabled(s, step)
  {
    match DeedOf(s, step)
    case Some(p) => if p.0 == tok && p.1.SetsMetadata? then [p.1.md] else []
    case None => []
  }

  function LoggedMetadata(what: Option<What>): seq<ResponseMetadata> {
    if what.Some? && what.value.Acted? && what.value.act.Meta? then [what.value.act.md] else []
  }

  lemma MetasSnoc(events: seq<Event>, e: Event, tok: Tok)
    ensures Metas(events + [e], tok)
            == Metas(events, tok) + if e.tok == tok then LoggedMetadata(Some(e.what)) else []
  {
    assert (events + [e])[..|events|] == events;
  }

  lemma EmitMetas(s: State, at: Tok, what: Option<What>, tok: Tok)
    ensures Metas(EmitIf(s, at, what).events, tok)
            == Metas(s.events, tok) + if at == tok then LoggedMetadata(what) else []
  {
    if what.Some? { MetasSnoc(s.events, Event(at, what.value), tok); }
  }

  lemma EffectMetas(s: State, t: Tid, addr: Oid, tok: Tok)
    requires Inv(s) && Enabled(s, TakeEffect(t, addr))
    ensures Metas(DoTakeEffect(s, t, addr).events, tok)
            == Metas(s.events, tok) + AskedMetadata(s, TakeEffect(t, addr), tok)
  {
    AdmittedHolds(s, t);
    var req, c := s.requests[s.threads[t].r], s.threads[t].call;
    var what := EffectLogged(Effect(req.obj, c), addr);
    EffectEvents(s, t, addr);
    EmitMetas(s, req.tok, what, tok);
    EffectLogs(req.obj, c, addr);
    EffectAsks(s, t, addr, tok);
  }

  /** What an effect logs. */
  function EffectLogged(e: EffectResult, addr: Oid): Option<What>
    requires e.Effected?
  {
    if e.act == HandOff then Some(HandedOff(addr)) else EffectEvent(e.act, e.error)
  }

  lemma EffectLogs(o: Obj, c: Call, addr: Oid)
    requires Effect(o, c).Effected?
    ensures LoggedMetadata(EffectLogged(Effect(o, c), addr)) == if c.SetMetadata? then [c.md] else []
  {
  }

  lemma EffectAsks(s: State, t: Tid, addr: Oid, tok: Tok)
    requires Enabled(s, TakeEffect(t, addr)) && s.threads[t].r in s.requests
    ensures var c := s.threads[t].call;
            AskedMetadata(s, TakeEffect(t, addr), tok)
            == if s.requests[s.threads[t].r].tok == tok && c.SetMetadata? then [c.md] else []
  {
  }

  lemma EffectEvents(s: State, t: Tid, addr: Oid)
    requires Enabled(s, TakeEffect(t, addr)) && s.threads[t].r in s.requests
    requires Effect(s.requests[s.threads[t].r].obj, s.threads[t].call).Effected?
    ensures var req := s.requests[s.threads[t].r];
            var what := EffectLogged(Effect(req.obj, s.threads[t].call), addr);
            DoTakeEffect(s, t, addr).events == EmitIf(s, req.tok, what).events
  {
  }

  lemma UseMetas(s: State, t: Tid, tok: Tok)
    requires Inv(s) && Enabled(s, DelayedEffect(t))
    ensures Metas(DoDelayedEffect(s, t).events, tok) == Metas(s.events, tok) + AskedMetadata(s, DelayedEffect(t), tok)
  {
    assert ThreadOk(s, t);
    var o, op := s.threads[t].o, s.threads[t].op;
    UseEvents(s, t);
    EmitMetas(s, s.delayed[o].tok, Some(OpEvent(op)), tok);
    UseAsks(s, t, tok);
  }

  lemma UseEvents(s: State, t: Tid)
    requires Enabled(s, DelayedEffect(t)) && s.threads[t].o in s.delayed && s.delayed[s.threads[t].o].holdsToken
    ensures var tok, what := s.delayed[s.threads[t].o].tok, Some(OpEvent(s.threads[t].op));
            DoDelayedEffect(s, t).events == EmitIf(s, tok, what).events
  {
  }

  lemma UseAsks(s: State, t: Tid, tok: Tok)
    requires Enabled(s, DelayedEffect(t)) && s.threads[t].o in s.delayed
    ensures AskedMetadata(s, DelayedEffect(t), tok)
            == if s.delayed[s.threads[t].o].tok == tok then LoggedMetadata(Some(OpEvent(s.threads[t].op))) else []
  {
  }

  /** Nothing was logged, or one event without metadata. */
  predicate Quiet(before: seq<Event>, after: seq<Event>) {
    after == before
    || (|after| == |before| + 1 && after[..|before|] == before && LoggedMetadata(Some(after[|before|].what)) == [])
  }

  lemma QuietMetas(before: seq<Event>, after: seq<Event>, tok: Tok)
    requires Quiet(before, after)
    ensures Metas(after, tok) == Metas(before, tok)
  {
    if after != before {
      assert after == before + [after[|before|]];
      MetasSnoc(before, after[|before|], tok);
    }
  }

  lemma OthersAreQuiet(s: State, step: Step)
    requires Enabled(s, step) && !step.TakeEffect? && !step.DelayedEffect?
    ensures Quiet(s.events, Do(s, step).events)
  {
    match step
    case PassGate(t) => GateIsQuiet(s, t);
    case Delete(t) => DeleteIsQuiet(s, t);
    case FinishEffect(r) => FinishEffectIsQuiet(s, r);
    case _ =>
  }

  lemma GateIsQuiet(s: State, t: Tid)
    requires Enabled(s, PassGate(t))
    ensures Quiet(s.events, DoPassGate(s, t).events)
  {
  }

  lemma DeleteIsQuiet(s: State, t: Tid)
    requires Enabled(s, Delete(t))
    ensures Quiet(s.events, DoDelete(s, t).events)
  {
  }

  lemma FinishEffectIsQuiet(s: State, r: Rid)
    requires Enabled(s, FinishEffect(r))
    ensures Quiet(s.events, DoFinishEffect(s, r).events)
  {
  }

  lemma StepMetas(s: State, step: Step, tok: Tok)
    requires Inv(s) && Enabled(s, step)
    ensures Metas(Do(s, step).events, tok) == Metas(s.events, tok) + AskedMetadata(s, step, tok)
  {
    match step
    case TakeEffect(t, addr) => EffectMetas(s, t, addr, tok);
    case DelayedEffect(t) => UseMetas(s, t, tok);
    case _ =>
      OthersAskNoMetadata(s, step, tok);
      OthersAreQuiet(s, step);
      QuietMetas(s.events, Do(s, step).events, tok);
  }

  lemma OthersAskNoMetadata(s: State, step: Step, tok: Tok)
    requires Enabled(s, step) && !step.TakeEffect? && !step.DelayedEffect?
    ensures AskedMetadata(s, step, tok) == []
  {
  }

  /** The metadata the log of a run has for a token is exactly that of the calls made for it. */
  lemma {:induction false} LoggedIsAsked(steps: seq<Step>, tok: Tok)
    requires DisciplinedRun(steps)
    ensures Metas(Run(steps).events, tok) == MetadataOf(Deeds(steps, tok))
    decreases |steps|
  {
    if steps != [] {
      var front, last := steps[..|steps| - 1], steps[|steps| - 1];
      LoggedIsAsked(front, tok);
      RunInv(front);
      if Enabled(Run(front), last) {
        StepMetas(Run(front), last, tok);
        match DeedOf(Run(front), last) {
          case Some(p) => if p.0 == tok { MetadataSnoc(Deeds(front, tok), p.1); }
          case None =>
        }
      }
    }
  }

  lemma MetadataSnoc(ds: seq<Deed>, d: Deed)
    ensures MetadataOf(ds + [d]) == MetadataOf(ds) + if d.SetsMetadata? then [d.md] else []
  {
    assert (ds + [d])[..|ds|] == ds;
  }
}
