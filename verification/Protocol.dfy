/**
 Any number of threads making calls on any number of requests, interleaved in atomic steps: check-out from
 a registry, gate, effect, put-back, hand-over to a delayed object or a stream sender, and the server's own return,
 finish and destruction of a request.

 Pointers are ids that may be used again once their object is gone. Nothing stops a thread that holds a
 pointer to a dead object, or to a moved-away token, from using it: the step is taken and `fault` is set.
 Every step that touches a token is also logged as an event on that token, and every reply to a script is kept.
 */
module Protocol {
  import opened Common
  import opened Metadata
  import opened RequestCore

  type Tid = nat // threads
  type Rid = nat // request objects, which are also their handles
  type Oid = nat // delayed writers and retained websockets, likewise
  type Tok = nat // transport tokens; never used again

  /** Where the server is with a request: in its callback, past it, in `finish`, after it. */
  datatype Phase = Running | Returned | Finishing | Finished

  datatype Req = Req(obj: Obj, tok: Tok, phase: Phase)

  /** A delayed response writer (`Http`) or a retained websocket (`WebSocket`). */
  datatype Delayed = Delayed(kind: Kind, tok: Tok, holdsToken: bool)

  /** An entry of the response writer registry or of the websocket registry, by kind. */
  datatype Handle = Handle(kind: Kind, o: Oid)

  /** Calls on delayed objects; `throws` is the library's answer. */
  datatype DelayedOp =
    | WriterSetMetadata(md: ResponseMetadata)
    | WriterSend(body: string, throws: bool)
    | SocketSend(body: string, throws: bool)
    | SocketClose(throws: bool)

  function OpKind(op: DelayedOp): Kind {
    if op.WriterSetMetadata? || op.WriterSend? then Http else WebSocket
  }

  /** A call on the request of a token, and what its caller is told. */
  datatype Reply = Reply(tok: Tok, call: Call, error: Option<Error>)

  /** Where a thread is inside a call; `done` are the calls of its script already through. */
  datatype Pc =
    | Calling(r: Rid, calls: seq<Call>, done: seq<Reply>, out: Option<Handle>)
    | Admitted(r: Rid, tok: Tok, call: Call, rest: seq<Call>, done: seq<Reply>)
    | Registering(h: Handle)
    | Using(o: Oid, op: DelayedOp)
    | PuttingBack(o: Oid)
    | Deleting(o: Oid)

  datatype Claimant = Thread(t: Tid) | Server

  datatype What =
    | Arrived(r: Rid, kind: Kind, allowed: bool, start: Response)
    | ClaimedBy(who: Claimant)
    | TemplateFailed
    | SendFailed
    | HandedOff(o: Oid)
    | Acted(act: Act)
    | SenderEnded(complete: bool)
    | Leaked

  datatype Event = Event(tok: Tok, what: What)

  datatype State = State(
    threads: map<Tid, Pc>,
    requests: map<Rid, Req>,
    registry: set<Rid>,
    delayed: map<Oid, Delayed>,
    handles: set<Handle>,
    leaked: set<Oid>,
    senders: set<Tok>, // running stream senders, by the token each has taken
    transports: map<Tok, Transport>,
    events: seq<Event>,
    replies: seq<Reply>,
    fault: bool)

  const INITIAL := State(map[], map[], {}, map[], {}, {}, {}, map[], [], [], false)

  datatype Step =
    | Arrive(r: Rid, tok: Tok, kind: Kind, allowed: bool, start: Response)
    | Begin(t: Tid, r: Rid, calls: seq<Call>)
    | PassGate(t: Tid)
    | TakeEffect(t: Tid, addr: Oid)
    | PutBack(t: Tid)
    | Register(t: Tid)
    | BeginDelayed(t: Tid, o: Oid, op: DelayedOp)
    | DelayedEffect(t: Tid)
    | DelayedPutBack(t: Tid)
    | Delete(t: Tid)
    | EndSender(tok: Tok, complete: bool)
    | Return(r: Rid)
    | FinishCas(r: Rid)
    | FinishEffect(r: Rid)
    | Destroy(r: Rid)

  /** What runs under one check-out: a single script call, or the two calls of `send_system_error`. */
  predicate IsScript(calls: seq<Call>) {
    |calls| == 1 || (|calls| == 2 && calls[0].SetMetadata? && calls[1].SendResponse?)
  }

  predicate Enabled(s: State, step: Step) {
    match step
    case Arrive(r, tok, kind, allowed, _) => r !in s.requests && tok !in s.transports && (allowed || kind == WebSocket)
    case Begin(t, _, calls) => t !in s.threads && IsScript(calls)
    case PassGate(t) => t in s.threads && s.threads[t].Calling? && s.threads[t].calls != []
    case TakeEffect(t, addr) => t in s.threads && s.threads[t].Admitted? && addr !in s.delayed
    case PutBack(t) => t in s.threads && s.threads[t].Calling? && s.threads[t].calls == []
    case Register(t) => t in s.threads && s.threads[t].Registering?
    case BeginDelayed(t, _, _) => t !in s.threads
    case DelayedEffect(t) => t in s.threads && s.threads[t].Using?
    case DelayedPutBack(t) => t in s.threads && s.threads[t].PuttingBack?
    case Delete(t) => t in s.threads && s.threads[t].Deleting?
    case EndSender(tok, _) => tok in s.senders
    case Return(r) => r in s.requests && s.requests[r].phase == Running
    case FinishCas(r) => r in s.requests && s.requests[r].phase == Returned
    case FinishEffect(r) => r in s.requests && s.requests[r].phase == Finishing
    case Destroy(r) => r in s.requests && s.requests[r].phase == Finished
  }

  /** The transports after an event: an act reaches its transport. */
  function DeliverEvent(transports: map<Tok, Transport>, tok: Tok, what: What): map<Tok, Transport> {
    match what
    case Arrived(_, _, _, start) => transports[tok := Transport(start, [])]
    case Acted(act) => if tok in transports then transports[tok := Deliver(transports[tok], act)] else transports
    case _ => transports
  }

  /** The running senders after an event. */
  function UpdateSenders(senders: set<Tok>, tok: Tok, what: What): set<Tok> {
    match what
    case Acted(act) => if act.Stream? then senders + {tok} else senders
    case SenderEnded(_) => senders - {tok}
    case _ => senders
  }

  /** Logs an event and carries it out. */
  function Emit(s: State, tok: Tok, what: What): State {
    s.(events := s.events + [Event(tok, what)],
       transports := DeliverEvent(s.transports, tok, what),
       senders := UpdateSenders(s.senders, tok, what))
  }

  function EmitIf(s: State, tok: Tok, what: Option<What>): State {
    if what.Some? then Emit(s, tok, what.value) else s
  }

  /** A thread that leaves its call. */
  function Leave(s: State, t: Tid): State {
    s.(threads := s.threads - {t})
  }

  /** A thread that used a dead object or a moved-away token. */
  function Crash(s: State, t: Tid): State {
    Leave(s, t).(fault := true)
  }

  function DoArrive(s: State, r: Rid, tok: Tok, kind: Kind, allowed: bool, start: Response): State {
    var req := Req(Obj(kind, if allowed then Created else Committed, true), tok, Running);
    Emit(s.(requests := s.requests[r := req], registry := s.registry + {r}), tok, Arrived(r, kind, allowed, start))
  }

  /** `remove` from the request registry; an absent handle makes the call fail at once. */
  function DoBegin(s: State, t: Tid, r: Rid, calls: seq<Call>): State {
    if r in s.registry then
      s.(registry := s.registry - {r}, threads := s.threads[t := Calling(r, calls, [], None)])
    else s
  }

  /** The state after a thread changed its request, moved on, and possibly logged an event. */
  function RequestUpdate(s: State, t: Tid, r: Rid, obj: Obj, pc: Pc, what: Option<What>): State
    requires r in s.requests
  {
    EmitIf(s.(requests := s.requests[r := s.requests[r].(obj := obj)], threads := s.threads[t := pc]),
           s.requests[r].tok, what)
  }

  function DoPassGate(s: State, t: Tid): State
    requires Enabled(s, PassGate(t))
  {
    var pc := s.threads[t];
    if pc.r !in s.requests then Crash(s, t)
    else
      var req := s.requests[pc.r];
      match Gate(req.obj, pc.calls[0])
      case Refused(e) =>
        var reply := Reply(req.tok, pc.calls[0], Some(e));
        s.(threads := s.threads[t := Calling(pc.r, pc.calls[1..], pc.done + [reply], pc.out)])
      case Passed(obj) =>
        RequestUpdate(s, t, pc.r, obj, Admitted(pc.r, req.tok, pc.calls[0], pc.calls[1..], pc.done),
                      if req.obj.state != obj.state then Some(ClaimedBy(Thread(t))) else None)
  }

  /** The event of an effect that is not a hand-over. */
  function EffectEvent(act: Act, error: Option<Error>): Option<What> {
    if act != Nothing then Some(Acted(act))
    else if error == Some(TemplateNotLoaded) then Some(TemplateFailed)
    else if error == Some(WriteFailed) then Some(SendFailed)
    else None
  }

  function DoTakeEffect(s: State, t: Tid, addr: Oid): State
    requires Enabled(s, TakeEffect(t, addr))
  {
    var pc := s.threads[t];
    if pc.r !in s.requests then Crash(s, t)
    else
      var req := s.requests[pc.r];
      match Effect(req.obj, pc.call)
      case Fault => Crash(s, t)
      case Effected(obj, act, error) =>
        var done := pc.done + [Reply(pc.tok, pc.call, error)];
        if act == HandOff then
          var h := Handle(if pc.call == SendLater then Http else WebSocket, addr);
          RequestUpdate(s.(delayed := s.delayed[addr := Delayed(h.kind, req.tok, true)]), t, pc.r, obj,
                        Calling(pc.r, pc.rest, done, Some(h)), Some(HandedOff(addr)))
        else
          RequestUpdate(s, t, pc.r, obj, Calling(pc.r, pc.rest, done, None), EffectEvent(act, error))
  }

  /** `put` into the request registry, which also ends the script unless it made a delayed object, still to be
      registered. Its caller is told how each call went. */
  function DoPutBack(s: State, t: Tid): State
    requires Enabled(s, PutBack(t))
  {
    var pc := s.threads[t];
    var s' := s.(registry := s.registry + {pc.r}, replies := s.replies + pc.done);
    if pc.out.Some? then s'.(threads := s.threads[t := Registering(pc.out.value)]) else Leave(s', t)
  }

  function DoRegister(s: State, t: Tid): State
    requires Enabled(s, Register(t))
  {
    Leave(s.(handles := s.handles + {s.threads[t].h}), t)
  }

  /** `remove` from the registry of the operation's kind. */
  function DoBeginDelayed(s: State, t: Tid, o: Oid, op: DelayedOp): State {
    var h := Handle(OpKind(op), o);
    if h in s.handles then s.(handles := s.handles - {h}, threads := s.threads[t := Using(o, op)]) else s
  }

  /** The event of a call on a delayed object. */
  function OpEvent(op: DelayedOp): What {
    match op
    case WriterSetMetadata(md) => Acted(Meta(md))
    case WriterSend(body, throws) => if throws then SendFailed else Acted(Send(body))
    case SocketSend(body, throws) => if throws then SendFailed else Acted(Send(body))
    case SocketClose(throws) => if throws then Leaked else Acted(Close)
  }

  /** The thread and the object after a call on it: a send deletes the object whether it throws or not,
      a close that throws forgets it. */
  function AfterOp(s: State, t: Tid, o: Oid, op: DelayedOp): State
    requires o in s.delayed
  {
    if op.WriterSetMetadata? then s.(threads := s.threads[t := PuttingBack(o)])
    else if op.SocketClose? && op.throws then Leave(s, t).(leaked := s.leaked + {o})
    else
      var d := s.delayed[o].(holdsToken := s.delayed[o].holdsToken && op.throws);
      s.(delayed := s.delayed[o := d], threads := s.threads[t := Deleting(o)])
  }

  function DoDelayedEffect(s: State, t: Tid): State
    requires Enabled(s, DelayedEffect(t))
  {
    var o, op := s.threads[t].o, s.threads[t].op;
    if o !in s.delayed || !s.delayed[o].holdsToken then Crash(s, t)
    else Emit(AfterOp(s, t, o, op), s.delayed[o].tok, OpEvent(op))
  }

  /** Only metadata calls put a delayed object back. */
  function DoDelayedPutBack(s: State, t: Tid): State
    requires Enabled(s, DelayedPutBack(t))
  {
    Leave(s.(handles := s.handles + {Handle(Http, s.threads[t].o)}), t)
  }

  /** `delete` of a delayed object; a token still inside goes down with it. */
  function DoDelete(s: State, t: Tid): State
    requires Enabled(s, Delete(t))
  {
    var o := s.threads[t].o;
    if o !in s.delayed then Crash(s, t)
    else
      var s' := Leave(s.(delayed := s.delayed - {o}), t);
      if s.delayed[o].holdsToken then Emit(s', s.delayed[o].tok, Acted(Drop)) else s'
  }

  /** A stream sender runs to its end and lets go of its token. */
  function DoEndSender(s: State, tok: Tok, complete: bool): State {
    Emit(s, tok, SenderEnded(complete))
  }

  /** The callback takes the request out of the registry and returns, whoever holds the request. */
  function DoReturn(s: State, r: Rid): State
    requires Enabled(s, Return(r))
  {
    s.(registry := s.registry - {r}, requests := s.requests[r := s.requests[r].(phase := Returned)])
  }

  function DoFinishCas(s: State, r: Rid): State
    requires Enabled(s, FinishCas(r))
  {
    var req := s.requests[r];
    match Cas(req.obj)
    case Refused(_) => s.(requests := s.requests[r := req.(phase := Finished)])
    case Passed(obj) =>
      Emit(s.(requests := s.requests[r := req.(obj := obj, phase := Finishing)]), req.tok, ClaimedBy(Server))
  }

  function DoFinishEffect(s: State, r: Rid): State
    requires Enabled(s, FinishEffect(r))
  {
    var req := s.requests[r];
    match Move(req.obj, FinishAct(req.obj.kind))
    case Fault => s.(fault := true, requests := s.requests[r := req.(phase := Finished)])
    case Effected(obj, act, _) =>
      Emit(s.(requests := s.requests[r := req.(obj := obj, phase := Finished)]), req.tok, Acted(act))
  }

  /** The request goes out of scope; a token still inside goes down with it. */
  function DoDestroy(s: State, r: Rid): State
    requires Enabled(s, Destroy(r))
  {
    var req := s.requests[r];
    var s' := s.(requests := s.requests - {r});
    if req.obj.holdsToken then Emit(s', req.tok, Acted(Drop)) else s'
  }

  function Do(s: State, step: Step): State
    requires Enabled(s, step)
  {
    match step
    case Arrive(r, tok, kind, allowed, start) => DoArrive(s, r, tok, kind, allowed, start)
    case Begin(t, r, calls) => DoBegin(s, t, r, calls)
    case PassGate(t) => DoPassGate(s, t)
    case TakeEffect(t, addr) => DoTakeEffect(s, t, addr)
    case PutBack(t) => DoPutBack(s, t)
    case Register(t) => DoRegister(s, t)
    case BeginDelayed(t, o, op) => DoBeginDelayed(s, t, o, op)
    case DelayedEffect(t) => DoDelayedEffect(s, t)
    case DelayedPutBack(t) => DoDelayedPutBack(s, t)
    case Delete(t) => DoDelete(s, t)
    case EndSender(tok, complete) => DoEndSender(s, tok, complete)
    case Return(r) => DoReturn(s, r)
    case FinishCas(r) => DoFinishCas(s, r)
    case FinishEffect(r) => DoFinishEffect(s, r)
    case Destroy(r) => DoDestroy(s, r)
  }

  /** The state after any list of steps; a step that is not enabled does nothing. */
  function RunFrom(start: State, steps: seq<Step>): State
    decreases |steps|
  {
    if steps == [] then start
    else
      var s := RunFrom(start, steps[..|steps| - 1]);
      if Enabled(s, steps[|steps| - 1]) then Do(s, steps[|steps| - 1]) else s
  }

  function Run(steps: seq<Step>): State {
    RunFrom(INITIAL, steps)
  }

  // ----- what callers must respect -----

  function HeldRequest(pc: Pc): Option<Rid> {
    match pc
    case Calling(r, _, _, _) => Some(r)
    case Admitted(r, _, _, _, _) => Some(r)
    case _ => None
  }

  function HeldObject(pc: Pc): Option<Oid> {
    match pc
    case Calling(_, _, _, out) => if out.Some? then Some(out.value.o) else None
    case Admitted(_, _, _, _, _) => None
    case Registering(h) => Some(h.o)
    case Using(o, _) => Some(o)
    case PuttingBack(o) => Some(o)
    case Deleting(o) => Some(o)
  }

  /** No thread has request `r` checked out. */
  ghost predicate Quiescent(s: State, r: Rid) {
    forall t | t in s.threads :: HeldRequest(s.threads[t]) != Some(r)
  }

  /** The callback returns only when the request is quiescent, and the token is read only while it is there. */
  ghost predicate Disciplined(s: State, step: Step) {
    match step
    case Return(r) => Quiescent(s, r)
    case Begin(t, r, calls) =>
      r in s.registry && r in s.requests ==>
        forall c | c in calls :: ReadsToken(s.requests[r].obj.kind, c) ==> s.requests[r].obj.holdsToken
    case _ => true
  }

  ghost predicate DisciplinedFrom(start: State, steps: seq<Step>)
    decreases |steps|
  {
    steps == [] ||
    (var front, last := steps[..|steps| - 1], steps[|steps| - 1];
     DisciplinedFrom(start, front)
     && (Enabled(RunFrom(start, front), last) ==> Disciplined(RunFrom(start, front), last)))
  }

  ghost predicate DisciplinedRun(steps: seq<Step>) {
    DisciplinedFrom(INITIAL, steps)
  }

  // ----- runs compose -----

  lemma {:induction false} RunFromCons(s: State, step: Step, steps: seq<Step>)
    requires Enabled(s, step)
    ensures RunFrom(s, [step] + steps) == RunFrom(Do(s, step), steps)
    ensures Disciplined(s, step) && DisciplinedFrom(Do(s, step), steps) ==> DisciplinedFrom(s, [step] + steps)
    decreases |steps|
  {
    var all := [step] + steps;
    if steps == [] {
      assert all[..0] == [] && all[0] == step;
      assert RunFrom(s, all) == Do(s, step);
    } else {
      var front := steps[..|steps| - 1];
      RunFromCons(s, step, front);
      assert all[..|all| - 1] == [step] + front && all[|all| - 1] == steps[|steps| - 1];
    }
  }

  lemma {:induction false} RunFromAppend(s: State, a: seq<Step>, b: seq<Step>)
    ensures RunFrom(s, a + b) == RunFrom(RunFrom(s, a), b)
    ensures DisciplinedFrom(s, a) && DisciplinedFrom(RunFrom(s, a), b) ==> DisciplinedFrom(s, a + b)
    decreases |b|
  {
    if b == [] {
      assert a + b == a;
    } else {
      RunFromAppend(s, a, b[..|b| - 1]);
      assert (a + b)[..|a + b| - 1] == a + b[..|b| - 1] && (a + b)[|a + b| - 1] == b[|b| - 1];
    }
  }

  /** The state after one more step. */
  lemma RunFromSnoc(s: State, steps: seq<Step>, step: Step)
    requires Enabled(RunFrom(s, steps), step)
    ensures RunFrom(s, steps + [step]) == Do(RunFrom(s, steps), step)
    ensures DisciplinedFrom(s, steps) && Disciplined(RunFrom(s, steps), step) ==> DisciplinedFrom(s, steps + [step])
  {
    assert (steps + [step])[..|steps|] == steps;
  }

  lemma TwoSteps(s: State, a: Step, b: Step)
    requires Enabled(s, a) && Enabled(Do(s, a), b)
    ensures RunFrom(s, [a, b]) == Do(Do(s, a), b)
    ensures Disciplined(s, a) && Disciplined(Do(s, a), b) ==> DisciplinedFrom(s, [a, b])
  {
    RunFromSnoc(s, [], a);
    assert [] + [a] == [a];
    RunFromSnoc(s, [a], b);
    assert [a] + [b] == [a, b];
  }

  lemma ThreeSteps(s: State, a: Step, b: Step, c: Step)
    requires Enabled(s, a) && Enabled(Do(s, a), b) && Enabled(Do(Do(s, a), b), c)
    ensures RunFrom(s, [a, b, c]) == Do(Do(Do(s, a), b), c)
    ensures Disciplined(s, a) && Disciplined(Do(s, a), b) && Disciplined(Do(Do(s, a), b), c) ==>
              DisciplinedFrom(s, [a, b, c])
  {
    TwoSteps(s, a, b);
    RunFromSnoc(s, [a, b], c);
    assert [a, b] + [c] == [a, b, c];
  }
}
