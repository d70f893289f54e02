/**
 The life of one request, as values: what each call checks before it commits (its gate)
 and what it does to the transport token afterwards (its effect). The classes in `Request`
 and the interleaved system in `Protocol` are both built from these two functions.
 */
module RequestCore {
  import opened Common
  import opened Metadata

  datatype Kind = Http | WebSocket

  datatype CommitState = Created | Committed

  /** The fields of `request::impl` that decide its behaviour. `holdsToken` is true
      while `resp` (or `ws`) has not been moved away. */
  datatype Obj = Obj(kind: Kind, state: CommitState, holdsToken: bool)

  /** A call made by a script. What the file system and the library answer is part of the call. */
  datatype Call =
    | ReadMetadata
    | ReadData
    | ReadForm
    | ReadFilename
    | SetMetadata(md: ResponseMetadata)
    | SendResponse(body: string, writes: bool)
    | SendFile(path: string, opens: bool)
    | SendMustache(path: string, loads: bool)
    | SendLater
    | RetainWebSocket

  datatype Error = AlreadyCommitted | WrongKind | FileNotOpened | TemplateNotLoaded | WriteFailed

  /** Errors that a committing call raises only after its commit. */
  predicate AfterCommit(e: Error) {
    e == TemplateNotLoaded || e == WriteFailed
  }

  /** What a step does to the transport. */
  datatype Act =
    | Nothing
    | Meta(md: ResponseMetadata)
    | Send(body: string)
    | Stream(source: string)
    | HandOff
    | Rearm
    | Close
    | Drop

  /** How a transport token ended. */
  datatype Disposal =
    | Sent(response: Response, body: string)
    | Streamed(response: Response, source: string)
    | Rearmed
    | Closed
    | Dropped

  /** A response writer or a websocket, as the library sees it. */
  datatype Transport = Transport(response: Response, log: seq<Disposal>)

  function Deliver(t: Transport, a: Act): Transport {
    match a
    case Nothing => t
    case HandOff => t
    case Meta(md) => t.(response := Apply(t.response, md))
    case Send(body) => t.(log := t.log + [Sent(t.response, body)])
    case Stream(source) => t.(log := t.log + [Streamed(t.response, source)])
    case Rearm => t.(log := t.log + [Rearmed])
    case Close => t.(log := t.log + [Closed])
    case Drop => t.(log := t.log + [Dropped])
  }

  datatype GateResult = Passed(obj: Obj) | Refused(error: Error)

  /** `compare_exchange_strong(created, committed)`. */
  function Cas(o: Obj): GateResult {
    if o.state == Created then Passed(o.(state := Committed)) else Refused(AlreadyCommitted)
  }

  /** Everything a call does up to and including its look at `state`. */
  function Gate(o: Obj, c: Call): GateResult {
    match c
    case ReadMetadata => Passed(o)
    case ReadData => Passed(o)
    case ReadForm => if o.kind == WebSocket then Refused(WrongKind) else Passed(o)
    case ReadFilename => if o.kind == WebSocket then Refused(WrongKind) else Passed(o)
    case SetMetadata(_) =>
      if o.state != Created then Refused(AlreadyCommitted)
      else if o.kind == WebSocket then Refused(WrongKind)
      else Passed(o)
    case SendResponse(_, _) => Cas(o)
    case SendFile(_, opens) =>
      if o.kind == WebSocket then Refused(WrongKind)
      else if !opens then Refused(FileNotOpened)
      else Cas(o)
    case SendMustache(_, _) => if o.kind == WebSocket then Refused(WrongKind) else Cas(o)
    case SendLater => if o.kind == WebSocket then Refused(WrongKind) else Cas(o)
    case RetainWebSocket => if o.kind == Http then Refused(WrongKind) else Cas(o)
  }

  /** `Fault` is a read through a token that has been moved away. */
  datatype EffectResult = Effected(obj: Obj, act: Act, error: Option<Error>) | Fault

  /** Uses the token in place. */
  function Use(o: Obj, a: Act): EffectResult {
    if o.holdsToken then Effected(o, a, None) else Fault
  }

  /** Moves the token out of the request. */
  function Move(o: Obj, a: Act): EffectResult {
    if o.holdsToken then Effected(o.(holdsToken := false), a, None) else Fault
  }

  /** Fails with the token left where it is. */
  function Fail(o: Obj, e: Error): EffectResult {
    Effected(o, Nothing, Some(e))
  }

  /** Everything a call does after its gate. */
  function Effect(o: Obj, c: Call): EffectResult {
    match c
    case ReadMetadata => Use(o, Nothing)
    case ReadData => if o.kind == WebSocket then Use(o, Nothing) else Effected(o, Nothing, None)
    case ReadForm => Effected(o, Nothing, None)
    case ReadFilename => Effected(o, Nothing, None)
    case SetMetadata(md) => Use(o, Meta(md))
    case SendResponse(body, writes) =>
      if !o.holdsToken then Fault else if writes then Move(o, Send(body)) else Fail(o, WriteFailed)
    case SendFile(path, _) => Move(o, Stream(path))
    case SendMustache(path, loads) =>
      if loads then Move(o, Stream(path)) else Fail(o, TemplateNotLoaded)
    case SendLater => Move(o, HandOff)
    case RetainWebSocket => Move(o, HandOff)
  }

  /** What `finish` does once it has won the commit. */
  function FinishAct(kind: Kind): Act {
    if kind == Http then Send("") else Rearm
  }

  // ----- one call, and a whole handler, without interleaving -----

  datatype Outcome =
    | Outcome(obj: Obj, acts: seq<Act>, replies: seq<Option<Error>>)
    | Crashed

  function RunCall(o: Obj, c: Call): (r: Outcome)
    ensures r.Outcome? ==> |r.replies| == 1
  {
    match Gate(o, c)
    case Refused(e) => Outcome(o, [], [Some(e)])
    case Passed(o') =>
      match Effect(o', c)
      case Fault => Crashed
      case Effected(o'', act, error) => Outcome(o'', if act == Nothing then [] else [act], [error])
  }

  /** One outcome after another. */
  function Join(first: Outcome, second: Outcome): Outcome {
    if first.Crashed? || second.Crashed? then Crashed
    else Outcome(second.obj, first.acts + second.acts, first.replies + second.replies)
  }

  lemma JoinAssociative(x: Outcome, y: Outcome, z: Outcome)
    ensures Join(x, Join(y, z)) == Join(Join(x, y), z)
  {
    if x.Outcome? && y.Outcome? && z.Outcome? {
      assert x.acts + (y.acts + z.acts) == (x.acts + y.acts) + z.acts;
      assert x.replies + (y.replies + z.replies) == (x.replies + y.replies) + z.replies;
    }
  }

  /** What follows an outcome: nothing follows a crash. */
  function RunAfter(r: Outcome, calls: seq<Call>): Outcome
    decreases |calls|, 1
  {
    if r.Crashed? then Crashed else Join(r, RunCalls(r.obj, calls))
  }

  /** The calls of a handler, in order. */
  function RunCalls(o: Obj, calls: seq<Call>): (r: Outcome)
    ensures r.Outcome? ==> |r.replies| == |calls|
    decreases |calls|, 0
  {
    if calls == [] then Outcome(o, [], []) else RunAfter(RunCall(o, calls[0]), calls[1..])
  }

  /** `finish`: commits an unanswered request itself. */
  function Finish(o: Obj): Outcome {
    if o.state == Created then
      match Move(o.(state := Committed), FinishAct(o.kind))
      case Fault => Crashed
      case Effected(o', act, _) => Outcome(o', [act], [])
    else Outcome(o, [], [])
  }

  /** The handler wrapper of `sserver`: construct the request, run the handler, finish. */
  function Serve(kind: Kind, allowed: bool, calls: seq<Call>): Outcome {
    match RunCalls(Obj(kind, if allowed then Created else Committed, true), calls)
    case Crashed => Crashed
    case Outcome(o, acts, replies) =>
      match Finish(o)
      case Crashed => Crashed
      case Outcome(o', acts', _) => Outcome(o', acts + acts', replies)
  }

  /** A transport after a list of acts. */
  function DeliverAll(t: Transport, acts: seq<Act>): Transport
    decreases |acts|
  {
    if acts == [] then t else DeliverAll(Deliver(t, acts[0]), acts[1..])
  }

  // ----- independent description: the first eligible call takes the token -----

  /** Calls that would commit a fresh request of this kind. */
  predicate Commits(kind: Kind, c: Call) {
    match c
    case SendResponse(_, _) => true
    case SendFile(_, opens) => kind == Http && opens
    case SendMustache(_, _) => kind == Http
    case SendLater => kind == Http
    case RetainWebSocket => kind == WebSocket
    case _ => false
  }

  /** Calls that read the token without changing it. */
  predicate ReadsToken(kind: Kind, c: Call) {
    c == ReadMetadata || (c == ReadData && kind == WebSocket)
  }

  /** Index of the first call that commits, or the number of calls. */
  function Winner(kind: Kind, calls: seq<Call>): (w: nat)
    ensures w <= |calls|
    ensures w < |calls| ==> Commits(kind, calls[w])
    ensures forall i | 0 <= i < w :: !Commits(kind, calls[i])
  {
    if calls == [] || Commits(kind, calls[0]) then 0 else 1 + Winner(kind, calls[1..])
  }

  /** A committing call whose template cannot be loaded or whose data cannot be written: it commits and then
      sends nothing. */
  predicate Abandons(c: Call) {
    (c.SendMustache? && !c.loads) || (c.SendResponse? && !c.writes)
  }

  /** The reply of a call that has committed a request. */
  function ReplyOf(c: Call): Option<Error> {
    if !Abandons(c) then None else Some(if c.SendMustache? then TemplateNotLoaded else WriteFailed)
  }

  /** What a winning call does with the token. */
  function Answer(c: Call): seq<Act> {
    match c
    case SendResponse(body, writes) => if writes then [Send(body)] else []
    case SendFile(path, _) => [Stream(path)]
    case SendMustache(path, loads) => if loads then [Stream(path)] else []
    case SendLater => [HandOff]
    case RetainWebSocket => [HandOff]
    case _ => []
  }

  /** The metadata calls among `calls`, in order. */
  function MetaOf(calls: seq<Call>): seq<ResponseMetadata> {
    if calls == [] then []
    else (if calls[0].SetMetadata? then [calls[0].md] else []) + MetaOf(calls[1..])
  }

  function MetaActs(mds: seq<ResponseMetadata>): seq<Act> {
    seq(|mds|, i requires 0 <= i < |mds| => Meta(mds[i]))
  }

  /** The metadata calls a request of this kind accepts. */
  function Accepted(kind: Kind, calls: seq<Call>): seq<ResponseMetadata> {
    if kind == Http then MetaOf(calls) else []
  }

  predicate AnyReads(kind: Kind, calls: seq<Call>) {
    exists i :: 0 <= i < |calls| && ReadsToken(kind, calls[i])
  }

  /** A read of the token made after the winning call moved it away. */
  predicate LateRead(kind: Kind, calls: seq<Call>) {
    var w := Winner(kind, calls);
    w < |calls| && !Abandons(calls[w]) && AnyReads(kind, calls[w + 1..])
  }

  /** The reply owed to a call that changes the token, once the request is committed. */
  predicate Refusal(kind: Kind, c: Call, reply: Option<Error>) {
    Commits(kind, c) || c.SetMetadata? ==> reply == Some(AlreadyCommitted)
  }

  lemma RunCallCommitted(o: Obj, c: Call)
    requires o.state == Committed
    ensures RunCall(o, c).Crashed? <==> !o.holdsToken && ReadsToken(o.kind, c)
    ensures RunCall(o, c).Outcome? ==>
              RunCall(o, c).obj == o && RunCall(o, c).acts == [] && Refusal(o.kind, c, RunCall(o, c).replies[0])
  {
  }

  /** Once committed, a request does nothing more, and only reading a moved token can go wrong. */
  lemma {:induction false} RunCallsCommitted(o: Obj, calls: seq<Call>)
    requires o.state == Committed
    ensures RunCalls(o, calls).Crashed? <==> !o.holdsToken && AnyReads(o.kind, calls)
    ensures RunCalls(o, calls).Outcome? ==>
              RunCalls(o, calls).obj == o && RunCalls(o, calls).acts == []
              && forall i | 0 <= i < |calls| :: Refusal(o.kind, calls[i], RunCalls(o, calls).replies[i])
  {
    if calls != [] {
      RunCallCommitted(o, calls[0]);
      RunCallsCommitted(o, calls[1..]);
      AnyReadsSplit(o.kind, calls);
    }
  }

  lemma AnyReadsSplit(kind: Kind, calls: seq<Call>)
    requires calls != []
    ensures AnyReads(kind, calls) <==> ReadsToken(kind, calls[0]) || AnyReads(kind, calls[1..])
  {
    if AnyReads(kind, calls[1..]) {
      var i :| 0 <= i < |calls[1..]| && ReadsToken(kind, calls[1..][i]);
      assert ReadsToken(kind, calls[i + 1]);
    }
    if AnyReads(kind, calls) && !ReadsToken(kind, calls[0]) {
      var i :| 0 <= i < |calls| && ReadsToken(kind, calls[i]);
      assert calls[1..][i - 1] == calls[i];
    }
  }

  /** A call that cannot commit an open request leaves it as it is. */
  lemma RunCallOpen(o: Obj, c: Call)
    requires o.state == Created && o.holdsToken && !Commits(o.kind, c)
    ensures RunCall(o, c).Outcome? && RunCall(o, c).obj == o
    ensures RunCall(o, c).acts == MetaActs(Accepted(o.kind, [c]))
  {
    assert [c][1..] == [];
    assert MetaActs([]) == [];
    if c.SetMetadata? {
      assert MetaOf([c]) == [c.md] && MetaActs([c.md]) == [Meta(c.md)];
    } else {
      assert MetaOf([c]) == [] && RunCall(o, c).acts == [];
    }
  }

  lemma AcceptedCons(kind: Kind, calls: seq<Call>)
    requires calls != []
    ensures MetaActs(Accepted(kind, calls))
            == MetaActs(Accepted(kind, [calls[0]])) + MetaActs(Accepted(kind, calls[1..]))
  {
    assert [calls[0]][1..] == [];
    var first, rest := Accepted(kind, [calls[0]]), Accepted(kind, calls[1..]);
    assert MetaOf([calls[0]]) == if calls[0].SetMetadata? then [calls[0].md] else [];
    assert Accepted(kind, calls) == first + rest;
    assert MetaActs(first + rest) == MetaActs(first) + MetaActs(rest);
  }

  /** Before the winner, only metadata reaches the token. */
  lemma {:induction false} RunCallsOpen(o: Obj, calls: seq<Call>)
    requires o.state == Created && o.holdsToken
    requires forall i | 0 <= i < |calls| :: !Commits(o.kind, calls[i])
    ensures var r := RunCalls(o, calls);
            r.Outcome? && r.obj == o && r.acts == MetaActs(Accepted(o.kind, calls))
  {
    if calls != [] {
      assert !Commits(o.kind, calls[0]);
      RunCallOpen(o, calls[0]);
      RunCallsOpen(o, calls[1..]);
      AcceptedCons(o.kind, calls);
    }
  }

  lemma {:induction false} RunCallsAppend(o: Obj, a: seq<Call>, b: seq<Call>)
    ensures RunCalls(o, a + b) == RunAfter(RunCalls(o, a), b)
    decreases |a|, 0
  {
    if a == [] {
      assert a + b == b;
      EmptyJoin(RunCalls(o, b), o);
    } else {
      assert (a + b)[0] == a[0] && (a + b)[1..] == a[1..] + b;
      RunAfterAppend(RunCall(o, a[0]), a[1..], b);
    }
  }

  lemma EmptyJoin(r: Outcome, o: Obj)
    ensures Join(Outcome(o, [], []), r) == r
  {
    if r.Outcome? {
      assert [] + r.acts == r.acts && [] + r.replies == r.replies;
    }
  }

  lemma {:induction false} RunAfterAppend(r: Outcome, a: seq<Call>, b: seq<Call>)
    ensures RunAfter(r, a + b) == RunAfter(RunAfter(r, a), b)
    decreases |a|, 1
  {
    if r.Outcome? {
      RunCallsAppend(r.obj, a, b);
      var mid := RunCalls(r.obj, a);
      if mid.Outcome? {
        JoinAssociative(r, mid, RunCalls(mid.obj, b));
      }
    }
  }

  /** The winning call, made on an open request. */
  lemma WinnerTakesToken(kind: Kind, c: Call)
    requires Commits(kind, c)
    ensures var r := RunCall(Obj(kind, Created, true), c);
            r.Outcome? && r.acts == Answer(c) && r.obj == Obj(kind, Committed, Abandons(c))
            && r.replies == [ReplyOf(c)]
  {
  }

  /** The handler as three pieces: before call `w`, call `w`, after it. */
  lemma RunCallsAt(o: Obj, calls: seq<Call>, w: nat)
    requires w < |calls|
    ensures RunCalls(o, calls) == RunAfter(RunAfter(RunCalls(o, calls[..w]), [calls[w]]), calls[w + 1..])
  {
    RunCallsAppend(o, calls[..w], [calls[w]]);
    RunCallsAppend(o, calls[..w] + [calls[w]], calls[w + 1..]);
    assert calls == calls[..w] + [calls[w]] + calls[w + 1..];
  }

  lemma RunSingle(o: Obj, c: Call)
    ensures RunCalls(o, [c]) == RunCall(o, c)
  {
    var r := RunCall(o, c);
    assert [c][1..] == [];
    if r.Outcome? {
      assert RunCalls(o, [c]) == Join(r, Outcome(r.obj, [], []));
      assert r.acts + [] == r.acts && r.replies + [] == r.replies;
    }
  }

  /** Up to and including the winner. */
  lemma RunThroughWinner(kind: Kind, before: seq<Call>, c: Call)
    requires forall i | 0 <= i < |before| :: !Commits(kind, before[i])
    requires Commits(kind, c)
    ensures var r := RunAfter(RunCalls(Obj(kind, Created, true), before), [c]);
            r.Outcome? && r.obj == Obj(kind, Committed, Abandons(c))
            && r.acts == MetaActs(Accepted(kind, before)) + Answer(c) && |r.replies| == |before| + 1
  {
    var o := Obj(kind, Created, true);
    RunCallsOpen(o, before);
    RunSingle(o, c);
    WinnerTakesToken(kind, c);
  }

  /** What the calls after the winner add: refusals. */
  lemma ServeRest(kind: Kind, first: Outcome, rest: seq<Call>)
    requires first.Outcome? && first.obj.state == Committed && first.obj.kind == kind
    ensures var r := RunAfter(first, rest);
            (r.Crashed? <==> !first.obj.holdsToken && AnyReads(kind, rest))
            && (r.Outcome? ==>
                  r.obj == first.obj && r.acts == first.acts
                  && |r.replies| == |first.replies| + |rest|
                  && forall i | |first.replies| <= i < |r.replies| ::
                    Refusal(kind, rest[i - |first.replies|], r.replies[i]))
  {
    RunCallsCommitted(first.obj, rest);
  }

  /** The handler of an open request whose call `w` is the first to commit. */
  lemma RunWithWinner(kind: Kind, calls: seq<Call>, w: nat)
    requires w < |calls| && Commits(kind, calls[w])
    requires forall i | 0 <= i < w :: !Commits(kind, calls[i])
    ensures var r := RunCalls(Obj(kind, Created, true), calls);
            (r.Crashed? <==> !Abandons(calls[w]) && AnyReads(kind, calls[w + 1..]))
            && (r.Outcome? ==>
                  r.obj == Obj(kind, Committed, Abandons(calls[w]))
                  && r.acts == MetaActs(Accepted(kind, calls[..w])) + Answer(calls[w])
                  && forall i | w < i < |calls| :: Refusal(kind, calls[i], r.replies[i]))
  {
    RunCallsAt(Obj(kind, Created, true), calls, w);
    RunThroughWinner(kind, calls[..w], calls[w]);
    var first := RunAfter(RunCalls(Obj(kind, Created, true), calls[..w]), [calls[w]]);
    var rest := calls[w + 1..];
    ServeRest(kind, first, rest);
    var r := RunAfter(first, rest);
    if r.Outcome? {
      forall i | w < i < |calls| ensures Refusal(kind, calls[i], r.replies[i]) {
        assert calls[i] == rest[i - w - 1];
      }
    }
  }

  /** The handler of an open request, whichever call commits first. */
  lemma ServeSplit(kind: Kind, calls: seq<Call>)
    ensures var w := Winner(kind, calls);
            var o := Obj(kind, Created, true);
            var r := RunCalls(o, calls);
            var metas := MetaActs(Accepted(kind, calls[..w]));
            if w == |calls| then r.Outcome? && r.obj == o && r.acts == metas
            else
              (r.Crashed? <==> LateRead(kind, calls))
              && (r.Outcome? ==>
                    r.obj == Obj(kind, Committed, Abandons(calls[w]))
                    && r.acts == metas + Answer(calls[w])
                    && forall i | w < i < |calls| :: Refusal(kind, calls[i], r.replies[i]))
  {
    var w := Winner(kind, calls);
    if w == |calls| {
      RunCallsOpen(Obj(kind, Created, true), calls);
      assert calls[..w] == calls;
    } else {
      RunWithWinner(kind, calls, w);
    }
  }

  /** A handler crashes exactly when it reads the token after giving it away. */
  lemma ServeCrashesIff(kind: Kind, calls: seq<Call>)
    ensures Serve(kind, true, calls).Crashed? <==> LateRead(kind, calls)
  {
    ServeSplit(kind, calls);
  }

  /** Such a handler: it answers and then asks for the request metadata. */
  lemma LateReadCrashes()
    ensures Serve(Http, true, [SendResponse("", true), ReadMetadata]).Crashed?
  {
    var calls := [SendResponse("", true), ReadMetadata];
    assert Winner(Http, calls) == 0;
    assert ReadsToken(Http, calls[1..][0]);
    ServeCrashesIff(Http, calls);
  }

  /** The message of a websocket goes with its token, the body of an HTTP request does not. */
  lemma LateMessageCrashes()
    ensures Serve(WebSocket, true, [SendResponse("", true), ReadData]).Crashed?
    ensures Serve(Http, true, [SendResponse("", true), ReadData]).Outcome?
  {
    var calls := [SendResponse("", true), ReadData];
    assert Winner(WebSocket, calls) == 0 && Winner(Http, calls) == 0;
    assert ReadsToken(WebSocket, calls[1..][0]) && |calls[1..]| == 1;
    ServeCrashesIff(WebSocket, calls);
    ServeCrashesIff(Http, calls);
  }

  /** Calls meant for HTTP requests only. */
  predicate HttpOnly(c: Call) {
    c.ReadForm? || c.ReadFilename? || c.SetMetadata? || c.SendFile? || c.SendMustache? || c.SendLater?
  }

  /** Which error a call gets: the wrong kind of request counts before all else except for metadata on a committed
      request, then whether the file opens, then whether the request is committed, and last what fails after the
      commit. */
  lemma ErrorsIff(o: Obj, c: Call)
    requires RunCall(o, c).Outcome?
    ensures var e := RunCall(o, c).replies[0];
            var wrong := if o.kind == WebSocket then HttpOnly(c) else c == RetainWebSocket;
            var unopened := c.SendFile? && !c.opens;
            var changes := c.SetMetadata? || c.SendResponse? || c.SendFile? || c.SendMustache? || c.SendLater?
                           || c.RetainWebSocket?;
            && (e == Some(WrongKind) <==> wrong && !(c.SetMetadata? && o.state == Committed))
            && (e == Some(FileNotOpened) <==> !wrong && unopened)
            && (e == Some(AlreadyCommitted) <==>
                  o.state == Committed && changes && !unopened && (!wrong || c.SetMetadata?))
            && (e == Some(TemplateNotLoaded) <==>
                  o.state == Created && !wrong && c.SendMustache? && !c.loads)
            && (e == Some(WriteFailed) <==> o.state == Created && c.SendResponse? && !c.writes)
            && (RunCall(o, c).obj.state != o.state <==>
                  if e.Some? then AfterCommit(e.value) else changes && !c.SetMetadata?)
  {
  }

  /** For every sequence of calls a handler makes, handler followed by `finish` passes to the token the
      metadata accepted before the first committing call, then that call's answer (or, when no call
      commits, the one of `finish`), and nothing else. Every later committing or metadata call is refused. */
  lemma ServeTrace(kind: Kind, calls: seq<Call>)
    requires !LateRead(kind, calls)
    ensures var w := Winner(kind, calls);
            var r := Serve(kind, true, calls);
            r.Outcome?
            && r.acts == MetaActs(Accepted(kind, calls[..w]))
                         + (if w < |calls| then Answer(calls[w]) else [FinishAct(kind)])
            && |r.replies| == |calls|
            && (forall i | w < i < |calls| :: Refusal(kind, calls[i], r.replies[i]))
            && (r.obj.holdsToken <==> w < |calls| && Abandons(calls[w]))
  {
    ServeSplit(kind, calls);
  }

  /** A websocket close handler starts committed: no call ever reaches its token, and none can crash. */
  lemma ServeClosing(calls: seq<Call>)
    ensures var r := Serve(WebSocket, false, calls);
            r.Outcome? && r.acts == [] && r.obj.holdsToken
  {
    RunCallsCommitted(Obj(WebSocket, Committed, true), calls);
  }

  lemma {:induction false} DeliverAllAppend(t: Transport, a: seq<Act>, b: seq<Act>)
    ensures DeliverAll(t, a + b) == DeliverAll(DeliverAll(t, a), b)
    decreases |a|
  {
    if a == [] {
      assert a + b == b;
    } else {
      assert (a + b)[1..] == a[1..] + b;
      DeliverAllAppend(Deliver(t, a[0]), a[1..], b);
    }
  }

  lemma {:induction false} DeliverMetas(t: Transport, mds: seq<ResponseMetadata>)
    ensures DeliverAll(t, MetaActs(mds)) == t.(response := Fold(t.response, mds))
    decreases |mds|
  {
    if mds != [] {
      var t' := Deliver(t, Meta(mds[0]));
      DeliverMetas(t', mds[1..]);
      assert MetaActs(mds)[1..] == MetaActs(mds[1..]);
      FoldAppend(t.response, [mds[0]], mds[1..]);
      assert mds == [mds[0]] + mds[1..];
      assert Fold(t.response, [mds[0]]) == Apply(Fold(t.response, []), mds[0]);
    }
  }

  /** How the exchange ends when call `c` wins the request, if it ends by then. */
  function Answered(response: Response, c: Call): seq<Disposal> {
    match c
    case SendResponse(body, writes) => if writes then [Sent(response, body)] else []
    case SendFile(path, _) => [Streamed(response, path)]
    case SendMustache(path, loads) => if loads then [Streamed(response, path)] else []
    case _ => []
  }

  lemma DeliverOne(t: Transport, act: Act)
    ensures DeliverAll(t, [act]) == Deliver(t, act)
  {
    assert [act][1..] == [];
  }

  lemma AnswerDelivers(t: Transport, c: Call)
    ensures DeliverAll(t, Answer(c)) == Transport(t.response, t.log + Answered(t.response, c))
  {
    assert t.log + [] == t.log;
    if Answer(c) != [] {
      DeliverOne(t, Answer(c)[0]);
      assert Answer(c) == [Answer(c)[0]];
    }
  }

  /** Accepted metadata, then what ends the exchange. */
  lemma TraceDelivers(t: Transport, mds: seq<ResponseMetadata>, last: seq<Act>)
    ensures DeliverAll(t, MetaActs(mds) + last) == DeliverAll(t.(response := Fold(t.response, mds)), last)
  {
    DeliverAllAppend(t, MetaActs(mds), last);
    DeliverMetas(t, mds);
  }

  /** How the exchange of a handler ends: by its winning call or, if it has none, by `finish`. */
  function EndOf(kind: Kind, calls: seq<Call>, response: Response): seq<Disposal> {
    var w := Winner(kind, calls);
    if w < |calls| then Answered(response, calls[w])
    else [if kind == Http then Sent(response, "") else Rearmed]
  }

  lemma FinishDelivers(t: Transport, kind: Kind)
    ensures DeliverAll(t, [FinishAct(kind)])
            == Transport(t.response, t.log + [if kind == Http then Sent(t.response, "") else Rearmed])
  {
    DeliverOne(t, FinishAct(kind));
  }

  /** From `t` to `t'` the client saw one end of the exchange, with the response of the metadata accepted before the
      winning call. */
  predicate ClientSees(kind: Kind, calls: seq<Call>, t: Transport, t': Transport) {
    && t'.response == Fold(t.response, Accepted(kind, calls[..Winner(kind, calls)]))
    && t'.log == t.log + EndOf(kind, calls, t'.response)
  }

  /** What the client of one handler run sees: exactly one disposal, carrying the left-to-right fold of the
      metadata accepted before the commit. The token is left untouched only after a hand-over to a delayed
      object, a template that could not be loaded, or data that could not be written. */
  lemma ServeDisposesOnce(kind: Kind, calls: seq<Call>, t: Transport)
    requires !LateRead(kind, calls)
    ensures Serve(kind, true, calls).Outcome?
    ensures ClientSees(kind, calls, t, DeliverAll(t, Serve(kind, true, calls).acts))
  {
    var w := Winner(kind, calls);
    var mds := Accepted(kind, calls[..w]);
    var t' := t.(response := Fold(t.response, mds));
    ServeTrace(kind, calls);
    if w < |calls| {
      TraceDelivers(t, mds, Answer(calls[w]));
      AnswerDelivers(t', calls[w]);
    } else {
      TraceDelivers(t, mds, [FinishAct(kind)]);
      FinishDelivers(t', kind);
    }
  }

  /** A failed `send_file` (its file does not open) leaves the request exactly as it was,
      so whatever comes next behaves as if it had never been called. */
  lemma FailedFileLeavesRequestOpen(o: Obj, path: string, next: seq<Call>)
    ensures var r := RunCall(o, SendFile(path, false));
            r.Outcome? && r.obj == o && r.acts == [] && r.replies[0].Some?
    ensures match RunCalls(o, next)
            case Crashed => RunCalls(o, [SendFile(path, false)] + next).Crashed?
            case Outcome(o', acts, replies) =>
              RunCalls(o, [SendFile(path, false)] + next) ==
              Outcome(o', acts, RunCall(o, SendFile(path, false)).replies + replies)
  {
    var calls := [SendFile(path, false)] + next;
    assert calls[0] == SendFile(path, false) && calls[1..] == next;
  }
}
