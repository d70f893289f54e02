/** A whole handler run by one thread: construct, any number of scripts, return, `finish` and destruction. */
module ProtocolHandler {
  import opened Common
  import opened Metadata
  import opened RequestCore
  import opened Protocol
  import opened ProtocolSolo

  lemma DidThen(s: State, mid: State, s': State, r: Rid, c: seq<Call>, a: Outcome, d: seq<Call>, b: Outcome)
    requires Did(s, mid, r, c, a) && Did(mid, s', r, d, b)
    ensures Did(s, s', r, c + d, Join(a, b))
  {
    DeliverAllAppend(s.transports[s.requests[r].tok], a.acts, b.acts);
    var tok := s.requests[r].tok;
    assert Replies(tok, c + d, a.replies + b.replies) == Replies(tok, c, a.replies) + Replies(tok, d, b.replies);
  }

  /** A handler run by one thread, script after script, does exactly `RunCalls`. */
  lemma {:induction false} SoloScripts(s: State, t: Tid, r: Rid, scripts: seq<seq<Call>>) returns (s': State)
    requires Idle(s, r) && RunCalls(s.requests[r].obj, Concat(scripts)).Outcome?
    requires forall script | script in scripts :: IsScript(script)
    ensures Reaches(s, s') && Did(s, s', r, Concat(scripts), RunCalls(s.requests[r].obj, Concat(scripts)))
    decreases |scripts|
  {
    if scripts == [] {
      s' := s;
      ReachesSelf(s);
    } else {
      var obj := s.requests[r].obj;
      RunCallsAppend(obj, scripts[0], Concat(scripts[1..]));
      var mid := SoloScript(s, t, r, scripts[0]);
      CallReaches(s, t, Begin(t, r, scripts[0]), mid);
      s' := SoloScripts(mid, t, r, scripts[1..]);
      ReachesTrans(s, mid, s');
      DidThen(s, mid, s', r, scripts[0], RunCalls(obj, scripts[0]), Concat(scripts[1..]),
              RunCalls(mid.requests[r].obj, Concat(scripts[1..])));
    }
  }

  /** What is left of a request that has been answered, or never will be. */
  lemma SoloDestroy(s: State, r: Rid) returns (s': State)
    requires !s.fault && r in s.requests && s.requests[r].phase == Finished && s.requests[r].tok in s.transports
    ensures Reaches(s, s') && !s'.fault && s'.requests == s.requests - {r} && s'.replies == s.replies
    ensures var req := s.requests[r];
            req.tok in s'.transports
            && s'.transports[req.tok] ==
               DeliverAll(s.transports[req.tok], if req.obj.holdsToken then [Drop] else [])
  {
    DeliverOne(s.transports[s.requests[r].tok], Drop);
    s' := Do(s, Destroy(r));
    ReachesSelf(s');
    ReachesFirst(s, Destroy(r), s');
  }

  /** `finish` by itself. */
  lemma SoloFinishing(s: State, r: Rid) returns (s': State)
    requires !s.fault && r in s.requests && s.requests[r].phase == Returned && s.requests[r].tok in s.transports
    requires Finish(s.requests[r].obj).Outcome?
    ensures Reaches(s, s') && !s'.fault && s'.replies == s.replies
    ensures var o := Finish(s.requests[r].obj);
            s'.requests == s.requests[r := s.requests[r].(obj := o.obj, phase := Finished)]
            && s.requests[r].tok in s'.transports
            && s'.transports[s.requests[r].tok] == DeliverAll(s.transports[s.requests[r].tok], o.acts)
  {
    var req := s.requests[r];
    var s1 := Do(s, FinishCas(r));
    s' := s1;
    if req.obj.state == Created {
      DeliverOne(s.transports[req.tok], FinishAct(req.obj.kind));
      s' := Do(s1, FinishEffect(r));
      ReachesSelf(s');
      ReachesFirst(s1, FinishEffect(r), s');
    } else {
      ReachesSelf(s');
    }
    ReachesFirst(s, FinishCas(r), s');
  }

  /** Return, finish and destruction. */
  lemma SoloFinish(s: State, r: Rid) returns (s': State)
    requires Idle(s, r) && Finish(s.requests[r].obj).Outcome?
    ensures Reaches(s, s') && !s'.fault && s'.requests == s.requests - {r} && s'.replies == s.replies
    ensures var req := s.requests[r];
            var o := Finish(req.obj);
            var acts := o.acts + if o.obj.holdsToken then [Drop] else [];
            req.tok in s'.transports && s'.transports[req.tok] == DeliverAll(s.transports[req.tok], acts)
  {
    var req, o := s.requests[r], Finish(s.requests[r].obj);
    var s1 := Do(s, Return(r));
    var s2 := SoloFinishing(s1, r);
    s' := SoloDestroy(s2, r);
    DeliverAllAppend(s.transports[req.tok], o.acts, if o.obj.holdsToken then [Drop] else []);
    ReachesTrans(s1, s2, s');
    ReachesFirst(s, Return(r), s');
  }

  /** Every handler, in any number of scripts, that reads no token late is served by some disciplined run, at whose
      end the request is gone, its callers were told exactly the replies of `Serve`, and its token has seen exactly
      the acts of `Serve`; one still unanswered goes down with the request. */
  lemma EveryHandlerHasARun(kind: Kind, allowed: bool, scripts: seq<seq<Call>>, start: Response) returns (s': State)
    requires allowed || kind == WebSocket
    requires forall script | script in scripts :: IsScript(script)
    requires allowed ==> !LateRead(kind, Concat(scripts))
    ensures Reaches(INITIAL, s') && s'.requests == map[] && !s'.fault
    ensures var calls := Concat(scripts);
            var o := Serve(kind, allowed, calls);
            o.Outcome? && |o.replies| == |calls| && s'.replies == Replies(0, calls, o.replies) && 0 in s'.transports
            && s'.transports[0] ==
               DeliverAll(Transport(start, []), o.acts + if o.obj.holdsToken then [Drop] else [])
  {
    var arrive := Arrive(0, 0, kind, allowed, start);
    var s1 := Do(INITIAL, arrive);
    ServeParts(kind, allowed, Concat(scripts), start);
    var s2 := SoloScripts(s1, 0, 0, scripts);
    s' := SoloFinish(s2, 0);
    ReachesTrans(s1, s2, s');
    ReachesFirst(INITIAL, arrive, s');
    assert [] + s2.replies == s2.replies;
  }

  /** A handler and `finish`, as what they are made of. */
  lemma ServeParts(kind: Kind, allowed: bool, calls: seq<Call>, start: Response)
    requires allowed || kind == WebSocket
    requires allowed ==> !LateRead(kind, calls)
    ensures var run := RunCalls(Obj(kind, if allowed then Created else Committed, true), calls);
            var o := Serve(kind, allowed, calls);
            run.Outcome? && Finish(run.obj).Outcome? && o.Outcome?
            && o.obj == Finish(run.obj).obj && o.replies == run.replies
            && var last := if o.obj.holdsToken then [Drop] else [];
               DeliverAll(Transport(start, []), o.acts + last)
               == DeliverAll(DeliverAll(Transport(start, []), run.acts), Finish(run.obj).acts + last)
  {
    if allowed { ServeTrace(kind, calls); } else { ServeClosing(calls); }
    var run := RunCalls(Obj(kind, if allowed then Created else Committed, true), calls);
    var f := Finish(run.obj);
    var last := if f.obj.holdsToken then [Drop] else [];
    DeliverAllAppend(Transport(start, []), run.acts, f.acts + last);
    AppendAssociative(run.acts, f.acts, last);
  }

  /** A handler whose script fails after calls that answered nothing: the client gets status 500 and the message, with
      the headers set so far, or on a websocket the message. */
  lemma FailedHandlerIsReported(kind: Kind, scripts: seq<seq<Call>>, message: string, start: Response)
    returns (s': State)
    requires forall script | script in scripts :: IsScript(script)
    requires Winner(kind, Concat(scripts)) == |Concat(scripts)|
    ensures Reaches(INITIAL, s') && s'.requests == map[] && 0 in s'.transports
    ensures var before := Fold(start, Accepted(kind, Concat(scripts)));
            var response := if kind == Http then Response(500, "Internal Server Error", before.headers) else before;
            s'.transports[0].log == [Sent(response, message)]
  {
    var calls := Concat(scripts);
    var all := calls + ErrorScript(message);
    var allScripts := scripts + [ErrorScript(message)];
    ConcatSnoc(scripts, ErrorScript(message));
    assert forall script | script in allScripts :: script in scripts || script == ErrorScript(message);
    ErrorWins(kind, calls, message);
    s' := EveryHandlerHasARun(kind, true, allScripts, start);
    ServeDisposesOnce(kind, all, Transport(start, []));
    ServeTrace(kind, all);
    AcceptedWithError(kind, calls, start);
    assert all[..|calls| + 1] == calls + [SetMetadata(SYSTEM_ERROR)];
    var o := Serve(kind, true, all);
    assert o.acts + [] == o.acts;
    assert [] + [Sent(DeliverAll(Transport(start, []), o.acts).response, message)]
        == [Sent(DeliverAll(Transport(start, []), o.acts).response, message)];
  }

  /** The error page commits what nobody has. */
  lemma ErrorWins(kind: Kind, calls: seq<Call>, message: string)
    requires Winner(kind, calls) == |calls|
    ensures var all := calls + ErrorScript(message);
            Winner(kind, all) == |calls| + 1 && all[|calls| + 1] == SendResponse(message, true) && !LateRead(kind, all)
  {
    var all := calls + ErrorScript(message);
    var w := Winner(kind, all);
    assert Commits(kind, all[|calls| + 1]) && !Commits(kind, all[|calls|]);
    assert forall i | 0 <= i < |calls| :: all[i] == calls[i] && !Commits(kind, calls[i]);
    assert all[w + 1..] == [];
  }

  lemma AcceptedWithError(kind: Kind, calls: seq<Call>, start: Response)
    ensures var before := Fold(start, Accepted(kind, calls));
            Fold(start, Accepted(kind, calls + [SetMetadata(SYSTEM_ERROR)]))
            == if kind == Http then Response(500, "Internal Server Error", before.headers) else before
  {
    MetaOfSnoc(calls, SYSTEM_ERROR);
    var mds := MetaOf(calls);
    assert (mds + [SYSTEM_ERROR])[..|mds|] == mds;
  }

  lemma {:induction false} MetaOfSnoc(calls: seq<Call>, md: ResponseMetadata)
    ensures MetaOf(calls + [SetMetadata(md)]) == MetaOf(calls) + [md]
  {
    if calls == [] {
      assert [SetMetadata(md)][1..] == [];
      assert calls + [SetMetadata(md)] == [SetMetadata(md)];
    } else {
      MetaOfSnoc(calls[1..], md);
      var all := calls + [SetMetadata(md)];
      assert all[0] == calls[0] && all[1..] == calls[1..] + [SetMetadata(md)];
    }
  }
}
