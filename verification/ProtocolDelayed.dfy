/** Calls on delayed writers and retained websockets, made by one thread alone: what each does to its token. */
module ProtocolDelayed {
  import opened Common
  import opened Metadata
  import opened RequestCore
  import opened Protocol
  import opened ProtocolInvariant
  import opened ProtocolSolo

  /** A registered object that holds its token, with no thread in a call. */
  predicate Ready(s: State, o: Oid, kind: Kind) {
    && s.threads == map[] && !s.fault && Handle(kind, o) in s.handles && o !in s.leaked
    && o in s.delayed && s.delayed[o].kind == kind && s.delayed[o].holdsToken && s.delayed[o].tok in s.transports
  }

  predicate Throws(op: DelayedOp) {
    !op.WriterSetMetadata? && op.throws
  }

  /** What a call on a delayed object means to its client: metadata changes the response; a send ends the exchange
      with the data, or unanswered if it throws; a close ends it, or, if it throws, leaves it hanging. */
  function Meant(op: DelayedOp, tr: Transport): Transport {
    match op
    case WriterSetMetadata(md) => Transport(Apply(tr.response, md), tr.log)
    case WriterSend(body, throws) =>
      Transport(tr.response, tr.log + [if throws then Dropped else Sent(tr.response, body)])
    case SocketSend(body, throws) =>
      Transport(tr.response, tr.log + [if throws then Dropped else Sent(tr.response, body)])
    case SocketClose(throws) => if throws then tr else Transport(tr.response, tr.log + [Closed])
  }

  /** `s'` is `s` after `op` on `o`: its token is as meant; metadata leaves the object registered, a send or close takes
      it away for good, and a close that throws leaves it without handle. */
  ghost predicate Used(s: State, s': State, o: Oid, op: DelayedOp)
    requires o in s.delayed && s.delayed[o].tok in s.transports
  {
    var h, tok := Handle(s.delayed[o].kind, o), s.delayed[o].tok;
    && s'.threads == map[] && !s'.fault
    && s'.transports == s.transports[tok := Meant(op, s.transports[tok])]
    && s'.requests == s.requests && s'.registry == s.registry && s'.senders == s.senders && s'.replies == s.replies
    && s'.handles == (if op.WriterSetMetadata? then s.handles else s.handles - {h})
    && s'.delayed == (if op.WriterSetMetadata? || (op.SocketClose? && op.throws) then s.delayed else s.delayed - {o})
    && s'.leaked == (if op.SocketClose? && op.throws then s.leaked + {o} else s.leaked)
  }

  /** Thread `t` alone, about to use `o`. */
  predicate AboutTo(s: State, t: Tid, o: Oid, op: DelayedOp) {
    && s.threads == map[t := Using(o, op)] && !s.fault && Handle(OpKind(op), o) !in s.handles
    && o in s.delayed && s.delayed[o].kind == OpKind(op) && s.delayed[o].holdsToken
    && s.delayed[o].tok in s.transports
  }

  lemma BeginDelayedDone(s: State, t: Tid, o: Oid, op: DelayedOp)
    requires Ready(s, o, OpKind(op))
    ensures Do(s, BeginDelayed(t, o, op))
            == s.(handles := s.handles - {Handle(OpKind(op), o)}, threads := map[t := Using(o, op)])
    ensures AboutTo(Do(s, BeginDelayed(t, o, op)), t, o, op)
  {
  }

  lemma MetadataUsed(s: State, t: Tid, o: Oid, op: DelayedOp) returns (s': State)
    requires AboutTo(s, t, o, op) && op.WriterSetMetadata?
    ensures Walks(s, t, s') && s'.threads == map[] && !s'.fault
    ensures s'.transports == s.transports[s.delayed[o].tok := Meant(op, s.transports[s.delayed[o].tok])]
    ensures s'.handles == s.handles + {Handle(Http, o)} && s'.delayed == s.delayed && s'.leaked == s.leaked
    ensures s'.requests == s.requests && s'.registry == s.registry && s'.senders == s.senders && s'.replies == s.replies
  {
    var s1 := Do(s, DelayedEffect(t));
    assert s1.threads == map[t := PuttingBack(o)];
    s' := Do(s1, DelayedPutBack(t));
    WalksSelf(s', t);
    WalksFirst(s1, t, DelayedPutBack(t), s');
    WalksFirst(s, t, DelayedEffect(t), s');
  }

  lemma ThrowingCloseUsed(s: State, t: Tid, o: Oid, op: DelayedOp) returns (s': State)
    requires AboutTo(s, t, o, op) && op.SocketClose? && op.throws
    ensures Walks(s, t, s') && s'.threads == map[] && !s'.fault
    ensures s'.transports == s.transports
    ensures s'.handles == s.handles && s'.delayed == s.delayed && s'.leaked == s.leaked + {o}
    ensures s'.requests == s.requests && s'.registry == s.registry && s'.senders == s.senders && s'.replies == s.replies
  {
    s' := Do(s, DelayedEffect(t));
    WalksSelf(s', t);
    WalksFirst(s, t, DelayedEffect(t), s');
  }

  /** The effect of an operation after which the object is deleted. */
  lemma LastEffectDone(s: State, t: Tid, o: Oid, op: DelayedOp)
    requires AboutTo(s, t, o, op) && !op.WriterSetMetadata? && !(op.SocketClose? && op.throws)
    ensures var s' := Do(s, DelayedEffect(t));
            s'.threads == map[t := Deleting(o)] && !s'.fault && s'.handles == s.handles && s'.leaked == s.leaked
            && s'.requests == s.requests && s'.registry == s.registry && s'.senders == s.senders
            && s'.replies == s.replies
            && s'.delayed == s.delayed[o := s.delayed[o].(holdsToken := Throws(op))]
            && s'.transports == if Throws(op) then s.transports
                                else s.transports[s.delayed[o].tok := Meant(op, s.transports[s.delayed[o].tok])]
  {
  }

  lemma DeleteDone(s: State, t: Tid, o: Oid)
    requires s.threads == map[t := Deleting(o)] && !s.fault && o in s.delayed && s.delayed[o].tok in s.transports
    ensures var s' := Do(s, Delete(t));
            var tok := s.delayed[o].tok;
            s'.threads == map[] && !s'.fault && s'.handles == s.handles && s'.leaked == s.leaked
            && s'.requests == s.requests && s'.registry == s.registry && s'.senders == s.senders
            && s'.replies == s.replies && s'.delayed == s.delayed - {o}
            && s'.transports ==
               if s.delayed[o].holdsToken
               then s.transports[tok := Transport(s.transports[tok].response, s.transports[tok].log + [Dropped])]
               else s.transports
  {
  }

  lemma LastUsed(s: State, t: Tid, o: Oid, op: DelayedOp) returns (s': State)
    requires AboutTo(s, t, o, op) && !op.WriterSetMetadata? && !(op.SocketClose? && op.throws)
    ensures Walks(s, t, s') && s'.threads == map[] && !s'.fault
    ensures s'.transports == s.transports[s.delayed[o].tok := Meant(op, s.transports[s.delayed[o].tok])]
    ensures s'.handles == s.handles && s'.delayed == s.delayed - {o} && s'.leaked == s.leaked
    ensures s'.requests == s.requests && s'.registry == s.registry && s'.senders == s.senders && s'.replies == s.replies
  {
    LastEffectDone(s, t, o, op);
    var s1 := Do(s, DelayedEffect(t));
    DeleteDone(s1, t, o);
    s' := Do(s1, Delete(t));
    assert s1.delayed - {o} == s.delayed - {o};
    WalksSelf(s', t);
    WalksFirst(s1, t, Delete(t), s');
    WalksFirst(s, t, DelayedEffect(t), s');
  }

  /** Any operation on a registered delayed object, made by one thread alone in one call, does what it means and nothing
      else. */
  lemma SoloDelayed(s: State, t: Tid, o: Oid, op: DelayedOp) returns (s': State)
    requires Ready(s, o, OpKind(op))
    ensures InOneCall(s, t, BeginDelayed(t, o, op), s') && Used(s, s', o, op)
  {
    BeginDelayedDone(s, t, o, op);
    var s1 := Do(s, BeginDelayed(t, o, op));
    if op.WriterSetMetadata? {
      s' := MetadataUsed(s1, t, o, op);
      assert s.handles - {Handle(Http, o)} + {Handle(Http, o)} == s.handles;
    } else if op.SocketClose? && op.throws {
      s' := ThrowingCloseUsed(s1, t, o, op);
      assert s.transports[s.delayed[o].tok := s.transports[s.delayed[o].tok]] == s.transports;
    } else {
      s' := LastUsed(s1, t, o, op);
    }
  }

  /** A handle that is not registered, because its object was sent, closed or never made, finds nothing and does
      nothing. */
  lemma UnknownHandleDoesNothing(s: State, t: Tid, o: Oid, op: DelayedOp)
    requires Enabled(s, BeginDelayed(t, o, op)) && Handle(OpKind(op), o) !in s.handles
    ensures Do(s, BeginDelayed(t, o, op)) == s
  {
  }

  // ----- from the hand-over to the end -----

  /** A hand-over in a reachable state leaves a new object of the right kind, ready for use with the token. */
  lemma SoloHandOver(s: State, t: Tid, r: Rid, c: Call) returns (s': State, o: Oid)
    requires Inv(s) && Idle(s, r) && s.requests[r].obj.state == Created && s.requests[r].obj.holdsToken
    requires c == if s.requests[r].obj.kind == Http then SendLater else RetainWebSocket
    ensures Reaches(s, s') && o !in s.delayed && Ready(s', o, s.requests[r].obj.kind)
    ensures s'.delayed == s.delayed[o := Delayed(s.requests[r].obj.kind, s.requests[r].tok, true)]
    ensures s'.handles == s.handles + {Handle(s.requests[r].obj.kind, o)}
    ensures Handle(s.requests[r].obj.kind, o) !in s.handles
    ensures s'.transports[s.requests[r].tok] == s.transports[s.requests[r].tok]
    ensures s'.requests == s.requests[r := s.requests[r].(obj := Obj(s.requests[r].obj.kind, Committed, false))]
  {
    var obj, h := s.requests[r].obj, None;
    assert obj == Obj(obj.kind, Created, true);
    HandOverOutcome(obj, c, s.transports[s.requests[r].tok]);
    s', h := SoloSingle(s, t, r, c);
    CallReaches(s, t, Begin(t, r, [c]), s');
    o := h.value.o;
    NewAddress(s, o);
  }

  lemma HandOverOutcome(obj: Obj, c: Call, tr: Transport)
    requires obj.state == Created && obj.holdsToken
    requires c == if obj.kind == Http then SendLater else RetainWebSocket
    ensures var o := RunCall(obj, c);
            o.Outcome? && o.acts == [HandOff] && o.obj == Obj(obj.kind, Committed, false)
            && DeliverAll(tr, o.acts) == tr
  {
    DeliverOne(tr, HandOff);
  }

  lemma NewAddress(s: State, o: Oid)
    requires Inv(s) && o !in s.delayed
    ensures o !in s.leaked && forall kind: Kind :: Handle(kind, o) !in s.handles
  {
    AddressUnused(s, o);
  }

  /** Any number of metadata calls on a delayed writer. */
  lemma {:induction false} SoloMetadatas(s: State, t: Tid, o: Oid, mds: seq<ResponseMetadata>) returns (s': State)
    requires Ready(s, o, Http)
    ensures Reaches(s, s') && Ready(s', o, Http)
    ensures s'.handles == s.handles && s'.delayed == s.delayed && s'.requests == s.requests
    ensures var tr := s.transports[s.delayed[o].tok];
            s'.transports[s.delayed[o].tok] == Transport(Fold(tr.response, mds), tr.log)
    decreases |mds|
  {
    if mds == [] {
      s' := s;
      ReachesSelf(s);
    } else {
      var front, last := mds[..|mds| - 1], mds[|mds| - 1];
      var mid := SoloMetadatas(s, t, o, front);
      s' := SoloDelayed(mid, t, o, WriterSetMetadata(last));
      CallReaches(mid, t, BeginDelayed(t, o, WriterSetMetadata(last)), s');
      ReachesTrans(s, mid, s');
    }
  }

  /** `send_later`, any metadata on the delayed writer, and its `send`: the client gets the data with the response it
      had, changed by that metadata from left to right, and no object and no handle is left. */
  lemma DelayedResponse(s: State, t: Tid, r: Rid, mds: seq<ResponseMetadata>, body: string) returns (s': State)
    requires Inv(s) && Idle(s, r) && s.requests[r].obj == Obj(Http, Created, true)
    ensures Reaches(s, s') && s'.handles == s.handles && s'.delayed == s.delayed
    ensures var tok := s.requests[r].tok;
            var response := Fold(s.transports[tok].response, mds);
            tok in s'.transports
            && s'.transports[tok] == Transport(response, s.transports[tok].log + [Sent(response, body)])
  {
    var s1, o := SoloHandOver(s, t, r, SendLater);
    var s2 := SoloMetadatas(s1, t, o, mds);
    s' := SoloDelayed(s2, t, o, WriterSend(body, false));
    CallReaches(s2, t, BeginDelayed(t, o, WriterSend(body, false)), s');
    ReachesTrans(s, s1, s2);
    ReachesTrans(s, s2, s');
    assert s.handles + {Handle(Http, o)} - {Handle(Http, o)} == s.handles;
    assert s1.delayed - {o} == s.delayed;
  }

  /** `retain_websocket` and a send or a close of the retained websocket. */
  lemma RetainedExchange(s: State, t: Tid, r: Rid, op: DelayedOp) returns (s': State)
    requires Inv(s) && Idle(s, r) && s.requests[r].obj == Obj(WebSocket, Created, true)
    requires (op.SocketSend? || op.SocketClose?) && !op.throws
    ensures Reaches(s, s') && s'.handles == s.handles && s'.delayed == s.delayed
    ensures var tok := s.requests[r].tok;
            var tr := s.transports[tok];
            tok in s'.transports
            && s'.transports[tok]
               == Transport(tr.response, tr.log + [if op.SocketSend? then Sent(tr.response, op.body) else Closed])
  {
    var s1, o := SoloHandOver(s, t, r, RetainWebSocket);
    s' := SoloDelayed(s1, t, o, op);
    CallReaches(s1, t, BeginDelayed(t, o, op), s');
    ReachesTrans(s, s1, s');
    assert s.handles + {Handle(WebSocket, o)} - {Handle(WebSocket, o)} == s.handles;
    assert s1.delayed - {o} == s.delayed;
  }
}
