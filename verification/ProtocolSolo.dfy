/**
 Scripts run by one thread alone, from check-out to put-back: the interleaved system then does exactly what
 `RequestCore.RunCalls` says, all the calls of the script and one reply for each.
 */
module ProtocolSolo {
  import opened Common
  import opened Metadata
  import opened RequestCore
  import opened Protocol
  import opened ProtocolReplies
  import opened ProtocolDiscipline

  /** Some disciplined run leads from `s` to `s'`. */
  ghost predicate Reaches(s: State, s': State) {
    exists steps :: DisciplinedFrom(s, steps) && RunFrom(s, steps) == s'
  }

  lemma ReachesSelf(s: State)
    ensures Reaches(s, s)
  {
    assert DisciplinedFrom(s, []) && RunFrom(s, []) == s;
  }

  lemma ReachesFirst(s: State, step: Step, s': State)
    requires Enabled(s, step) && Disciplined(s, step) && Reaches(Do(s, step), s')
    ensures Reaches(s, s')
  {
    var steps :| DisciplinedFrom(Do(s, step), steps) && RunFrom(Do(s, step), steps) == s';
    RunFromCons(s, step, steps);
  }

  lemma ReachesTrans(s: State, mid: State, s': State)
    requires Reaches(s, mid) && Reaches(mid, s')
    ensures Reaches(s, s')
  {
    var a :| DisciplinedFrom(s, a) && RunFrom(s, a) == mid;
    var b :| DisciplinedFrom(mid, b) && RunFrom(mid, b) == s';
    RunFromAppend(s, a, b);
  }

  /** A step of thread `t` inside a call it has already begun. */
  predicate Inside(t: Tid, step: Step) {
    Mover(step) == Some(t) && !step.Begin? && !step.BeginDelayed?
  }

  /** Thread `t`, moving alone inside its call, leads from `s` to `s'`. */
  ghost predicate Walks(s: State, t: Tid, s': State) {
    exists steps ::
      DisciplinedFrom(s, steps) && RunFrom(s, steps) == s' && forall step | step in steps :: Inside(t, step)
  }

  lemma WalksSelf(s: State, t: Tid)
    ensures Walks(s, t, s)
  {
    assert DisciplinedFrom(s, []) && RunFrom(s, []) == s;
  }

  lemma WalksFirst(s: State, t: Tid, step: Step, s': State)
    requires Enabled(s, step) && Disciplined(s, step) && Inside(t, step) && Walks(Do(s, step), t, s')
    ensures Walks(s, t, s')
  {
    var steps :| DisciplinedFrom(Do(s, step), steps) && RunFrom(Do(s, step), steps) == s'
                 && forall st | st in steps :: Inside(t, st);
    RunFromCons(s, step, steps);
    assert forall st | st in [step] + steps :: st == step || st in steps;
  }

  lemma WalksTrans(s: State, t: Tid, mid: State, s': State)
    requires Walks(s, t, mid) && Walks(mid, t, s')
    ensures Walks(s, t, s')
  {
    var a :| DisciplinedFrom(s, a) && RunFrom(s, a) == mid && forall st | st in a :: Inside(t, st);
    var b :| DisciplinedFrom(mid, b) && RunFrom(mid, b) == s' && forall st | st in b :: Inside(t, st);
    RunFromAppend(s, a, b);
    assert forall st | st in a + b :: st in a || st in b;
  }

  /** The one call that starts with `first` leads from `s` to `s'`, its thread moving alone. */
  ghost predicate InOneCall(s: State, t: Tid, first: Step, s': State) {
    Mover(first) == Some(t) && Enabled(s, first) && Disciplined(s, first) && Walks(Do(s, first), t, s')
  }

  lemma CallReaches(s: State, t: Tid, first: Step, s': State)
    requires InOneCall(s, t, first, s')
    ensures Reaches(s, s')
  {
    var s1 := Do(s, first);
    var steps :| DisciplinedFrom(s1, steps) && RunFrom(s1, steps) == s' && forall st | st in steps :: Inside(t, st);
    ReachesFirst(s, first, s');
  }

  /** A request in its registry, with no thread in a call. */
  predicate Idle(s: State, r: Rid) {
    && s.threads == map[] && !s.fault && r in s.registry && r in s.requests
    && s.requests[r].phase == Running && s.requests[r].tok in s.transports
  }

  /** Thread `t`, alone, has checked out `r` and is between two calls of its script. */
  predicate Between(s: State, t: Tid, r: Rid, calls: seq<Call>, done: seq<Reply>) {
    && s.threads == map[t := Calling(r, calls, done, None)] && !s.fault && r in s.requests
    && s.requests[r].phase == Running && s.requests[r].tok in s.transports
  }

  /** The calls of a handler and what it is told. */
  function Replies(tok: Tok, calls: seq<Call>, errors: seq<Option<Error>>): seq<Reply>
    requires |calls| == |errors|
  {
    seq(|calls|, i requires 0 <= i < |calls| => Reply(tok, calls[i], errors[i]))
  }

  /** `s'` is `s` after these calls on `r`, which had outcome `o`. */
  ghost predicate Did(s: State, s': State, r: Rid, calls: seq<Call>, o: Outcome) {
    && Idle(s, r) && Idle(s', r) && o.Outcome? && |o.replies| == |calls|
    && s'.requests == s.requests[r := s.requests[r].(obj := o.obj)]
    && s'.registry == s.registry
    && s'.transports[s.requests[r].tok] == DeliverAll(s.transports[s.requests[r].tok], o.acts)
    && s'.replies == s.replies + Replies(s.requests[r].tok, calls, o.replies)
  }

  // ----- one call of a script -----

  /** `s'` is `s` after one call on `r`, taken as far as `threads`: the object, its token and perhaps a new object
      at `h` changed, and nothing else. */
  ghost predicate Called(s: State, s': State, r: Rid, obj: Obj, act: Act, h: Option<Handle>)
    requires r in s.requests && s.requests[r].tok in s.transports
  {
    var tok := s.requests[r].tok;
    && s'.requests == s.requests[r := s.requests[r].(obj := obj)]
    && tok in s'.transports && s'.transports[tok] == Deliver(s.transports[tok], act)
    && s'.registry == s.registry && s'.fault == s.fault && s'.replies == s.replies
    && s'.handles == s.handles && s'.leaked == s.leaked
    && s'.delayed == match h
                     case None => s.delayed
                     case Some(k) => s.delayed[k.o := Delayed(k.kind, tok, true)]
  }

  lemma RefusedDone(s: State, t: Tid, r: Rid, calls: seq<Call>, done: seq<Reply>)
    requires Between(s, t, r, calls, done) && calls != [] && Gate(s.requests[r].obj, calls[0]).Refused?
    ensures var reply := Reply(s.requests[r].tok, calls[0], Some(Gate(s.requests[r].obj, calls[0]).error));
            DoPassGate(s, t) == s.(threads := map[t := Calling(r, calls[1..], done + [reply], None)])
  {
    var reply := Reply(s.requests[r].tok, calls[0], Some(Gate(s.requests[r].obj, calls[0]).error));
    assert s.threads[t := Calling(r, calls[1..], done + [reply], None)]
        == map[t := Calling(r, calls[1..], done + [reply], None)];
  }

  lemma GateDone(s: State, t: Tid, r: Rid, calls: seq<Call>, done: seq<Reply>)
    requires Between(s, t, r, calls, done) && calls != [] && Gate(s.requests[r].obj, calls[0]).Passed?
    ensures var s' := DoPassGate(s, t);
            Called(s, s', r, Gate(s.requests[r].obj, calls[0]).obj, Nothing, None)
            && s'.threads == map[t := Admitted(r, s.requests[r].tok, calls[0], calls[1..], done)]
  {
  }

  lemma HandOffDone(s: State, t: Tid, r: Rid, c: Call, rest: seq<Call>, done: seq<Reply>, addr: Oid)
    requires r in s.requests && s.threads == map[t := Admitted(r, s.requests[r].tok, c, rest, done)]
    requires s.requests[r].tok in s.transports && addr !in s.delayed && Effect(s.requests[r].obj, c).Effected?
    requires Effect(s.requests[r].obj, c).act == HandOff
    ensures var e := Effect(s.requests[r].obj, c);
            var s' := DoTakeEffect(s, t, addr);
            var h := Handle(if c == SendLater then Http else WebSocket, addr);
            Called(s, s', r, e.obj, e.act, Some(h)) && (c.SendLater? || c.RetainWebSocket?)
            && s'.threads == map[t := Calling(r, rest, done + [Reply(s.requests[r].tok, c, e.error)], Some(h))]
  {
  }

  lemma PlainDone(s: State, t: Tid, r: Rid, c: Call, rest: seq<Call>, done: seq<Reply>, addr: Oid)
    requires r in s.requests && s.threads == map[t := Admitted(r, s.requests[r].tok, c, rest, done)]
    requires s.requests[r].tok in s.transports && addr !in s.delayed && Effect(s.requests[r].obj, c).Effected?
    requires Effect(s.requests[r].obj, c).act != HandOff
    ensures var e := Effect(s.requests[r].obj, c);
            var s' := DoTakeEffect(s, t, addr);
            Called(s, s', r, e.obj, e.act, None)
            && s'.threads == map[t := Calling(r, rest, done + [Reply(s.requests[r].tok, c, e.error)], None)]
  {
    var e := Effect(s.requests[r].obj, c);
    var pc := Calling(r, rest, done + [Reply(s.requests[r].tok, c, e.error)], None);
    var what := EffectEvent(e.act, e.error);
    assert DoTakeEffect(s, t, addr) == RequestUpdate(s, t, r, e.obj, pc, what);
    assert what.Some? && e.act == Nothing ==> !what.value.Acted? && !what.value.Arrived?;
  }

  /** The handle a call makes, if it makes one. */
  function MadeBy(c: Call, act: Act, addr: Oid): Option<Handle> {
    if act == HandOff then Some(Handle(if c == SendLater then Http else WebSocket, addr)) else None
  }

  /** The effect of an admitted call. */
  lemma EffectDone(s: State, t: Tid, r: Rid, c: Call, rest: seq<Call>, done: seq<Reply>, addr: Oid)
    requires r in s.requests && s.threads == map[t := Admitted(r, s.requests[r].tok, c, rest, done)]
    requires s.requests[r].tok in s.transports && addr !in s.delayed && Effect(s.requests[r].obj, c).Effected?
    ensures var e := Effect(s.requests[r].obj, c);
            var s' := DoTakeEffect(s, t, addr);
            var h := MadeBy(c, e.act, addr);
            Called(s, s', r, e.obj, e.act, h)
            && s'.threads == map[t := Calling(r, rest, done + [Reply(s.requests[r].tok, c, e.error)], h)]
  {
    if Effect(s.requests[r].obj, c).act == HandOff {
      HandOffDone(s, t, r, c, rest, done, addr);
    } else {
      PlainDone(s, t, r, c, rest, done, addr);
    }
  }

  /** `s'` is `s` after the first of `calls`, and `h` is the handle it made, if any. */
  ghost predicate OneCalled(s: State, s': State, t: Tid, r: Rid, calls: seq<Call>, done: seq<Reply>, h: Option<Handle>)
    requires Between(s, t, r, calls, done) && calls != []
  {
    var o := RunCall(s.requests[r].obj, calls[0]);
    && o.Outcome?
    && Called(s, s', r, o.obj, if o.acts == [] then Nothing else o.acts[0], h)
    && s'.threads == map[t := Calling(r, calls[1..], done + [Reply(s.requests[r].tok, calls[0], o.replies[0])], h)]
    && (if h.Some? then h.value.o !in s.delayed && o.acts == [HandOff] && h == MadeBy(calls[0], HandOff, h.value.o)
        else o.acts != [HandOff])
  }

  lemma OneRefused(s: State, t: Tid, r: Rid, calls: seq<Call>, done: seq<Reply>)
    requires Between(s, t, r, calls, done) && calls != [] && Gate(s.requests[r].obj, calls[0]).Refused?
    ensures OneCalled(s, Do(s, PassGate(t)), t, r, calls, done, None)
  {
    RefusedDone(s, t, r, calls, done);
    assert s.requests[r := s.requests[r].(obj := s.requests[r].obj)] == s.requests;
  }

  lemma OnePassed(s: State, t: Tid, r: Rid, calls: seq<Call>, done: seq<Reply>, addr: Oid)
    requires Between(s, t, r, calls, done) && calls != [] && RunCall(s.requests[r].obj, calls[0]).Outcome?
    requires Gate(s.requests[r].obj, calls[0]).Passed? && addr !in s.delayed
    ensures var s1 := Do(s, PassGate(t));
            Enabled(s1, TakeEffect(t, addr))
            && var h := MadeBy(calls[0], Effect(Gate(s.requests[r].obj, calls[0]).obj, calls[0]).act, addr);
               OneCalled(s, Do(s1, TakeEffect(t, addr)), t, r, calls, done, h)
  {
    GateDone(s, t, r, calls, done);
    EffectDone(Do(s, PassGate(t)), t, r, calls[0], calls[1..], done, addr);
  }

  /** One call of a script, through gate and effect. */
  lemma SoloOne(s: State, t: Tid, r: Rid, calls: seq<Call>, done: seq<Reply>) returns (s': State, h: Option<Handle>)
    requires Between(s, t, r, calls, done) && calls != [] && RunCall(s.requests[r].obj, calls[0]).Outcome?
    ensures Walks(s, t, s') && OneCalled(s, s', t, r, calls, done, h)
  {
    h := None;
    var s1 := Do(s, PassGate(t));
    if Gate(s.requests[r].obj, calls[0]).Refused? {
      OneRefused(s, t, r, calls, done);
      s' := s1;
      WalksSelf(s', t);
    } else {
      var addr := Bound(s.delayed.Keys);
      assert addr !in s.delayed.Keys;
      OnePassed(s, t, r, calls, done, addr);
      s' := Do(s1, TakeEffect(t, addr));
      h := MadeBy(calls[0], Effect(Gate(s.requests[r].obj, calls[0]).obj, calls[0]).act, addr);
      WalksSelf(s', t);
      WalksFirst(s1, t, TakeEffect(t, addr), s');
    }
    WalksFirst(s, t, PassGate(t), s');
  }

  /** From the last call of a script back to the registry. */
  lemma SoloLeave(s: State, t: Tid, r: Rid, done: seq<Reply>, h: Option<Handle>) returns (s': State)
    requires s.threads == map[t := Calling(r, [], done, h)]
    ensures Walks(s, t, s')
    ensures s' == s.(threads := map[], registry := s.registry + {r}, replies := s.replies + done,
                     handles := if h.Some? then s.handles + {h.value} else s.handles)
  {
    var s1 := Do(s, PutBack(t));
    if h.None? {
      s' := s1;
      WalksSelf(s', t);
    } else {
      s' := Do(s1, Register(t));
      WalksSelf(s', t);
      WalksFirst(s1, t, Register(t), s');
    }
    WalksFirst(s, t, PutBack(t), s');
  }

  // ----- whole scripts -----

  /** A read that does not crash is made while the token is there. */
  lemma ReadsAreSafe(s: State, t: Tid, r: Rid, calls: seq<Call>)
    requires Idle(s, r) && IsScript(calls) && RunCalls(s.requests[r].obj, calls).Outcome?
    ensures Enabled(s, Begin(t, r, calls)) && Disciplined(s, Begin(t, r, calls))
    ensures RunCall(s.requests[r].obj, calls[0]).Outcome?
  {
    var obj := s.requests[r].obj;
    if |calls| == 1 {
      RunSingle(obj, calls[0]);
      assert calls == [calls[0]];
    }
  }

  lemma BeginDone(s: State, t: Tid, r: Rid, calls: seq<Call>)
    requires Idle(s, r) && IsScript(calls)
    ensures Do(s, Begin(t, r, calls))
            == s.(threads := map[t := Calling(r, calls, [], None)], registry := s.registry - {r})
    ensures Between(Do(s, Begin(t, r, calls)), t, r, calls, [])
  {
  }

  /** A script of one call. */
  lemma SoloSingle(s: State, t: Tid, r: Rid, c: Call) returns (s': State, h: Option<Handle>)
    requires Idle(s, r) && RunCall(s.requests[r].obj, c).Outcome?
    ensures InOneCall(s, t, Begin(t, r, [c]), s') && Did(s, s', r, [c], RunCall(s.requests[r].obj, c))
    ensures h.Some? <==> RunCall(s.requests[r].obj, c).acts == [HandOff]
    ensures if h.None? then s'.handles == s.handles && s'.delayed == s.delayed
            else h.value.o !in s.delayed && h == MadeBy(c, HandOff, h.value.o) && s'.handles == s.handles + {h.value}
                 && s'.delayed == s.delayed[h.value.o := Delayed(h.value.kind, s.requests[r].tok, true)]
    ensures s'.leaked == s.leaked
  {
    var o := RunCall(s.requests[r].obj, c);
    RunSingle(s.requests[r].obj, c);
    ReadsAreSafe(s, t, r, [c]);
    BeginDone(s, t, r, [c]);
    var s1 := Do(s, Begin(t, r, [c]));
    var s2;
    s2, h := SoloOne(s1, t, r, [c], []);
    var reply := Reply(s.requests[r].tok, c, o.replies[0]);
    assert [c][1..] == [] && [] + [reply] == [reply];
    s' := SoloLeave(s2, t, r, [reply], h);
    WalksTrans(s1, t, s2, s');
    SingleDid(s, s', r, c);
  }

  lemma SingleDid(s: State, s': State, r: Rid, c: Call)
    requires Idle(s, r) && RunCall(s.requests[r].obj, c).Outcome? && s'.threads == map[] && !s'.fault
    requires var o := RunCall(s.requests[r].obj, c);
             var tok := s.requests[r].tok;
             s'.requests == s.requests[r := s.requests[r].(obj := o.obj)] && s'.registry == s.registry - {r} + {r}
             && tok in s'.transports
             && s'.transports[tok] == Deliver(s.transports[tok], if o.acts == [] then Nothing else o.acts[0])
             && s'.replies == s.replies + [Reply(tok, c, o.replies[0])]
    ensures Did(s, s', r, [c], RunCall(s.requests[r].obj, c))
  {
    var o := RunCall(s.requests[r].obj, c);
    var tok := s.requests[r].tok;
    assert s.registry - {r} + {r} == s.registry;
    if o.acts != [] {
      DeliverOne(s.transports[tok], o.acts[0]);
      assert o.acts == [o.acts[0]];
    }
    assert Replies(tok, [c], o.replies) == [Reply(tok, c, o.replies[0])];
  }

  /** One call made by one thread does exactly `RunCall`. */
  lemma SoloCall(s: State, t: Tid, r: Rid, c: Call) returns (s': State)
    requires Idle(s, r) && RunCall(s.requests[r].obj, c).Outcome?
    ensures InOneCall(s, t, Begin(t, r, [c]), s') && Did(s, s', r, [c], RunCall(s.requests[r].obj, c))
  {
    var h;
    s', h := SoloSingle(s, t, r, c);
  }

  /** Both calls of a pair, between check-out and put-back. */
  lemma SoloBoth(s: State, t: Tid, r: Rid, c: Call, d: Call) returns (s': State)
    requires Between(s, t, r, [c, d], []) && IsScript([c, d]) && RunCalls(s.requests[r].obj, [c, d]).Outcome?
    ensures Walks(s, t, s') && s'.registry == s.registry && s'.replies == s.replies && !s'.fault
    ensures var tok := s.requests[r].tok;
            var x := RunCall(s.requests[r].obj, c);
            x.Outcome? &&
            var y := RunCall(x.obj, d);
            y.Outcome? && tok in s'.transports
            && s'.transports[tok] == Deliver(Deliver(s.transports[tok], if x.acts == [] then Nothing else x.acts[0]),
                                             if y.acts == [] then Nothing else y.acts[0])
            && s'.requests == s.requests[r := s.requests[r].(obj := y.obj)]
            && s'.threads == map[t := Calling(r, [], [Reply(tok, c, x.replies[0]), Reply(tok, d, y.replies[0])], None)]
  {
    var tok, obj := s.requests[r].tok, s.requests[r].obj;
    PairParts(obj, c, d);
    var s2, h2 := SoloOne(s, t, r, [c, d], []);
    var a := Reply(tok, c, RunCall(obj, c).replies[0]);
    assert [c, d][1..] == [d] && [d][1..] == [] && [] + [a] == [a];
    assert h2.None?;
    var h3;
    s', h3 := SoloOne(s2, t, r, [d], [a]);
    var b := Reply(tok, d, RunCall(s2.requests[r].obj, d).replies[0]);
    assert [a] + [b] == [a, b];
    WalksTrans(s, t, s2, s');
  }

  /** A script of two calls under one check-out does both. */
  lemma SoloPair(s: State, t: Tid, r: Rid, c: Call, d: Call) returns (s': State)
    requires Idle(s, r) && IsScript([c, d]) && RunCalls(s.requests[r].obj, [c, d]).Outcome?
    ensures InOneCall(s, t, Begin(t, r, [c, d]), s')
    ensures Did(s, s', r, [c, d], RunCalls(s.requests[r].obj, [c, d]))
  {
    ReadsAreSafe(s, t, r, [c, d]);
    BeginDone(s, t, r, [c, d]);
    var s1 := Do(s, Begin(t, r, [c, d]));
    var s2 := SoloBoth(s1, t, r, c, d);
    s' := SoloLeave(s2, t, r, s2.threads[t].done, None);
    WalksTrans(s1, t, s2, s');
    PairDid(s, s', r, c, d);
  }

  lemma PairParts(obj: Obj, c: Call, d: Call)
    requires IsScript([c, d]) && RunCalls(obj, [c, d]).Outcome?
    ensures var x := RunCall(obj, c);
            x.Outcome? && x.acts != [HandOff]
            && var y := RunCall(x.obj, d);
               y.Outcome? && y.acts != [HandOff] && RunCalls(obj, [c, d]) == Join(x, y)
  {
    assert [c, d][1..] == [d];
    RunSingle(RunCall(obj, c).obj, d);
  }

  lemma PairDid(s: State, s': State, r: Rid, c: Call, d: Call)
    requires Idle(s, r) && IsScript([c, d]) && RunCalls(s.requests[r].obj, [c, d]).Outcome?
    requires s'.threads == map[] && !s'.fault
    requires var x := RunCall(s.requests[r].obj, c);
             x.Outcome? &&
             var y := RunCall(x.obj, d);
             var tok := s.requests[r].tok;
             y.Outcome?
             && s'.requests == s.requests[r := s.requests[r].(obj := y.obj)] && s'.registry == s.registry - {r} + {r}
             && tok in s'.transports
             && s'.transports[tok] == Deliver(Deliver(s.transports[tok], if x.acts == [] then Nothing else x.acts[0]),
                                              if y.acts == [] then Nothing else y.acts[0])
             && s'.replies == s.replies + [Reply(tok, c, x.replies[0]), Reply(tok, d, y.replies[0])]
    ensures Did(s, s', r, [c, d], RunCalls(s.requests[r].obj, [c, d]))
  {
    var obj, tok := s.requests[r].obj, s.requests[r].tok;
    PairParts(obj, c, d);
    var x, y := RunCall(obj, c), RunCall(RunCall(obj, c).obj, d);
    var tr := s.transports[tok];
    SingleDelivers(tr, x);
    SingleDelivers(DeliverAll(tr, x.acts), y);
    DeliverAllAppend(tr, x.acts, y.acts);
    assert s.registry - {r} + {r} == s.registry;
    assert Replies(tok, [c, d], x.replies + y.replies) == [Reply(tok, c, x.replies[0]), Reply(tok, d, y.replies[0])];
  }

  /** What one call delivers, if anything. */
  lemma SingleDelivers(tr: Transport, o: Outcome)
    requires o.Outcome? && |o.acts| <= 1
    ensures DeliverAll(tr, o.acts) == Deliver(tr, if o.acts == [] then Nothing else o.acts[0])
  {
    if o.acts != [] {
      DeliverOne(tr, o.acts[0]);
      assert o.acts == [o.acts[0]];
    }
  }

  /** For every script and every idle request: check-out to put-back by one thread, all in one call of the interleaved
      system, does exactly what the calls of the script do one after another, with one reply for each. */
  lemma SoloScript(s: State, t: Tid, r: Rid, calls: seq<Call>) returns (s': State)
    requires Idle(s, r) && IsScript(calls) && RunCalls(s.requests[r].obj, calls).Outcome?
    ensures InOneCall(s, t, Begin(t, r, calls), s')
    ensures Did(s, s', r, calls, RunCalls(s.requests[r].obj, calls))
  {
    if |calls| == 1 {
      assert calls == [calls[0]];
      RunSingle(s.requests[r].obj, calls[0]);
      s' := SoloCall(s, t, r, calls[0]);
    } else {
      assert calls == [calls[0], calls[1]];
      s' := SoloPair(s, t, r, calls[0], calls[1]);
    }
  }

  // ----- the error page of a failed script -----

  const SYSTEM_ERROR := ResponseMetadata(500, "Internal Server Error", [])

  /** The script of `send_system_error`. */
  function ErrorScript(message: string): seq<Call> {
    [SetMetadata(SYSTEM_ERROR), SendResponse(message, true)]
  }

  /** On an HTTP request nobody has answered, it answers with status 500 and the message; on a websocket the status
      is refused and the message still goes out; on a request already committed it changes nothing. */
  lemma SystemErrorIsSent(s: State, t: Tid, r: Rid, message: string) returns (s': State)
    requires Idle(s, r) && (s.requests[r].obj.state == Created ==> s.requests[r].obj.holdsToken)
    ensures InOneCall(s, t, Begin(t, r, ErrorScript(message)), s')
    ensures Idle(s', r) && s'.requests[r].tok == s.requests[r].tok
    ensures var tok := s.requests[r].tok;
            var before, after := s.transports[tok], s'.transports[tok];
            if s.requests[r].obj.state == Committed then
              after == before && s'.requests == s.requests
            else
              after.log == before.log + [Sent(after.response, message)] && !s'.requests[r].obj.holdsToken
              && (if s.requests[r].obj.kind == WebSocket then after.response == before.response
                  else after.response.statusCode == 500 && after.response.statusMessage == "Internal Server Error"
                       && after.response.headers == before.response.headers)
  {
    ErrorScriptDoes(s.requests[r].obj, s.transports[s.requests[r].tok], message);
    s' := SoloScript(s, t, r, ErrorScript(message));
  }

  lemma ErrorScriptDoes(o: Obj, tr: Transport, message: string)
    requires o.state == Created ==> o.holdsToken
    ensures var run := RunCalls(o, ErrorScript(message));
            run.Outcome? &&
            var after := DeliverAll(tr, run.acts);
            if o.state == Committed then after == tr && run.obj == o
            else run.obj == o.(state := Committed, holdsToken := false)
                 && after.log == tr.log + [Sent(after.response, message)]
                 && after.response == if o.kind == WebSocket then tr.response
                                      else Response(500, "Internal Server Error", tr.response.headers)
  {
    var c, d := SetMetadata(SYSTEM_ERROR), SendResponse(message, true);
    assert [c, d][1..] == [d];
    ErrorStatus(o, tr);
    RunSingle(o, d);
    DeliverAllAppend(tr, RunCall(o, c).acts, RunCall(o, d).acts);
    ErrorMessage(o, DeliverAll(tr, RunCall(o, c).acts), message);
  }

  lemma ErrorStatus(o: Obj, tr: Transport)
    requires o.state == Created ==> o.holdsToken
    ensures var run := RunCall(o, SetMetadata(SYSTEM_ERROR));
            run.Outcome? && run.obj == o
            && DeliverAll(tr, run.acts) ==
               if o.state == Created && o.kind == Http
               then Transport(Response(500, "Internal Server Error", tr.response.headers), tr.log) else tr
  {
    SingleDelivers(tr, RunCall(o, SetMetadata(SYSTEM_ERROR)));
  }

  lemma ErrorMessage(o: Obj, tr: Transport, message: string)
    requires o.state == Created ==> o.holdsToken
    ensures var run := RunCall(o, SendResponse(message, true));
            run.Outcome?
            && if o.state == Committed then run.obj == o && DeliverAll(tr, run.acts) == tr
               else run.obj == o.(state := Committed, holdsToken := false)
                    && DeliverAll(tr, run.acts) == Transport(tr.response, tr.log + [Sent(tr.response, message)])
  {
    SingleDelivers(tr, RunCall(o, SendResponse(message, true)));
  }
}
