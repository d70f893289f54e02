/** Runs that break the two rules of `Protocol.Disciplined`, one at a time, and go wrong. */
module ProtocolWitnesses {
  import opened Common
  import opened Metadata
  import opened RequestCore
  import opened Protocol
  import opened ProtocolSolo

  /** A request arrives and a thread checks it out. */
  lemma CheckOutRun(start: Response, c: Call) returns (steps: seq<Step>)
    requires !ReadsToken(Http, c) || c == ReadMetadata
    ensures steps == [Arrive(0, 0, Http, true, start), Begin(0, 0, [c])] && DisciplinedRun(steps)
    ensures Run(steps).requests == map[0 := Req(Obj(Http, Created, true), 0, Running)]
    ensures Run(steps).threads == map[0 := Calling(0, [c], [], None)]
    ensures Run(steps).registry == {} && Run(steps).delayed == map[] && !Run(steps).fault
    ensures 0 in Run(steps).transports
  {
    var arrive, begin := Arrive(0, 0, Http, true, start), Begin(0, 0, [c]);
    TwoSteps(INITIAL, arrive, begin);
    steps := [arrive, begin];
  }

  /** The callback returns while a thread holds its request: the server finishes and destroys it, and the thread
      goes on using it. Of the seven steps only the return breaks a rule. */
  lemma EarlyReturnFaults(start: Response) returns (before: seq<Step>, after: seq<Step>)
    ensures before == [Arrive(0, 0, Http, true, start), Begin(0, 0, [SendLater])]
    ensures after == [FinishCas(0), FinishEffect(0), Destroy(0), PassGate(0)]
    ensures DisciplinedRun(before) && Enabled(Run(before), Return(0)) && !Quiescent(Run(before), 0)
    ensures DisciplinedFrom(Do(Run(before), Return(0)), after)
    ensures Run(before + [Return(0)] + after).fault
  {
    before := CheckOutRun(start, SendLater);
    assert 0 in Run(before).threads && HeldRequest(Run(before).threads[0]) == Some(0);
    after := FinishedUnderThread(Do(Run(before), Return(0)));
    RunFromSnoc(INITIAL, before, Return(0));
    RunFromAppend(INITIAL, before + [Return(0)], after);
  }

  lemma FinishedUnderThread(s: State) returns (steps: seq<Step>)
    requires s.requests == map[0 := Req(Obj(Http, Created, true), 0, Returned)]
    requires s.threads == map[0 := Calling(0, [SendLater], [], None)]
    ensures steps == [FinishCas(0), FinishEffect(0), Destroy(0), PassGate(0)]
    ensures DisciplinedFrom(s, steps) && RunFrom(s, steps).fault
  {
    var finish := FinishRun(s);
    var destroy := DestroyRun(RunFrom(s, finish));
    RunFromAppend(s, finish, destroy);
    steps := finish + destroy;
  }

  lemma FinishCasDone(s: State)
    requires s.requests == map[0 := Req(Obj(Http, Created, true), 0, Returned)]
    ensures Do(s, FinishCas(0)).requests == map[0 := Req(Obj(Http, Committed, true), 0, Finishing)]
    ensures Do(s, FinishCas(0)).threads == s.threads
  {
  }

  lemma FinishEffectDone(s: State)
    requires s.requests == map[0 := Req(Obj(Http, Committed, true), 0, Finishing)]
    ensures Do(s, FinishEffect(0)).requests == map[0 := Req(Obj(Http, Committed, false), 0, Finished)]
    ensures Do(s, FinishEffect(0)).threads == s.threads
  {
  }

  lemma FinishRun(s: State) returns (steps: seq<Step>)
    requires s.requests == map[0 := Req(Obj(Http, Created, true), 0, Returned)]
    ensures steps == [FinishCas(0), FinishEffect(0)] && DisciplinedFrom(s, steps)
    ensures RunFrom(s, steps).requests == map[0 := Req(Obj(Http, Committed, false), 0, Finished)]
    ensures RunFrom(s, steps).threads == s.threads
  {
    FinishCasDone(s);
    FinishEffectDone(Do(s, FinishCas(0)));
    TwoSteps(s, FinishCas(0), FinishEffect(0));
    steps := [FinishCas(0), FinishEffect(0)];
  }

  lemma DestroyDone(s: State)
    requires s.requests == map[0 := Req(Obj(Http, Committed, false), 0, Finished)]
    ensures Do(s, Destroy(0)).requests == map[] && Do(s, Destroy(0)).threads == s.threads
  {
  }

  /** A thread at the gate of a request that is gone. */
  lemma GateOfDead(s: State)
    requires s.requests == map[] && s.threads == map[0 := Calling(0, [SendLater], [], None)]
    ensures Enabled(s, PassGate(0)) && Disciplined(s, PassGate(0)) && Do(s, PassGate(0)).fault
  {
  }

  lemma DestroyRun(s: State) returns (steps: seq<Step>)
    requires s.requests == map[0 := Req(Obj(Http, Committed, false), 0, Finished)]
    requires s.threads == map[0 := Calling(0, [SendLater], [], None)]
    ensures steps == [Destroy(0), PassGate(0)] && DisciplinedFrom(s, steps) && RunFrom(s, steps).fault
  {
    DestroyDone(s);
    GateOfDead(Do(s, Destroy(0)));
    TwoSteps(s, Destroy(0), PassGate(0));
    steps := [Destroy(0), PassGate(0)];
  }

  /** A request that has been answered stays in its registry, and reading its metadata then goes through the token
      it no longer has. Of the eight steps only the last check-out breaks a rule. */
  lemma LateReadFaults(start: Response) returns (before: seq<Step>, after: seq<Step>)
    ensures DisciplinedRun(before) && 0 in Run(before).registry && 0 in Run(before).requests
    ensures !Run(before).requests[0].obj.holdsToken && Run(before).threads == map[]
    ensures after == [Begin(0, 0, [ReadMetadata]), PassGate(0), TakeEffect(0, 0)] && Run(before + after).fault
  {
    before := AnswerRun(start);
    after := ReadOfMoved(Run(before));
    RunFromAppend(INITIAL, before, after);
  }

  lemma AnswerRun(start: Response) returns (steps: seq<Step>)
    ensures DisciplinedRun(steps) && Run(steps).threads == map[] && Run(steps).registry == {0}
    ensures Run(steps).requests == map[0 := Req(Obj(Http, Committed, false), 0, Running)]
    ensures Run(steps).delayed == map[]
  {
    steps := CheckOutRun(start, SendResponse("", true));
    var answer := AnswerUnderThread(Run(steps));
    RunFromAppend(INITIAL, steps, answer);
    steps := steps + answer;
  }

  lemma AnswerUnderThread(s: State) returns (steps: seq<Step>)
    requires s.requests == map[0 := Req(Obj(Http, Created, true), 0, Running)]
    requires s.threads == map[0 := Calling(0, [SendResponse("", true)], [], None)]
    requires s.registry == {} && s.delayed == map[] && 0 in s.transports && !s.fault
    ensures DisciplinedFrom(s, steps) && RunFrom(s, steps).threads == map[] && RunFrom(s, steps).registry == {0}
    ensures RunFrom(s, steps).requests == map[0 := Req(Obj(Http, Committed, false), 0, Running)]
    ensures RunFrom(s, steps).delayed == map[]
  {
    var c := SendResponse("", true);
    var s1 := Do(s, PassGate(0));
    GateDone(s, 0, 0, [c], []);
    assert [c][1..] == [] && [] + [Reply(0, c, None)] == [Reply(0, c, None)];
    var s2 := Do(s1, TakeEffect(0, 0));
    EffectDone(s1, 0, 0, c, [], [], 0);
    assert s2.requests == map[0 := Req(Obj(Http, Committed, false), 0, Running)];
    ThreeSteps(s, PassGate(0), TakeEffect(0, 0), PutBack(0));
    steps := [PassGate(0), TakeEffect(0, 0), PutBack(0)];
  }

  lemma ReadOfMoved(s: State) returns (steps: seq<Step>)
    requires s.threads == map[] && s.registry == {0} && s.delayed == map[]
    requires s.requests == map[0 := Req(Obj(Http, Committed, false), 0, Running)]
    ensures steps == [Begin(0, 0, [ReadMetadata]), PassGate(0), TakeEffect(0, 0)] && RunFrom(s, steps).fault
  {
    var begin := Begin(0, 0, [ReadMetadata]);
    assert [ReadMetadata][1..] == [];
    var s2 := Do(Do(s, begin), PassGate(0));
    assert s2.threads[0] == Admitted(0, 0, ReadMetadata, [], []);
    ThreeSteps(s, begin, PassGate(0), TakeEffect(0, 0));
    steps := [begin, PassGate(0), TakeEffect(0, 0)];
  }
}
