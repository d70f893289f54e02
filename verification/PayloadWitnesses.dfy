/** Two received bodies and the two ways of handling them that go wrong. */
module PayloadWitnesses {
  import opened Common
  import opened PayloadStore
  import opened PayloadSharing

  const CONFIG := Config("/tmp", 8)

  const ARRIVALS: seq<Arrival> := [Arrival([[65]], "a"), Arrival([[66]], "b")]

  /** Both bodies are in memory, each with one handler. */
  const RECEIVED := World(
    [Live(Some(0)), Live(Some(1))],
    [Record(Memory, [65], "", false, 0, "a"), Record(Memory, [66], "", false, 0, "b")],
    map[])

  lemma FeedOne(random: string, body: seq<Byte>)
    requires |body| == 1
    ensures Feed(CONFIG, Start(map[]), [body], random) == (Store(Memory, body, "", false, 0, map[]), None)
  {
    assert [body][1..] == [] && [] + body == body;
  }

  lemma BodiesReceived()
    ensures AcceptAll(CONFIG, map[], ARRIVALS) == RECEIVED
  {
    FeedOne("a", [65]);
    FeedOne("b", [66]);
    var one := [ARRIVALS[0]];
    assert ARRIVALS[..1] == one && one[..0] == [];
    assert AcceptAll(CONFIG, map[], one) == Accept(CONFIG, World([], [], map[]), [[65]], "a");
    assert AcceptAll(CONFIG, map[], one).records == [Record(Memory, [65], "", false, 0, "a")];
  }

  lemma PerformSnoc(w: World, ops: seq<Op>, op: Op)
    ensures PerformAll(CONFIG, w, ops + [op]) == Perform(CONFIG, PerformAll(CONFIG, w, ops), op).0
    ensures Before(CONFIG, w, ops + [op], |ops|) == PerformAll(CONFIG, w, ops)
  {
    assert (ops + [op])[..|ops|] == ops;
  }

  /** The first body is asked for as a file. */
  lemma FileMade() returns (w: World)
    ensures w == PerformAll(CONFIG, RECEIVED, [AsFilename(0)]) && w.handlers == RECEIVED.handlers
    ensures w.records == [Record(File, [65], GenName(CONFIG, 0, "a"), false, 1, "a"), RECEIVED.records[1]]
    ensures w.files == map[GenName(CONFIG, 0, "a") := [65]]
  {
    PerformSnoc(RECEIVED, [], AsFilename(0));
    assert [] + [AsFilename(0)] == [AsFilename(0)];
    w := PerformAll(CONFIG, RECEIVED, [AsFilename(0)]);
  }

  /** Its handler is then assigned over. When both handlers are gone, the file is still there. */
  lemma AssignmentLeavesFile()
    ensures var w := AcceptAll(CONFIG, map[], ARRIVALS);
            var end := PerformAll(CONFIG, w, [AsFilename(0), AssignCopy(0, 1), Destroy(0), Destroy(1)]);
            AllGone(end) && end.files == map[GenName(CONFIG, 0, "a") := [65]]
  {
    BodiesReceived();
    var w1 := FileMade();
    PerformSnoc(RECEIVED, [AsFilename(0)], AssignCopy(0, 1));
    var w2 := Perform(CONFIG, w1, AssignCopy(0, 1)).0;
    assert w2.handlers == [Live(Some(1)), Live(Some(1))];
    PerformSnoc(RECEIVED, [AsFilename(0), AssignCopy(0, 1)], Destroy(0));
    var w3 := Perform(CONFIG, w2, Destroy(0)).0;
    assert w3.handlers == [Gone, Live(Some(1))] && w3.files == w1.files && w3.records[1].filename == "";
    PerformSnoc(RECEIVED, [AsFilename(0), AssignCopy(0, 1), Destroy(0)], Destroy(1));
    assert [AsFilename(0)] + [AssignCopy(0, 1)] + [Destroy(0)] + [Destroy(1)]
        == [AsFilename(0), AssignCopy(0, 1), Destroy(0), Destroy(1)];
  }

  /** Or its handler is copied and destroyed. The copy then names a file that is not there. */
  lemma EarlyDestroyLosesFile()
    ensures var w := AcceptAll(CONFIG, map[], ARRIVALS);
            AnswerTo(CONFIG, w, [AsFilename(0), Copy(0), Destroy(0), AsFilename(2)], 3)
            == Name(GenName(CONFIG, 0, "a"), None)
  {
    BodiesReceived();
    var w1 := FileMade();
    PerformSnoc(RECEIVED, [AsFilename(0)], Copy(0));
    var w2 := Perform(CONFIG, w1, Copy(0)).0;
    assert w2.handlers == [Live(Some(0)), Live(Some(1)), Live(Some(0))];
    PerformSnoc(RECEIVED, [AsFilename(0), Copy(0)], Destroy(0));
    var w3 := Perform(CONFIG, w2, Destroy(0)).0;
    assert w3.handlers == [Gone, Live(Some(1)), Live(Some(0))] && w3.files == map[];
    var ops := [AsFilename(0), Copy(0), Destroy(0)];
    assert [AsFilename(0)] + [Copy(0)] + [Destroy(0)] == ops;
    PerformSnoc(RECEIVED, ops, AsFilename(2));
    assert ops + [AsFilename(2)] == [AsFilename(0), Copy(0), Destroy(0), AsFilename(2)];
  }

  /** Moving it instead of copying it is safe: the handler moved from takes nothing with it. */
  lemma MoveKeepsFile()
    ensures var w := AcceptAll(CONFIG, map[], ARRIVALS);
            AnswerTo(CONFIG, w, [AsFilename(0), Move(0), Destroy(0), AsFilename(2)], 3)
            == Name(GenName(CONFIG, 0, "a"), Some([65]))
  {
    BodiesReceived();
    var w1 := FileMade();
    PerformSnoc(RECEIVED, [AsFilename(0)], Move(0));
    var w2 := Perform(CONFIG, w1, Move(0)).0;
    assert w2.handlers == [Live(None), Live(Some(1)), Live(Some(0))];
    PerformSnoc(RECEIVED, [AsFilename(0), Move(0)], Destroy(0));
    var w3 := Perform(CONFIG, w2, Destroy(0)).0;
    assert w3.handlers == [Gone, Live(Some(1)), Live(Some(0))] && w3.files == w1.files && w3.records == w1.records;
    var ops := [AsFilename(0), Move(0), Destroy(0)];
    assert [AsFilename(0)] + [Move(0)] + [Destroy(0)] == ops;
    PerformSnoc(RECEIVED, ops, AsFilename(2));
    assert ops + [AsFilename(2)] == [AsFilename(0), Move(0), Destroy(0), AsFilename(2)];
  }
}
