/**
 Handlers of several request bodies over one file system: each holds a shared record or none, and can be read, copied,
 moved, assigned to and destroyed in any order.
 */
module PayloadSharing {
  import opened Common
  import opened PayloadStore

  /** `payload_data`; `random` is what its generator answers when it first needs a file name. */
  datatype Record = Record(mode: Mode, buffer: seq<Byte>, filename: string, open: bool, counter: nat, random: string)

  /** A handler: destroyed, or alive with its record, if it has one. One that was moved from has none. */
  datatype Slot = Gone | Live(record: Option<nat>)

  datatype World = World(handlers: seq<Slot>, records: seq<Record>, files: Files)

  datatype Op =
    | AsString(i: nat)
    | AsFilename(i: nat)
    | Copy(source: nat)
    | Move(source: nat)
    | AssignCopy(i: nat, source: nat)
    | AssignMove(i: nat, source: nat)
    | Destroy(i: nat)

  /** An answered name comes with what its file then holds. */
  datatype Answer = Bytes(bytes: Result<seq<Byte>, Failure>) | Name(name: string, content: Option<seq<Byte>>) | NoAnswer

  function StoreOf(d: Record, files: Files): Store {
    Store(d.mode, d.buffer, d.filename, d.open, d.counter, files)
  }

  /** Record `k` and the files as in `st`. */
  function Put(w: World, k: nat, st: Store): World
    requires k < |w.records|
  {
    var d := Record(st.mode, st.buffer, st.filename, st.open, st.counter, w.records[k].random);
    w.(records := w.records[k := d], files := st.files)
  }

  predicate Alive(w: World, i: nat) {
    i < |w.handlers| && w.handlers[i].Live?
  }

  predicate Holds(w: World, i: nat, k: nat) {
    i < |w.handlers| && w.handlers[i] == Live(Some(k))
  }

  /** Handler `i` is alive and holds a record. */
  predicate HasRecord(w: World, i: nat) {
    Alive(w, i) && w.handlers[i].record.Some? && w.handlers[i].record.value < |w.records|
  }

  /** What a program may do: use handlers that are alive, and read only through those that have a record. */
  predicate Possible(w: World, op: Op) {
    match op
    case AsString(i) => HasRecord(w, i)
    case AsFilename(i) => HasRecord(w, i)
    case Copy(j) => Alive(w, j)
    case Move(j) => Alive(w, j)
    case AssignCopy(i, j) => Alive(w, i) && Alive(w, j)
    case AssignMove(i, j) => Alive(w, i) && Alive(w, j)
    case Destroy(i) => Alive(w, i)
  }

  /** The destructor: only one that has a record with a file does anything. */
  function DoDestroy(w: World, i: nat): World
    requires Alive(w, i)
  {
    var w' := w.(handlers := w.handlers[i := Gone]);
    if !HasRecord(w, i) then w'
    else
      var k := w.handlers[i].record.value;
      Put(w', k, Drop(StoreOf(w.records[k], w.files)))
  }

  /** One operation; what a program may not do does nothing here. */
  function Perform(c: Config, w: World, op: Op): (World, Answer) {
    if !Possible(w, op) then (w, NoAnswer)
    else
      match op
      case AsString(i) =>
        var k := w.handlers[i].record.value;
        var (st, r) := ReadString(StoreOf(w.records[k], w.files));
        (Put(w, k, st), Bytes(r))
      case AsFilename(i) =>
        var k := w.handlers[i].record.value;
        var (st, name) := ReadFilename(c, StoreOf(w.records[k], w.files), w.records[k].random);
        (Put(w, k, st), Name(name, if name in st.files then Some(st.files[name]) else None))
      case Copy(j) => (w.(handlers := w.handlers + [w.handlers[j]]), NoAnswer)
      case Move(j) => (w.(handlers := w.handlers[j := Live(None)] + [w.handlers[j]]), NoAnswer)
      case AssignCopy(i, j) => (w.(handlers := w.handlers[i := w.handlers[j]]), NoAnswer)
      case AssignMove(i, j) => (w.(handlers := w.handlers[j := Live(None)][i := w.handlers[j]]), NoAnswer)
      case Destroy(i) => (DoDestroy(w, i), NoAnswer)
  }

  function PerformAll(c: Config, w: World, ops: seq<Op>): World
    decreases |ops|
  {
    if ops == [] then w
    else Perform(c, PerformAll(c, w, ops[..|ops| - 1]), ops[|ops| - 1]).0
  }

  /** The world before operation `n`. */
  function Before(c: Config, w: World, ops: seq<Op>, n: nat): World
    requires n <= |ops|
  {
    PerformAll(c, w, ops[..n])
  }

  /** The answer to operation `n`. */
  function AnswerTo(c: Config, w: World, ops: seq<Op>, n: nat): Answer
    requires n < |ops|
  {
    Perform(c, Before(c, w, ops, n), ops[n]).1
  }

  lemma BeforeNext(c: Config, w: World, ops: seq<Op>, n: nat)
    requires n < |ops|
    ensures Before(c, w, ops, n + 1) == Perform(c, Before(c, w, ops, n), ops[n]).0
  {
    assert ops[..n + 1][..n] == ops[..n];
  }

  // ----- who holds what afterwards -----

  /** What handler `i` holds: nothing when it has no record or is gone. */
  function RecordAt(w: World, i: nat): Option<nat> {
    if Alive(w, i) then w.handlers[i].record else None
  }

  /** All handlers but `i` and `j` are as before, and so are records and files. */
  ghost predicate OthersAsBefore(w: World, w': World, i: nat, j: nat) {
    && w'.records == w.records && w'.files == w.files
    && forall l: nat | l != i && l != j && l < |w.handlers| :: l < |w'.handlers| && w'.handlers[l] == w.handlers[l]
  }

  /** Copying makes one more handler, and both then have the record. */
  lemma CopyShares(c: Config, w: World, j: nat)
    requires Alive(w, j)
    ensures var w' := Perform(c, w, Copy(j)).0;
            var n := |w.handlers|;
            |w'.handlers| == n + 1 && OthersAsBefore(w, w', j, n) && Alive(w', j) && Alive(w', n)
            && RecordAt(w', n) == RecordAt(w, j) && RecordAt(w', j) == RecordAt(w, j)
  {
  }

  /** Moving makes one more handler, which then has the record, and leaves the other alive and without. */
  lemma MoveTakes(c: Config, w: World, j: nat)
    requires Alive(w, j)
    ensures var w' := Perform(c, w, Move(j)).0;
            var n := |w.handlers|;
            |w'.handlers| == n + 1 && OthersAsBefore(w, w', j, n) && Alive(w', j) && Alive(w', n)
            && RecordAt(w', n) == RecordAt(w, j) && RecordAt(w', j) == None
  {
  }

  lemma AssignCopyShares(c: Config, w: World, i: nat, j: nat)
    requires Alive(w, i) && Alive(w, j)
    ensures var w' := Perform(c, w, AssignCopy(i, j)).0;
            |w'.handlers| == |w.handlers| && OthersAsBefore(w, w', i, j) && Alive(w', i) && Alive(w', j)
            && RecordAt(w', i) == RecordAt(w, j) && RecordAt(w', j) == RecordAt(w, j)
  {
  }

  /** Move assignment leaves the other without, unless it is the same handler: then nothing changes. */
  lemma AssignMoveTakes(c: Config, w: World, i: nat, j: nat)
    requires Alive(w, i) && Alive(w, j)
    ensures var w' := Perform(c, w, AssignMove(i, j)).0;
            |w'.handlers| == |w.handlers| && OthersAsBefore(w, w', i, j) && Alive(w', i) && Alive(w', j)
            && RecordAt(w', i) == RecordAt(w, j) && (i != j ==> RecordAt(w', j) == None) && (i == j ==> w' == w)
  {
    if i == j {
      assert w.handlers[j := Live(None)][i := w.handlers[j]] == w.handlers;
    }
  }

  /** Destruction ends that handler only; one that was moved from changes no record and no file. */
  lemma DestroyEnds(c: Config, w: World, i: nat)
    requires Alive(w, i)
    ensures var w' := Perform(c, w, Destroy(i)).0;
            |w'.handlers| == |w.handlers| && !Alive(w', i)
            && (forall l: nat | l != i && l < |w.handlers| :: w'.handlers[l] == w.handlers[l])
            && (RecordAt(w, i) == None ==> w'.records == w.records && w'.files == w.files)
  {
  }

  /** So a handler that was moved from can be destroyed at any later time, as long as nothing is assigned to it:
      whatever else happened, the destruction touches no record and no file. */
  lemma {:induction false} MovedFromIsHarmless(c: Config, w: World, ops: seq<Op>, j: nat)
    requires Alive(w, j) && RecordAt(w, j) == None
    requires forall op | op in ops :: ((op.AssignCopy? || op.AssignMove?) ==> op.i != j) && op != Destroy(j)
    ensures var w' := PerformAll(c, w, ops);
            Alive(w', j) && RecordAt(w', j) == None
            && Perform(c, w', Destroy(j)).0.records == w'.records && Perform(c, w', Destroy(j)).0.files == w'.files
    decreases |ops|
  {
    if ops != [] {
      var front, last := ops[..|ops| - 1], ops[|ops| - 1];
      assert last in ops && forall op | op in front :: op in ops;
      MovedFromIsHarmless(c, w, front, j);
      StaysEmpty(c, PerformAll(c, w, front), last, j);
    }
    DestroyEnds(c, PerformAll(c, w, ops), j);
  }

  lemma StaysEmpty(c: Config, w: World, op: Op, j: nat)
    requires Alive(w, j) && RecordAt(w, j) == None
    requires ((op.AssignCopy? || op.AssignMove?) ==> op.i != j) && op != Destroy(j)
    ensures Alive(Perform(c, w, op).0, j) && RecordAt(Perform(c, w, op).0, j) == None
  {
    if Possible(w, op) {
      match op
      case Copy(l) => CopyShares(c, w, l);
      case Move(l) => MoveTakes(c, w, l);
      case AssignCopy(i, l) => AssignCopyShares(c, w, i, l);
      case AssignMove(i, l) => AssignMoveTakes(c, w, i, l);
      case Destroy(i) => DestroyEnds(c, w, i);
      case _ =>
    }
  }

  // ----- what always holds -----

  /** The only file name a record can ever have. */
  function NameOf(c: Config, d: Record): (name: string)
    ensures name != ""
  {
    GenName(c, 0, d.random)
  }

  /** A record for this body: either without a file and holding the body, or with its file, which holds the body
      as long as it is there. */
  ghost predicate RecordOk(c: Config, d: Record, files: Files, body: seq<Byte>) {
    if d.filename == "" then d.counter == 0 && d.mode == Memory && d.buffer == body
    else d.filename == NameOf(c, d) && d.counter == 1 && (d.filename in files ==> files[d.filename] == body)
  }

  /** Every record may only ever touch a file of its own; `files` are the files of others. */
  ghost predicate Sound(c: Config, w: World, bodies: seq<seq<Byte>>, files: Files) {
    && |bodies| == |w.records|
    && (forall i: nat, k: nat | Holds(w, i, k) :: k < |w.records|)
    && (forall k | 0 <= k < |w.records| ::
          RecordOk(c, w.records[k], w.files, bodies[k]) && NameOf(c, w.records[k]) !in files)
    && (forall k, l | 0 <= k < l < |w.records| :: NameOf(c, w.records[k]) != NameOf(c, w.records[l]))
    && (forall name | name in files :: name in w.files && w.files[name] == files[name])
    && (forall name | name in w.files :: name in files || OwnedName(w, name))
  }

  ghost predicate OwnedName(w: World, name: string) {
    name != "" && exists k :: 0 <= k < |w.records| && w.records[k].filename == name
  }

  /** A record as good as the day the body was complete. */
  predicate Intact(d: Record, files: Files, body: seq<Byte>) {
    (d.mode == Memory ==> d.buffer == body) && (d.filename != "" ==> d.filename in files)
  }

  /** All records still held are intact. */
  ghost predicate HeldIntact(w: World, bodies: seq<seq<Byte>>) {
    forall i: nat, k: nat | Holds(w, i, k) && k < |w.records| && k < |bodies| ::
      Intact(w.records[k], w.files, bodies[k])
  }

  ghost predicate Shared(w: World, i: nat, k: nat) {
    exists j: nat :: j != i && Holds(w, j, k)
  }

  /** A handler is destroyed while another one lives on with the same record, which has a file. */
  ghost predicate EarlyDestroy(w: World, op: Op) {
    op.Destroy? && exists k: nat ::
      Holds(w, op.i, k) && k < |w.records| && w.records[k].filename != "" && Shared(w, op.i, k)
  }

  ghost predicate NoEarlyDestroy(c: Config, w: World, ops: seq<Op>) {
    forall n | 0 <= n < |ops| :: !EarlyDestroy(Before(c, w, ops, n), ops[n])
  }

  /** A read answered as it should be. */
  predicate Faithful(answer: Answer, body: seq<Byte>) {
    match answer
    case Bytes(r) => r == Ok(body)
    case Name(_, content) => content == Some(body)
    case NoAnswer => false
  }

  /** A possible read gives the body of the record its handler has; everything else answers nothing. */
  predicate AnswerOk(w: World, op: Op, answer: Answer, bodies: seq<seq<Byte>>) {
    if Possible(w, op) && (op.AsString? || op.AsFilename?)
    then w.handlers[op.i].record.value < |bodies| && Faithful(answer, bodies[w.handlers[op.i].record.value])
    else answer == NoAnswer
  }

  // ----- each operation -----

  /** An operation that only changes which handler has which record. */
  predicate Rewires(op: Op) {
    op.Copy? || op.Move? || op.AssignCopy? || op.AssignMove?
  }

  lemma RewireSound(c: Config, w: World, op: Op, bodies: seq<seq<Byte>>, files: Files)
    requires Sound(c, w, bodies, files) && Possible(w, op) && Rewires(op)
    ensures Sound(c, Perform(c, w, op).0, bodies, files)
    ensures Perform(c, w, op).0.records == w.records && Perform(c, w, op).0.files == w.files
    ensures HeldIntact(w, bodies) ==> HeldIntact(Perform(c, w, op).0, bodies)
  {
    var w' := Perform(c, w, op).0;
    forall i: nat, k: nat | Holds(w', i, k) ensures exists j: nat :: Holds(w, j, k) {
      if i == |w.handlers| || ((op.AssignCopy? || op.AssignMove?) && i == op.i) {
        assert Holds(w, op.source, k);
      } else {
        assert Holds(w, i, k);
      }
    }
  }

  /** What happens to one record and its file, and to no other. */
  ghost predicate OnlyTouches(w: World, w': World, k: nat) {
    && k < |w.records| && |w'.records| == |w.records|
    && (forall l | 0 <= l < |w.records| && l != k :: w'.records[l] == w.records[l])
    && w'.records[k].random == w.records[k].random
    && (forall name | name != w'.records[k].filename ::
          && (name in w'.files <==> name in w.files)
          && (name in w.files && name in w'.files ==> w'.files[name] == w.files[name]))
  }

  lemma TouchSound(c: Config, w: World, w': World, k: nat, bodies: seq<seq<Byte>>, files: Files)
    requires Sound(c, w, bodies, files) && OnlyTouches(w, w', k)
    requires RecordOk(c, w'.records[k], w'.files, bodies[k])
    requires w.records[k].filename != "" ==> w'.records[k].filename == w.records[k].filename
    requires w'.records[k].filename == "" ==> w'.files == w.files
    requires forall i: nat, l: nat | Holds(w', i, l) :: Holds(w, i, l)
    ensures Sound(c, w', bodies, files)
  {
    forall l | 0 <= l < |w'.records|
      ensures RecordOk(c, w'.records[l], w'.files, bodies[l]) && NameOf(c, w'.records[l]) !in files
    {
      assert RecordOk(c, w.records[l], w.files, bodies[l]);
      if l != k {
        assert NameOf(c, w.records[l]) != NameOf(c, w.records[k]);
      }
    }
    forall name | name in w'.files ensures name in files || OwnedName(w', name) {
      TouchOwned(c, w, w', k, bodies, files, name);
    }
  }

  lemma TouchOwned(c: Config, w: World, w': World, k: nat, bodies: seq<seq<Byte>>, files: Files, name: string)
    requires Sound(c, w, bodies, files) && OnlyTouches(w, w', k) && name in w'.files
    requires w.records[k].filename != "" ==> w'.records[k].filename == w.records[k].filename
    requires w'.records[k].filename == "" ==> w'.files == w.files
    ensures name in files || OwnedName(w', name)
  {
    if name !in files && (name != w'.records[k].filename || name == "") {
      assert OwnedName(w, name);
      var l :| 0 <= l < |w.records| && w.records[l].filename == name;
      assert w'.records[l].filename == name;
    }
  }

  /** Records other than the touched one stay intact, and so does that one if it is. */
  lemma TouchIntact(c: Config, w: World, w': World, k: nat, bodies: seq<seq<Byte>>, files: Files)
    requires Sound(c, w, bodies, files) && OnlyTouches(w, w', k) && HeldIntact(w, bodies)
    requires RecordOk(c, w'.records[k], w'.files, bodies[k])
    requires w'.records[k].filename == "" ==> w'.files == w.files
    requires forall i: nat, l: nat | Holds(w', i, l) :: Holds(w, i, l)
    requires (exists i: nat :: Holds(w', i, k)) ==> Intact(w'.records[k], w'.files, bodies[k])
    ensures HeldIntact(w', bodies)
  {
    forall i: nat, l: nat | Holds(w', i, l) && l < |w'.records| && l < |bodies|
      ensures Intact(w'.records[l], w'.files, bodies[l])
    {
      if l != k {
        assert Holds(w, i, l);
        assert NameOf(c, w.records[l]) != NameOf(c, w.records[k]);
      }
    }
  }

  lemma StringTouches(c: Config, w: World, i: nat, bodies: seq<seq<Byte>>, files: Files)
    requires Sound(c, w, bodies, files) && HasRecord(w, i)
    ensures var k := w.handlers[i].record.value;
            var w' := Perform(c, w, AsString(i)).0;
            OnlyTouches(w, w', k) && RecordOk(c, w'.records[k], w'.files, bodies[k]) && w'.handlers == w.handlers
            && w'.files == w.files && w'.records[k].filename == w.records[k].filename
            && (Intact(w.records[k], w.files, bodies[k]) ==>
                  Intact(w'.records[k], w'.files, bodies[k])
                  && AnswerOk(w, AsString(i), Perform(c, w, AsString(i)).1, bodies))
  {
    var k := w.handlers[i].record.value;
    assert RecordOk(c, w.records[k], w.files, bodies[k]);
  }

  lemma FilenameTouches(c: Config, w: World, i: nat, bodies: seq<seq<Byte>>, files: Files)
    requires Sound(c, w, bodies, files) && HasRecord(w, i)
    ensures var k := w.handlers[i].record.value;
            var w' := Perform(c, w, AsFilename(i)).0;
            OnlyTouches(w, w', k) && RecordOk(c, w'.records[k], w'.files, bodies[k]) && w'.handlers == w.handlers
            && w'.records[k].filename == NameOf(c, w.records[k])
            && Perform(c, w, AsFilename(i)).1.Name?
            && Perform(c, w, AsFilename(i)).1.name == NameOf(c, w.records[k])
            && (Intact(w.records[k], w.files, bodies[k]) ==>
                  Intact(w'.records[k], w'.files, bodies[k])
                  && AnswerOk(w, AsFilename(i), Perform(c, w, AsFilename(i)).1, bodies))
  {
    var k := w.handlers[i].record.value;
    assert RecordOk(c, w.records[k], w.files, bodies[k]);
  }

  lemma DestroyTouches(c: Config, w: World, i: nat, bodies: seq<seq<Byte>>, files: Files)
    requires Sound(c, w, bodies, files) && HasRecord(w, i)
    ensures var k := w.handlers[i].record.value;
            var w' := Perform(c, w, Destroy(i)).0;
            OnlyTouches(w, w', k) && RecordOk(c, w'.records[k], w'.files, bodies[k])
            && w'.handlers == w.handlers[i := Gone]
            && w'.records[k].filename == w.records[k].filename
            && (w.records[k].filename == "" ==> w'.files == w.files && w'.records[k] == w.records[k])
            && (w.records[k].filename != "" ==> w.records[k].filename !in w'.files)
  {
    var k := w.handlers[i].record.value;
    assert RecordOk(c, w.records[k], w.files, bodies[k]);
  }

  /** The record an operation reads or destroys through. */
  predicate Through(w: World, op: Op, k: nat) {
    (op.AsString? || op.AsFilename? || op.Destroy?) && Holds(w, op.i, k) && k < |w.records|
  }

  lemma ThroughTouches(c: Config, w: World, op: Op, k: nat, bodies: seq<seq<Byte>>, files: Files)
    requires Sound(c, w, bodies, files) && Through(w, op, k)
    ensures var w' := Perform(c, w, op).0;
            OnlyTouches(w, w', k) && RecordOk(c, w'.records[k], w'.files, bodies[k])
            && (w.records[k].filename != "" ==> w'.records[k].filename == w.records[k].filename)
            && (w'.records[k].filename == "" ==> w'.files == w.files)
            && (forall i: nat, l: nat | Holds(w', i, l) :: Holds(w, i, l))
  {
    match op
    case AsString(i) => StringTouches(c, w, i, bodies, files);
    case AsFilename(i) => FilenameTouches(c, w, i, bodies, files);
    case Destroy(i) => DestroyTouches(c, w, i, bodies, files);
  }

  /** Destroying a handler that has no record. */
  lemma DestroyEmpty(c: Config, w: World, i: nat, bodies: seq<seq<Byte>>, files: Files)
    requires Sound(c, w, bodies, files) && Alive(w, i) && w.handlers[i].record.None?
    ensures var w' := Perform(c, w, Destroy(i)).0;
            w' == w.(handlers := w.handlers[i := Gone]) && Sound(c, w', bodies, files)
            && (HeldIntact(w, bodies) ==> HeldIntact(w', bodies))
  {
    var w' := Perform(c, w, Destroy(i)).0;
    assert forall j: nat, k: nat | Holds(w', j, k) :: Holds(w, j, k);
  }

  /** The cases of an operation that a program may do. */
  lemma OpCases(c: Config, w: World, op: Op, bodies: seq<seq<Byte>>, files: Files)
    requires Sound(c, w, bodies, files) && Possible(w, op) && !Rewires(op)
    ensures (op.Destroy? && w.handlers[op.i].record.None?)
            || (w.handlers[op.i].record.Some? && Through(w, op, w.handlers[op.i].record.value))
  {
    if w.handlers[op.i].record.Some? {
      assert Holds(w, op.i, w.handlers[op.i].record.value);
    }
  }

  lemma PerformSound(c: Config, w: World, op: Op, bodies: seq<seq<Byte>>, files: Files)
    requires Sound(c, w, bodies, files)
    ensures Sound(c, Perform(c, w, op).0, bodies, files)
  {
    if Possible(w, op) {
      if Rewires(op) {
        RewireSound(c, w, op, bodies, files);
      } else {
        OpCases(c, w, op, bodies, files);
        if w.handlers[op.i].record.None? {
          DestroyEmpty(c, w, op.i, bodies, files);
        } else {
          var k := w.handlers[op.i].record.value;
          ThroughTouches(c, w, op, k, bodies, files);
          TouchSound(c, w, Perform(c, w, op).0, k, bodies, files);
        }
      }
    }
  }

  /** After a read or a destruction that is not early, whoever still has the record finds it intact. */
  lemma ThroughIntact(c: Config, w: World, op: Op, k: nat, bodies: seq<seq<Byte>>, files: Files)
    requires Sound(c, w, bodies, files) && Through(w, op, k) && HeldIntact(w, bodies) && !EarlyDestroy(w, op)
    ensures (exists i: nat :: Holds(Perform(c, w, op).0, i, k)) ==>
              Intact(Perform(c, w, op).0.records[k], Perform(c, w, op).0.files, bodies[k])
    ensures AnswerOk(w, op, Perform(c, w, op).1, bodies)
  {
    assert Holds(w, op.i, k) && k < |bodies|;
    match op
    case AsString(i) => StringTouches(c, w, i, bodies, files);
    case AsFilename(i) => FilenameTouches(c, w, i, bodies, files);
    case Destroy(i) =>
      DestroyTouches(c, w, i, bodies, files);
      if j: nat :| Holds(Perform(c, w, op).0, j, k) {
        assert j != i && Holds(w, j, k);
        assert Shared(w, i, k);
      }
  }

  /** As long as no record is destroyed early, reads are right and everything still held stays intact. */
  lemma PerformIntact(c: Config, w: World, op: Op, bodies: seq<seq<Byte>>, files: Files)
    requires Sound(c, w, bodies, files) && HeldIntact(w, bodies) && !EarlyDestroy(w, op)
    ensures HeldIntact(Perform(c, w, op).0, bodies)
    ensures AnswerOk(w, op, Perform(c, w, op).1, bodies)
  {
    if Possible(w, op) {
      if Rewires(op) {
        RewireSound(c, w, op, bodies, files);
      } else {
        OpCases(c, w, op, bodies, files);
        if w.handlers[op.i].record.None? {
          DestroyEmpty(c, w, op.i, bodies, files);
        } else {
          var k := w.handlers[op.i].record.value;
          ThroughTouches(c, w, op, k, bodies, files);
          ThroughIntact(c, w, op, k, bodies, files);
          TouchIntact(c, w, Perform(c, w, op).0, k, bodies, files);
        }
      }
    }
  }

  // ----- whole runs -----

  lemma {:induction false} RunSound(c: Config, w: World, ops: seq<Op>, bodies: seq<seq<Byte>>, files: Files)
    requires Sound(c, w, bodies, files)
    ensures Sound(c, PerformAll(c, w, ops), bodies, files)
    decreases |ops|
  {
    if ops != [] {
      RunSound(c, w, ops[..|ops| - 1], bodies, files);
      PerformSound(c, PerformAll(c, w, ops[..|ops| - 1]), ops[|ops| - 1], bodies, files);
    }
  }

  lemma {:induction false} RunIntact(c: Config, w: World, ops: seq<Op>, bodies: seq<seq<Byte>>, files: Files)
    requires Sound(c, w, bodies, files) && HeldIntact(w, bodies) && NoEarlyDestroy(c, w, ops)
    ensures HeldIntact(PerformAll(c, w, ops), bodies)
    decreases |ops|
  {
    if ops != [] {
      var front := ops[..|ops| - 1];
      assert forall n | 0 <= n < |front| :: front[..n] == ops[..n] && front[n] == ops[n];
      RunIntact(c, w, front, bodies, files);
      RunSound(c, w, front, bodies, files);
      assert Before(c, w, ops, |ops| - 1) == PerformAll(c, w, front);
      PerformIntact(c, PerformAll(c, w, front), ops[|ops| - 1], bodies, files);
    }
  }

  /** Every read of every run, through any handler and in any order with copies, moves, assignments and destructions,
      answers with the body of the record the handler then has, as long as no record is destroyed early. */
  lemma EveryReadIsFaithful(c: Config, w: World, ops: seq<Op>, n: nat, bodies: seq<seq<Byte>>, files: Files)
    requires Sound(c, w, bodies, files) && HeldIntact(w, bodies) && NoEarlyDestroy(c, w, ops) && n < |ops|
    ensures AnswerOk(Before(c, w, ops, n), ops[n], AnswerTo(c, w, ops, n), bodies)
  {
    assert forall m | 0 <= m < n :: ops[..n][..m] == ops[..m] && ops[..n][m] == ops[m];
    RunSound(c, w, ops[..n], bodies, files);
    RunIntact(c, w, ops[..n], bodies, files);
    PerformIntact(c, Before(c, w, ops, n), ops[n], bodies, files);
  }

  lemma {:induction false} RandomsStay(c: Config, w: World, ops: seq<Op>)
    ensures var w' := PerformAll(c, w, ops);
            |w'.records| == |w.records|
            && forall k | 0 <= k < |w.records| :: w'.records[k].random == w.records[k].random
    decreases |ops|
  {
    if ops != [] {
      RandomsStay(c, w, ops[..|ops| - 1]);
    }
  }

  /** All file-name reads of one record in a run give one name, and those of different records give different ones;
      each record makes at most one file. */
  lemma OneNamePerRecord(c: Config, w: World, ops: seq<Op>, n: nat, k: nat, bodies: seq<seq<Byte>>, files: Files)
    requires Sound(c, w, bodies, files) && n < |ops| && k < |w.records|
    requires ops[n].AsFilename? && Holds(Before(c, w, ops, n), ops[n].i, k)
    ensures AnswerTo(c, w, ops, n).Name? && AnswerTo(c, w, ops, n).name == NameOf(c, w.records[k])
    ensures forall l | 0 <= l < |w.records| && l != k :: NameOf(c, w.records[l]) != NameOf(c, w.records[k])
    ensures Before(c, w, ops, n).records[k].counter <= 1
  {
    RunSound(c, w, ops[..n], bodies, files);
    RandomsStay(c, w, ops[..n]);
    FilenameTouches(c, Before(c, w, ops, n), ops[n].i, bodies, files);
  }

  // ----- files left behind -----

  ghost predicate Held(w: World, k: nat) {
    exists i: nat :: Holds(w, i, k)
  }

  /** Nobody has record `k` any more, and its file is still there: nobody will ever remove it. */
  ghost predicate Orphan(w: World, k: nat) {
    k < |w.records| && w.records[k].filename != "" && w.records[k].filename in w.files && !Held(w, k)
  }

  /** An assignment that overwrites the last handler of record `k`, whose file is there, with another record or
      none. */
  ghost predicate Overwrites(w: World, op: Op, k: nat) {
    && (op.AssignCopy? || op.AssignMove?) && Possible(w, op) && k < |w.records|
    && w.records[k].filename != "" && w.records[k].filename in w.files
    && Holds(w, op.i, k) && !Shared(w, op.i, k) && w.handlers[op.source] != Live(Some(k))
  }

  lemma RewireOrphans(c: Config, w: World, op: Op, k: nat)
    requires Possible(w, op) && Rewires(op) && k < |w.records|
    ensures var w' := Perform(c, w, op).0;
            Held(w', k) <==> Held(w, k) && !((op.AssignCopy? || op.AssignMove?) && Holds(w, op.i, k)
                                             && !Shared(w, op.i, k) && w.handlers[op.source] != Live(Some(k)))
  {
    var w' := Perform(c, w, op).0;
    if Held(w', k) {
      var i: nat :| Holds(w', i, k);
      RewiredHolder(c, w, op, i, k);
    }
    if i: nat :| Holds(w, i, k) {
      HolderRewired(c, w, op, i, k);
    }
  }

  /** A holder after a rewiring was one before, and was not overwritten for good. */
  lemma RewiredHolder(c: Config, w: World, op: Op, i: nat, k: nat)
    requires Possible(w, op) && Rewires(op) && Holds(Perform(c, w, op).0, i, k)
    ensures Held(w, k)
    ensures (op.AssignCopy? || op.AssignMove?) && Holds(w, op.i, k) ==>
              Shared(w, op.i, k) || w.handlers[op.source] == Live(Some(k))
  {
    if i == |w.handlers| || ((op.AssignCopy? || op.AssignMove?) && i == op.i) {
      assert Holds(w, op.source, k);
    } else {
      assert Holds(w, i, k);
    }
  }

  /** A holder before a rewiring leaves one after it, unless it is overwritten and was the last. */
  lemma HolderRewired(c: Config, w: World, op: Op, i: nat, k: nat)
    requires Possible(w, op) && Rewires(op) && Holds(w, i, k)
    ensures Held(Perform(c, w, op).0, k)
            || ((op.AssignCopy? || op.AssignMove?) && Holds(w, op.i, k) && !Shared(w, op.i, k)
                && w.handlers[op.source] != Live(Some(k)))
  {
    var w' := Perform(c, w, op).0;
    match op
    case Copy(j) => assert Holds(w', i, k);
    case Move(j) => assert Holds(w', if i == j then |w.handlers| else i, k);
    case AssignCopy(t, j) =>
      if i != t {
        assert Holds(w', i, k);
      } else if w.handlers[j] == Live(Some(k)) {
        assert Holds(w', t, k);
      } else if Shared(w, t, k) {
        var l: nat :| l != t && Holds(w, l, k);
        assert Holds(w', l, k);
      }
    case AssignMove(t, j) =>
      if w.handlers[j] == Live(Some(k)) {
        assert Holds(w', t, k);
      } else if i != t {
        assert Holds(w', i, k);
      } else if Shared(w, t, k) {
        var l: nat :| l != t && Holds(w, l, k);
        assert Holds(w', l, k);
      }
  }

  /** Reading and destroying leave no file behind, and change nothing about those already left. */
  lemma ThroughOrphans(c: Config, w: World, op: Op, k: nat, l: nat, bodies: seq<seq<Byte>>, files: Files)
    requires Sound(c, w, bodies, files) && Through(w, op, k) && l < |w.records|
    ensures Orphan(Perform(c, w, op).0, l) <==> Orphan(w, l)
  {
    var w' := Perform(c, w, op).0;
    assert Holds(w, op.i, k) && Held(w, k);
    ThroughTouches(c, w, op, k, bodies, files);
    if l == k {
      if op.Destroy? {
        DestroyTouches(c, w, op.i, bodies, files);
      } else {
        assert w'.handlers == w.handlers;
        assert Holds(w', op.i, k);
      }
    } else {
      ThroughOthers(c, w, op, k, l);
      assert NameOf(c, w.records[l]) != NameOf(c, w.records[k]);
    }
  }

  /** Who has other records stays the same. */
  lemma ThroughOthers(c: Config, w: World, op: Op, k: nat, l: nat)
    requires Through(w, op, k) && l != k
    ensures Held(Perform(c, w, op).0, l) <==> Held(w, l)
  {
    var w' := Perform(c, w, op).0;
    if i: nat :| Holds(w, i, l) { assert Holds(w', i, l); }
    if i: nat :| Holds(w', i, l) { assert Holds(w, i, l); }
  }

  lemma DestroyEmptyOrphans(c: Config, w: World, i: nat, l: nat)
    requires Alive(w, i) && w.handlers[i].record.None?
    ensures Orphan(Perform(c, w, Destroy(i)).0, l) <==> Orphan(w, l)
  {
    var w' := Perform(c, w, Destroy(i)).0;
    if j: nat :| Holds(w, j, l) { assert Holds(w', j, l); }
    if j: nat :| Holds(w', j, l) { assert Holds(w, j, l); }
  }

  /** A file is left behind by exactly one kind of operation: an assignment to the last handler of a record whose
      file is there, of another record or none. What is left behind stays so. */
  lemma LeavesBehindIff(c: Config, w: World, op: Op, k: nat, bodies: seq<seq<Byte>>, files: Files)
    requires Sound(c, w, bodies, files) && k < |w.records|
    ensures Orphan(Perform(c, w, op).0, k) <==> Orphan(w, k) || Overwrites(w, op, k)
  {
    if Possible(w, op) {
      if Rewires(op) {
        RewireSound(c, w, op, bodies, files);
        RewireOrphans(c, w, op, k);
        assert Holds(w, op.source, k) ==> Held(w, k);
        if op.AssignCopy? || op.AssignMove? { assert Holds(w, op.i, k) ==> Held(w, k); }
      } else {
        OpCases(c, w, op, bodies, files);
        if w.handlers[op.i].record.None? {
          DestroyEmptyOrphans(c, w, op.i, k);
        } else {
          ThroughOrphans(c, w, op, w.handlers[op.i].record.value, k, bodies, files);
        }
      }
    }
  }

  /** Where records are intact, that is an assignment to the last handler of a record that has a file name. */
  lemma OverwritesIff(c: Config, w: World, op: Op, k: nat, bodies: seq<seq<Byte>>, files: Files)
    requires Sound(c, w, bodies, files) && HeldIntact(w, bodies) && Possible(w, op)
    requires (op.AssignCopy? || op.AssignMove?) && k < |w.records|
    ensures Overwrites(w, op, k) <==>
              Holds(w, op.i, k) && w.records[k].filename != "" && !Shared(w, op.i, k)
              && w.handlers[op.source] != Live(Some(k))
  {
    if Holds(w, op.i, k) {
      assert Intact(w.records[k], w.files, bodies[k]);
    }
  }

  ghost predicate LeftAt(c: Config, w: World, ops: seq<Op>, n: nat, k: nat) {
    n < |ops| && Overwrites(Before(c, w, ops, n), ops[n], k)
  }

  /** Some operation of the run left the file of record `k` behind. */
  ghost predicate LeftBehind(c: Config, w: World, ops: seq<Op>, k: nat) {
    exists n: nat :: LeftAt(c, w, ops, n, k)
  }

  lemma {:induction false} RunLeavesBehind(c: Config, w: World, ops: seq<Op>, k: nat, bodies: seq<seq<Byte>>,
      files: Files)
    requires Sound(c, w, bodies, files) && k < |w.records| && !Orphan(w, k)
    ensures Orphan(PerformAll(c, w, ops), k) <==> LeftBehind(c, w, ops, k)
    decreases |ops|
  {
    if ops != [] {
      var m := |ops| - 1;
      var front := ops[..m];
      RunLeavesBehind(c, w, front, k, bodies, files);
      RunSound(c, w, front, bodies, files);
      LeavesBehindIff(c, PerformAll(c, w, front), ops[m], k, bodies, files);
      LeftBehindSnoc(c, w, ops, k);
    }
  }

  lemma LeftBehindSnoc(c: Config, w: World, ops: seq<Op>, k: nat)
    requires ops != []
    ensures var m := |ops| - 1;
            LeftBehind(c, w, ops, k) <==>
              LeftBehind(c, w, ops[..m], k) || Overwrites(PerformAll(c, w, ops[..m]), ops[m], k)
  {
    var m := |ops| - 1;
    if n: nat :| LeftAt(c, w, ops[..m], n, k) {
      LeftAtFront(c, w, ops, n, k);
    }
    if n: nat :| LeftAt(c, w, ops, n, k) {
      if n < m { LeftAtFront(c, w, ops, n, k); }
    }
    if Overwrites(PerformAll(c, w, ops[..m]), ops[m], k) {
      assert LeftAt(c, w, ops, m, k);
    }
  }

  lemma LeftAtFront(c: Config, w: World, ops: seq<Op>, n: nat, k: nat)
    requires n + 1 < |ops|
    ensures LeftAt(c, w, ops[..|ops| - 1], n, k) <==> LeftAt(c, w, ops, n, k)
  {
    assert ops[..|ops| - 1][..n] == ops[..n];
  }

  /** No file left over from before. */
  ghost predicate NoOrphans(w: World) {
    forall k | 0 <= k < |w.records| :: !Orphan(w, k)
  }

  ghost predicate AllGone(w: World) {
    forall i | 0 <= i < |w.handlers| :: w.handlers[i].Gone?
  }

  /** Once every handler is destroyed, exactly the files that an assignment left behind are still there, whatever the
      order of reads, copies, moves, assignments and destructions, early ones included. */
  lemma FilesLeft(c: Config, w: World, ops: seq<Op>, k: nat, bodies: seq<seq<Byte>>, files: Files)
    requires Sound(c, w, bodies, files) && NoOrphans(w) && AllGone(PerformAll(c, w, ops)) && k < |w.records|
    ensures NameOf(c, w.records[k]) in PerformAll(c, w, ops).files <==> LeftBehind(c, w, ops, k)
  {
    var end := PerformAll(c, w, ops);
    RunSound(c, w, ops, bodies, files);
    RandomsStay(c, w, ops);
    RunLeavesBehind(c, w, ops, k, bodies, files);
    assert !Held(end, k);
    var name := NameOf(c, w.records[k]);
    if name in end.files {
      assert OwnedName(end, name);
      var l :| 0 <= l < |end.records| && end.records[l].filename == name;
      assert RecordOk(c, end.records[l], end.files, bodies[l]);
      assert NameOf(c, end.records[l]) == NameOf(c, end.records[k]);
      assert l == k;
    }
  }

  /** A file that should not be there is one left behind. */
  lemma StrayIsLeft(c: Config, w: World, ops: seq<Op>, name: string, bodies: seq<seq<Byte>>, files: Files)
    requires Sound(c, w, bodies, files) && NoOrphans(w) && AllGone(PerformAll(c, w, ops))
    requires name in PerformAll(c, w, ops).files && name !in files
    ensures exists k :: 0 <= k < |w.records| && LeftBehind(c, w, ops, k)
  {
    var end := PerformAll(c, w, ops);
    RunSound(c, w, ops, bodies, files);
    RandomsStay(c, w, ops);
    assert OwnedName(end, name);
    var k :| 0 <= k < |end.records| && end.records[k].filename == name;
    assert RecordOk(c, end.records[k], end.files, bodies[k]);
    FilesLeft(c, w, ops, k, bodies, files);
  }

  /** So the file system is as it was before if and only if no assignment overwrote the last handler of a record with
      a file. */
  lemma NothingLeftBehindIff(c: Config, w: World, ops: seq<Op>, bodies: seq<seq<Byte>>, files: Files)
    requires Sound(c, w, bodies, files) && NoOrphans(w) && AllGone(PerformAll(c, w, ops))
    ensures PerformAll(c, w, ops).files == files <==> forall k | 0 <= k < |w.records| :: !LeftBehind(c, w, ops, k)
  {
    var end := PerformAll(c, w, ops);
    RunSound(c, w, ops, bodies, files);
    forall k | 0 <= k < |w.records|
      ensures NameOf(c, w.records[k]) in end.files <==> LeftBehind(c, w, ops, k)
      ensures NameOf(c, w.records[k]) !in files
    {
      FilesLeft(c, w, ops, k, bodies, files);
    }
    forall name | name in end.files && name !in files
      ensures exists k :: 0 <= k < |w.records| && LeftBehind(c, w, ops, k)
    {
      StrayIsLeft(c, w, ops, name, bodies, files);
    }
  }

  /** Destroying one of several handlers of a record keeps all later reads right exactly when the record has no file
      yet: otherwise the file goes, and the next file-name read names a file that is not there. */
  lemma EarlyDestroyIsSafeIffNoFile(c: Config, w: World, i: nat, j: nat, k: nat, bodies: seq<seq<Byte>>, files: Files)
    requires Sound(c, w, bodies, files) && HeldIntact(w, bodies)
    requires i != j && Holds(w, i, k) && Holds(w, j, k)
    ensures var after := Perform(c, w, Destroy(i)).0;
            (forall ops: seq<Op>, n: nat | n < |ops| && NoEarlyDestroy(c, after, ops) ::
               AnswerOk(Before(c, after, ops, n), ops[n], AnswerTo(c, after, ops, n), bodies))
            <==> w.records[k].filename == ""
  {
    var after := Perform(c, w, Destroy(i)).0;
    DestroyTouches(c, w, i, bodies, files);
    PerformSound(c, w, Destroy(i), bodies, files);
    if w.records[k].filename == "" {
      PerformIntact(c, w, Destroy(i), bodies, files);
      forall ops: seq<Op>, n: nat | n < |ops| && NoEarlyDestroy(c, after, ops)
        ensures AnswerOk(Before(c, after, ops, n), ops[n], AnswerTo(c, after, ops, n), bodies)
      {
        EveryReadIsFaithful(c, after, ops, n, bodies, files);
      }
    } else {
      MissingFileIsNamed(c, after, j, k, bodies, files);
    }
  }

  /** A record whose file is gone still answers its name. */
  lemma MissingFileIsNamed(c: Config, w: World, j: nat, k: nat, bodies: seq<seq<Byte>>, files: Files)
    requires Sound(c, w, bodies, files) && Holds(w, j, k)
    requires w.records[k].filename != "" && w.records[k].filename !in w.files
    ensures var ops := [AsFilename(j)];
            NoEarlyDestroy(c, w, ops) && AnswerTo(c, w, ops, 0) == Name(w.records[k].filename, None)
            && !AnswerOk(Before(c, w, ops, 0), ops[0], AnswerTo(c, w, ops, 0), bodies)
  {
    var ops := [AsFilename(j)];
    assert ops[..0] == [] && Before(c, w, ops, 0) == w;
    assert RecordOk(c, w.records[k], w.files, bodies[k]);
  }

  /** Read as a string, it fails once; the record then counts as being in memory, and from there on answers with
      whatever memory holds. */
  lemma MissingFileRead(c: Config, w: World, j: nat, k: nat, bodies: seq<seq<Byte>>, files: Files)
    requires Sound(c, w, bodies, files) && Holds(w, j, k) && w.records[k].mode == File
    requires w.records[k].filename !in w.files
    ensures var ops := [AsString(j), AsString(j)];
            AnswerTo(c, w, ops, 0) == Bytes(Err(FileMissing))
            && AnswerTo(c, w, ops, 1) == Bytes(Ok(w.records[k].buffer))
  {
    var ops := [AsString(j), AsString(j)];
    assert ops[..0] == [] && Before(c, w, ops, 0) == w;
    BeforeNext(c, w, ops, 0);
  }

  // ----- from the first chunk on -----

  /** A world after one more request whose body arrived in these chunks. A refused body leaves no handler. */
  function Accept(c: Config, w: World, chunks: seq<seq<Byte>>, random: string): World {
    var (st, failure) := Feed(c, Start(w.files), chunks, random);
    if failure.Some? then w
    else AddRecord(w, st, random)
  }

  /** The random part is new: no file has a name with it, and no other request has drawn it. */
  ghost predicate NewRandom(c: Config, w: World, files: Files, random: string) {
    FreshNames(c, w.files, random) && FreshNames(c, files, random)
    && forall k | 0 <= k < |w.records| :: random != w.records[k].random
  }

  /** The world with the record of a body just received. */
  function AddRecord(w: World, st: Store, random: string): World {
    World(w.handlers + [Live(Some(|w.records|))],
          w.records + [Record(st.mode, st.buffer, st.filename, st.open, st.counter, random)], st.files)
  }

  lemma NewRandomNewName(c: Config, w: World, files: Files, random: string)
    requires NewRandom(c, w, files, random)
    ensures forall k | 0 <= k < |w.records| :: GenName(c, 0, random) != NameOf(c, w.records[k])
  {
    forall k | 0 <= k < |w.records| ensures GenName(c, 0, random) != NameOf(c, w.records[k]) {
      NamesAreDistinct(c, 0, random, 0, w.records[k].random);
    }
  }

  lemma AddRecordSound(c: Config, w: World, st: Store, random: string, body: seq<Byte>, bodies: seq<seq<Byte>>,
                       files: Files)
    requires Sound(c, w, bodies, files) && NewRandom(c, w, files, random)
    requires Receiving(c, st, body, w.files) && Named(c, st, random)
    ensures Sound(c, AddRecord(w, st, random), bodies + [body], files)
  {
    var w' := AddRecord(w, st, random);
    NewRandomNewName(c, w, files, random);
    assert forall name | name in w.files :: name in st.files && st.files[name] == w.files[name];
    forall i: nat, k: nat | Holds(w', i, k) ensures k < |w'.records| {
      if i < |w.handlers| { assert Holds(w, i, k); }
    }
    forall k | 0 <= k < |w'.records|
      ensures RecordOk(c, w'.records[k], w'.files, (bodies + [body])[k]) && NameOf(c, w'.records[k]) !in files
    {
      if k < |w.records| { assert RecordOk(c, w.records[k], w.files, bodies[k]); }
    }
    forall name | name in w'.files ensures name in files || OwnedName(w', name) {
      if name in w.files {
        if name !in files {
          assert OwnedName(w, name);
          var l :| 0 <= l < |w.records| && w.records[l].filename == name;
          assert w'.records[l].filename == name;
        }
      } else {
        assert w'.records[|w.records|].filename == name;
      }
    }
  }

  lemma AddRecordIntact(c: Config, w: World, st: Store, random: string, body: seq<Byte>, bodies: seq<seq<Byte>>,
                        files: Files)
    requires Sound(c, w, bodies, files) && HeldIntact(w, bodies) && NoOrphans(w) && NewRandom(c, w, files, random)
    requires Receiving(c, st, body, w.files) && Named(c, st, random)
    ensures HeldIntact(AddRecord(w, st, random), bodies + [body]) && NoOrphans(AddRecord(w, st, random))
  {
    var w' := AddRecord(w, st, random);
    NewRandomNewName(c, w, files, random);
    forall i: nat, k: nat | Holds(w', i, k) && k < |w'.records|
      ensures Intact(w'.records[k], w'.files, (bodies + [body])[k])
    {
      if i < |w.handlers| { assert Holds(w, i, k); }
    }
    forall k | 0 <= k < |w'.records| ensures !Orphan(w', k) {
      if k < |w.records| {
        assert RecordOk(c, w.records[k], w.files, bodies[k]);
        assert !Orphan(w, k);
        if i: nat :| Holds(w, i, k) { assert Holds(w', i, k); }
      } else {
        assert Holds(w', |w.handlers|, k);
      }
    }
  }

  /** In order, with nothing lost and nothing left over. */
  ghost predicate Ready(c: Config, w: World, bodies: seq<seq<Byte>>, files: Files) {
    Sound(c, w, bodies, files) && HeldIntact(w, bodies) && NoOrphans(w)
  }

  lemma AcceptReady(c: Config, w: World, chunks: seq<seq<Byte>>, random: string, bodies: seq<seq<Byte>>, files: Files)
    requires Ready(c, w, bodies, files) && NewRandom(c, w, files, random)
    ensures Ready(c, Accept(c, w, chunks, random), bodies + Accepted(c, w, chunks, random), files)
  {
    if Feed(c, Start(w.files), chunks, random).1.None? {
      AcceptedReady(c, w, chunks, random, bodies, files);
    } else {
      assert bodies + [] == bodies;
    }
  }

  /** The body, if it is not refused. */
  function Accepted(c: Config, w: World, chunks: seq<seq<Byte>>, random: string): seq<seq<Byte>> {
    if Feed(c, Start(w.files), chunks, random).1.Some? then [] else [Concat(chunks)]
  }

  lemma AcceptedReady(c: Config, w: World, chunks: seq<seq<Byte>>, random: string, bodies: seq<seq<Byte>>, files: Files)
    requires Ready(c, w, bodies, files) && NewRandom(c, w, files, random)
    requires Feed(c, Start(w.files), chunks, random).1.None?
    ensures Ready(c, Accept(c, w, chunks, random), bodies + [Concat(chunks)], files)
  {
    var st := Feed(c, Start(w.files), chunks, random).0;
    FeedAccumulates(c, Start(w.files), [], w.files, chunks, random);
    assert [] + Concat(chunks) == Concat(chunks);
    FeedNames(c, Start(w.files), chunks, random);
    AddRecordSound(c, w, st, random, Concat(chunks), bodies, files);
    AddRecordIntact(c, w, st, random, Concat(chunks), bodies, files);
  }

  /** One request body, as it arrived. */
  datatype Arrival = Arrival(chunks: seq<seq<Byte>>, random: string)

  function AcceptAll(c: Config, files: Files, arrivals: seq<Arrival>): World
    decreases |arrivals|
  {
    if arrivals == [] then World([], [], files)
    else
      var last := arrivals[|arrivals| - 1];
      Accept(c, AcceptAll(c, files, arrivals[..|arrivals| - 1]), last.chunks, last.random)
  }

  /** The bodies that were not refused. */
  function Bodies(c: Config, files: Files, arrivals: seq<Arrival>): seq<seq<Byte>>
    decreases |arrivals|
  {
    if arrivals == [] then []
    else
      var front, last := arrivals[..|arrivals| - 1], arrivals[|arrivals| - 1];
      Bodies(c, files, front) + Accepted(c, AcceptAll(c, files, front), last.chunks, last.random)
  }

  /** The random part of each name is new when its body arrives. */
  ghost predicate NewRandoms(c: Config, files: Files, arrivals: seq<Arrival>)
    decreases |arrivals|
  {
    arrivals == [] ||
    (var front, last := arrivals[..|arrivals| - 1], arrivals[|arrivals| - 1];
     NewRandoms(c, files, front) && NewRandom(c, AcceptAll(c, files, front), files, last.random))
  }

  /** Any number of received bodies start out in order. */
  lemma {:induction false} AcceptAllReady(c: Config, files: Files, arrivals: seq<Arrival>)
    requires NewRandoms(c, files, arrivals)
    ensures Ready(c, AcceptAll(c, files, arrivals), Bodies(c, files, arrivals), files)
    decreases |arrivals|
  {
    if arrivals != [] {
      var m := |arrivals| - 1;
      var front, last := arrivals[..m], arrivals[m];
      AcceptAllReady(c, files, front);
      AcceptReady(c, AcceptAll(c, files, front), last.chunks, last.random, Bodies(c, files, front), files);
    }
  }

  /** From the first chunk to the last read: any bodies that were accepted, read back in any way and in any order, are
      the concatenations of their chunks. */
  lemma BodiesRoundTrip(c: Config, files: Files, arrivals: seq<Arrival>, ops: seq<Op>, n: nat)
    requires NewRandoms(c, files, arrivals) && NoEarlyDestroy(c, AcceptAll(c, files, arrivals), ops) && n < |ops|
    ensures var w := AcceptAll(c, files, arrivals);
            AnswerOk(Before(c, w, ops, n), ops[n], AnswerTo(c, w, ops, n), Bodies(c, files, arrivals))
  {
    AcceptAllReady(c, files, arrivals);
    EveryReadIsFaithful(c, AcceptAll(c, files, arrivals), ops, n, Bodies(c, files, arrivals), files);
  }
}
