/** The payload handler as the server has it: shared records changed in place, over a file system. */
module PayloadHandler {
  import opened Common
  import opened PayloadStore
  import Sharing = PayloadSharing

  class FileSystem {
    var files: Files

    constructor (files: Files)
      ensures this.files == files
    {
      this.files := files;
    }

    /** Opens a file for writing: created, or emptied. */
    method Create(name: string)
      modifies this
      ensures files == old(files)[name := []]
    {
      files := files[name := []];
    }

    method WriteAll(name: string, bytes: seq<Byte>)
      modifies this
      ensures files == Appended(old(files), name, bytes)
    {
      files := files[name := (if name in files then files[name] else []) + bytes];
    }

    method Remove(name: string)
      modifies this
      ensures files == old(files) - {name}
    {
      files := files - {name};
    }
  }

  /** `payload_data`. `random` is what its generator answers when a file name is needed. */
  class PayloadData {
    const conf: Config
    const fs: FileSystem
    const random: string
    var counter: nat
    var buffer: seq<Byte>
    var filename: string
    var file: bool
    var state: Mode

    constructor (conf: Config, fs: FileSystem, random: string)
      ensures this.conf == conf && this.fs == fs && this.random == random && View() == Start(fs.files)
    {
      this.conf := conf;
      this.fs := fs;
      this.random := random;
      counter := 0;
      buffer := [];
      filename := "";
      file := false;
      state := Memory;
    }

    ghost function View(): Store
      reads this, fs
    {
      Store(state, buffer, filename, file, counter, fs.files)
    }

    ghost function Record(): Sharing.Record
      reads this
    {
      Sharing.Record(state, buffer, filename, file, counter, random)
    }

    method GenFilename() returns (name: string)
      modifies this`counter
      ensures name == GenName(conf, old(counter), random) && counter == old(counter) + 1
    {
      name := GenName(conf, counter, random);
      counter := counter + 1;
    }
  }

  /** `request_payload_handler`. A handler that was moved from has no data. */
  class Handler {
    var data: PayloadData?

    constructor (conf: Config, fs: FileSystem, random: string)
      ensures data != null && fresh(data) && data.conf == conf && data.fs == fs && data.random == random
      ensures data.View() == Start(fs.files)
    {
      data := new PayloadData(conf, fs, random);
    }

    constructor Copy(other: Handler)
      ensures data == other.data
    {
      data := other.data;
    }

    constructor Move(other: Handler)
      modifies other
      ensures data == old(other.data) && other.data == null
    {
      data := other.data;
      new;
      other.data := null;
    }

    /** Copy assignment. The record held until now is let go, and its file with it. */
    method AssignCopy(other: Handler)
      modifies this
      ensures data == old(other.data)
    {
      data := other.data;
    }

    /** Move assignment, which takes the pointer out of the other handler first, so that moving to itself is safe. */
    method AssignMove(other: Handler)
      modifies this, other
      ensures data == old(other.data) && (other != this ==> other.data == null)
    {
      var taken := other.data;
      other.data := null;
      data := taken;
    }

    /** The destructor. */
    method Destroy()
      modifies data, if data != null then {data.fs} else {}
      ensures data != null ==> data.View() == Drop(old(data.View()))
    {
      if data != null && data.filename != "" {
        data.file := false;
        data.fs.Remove(data.filename);
      }
    }

    /** `operator()`: the next chunk of the body. */
    method Receive(chunk: seq<Byte>) returns (failure: Option<Failure>)
      requires data != null
      modifies data, data.fs
      ensures (data.View(), failure) == PayloadStore.Receive(data.conf, old(data.View()), chunk, data.random)
    {
      if data.state == Memory {
        if |data.buffer| + |chunk| < data.conf.limit {
          data.buffer := data.buffer + chunk;
          return None;
        } else if data.conf.tmpDir == "" {
          return Some(LimitExceeded);
        } else {
          data.state := File;
          data.filename := data.GenFilename();
          data.fs.Create(data.filename);
          data.file := true;
          if data.buffer != [] {
            data.fs.WriteAll(data.filename, data.buffer);
            assert [] + data.buffer == data.buffer;
            data.buffer := [];
          }
          assert data.View() == Spill(data.conf, old(data.View()), data.random);
        }
      }
      if data.file {
        data.fs.WriteAll(data.filename, chunk);
        failure := None;
      } else {
        failure := Some(WriterClosed);
      }
    }

    /** `get_data_as_string`. */
    method GetDataAsString() returns (result: Result<seq<Byte>, Failure>)
      requires data != null
      modifies data
      ensures (data.View(), result) == ReadString(old(data.View()))
    {
      data.file := false;
      if data.state == File {
        data.state := Memory;
        if data.filename !in data.fs.files {
          return Err(FileMissing);
        }
        data.buffer := data.fs.files[data.filename];
      }
      result := Ok(data.buffer);
    }

    /** `get_data_as_filename`. */
    method GetDataAsFilename() returns (name: string)
      requires data != null
      modifies data, data.fs
      ensures (data.View(), name) == ReadFilename(data.conf, old(data.View()), data.random)
    {
      data.file := false;
      if data.state == Memory {
        data.state := File;
        if data.filename == "" {
          data.filename := data.GenFilename();
          data.fs.Create(data.filename);
          data.fs.WriteAll(data.filename, data.buffer);
          assert [] + data.buffer == data.buffer;
          assert data.fs.files == old(data.fs.files)[data.filename := data.buffer];
        }
      }
      name := data.filename;
    }
  }

  /** A body arriving chunk by chunk, up to the first failure. Unless refused, its bytes are what the handler holds. */
  method ReceiveBody(handler: Handler, chunks: seq<seq<Byte>>) returns (failure: Option<Failure>)
    requires handler.data != null && handler.data.View() == Start(handler.data.fs.files)
    requires FreshNames(handler.data.conf, handler.data.fs.files, handler.data.random)
    modifies handler.data, handler.data.fs
    ensures failure.None? ==>
              Receiving(handler.data.conf, handler.data.View(), Concat(chunks), old(handler.data.fs.files))
    ensures failure.Some? ==> handler.data.fs.files == old(handler.data.fs.files)
    ensures failure.Some? <==>
              handler.data.conf.tmpDir == "" && chunks != [] && |Concat(chunks)| >= handler.data.conf.limit
  {
    ghost var before := handler.data.fs.files;
    ghost var c, random := handler.data.conf, handler.data.random;
    failure := None;
    var i := 0;
    assert chunks[0..] == chunks;
    while i < |chunks| && failure.None?
      invariant i <= |chunks|
      invariant Feed(c, Start(before), chunks, random) ==
                if failure.Some? then (handler.data.View(), failure)
                else Feed(c, handler.data.View(), chunks[i..], random)
      decreases |chunks| - i
    {
      assert chunks[i..][0] == chunks[i] && chunks[i..][1..] == chunks[i + 1..];
      failure := handler.Receive(chunks[i]);
      i := i + 1;
    }
    FeedAccumulates(c, Start(before), [], before, chunks, random);
    assert [] + Concat(chunks) == Concat(chunks);
  }

  // ----- any operations on any number of handlers -----

  /** The handler of a slot. */
  ghost predicate SlotOk(slot: Sharing.Slot, h: Handler?, datas: seq<PayloadData>)
    reads h
  {
    if h == null then slot.Gone?
    else slot.Live? && match slot.record
                       case None => h.data == null
                       case Some(k) => k < |datas| && h.data == datas[k]
  }

  /** These objects are in the state of world `w`; a destroyed handler is null. */
  ghost predicate Represents(c: Config, w: Sharing.World, handlers: seq<Handler?>, datas: seq<PayloadData>,
      fs: FileSystem)
    reads handlers, datas, fs
  {
    && |w.handlers| == |handlers| && |w.records| == |datas| && w.files == fs.files
    && (forall i | 0 <= i < |handlers| :: SlotOk(w.handlers[i], handlers[i], datas))
    && (forall i, j | 0 <= i < j < |handlers| :: handlers[i] == null || handlers[i] != handlers[j])
    && (forall k | 0 <= k < |datas| ::
          datas[k].conf == c && datas[k].fs == fs && datas[k].Record() == w.records[k])
    && (forall k, l | 0 <= k < l < |datas| :: datas[k] != datas[l])
  }

  /** A read through handler `i`. */
  method Read(ghost c: Config, ghost w: Sharing.World, handlers: seq<Handler?>, ghost datas: seq<PayloadData>,
      fs: FileSystem, op: Sharing.Op) returns (answer: Sharing.Answer)
    requires Represents(c, w, handlers, datas, fs) && Sharing.Possible(w, op) && (op.AsString? || op.AsFilename?)
    modifies datas, fs
    ensures Represents(c, Sharing.Perform(c, w, op).0, handlers, datas, fs)
    ensures answer == Sharing.Perform(c, w, op).1
  {
    var h := handlers[op.i];
    if op.AsString? {
      var result := h.GetDataAsString();
      answer := Sharing.Bytes(result);
    } else {
      var name := h.GetDataAsFilename();
      answer := Sharing.Name(name, if name in fs.files then Some(fs.files[name]) else None);
    }
  }

  /** The destructor of handler `op.i`, after which it is gone. */
  method DestroyOne(ghost c: Config, ghost w: Sharing.World, handlers: seq<Handler?>, ghost datas: seq<PayloadData>,
      ghost fs: FileSystem, op: Sharing.Op) returns (handlers': seq<Handler?>)
    requires Represents(c, w, handlers, datas, fs) && Sharing.Possible(w, op) && op.Destroy?
    modifies datas, fs
    ensures Represents(c, Sharing.Perform(c, w, op).0, handlers', datas, fs)
    ensures forall h | h in handlers' :: h == null || h in handlers
  {
    var h := handlers[op.i];
    assert SlotOk(w.handlers[op.i], h, datas);
    h.Destroy();
    handlers' := handlers[op.i := null];
  }

  /** A copy, a move or an assignment. */
  method Rewire(ghost c: Config, ghost w: Sharing.World, handlers: seq<Handler?>, ghost owned: set<Handler>,
      ghost datas: seq<PayloadData>, ghost fs: FileSystem, op: Sharing.Op) returns (handlers': seq<Handler?>)
    requires Represents(c, w, handlers, datas, fs) && Sharing.Possible(w, op) && Sharing.Rewires(op)
    requires forall h | h in handlers :: h == null || h in owned
    modifies owned
    ensures Represents(c, Sharing.Perform(c, w, op).0, handlers', datas, fs)
    ensures forall h | h in handlers' :: h in handlers || fresh(h)
  {
    var source := handlers[op.source];
    assert SlotOk(w.handlers[op.source], source, datas);
    handlers' := handlers;
    if op.Copy? {
      var h := new Handler.Copy(source);
      handlers' := handlers + [h];
    } else if op.Move? {
      var h := new Handler.Move(source);
      handlers' := handlers + [h];
    } else {
      var h := handlers[op.i];
      assert SlotOk(w.handlers[op.i], h, datas);
      if op.AssignCopy? {
        h.AssignCopy(source);
      } else {
        h.AssignMove(source);
      }
    }
  }

  /** Any one operation. `owned` are the handlers that may be used. */
  method PerformOne(ghost c: Config, ghost w: Sharing.World, handlers: seq<Handler?>, ghost owned: set<Handler>,
      ghost datas: seq<PayloadData>, fs: FileSystem, op: Sharing.Op)
      returns (handlers': seq<Handler?>, answer: Sharing.Answer)
    requires Represents(c, w, handlers, datas, fs) && Sharing.Possible(w, op)
    requires forall h | h in handlers :: h == null || h in owned
    modifies owned, datas, fs
    ensures Represents(c, Sharing.Perform(c, w, op).0, handlers', datas, fs)
    ensures answer == Sharing.Perform(c, w, op).1
    ensures forall h | h in handlers' :: h == null || h in owned || fresh(h)
  {
    handlers', answer := handlers, Sharing.NoAnswer;
    if op.AsString? || op.AsFilename? {
      answer := Read(c, w, handlers, datas, fs, op);
    } else if op.Destroy? {
      handlers' := DestroyOne(c, w, handlers, datas, fs, op);
    } else {
      handlers' := Rewire(c, w, handlers, owned, datas, fs, op);
    }
  }

  /** Any operations on any number of handlers over any number of records, in any order: the answers, the handlers,
      their records and the file system are those of `PayloadSharing.PerformAll`. */
  method PerformOps(ghost c: Config, ghost w: Sharing.World, start: seq<Handler?>, ghost datas: seq<PayloadData>,
      fs: FileSystem, ops: seq<Sharing.Op>) returns (handlers: seq<Handler?>, answers: seq<Sharing.Answer>)
    requires Represents(c, w, start, datas, fs)
    requires forall n | 0 <= n < |ops| :: Sharing.Possible(Sharing.Before(c, w, ops, n), ops[n])
    modifies start, datas, fs
    ensures Represents(c, Sharing.PerformAll(c, w, ops), handlers, datas, fs)
    ensures |answers| == |ops| && forall n | 0 <= n < |ops| :: answers[n] == Sharing.AnswerTo(c, w, ops, n)
  {
    handlers, answers := start, [];
    ghost var now := w;
    for n := 0 to |ops|
      invariant now == Sharing.Before(c, w, ops, n) && Represents(c, now, handlers, datas, fs)
      invariant |answers| == n && AnsweredSoFar(c, w, ops, answers)
      invariant forall h | h in handlers :: h == null || h in start || fresh(h)
    {
      Sharing.BeforeNext(c, w, ops, n);
      ghost var owned := set h: Handler | h in handlers;
      var answer;
      handlers, answer := PerformOne(c, now, handlers, owned, datas, fs, ops[n]);
      AnsweredNext(c, w, ops, answers, answer);
      answers := answers + [answer];
      now := Sharing.Perform(c, now, ops[n]).0;
    }
    assert ops[..|ops|] == ops;
  }

  /** These are the answers to the first operations. */
  ghost predicate AnsweredSoFar(c: Config, w: Sharing.World, ops: seq<Sharing.Op>, answers: seq<Sharing.Answer>) {
    |answers| <= |ops| && forall n | 0 <= n < |answers| :: answers[n] == Sharing.AnswerTo(c, w, ops, n)
  }

  lemma AnsweredNext(c: Config, w: Sharing.World, ops: seq<Sharing.Op>, answers: seq<Sharing.Answer>,
                     answer: Sharing.Answer)
    requires |answers| < |ops| && AnsweredSoFar(c, w, ops, answers)
    requires answer == Sharing.AnswerTo(c, w, ops, |answers|)
    ensures AnsweredSoFar(c, w, ops, answers + [answer])
  {
  }
}
