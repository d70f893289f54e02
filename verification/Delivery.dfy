/** A request answered with a file: the call, the sender that streams it, and the removal of a temporary file. */
module Delivery {
  import opened Common
  import opened Chunking
  import opened StreamSender
  import Core = RequestCore
  import Life = TokenLife
  import P = Protocol
  import PI = ProtocolInvariant
  import R = Request

  /** What a run of a sender leaves on the wire when `k` writes succeeded: the whole content, or a prefix of it and a
      connection marked for closing. */
  ghost predicate OnWire(w: ChunkWriter, content: seq<Byte>, k: nat)
    reads w
  {
    if k == FullChunks(content) then Concat(w.wire) == content && w.isFinal && !w.closeConnection
    else Concat(w.wire) + w.partial <= content && !w.isFinal && w.closeConnection
  }

  /** Streams `content` through a writer nobody has used yet. */
  method StreamOut(w: ChunkWriter, content: seq<Byte>, finalizer: Finalizer, fails: nat -> bool, other: nat -> Byte)
    requires w.Idle() && w.wire == [] && !w.isFinal && !w.closeConnection
    requires finalizer.calls == [] && finalizer.moments == []
    modifies w, finalizer
    ensures OnWire(w, content, FirstFailure(fails, FullChunks(content)))
    ensures exists moment :: ToldOnce(finalizer, moment, old(finalizer.files))
              && moment.success == (moment.chunksOut == FullChunks(content))
              && moment.chunksOut == FirstFailure(fails, FullChunks(content))
              && (moment.success ==> moment.unread == 0)
  {
    var sender := new ResponseStreamSender(w, content, finalizer);
    Run(sender, fails, other);
    ChunksAreContent(content);
    ghost var k := FirstFailure(fails, FullChunks(content));
    if k < FullChunks(content) {
      PrefixOnWire(content, k, w.partial);
    }
  }

  /** `send_file` by itself. */
  lemma SendFileAlone(o: Core.Obj, path: string, opens: bool)
    ensures var r := Core.RunCall(o, Core.SendFile(path, opens));
            r.Outcome? ==>
              |r.replies| == 1
              && (r.replies[0].None? <==> o.kind == Core.Http && opens && o.state == Core.Created)
              && r.acts == (if r.replies[0].None? then [Core.Stream(path)] else [])
    ensures forall t: Core.Transport :: Core.DeliverAll(t, [Core.Stream(path)]) == Core.Deliver(t, Core.Stream(path))
  {
    assert [Core.Stream(path)][1..] == [];
  }

  /** `request_send_temp_file`. `chunks` is the request's response writer as the sender uses it. Unless the call is
      refused, the token is moved to a sender, the file goes on the wire, or a prefix of it, and is removed: once,
      and not before it has been read to its end or a write has failed. If the call is refused the file stays. */
  method SendTempFile(request: R.Request, chunks: ChunkWriter, files: Files, path: string, fails: nat -> bool,
      other: nat -> Byte) returns (error: Option<Core.Error>, files': Files, ghost moments: seq<Moment>)
    requires request.Valid()
    requires chunks.Idle() && chunks.wire == [] && !chunks.isFinal && !chunks.closeConnection
    modifies request, request.resp, request.ws, chunks
    ensures request.Performed(Core.SendFile(path, path in files), old(request.Token()), error)
    ensures error.None? <==> old(request.View()).kind == Core.Http && path in files
                             && old(request.View()).state == Core.Created
    ensures error.Some? ==> files' == files && moments == [] && chunks.wire == []
    ensures error.None? ==> files' == files - {path} && |moments| == 1
                            && old(request.Token()).View()
                               == Core.Deliver(old(request.Token().View()), Core.Stream(path))
    ensures error.None? ==>
              var k := FirstFailure(fails, FullChunks(files[path]));
              OnWire(chunks, files[path], k) && moments[0].chunksOut == k
              && moments[0].success == (k == FullChunks(files[path])) && (moments[0].success ==> moments[0].unread == 0)
  {
    moments := [];
    files' := files;
    ghost var before := request.View();
    error := request.SendFile(path, path in files);
    SendFileAlone(before, path, path in files);
    if error.None? {
      var finalizer := new Finalizer(files, Some(path));
      StreamOut(chunks, files[path], finalizer, fails, other);
      files' := finalizer.files;
      moments := finalizer.moments;
    }
  }

  /** A sender of the interleaved system runs to its end, and its token has then ended too: the `EndSender` step is
      such a run, complete exactly when the whole content went out. */
  method RunSender(ghost s: P.State, ghost tok: P.Tok, w: ChunkWriter, content: seq<Byte>, finalizer: Finalizer,
      fails: nat -> bool, other: nat -> Byte) returns (ghost s': P.State)
    requires PI.Inv(s) && tok in s.senders
    requires w.Idle() && w.wire == [] && !w.isFinal && !w.closeConnection
    requires finalizer.calls == [] && finalizer.moments == []
    modifies w, finalizer
    ensures finalizer.calls != [] && P.Enabled(s, P.EndSender(tok, finalizer.calls[0]))
    ensures s' == P.Do(s, P.EndSender(tok, finalizer.calls[0])) && PI.Inv(s')
    ensures s'.events == s.events + [P.Event(tok, P.SenderEnded(finalizer.calls[0]))]
    ensures tok !in s'.senders && Life.LifeOf(s'.events, tok).Ended?
    ensures finalizer.calls[0] ==> Concat(w.wire) == content && w.isFinal
    ensures !finalizer.calls[0] ==> Concat(w.wire) + w.partial <= content && w.closeConnection
  {
    StreamOut(w, content, finalizer, fails, other);
    s' := P.Do(s, P.EndSender(tok, finalizer.calls[0]));
    PI.EndSenderInv(s, tok, finalizer.calls[0]);
    assert PI.TokenOk(s, tok);
    Life.LifeOfSnoc(s.events, P.Event(tok, P.SenderEnded(finalizer.calls[0])), tok);
  }
}
