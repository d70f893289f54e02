/**
 The request object and the two objects its token can be handed to, in the form the server has them:
 fields changed in place, tokens moved out by clearing the field that held them.
 */
module Request {
  import opened Common
  import opened Metadata
  import Core = RequestCore

  /** The library's response writer or websocket: a response being built, bytes written and not yet sent,
      and a log of how the exchange was ended. */
  class Channel {
    var response: Response
    var written: string
    var log: seq<Core.Disposal>

    constructor (response: Response)
      ensures View() == Core.Transport(response, []) && written == ""
    {
      this.response := response;
      written := "";
      log := [];
    }

    ghost function View(): Core.Transport
      reads this
    {
      Core.Transport(response, log)
    }

    method ChangeHeader(name: string, value: string)
      modifies this`response
      ensures response == old(response).(headers := old(response).headers[name := value])
    {
      response := response.(headers := response.headers[name := value]);
    }

    method SetMetadata(md: ResponseMetadata)
      modifies this`response
      ensures View() == Core.Deliver(old(View()), Core.Meta(md))
    {
      response := response.(statusCode := md.statusCode);
      response := response.(statusMessage := md.statusMessage);
      for i := 0 to |md.headers|
        invariant response == Response(md.statusCode, md.statusMessage,
                                       ChangeHeaders(old(response).headers, md.headers[..i]))
      {
        assert md.headers[..i + 1][..i] == md.headers[..i];
        ChangeHeader(md.headers[i].name, md.headers[i].value);
      }
      assert md.headers[..|md.headers|] == md.headers;
    }

    method Write(data: string)
      modifies this`written
      ensures written == old(written) + data
    {
      written := written + data;
    }

    method Send()
      modifies this`written, this`log
      ensures log == old(log) + [Core.Sent(response, old(written))] && written == ""
    {
      log := log + [Core.Sent(response, written)];
      written := "";
    }

    /** The token is given to a stream sender. */
    method Stream(source: string)
      modifies this`log
      ensures log == old(log) + [Core.Streamed(response, source)]
    {
      log := log + [Core.Streamed(response, source)];
    }

    method Receive()
      modifies this`log
      ensures log == old(log) + [Core.Rearmed]
    {
      log := log + [Core.Rearmed];
    }

    method Close()
      modifies this`log
      ensures log == old(log) + [Core.Closed]
    {
      log := log + [Core.Closed];
    }
  }

  /** `response_writer`: a delayed response. */
  class DelayedWriter {
    var writer: Channel?

    constructor (writer: Channel)
      ensures this.writer == writer
    {
      this.writer := writer;
    }

    method SetMetadata(md: ResponseMetadata)
      requires writer != null
      modifies writer`response
      ensures writer.View() == Core.Deliver(old(writer.View()), Core.Meta(md))
    {
      writer.SetMetadata(md);
    }

    method Send(data: string)
      requires writer != null && writer.written == ""
      modifies this, writer
      ensures writer == null
      ensures old(writer).View() == Core.Deliver(old(writer.View()), Core.Send(data))
      ensures old(writer).log == old(writer.log) + [Core.Sent(old(writer.response), data)]
    {
      writer.Write(data);
      assert "" + data == data;
      writer.Send();
      writer := null;
    }
  }

  /** `websocket`: a retained websocket. */
  class RetainedSocket {
    var ws: Channel?

    constructor (ws: Channel)
      ensures this.ws == ws
    {
      this.ws := ws;
    }

    method Send(data: string)
      requires ws != null && ws.written == ""
      modifies this, ws
      ensures ws == null
      ensures old(ws).View() == Core.Deliver(old(ws.View()), Core.Send(data))
      ensures old(ws).log == old(ws.log) + [Core.Sent(old(ws.response), data)]
    {
      ws.Write(data);
      assert "" + data == data;
      ws.Send();
      ws := null;
    }

    method Close()
      requires ws != null
      modifies this, ws
      ensures ws == null
      ensures old(ws).View() == Core.Deliver(old(ws.View()), Core.Close)
      ensures old(ws).log == old(ws.log) + [Core.Closed]
    {
      ws.Close();
      ws := null;
    }
  }

  /** `request::impl`. */
  class Request {
    var state: Core.CommitState
    var resp: Channel?
    var ws: Channel?
    const websocketActive: bool

    /** The token still held, if any. */
    function Token(): Channel?
      reads this
    {
      if websocketActive then ws else resp
    }

    ghost function View(): Core.Obj
      reads this
    {
      Core.Obj(if websocketActive then Core.WebSocket else Core.Http, state, Token() != null)
    }

    /** Only the field of the request's own kind is used; an uncommitted request still holds its token. */
    ghost predicate Valid()
      reads this, resp, ws
    {
      && (if websocketActive then resp == null else ws == null)
      && (state == Core.Created ==> Token() != null)
      && (Token() != null ==> Token().written == "")
    }

    /** Since the old state, this request has performed `c` on `token`, the one it held, and replied `error`. */
    twostate predicate Performed(c: Core.Call, token: Channel?, new error: Option<Core.Error>)
      reads this, resp, ws, token
    {
      var r := Core.RunCall(old(View()), c);
      && Valid() && (Token() == null || Token() == token)
      && r.Outcome? && r.obj == View() && r.replies == [error]
      && (token != null ==> token.View() == Core.DeliverAll(old(token.View()), r.acts))
    }

    constructor FromHttp(resp: Channel)
      requires resp.written == ""
      ensures Valid() && Token() == resp && View() == Core.Obj(Core.Http, Core.Created, true)
    {
      state := Core.Created;
      this.resp := resp;
      ws := null;
      websocketActive := false;
    }

    constructor FromWebSocket(socket: Channel, responseAllowed: bool)
      requires socket.written == ""
      ensures Valid() && Token() == socket
      ensures View() == Core.Obj(Core.WebSocket, if responseAllowed then Core.Created else Core.Committed, true)
    {
      state := if responseAllowed then Core.Created else Core.Committed;
      resp := null;
      ws := socket;
      websocketActive := true;
    }

    /** `compare_exchange_strong`. */
    method Commit() returns (won: bool)
      modifies this`state
      ensures won <==> old(state) == Core.Created
      ensures state == Core.Committed
    {
      won := state == Core.Created;
      if won {
        state := Core.Committed;
      }
    }

    method SetResponseMetadata(md: ResponseMetadata) returns (error: Option<Core.Error>)
      requires Valid()
      modifies this, resp, ws
      ensures Performed(Core.SetMetadata(md), old(Token()), error)
    {
      if state != Core.Created {
        return Some(Core.AlreadyCommitted);
      }
      if websocketActive {
        return Some(Core.WrongKind);
      }
      resp.SetMetadata(md);
      return None;
    }

    /** `writes` is whether the data could be written, which is tried after the commit. */
    method SendResponse(data: string, writes: bool) returns (error: Option<Core.Error>)
      requires Valid()
      modifies this, resp, ws
      ensures Performed(Core.SendResponse(data, writes), old(Token()), error)
    {
      var won := Commit();
      if !won {
        return Some(Core.AlreadyCommitted);
      }
      if !writes {
        return Some(Core.WriteFailed);
      }
      assert "" + data == data;
      if !websocketActive {
        resp.Write(data);
        resp.Send();
        resp := null;
      } else {
        ws.Write(data);
        ws.Send();
        ws := null;
      }
      return None;
    }

    /** `opens` is whether the file could be opened, which is tried before the commit. */
    method SendFile(path: string, opens: bool) returns (error: Option<Core.Error>)
      requires Valid()
      modifies this, resp, ws
      ensures Performed(Core.SendFile(path, opens), old(Token()), error)
    {
      if websocketActive {
        return Some(Core.WrongKind);
      }
      if !opens {
        return Some(Core.FileNotOpened);
      }
      var won := Commit();
      if !won {
        return Some(Core.AlreadyCommitted);
      }
      resp.Stream(path);
      resp := null;
      return None;
    }

    /** `loads` is whether the template could be loaded, which is tried after the commit. */
    method SendMustache(path: string, loads: bool) returns (error: Option<Core.Error>)
      requires Valid()
      modifies this, resp, ws
      ensures Performed(Core.SendMustache(path, loads), old(Token()), error)
    {
      if websocketActive {
        return Some(Core.WrongKind);
      }
      var won := Commit();
      if !won {
        return Some(Core.AlreadyCommitted);
      }
      if !loads {
        return Some(Core.TemplateNotLoaded);
      }
      resp.Stream(path);
      resp := null;
      return None;
    }

    method SendLater() returns (error: Option<Core.Error>, delayed: DelayedWriter?)
      requires Valid()
      modifies this
      ensures Performed(Core.SendLater, old(Token()), error)
      ensures error == None <==> delayed != null
      ensures delayed != null ==> fresh(delayed) && delayed.writer == old(Token()) && Token() == null
    {
      delayed := null;
      if websocketActive {
        return Some(Core.WrongKind), null;
      }
      var won := Commit();
      if !won {
        return Some(Core.AlreadyCommitted), null;
      }
      delayed := new DelayedWriter(resp);
      resp := null;
      return None, delayed;
    }

    method RetainWebSocket() returns (error: Option<Core.Error>, retained: RetainedSocket?)
      requires Valid()
      modifies this
      ensures Performed(Core.RetainWebSocket, old(Token()), error)
      ensures error == None <==> retained != null
      ensures retained != null ==> fresh(retained) && retained.ws == old(Token()) && Token() == null
    {
      retained := null;
      if !websocketActive {
        return Some(Core.WrongKind), null;
      }
      var won := Commit();
      if !won {
        return Some(Core.AlreadyCommitted), null;
      }
      retained := new RetainedSocket(ws);
      ws := null;
      return None, retained;
    }

    /** Answers the request, or re-arms the websocket, if no call has done so. */
    method Finish()
      requires Valid()
      modifies this, resp, ws
      ensures Valid() && (Token() == null || Token() == old(Token()))
      ensures Core.Finish(old(View())).Outcome? && Core.Finish(old(View())).obj == View()
      ensures old(Token()) != null ==>
                old(Token()).View() == Core.DeliverAll(old(Token().View()), Core.Finish(old(View())).acts)
    {
      var won := Commit();
      if won {
        if !websocketActive {
          resp.Send();
          resp := null;
        } else {
          ws.Receive();
          ws := null;
        }
      }
    }

    /** One call of a handler. Calls that read the token must come while it is still there. */
    method Invoke(c: Core.Call) returns (error: Option<Core.Error>)
      requires Valid()
      requires Core.ReadsToken(View().kind, c) ==> Token() != null
      modifies this, resp, ws
      ensures Performed(c, old(Token()), error)
    {
      match c
      case SetMetadata(md) => error := SetResponseMetadata(md);
      case SendResponse(body, writes) => error := SendResponse(body, writes);
      case SendFile(path, opens) => error := SendFile(path, opens);
      case SendMustache(path, loads) => error := SendMustache(path, loads);
      case SendLater =>
        var writer;
        error, writer := SendLater();
      case RetainWebSocket =>
        var socket;
        error, socket := RetainWebSocket();
      case ReadForm => error := if websocketActive then Some(Core.WrongKind) else None;
      case ReadFilename => error := if websocketActive then Some(Core.WrongKind) else None;
      case _ => error := None;
    }
  }

  /** The handler wrapper: construct the request around the token, run the handler, finish. `allowed` is false
      for the close handler of a websocket. Whatever the handler does, the token sees exactly the acts of
      `RequestCore.Serve`. */
  method Serve(kind: Core.Kind, allowed: bool, token: Channel, calls: seq<Core.Call>)
      returns (replies: seq<Option<Core.Error>>)
    requires token.written == ""
    requires allowed || kind == Core.WebSocket
    requires allowed ==> !Core.LateRead(kind, calls)
    modifies token
    ensures Core.Serve(kind, allowed, calls).Outcome? && Core.Serve(kind, allowed, calls).replies == replies
    ensures token.View() == Core.DeliverAll(old(token.View()), Core.Serve(kind, allowed, calls).acts)
  {
    var request;
    if kind == Core.Http {
      request := new Request.FromHttp(token);
    } else {
      request := new Request.FromWebSocket(token, allowed);
    }
    ghost var start := request.View();
    NoCrash(kind, allowed, calls);
    replies := [];
    for i := 0 to |calls|
      modifies request, token
      invariant request.Valid() && (request.Token() == null || request.Token() == token)
      invariant Core.RunCalls(start, calls[..i]).Outcome?
      invariant Core.RunCalls(start, calls[..i]).obj == request.View()
      invariant Core.RunCalls(start, calls[..i]).replies == replies
      invariant token.View() == Core.DeliverAll(old(token.View()), Core.RunCalls(start, calls[..i]).acts)
    {
      ghost var before := request.View();
      NextCallSafe(start, calls, i);
      var error := request.Invoke(calls[i]);
      replies := replies + [error];
      Core.DeliverAllAppend(old(token.View()), Core.RunCalls(start, calls[..i]).acts, Core.RunCall(before,
          calls[i]).acts);
      if !before.holdsToken {
        NoTokenNoActs(before, calls[i]);
      }
    }
    assert calls[..|calls|] == calls;
    Core.DeliverAllAppend(old(token.View()), Core.RunCalls(start, calls).acts, Core.Finish(request.View()).acts);
    request.Finish();
  }

  lemma NoCrash(kind: Core.Kind, allowed: bool, calls: seq<Core.Call>)
    requires allowed || kind == Core.WebSocket
    requires allowed ==> !Core.LateRead(kind, calls)
    ensures Core.RunCalls(Core.Obj(kind, if allowed then Core.Created else Core.Committed, true), calls).Outcome?
  {
    if allowed {
      Core.ServeTrace(kind, calls);
    } else {
      Core.ServeClosing(calls);
    }
  }

  /** In a run that does not crash, each next call is safe and extends the run by itself. */
  lemma NextCallSafe(o: Core.Obj, calls: seq<Core.Call>, i: nat)
    requires i < |calls| && Core.RunCalls(o, calls).Outcome?
    ensures var r := Core.RunCalls(o, calls[..i]);
            r.Outcome? && Core.RunCall(r.obj, calls[i]).Outcome?
            && Core.RunCalls(o, calls[..i + 1]) == Core.Join(r, Core.RunCall(r.obj, calls[i]))
  {
    Core.RunCallsAt(o, calls, i);
    Core.RunSingle(Core.RunCalls(o, calls[..i]).obj, calls[i]);
    Core.RunCallsAppend(o, calls[..i], [calls[i]]);
    assert calls[..i + 1] == calls[..i] + [calls[i]];
  }

  lemma NoTokenNoActs(o: Core.Obj, c: Core.Call)
    requires !o.holdsToken && o.state == Core.Committed
    ensures Core.RunCall(o, c).Outcome? ==> Core.RunCall(o, c).acts == [] && Core.Finish(o).acts == []
  {
    Core.RunCallCommitted(o, c);
  }
}
