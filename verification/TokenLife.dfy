/**
 The life of a single transport token, as a small sequential automaton over its events. This is the
 simple description that the interleaved system of `Protocol` is proved to refine.
 */
module TokenLife {
  import opened Common
  import opened Metadata
  import opened RequestCore
  import opened Protocol

  /** Where the token is and what has reached it. */
  datatype Life =
    | Unborn
    | Open(r: Rid, kind: Kind, transport: Transport)
    | Claimed(r: Rid, kind: Kind, who: Claimant, transport: Transport)
    | Abandoned(r: Rid, kind: Kind, transport: Transport)
    | Streaming(transport: Transport)
    | Held(o: Oid, kind: Kind, transport: Transport)
    | Failing(o: Oid, kind: Kind, transport: Transport)
    | Stranded(o: Oid, kind: Kind, transport: Transport)
    | Ended(transport: Transport)
    | Illegal

  function Next(life: Life, what: What): Life {
    match life
    case Unborn =>
      (match what
       case Arrived(r, kind, allowed, start) =>
         if allowed then Open(r, kind, Transport(start, [])) else Abandoned(r, kind, Transport(start, []))
       case _ => Illegal)
    case Open(r, kind, x) =>
      (match what
       case Acted(act) => if act.Meta? && kind == Http then Open(r, kind, Deliver(x, act)) else Illegal
       case ClaimedBy(who) => Claimed(r, kind, who, x)
       case _ => Illegal)
    case Claimed(r, kind, who, x) =>
      (match what
       case Acted(act) =>
         if act.Send? || (act.Rearm? && kind == WebSocket && who == Server) then Ended(Deliver(x, act))
         else if act.Stream? && kind == Http && who.Thread? then Streaming(Deliver(x, act))
         else Illegal
       case HandedOff(o) => if who.Thread? then Held(o, kind, x) else Illegal
       case TemplateFailed => if kind == Http && who.Thread? then Abandoned(r, kind, x) else Illegal
       case SendFailed => if who.Thread? then Abandoned(r, kind, x) else Illegal
       case _ => Illegal)
    case Abandoned(_, _, x) =>
      (match what
       case Acted(act) => if act.Drop? then Ended(Deliver(x, act)) else Illegal
       case _ => Illegal)
    case Streaming(x) => if what.SenderEnded? then Ended(x) else Illegal
    case Held(o, kind, x) =>
      (match what
       case Acted(act) =>
         if act.Meta? && kind == Http then Held(o, kind, Deliver(x, act))
         else if act.Send? || (act.Close? && kind == WebSocket) then Ended(Deliver(x, act))
         else Illegal
       case SendFailed => Failing(o, kind, x)
       case Leaked => if kind == WebSocket then Stranded(o, kind, x) else Illegal
       case _ => Illegal)
    case Failing(_, _, x) =>
      (match what
       case Acted(act) => if act.Drop? then Ended(Deliver(x, act)) else Illegal
       case _ => Illegal)
    case Stranded(_, _, _) => Illegal
    case Ended(_) => Illegal
    case Illegal => Illegal
  }

  function LifeOf(events: seq<Event>, tok: Tok): Life
    decreases |events|
  {
    if events == [] then Unborn
    else
      var before, last := LifeOf(events[..|events| - 1], tok), events[|events| - 1];
      if last.tok == tok then Next(before, last.what) else before
  }

  lemma LifeOfSnoc(events: seq<Event>, e: Event, tok: Tok)
    ensures LifeOf(events + [e], tok) ==
            if e.tok == tok then Next(LifeOf(events, tok), e.what) else LifeOf(events, tok)
  {
    assert (events + [e])[..|events|] == events;
  }

  /** The metadata calls accepted for a token, in order. */
  function Metas(events: seq<Event>, tok: Tok): seq<ResponseMetadata>
    decreases |events|
  {
    if events == [] then []
    else
      var before, last := Metas(events[..|events| - 1], tok), events[|events| - 1];
      if last.tok == tok && last.what.Acted? && last.what.act.Meta? then before + [last.what.act.md] else before
  }

  /** The response a token arrived with. */
  ghost predicate StartsWith(events: seq<Event>, tok: Tok, start: Response) {
    exists i :: 0 <= i < |events| && events[i].tok == tok && events[i].what.Arrived? && events[i].what.start == start
  }

  // ----- what a legal life means -----

  /** Not answered yet. */
  predicate Unanswered(life: Life) {
    life.Open? || life.Claimed? || life.Abandoned? || life.Held? || life.Failing? || life.Stranded?
  }

  /** An illegal life stays illegal, so a legal log has only legal prefixes. */
  lemma {:induction false} LegalPrefix(events: seq<Event>, tok: Tok, n: nat)
    requires n <= |events| && LifeOf(events, tok) != Illegal
    ensures LifeOf(events[..n], tok) != Illegal
    decreases |events| - n
  {
    if n == |events| {
      assert events[..n] == events;
    } else {
      LegalPrefix(events, tok, n + 1);
      assert events[..n + 1][..n] == events[..n];
    }
  }

  lemma NextResponse(life: Life, what: What)
    requires life != Unborn && Next(life, what) != Illegal
    ensures life != Illegal
    ensures Next(life, what).transport.response ==
            if what.Acted? && what.act.Meta? then Apply(life.transport.response, what.act.md)
            else life.transport.response
  {
  }

  lemma StartsWithGrows(events: seq<Event>, n: nat, tok: Tok, start: Response)
    requires n <= |events| && StartsWith(events[..n], tok, start)
    ensures StartsWith(events, tok, start)
  {
    var i :| 0 <= i < n && events[..n][i].tok == tok && events[..n][i].what.Arrived?
             && events[..n][i].what.start == start;
    assert events[i] == events[..n][i];
  }

  /** The response of a token is the left-to-right fold of exactly the metadata accepted for it. */
  lemma {:induction false} LifeFoldsMetadata(events: seq<Event>, tok: Tok) returns (start: Response)
    requires LifeOf(events, tok) != Illegal && LifeOf(events, tok) != Unborn
    ensures StartsWith(events, tok, start)
    ensures LifeOf(events, tok).transport.response == Fold(start, Metas(events, tok))
    decreases |events|
  {
    var n := |events| - 1;
    var front, last := events[..n], events[n];
    if LifeOf(front, tok) == Unborn {
      NoEventsUnborn(front, tok);
      start := last.what.start;
    } else {
      LegalPrefix(events, tok, n);
      start := LifeFoldsMetadata(front, tok);
      StartsWithGrows(events, n, tok, start);
      if last.tok == tok {
        NextResponse(LifeOf(front, tok), last.what);
        FoldSnoc(start, Metas(front, tok), last.what);
      }
    }
  }

  lemma FoldSnoc(start: Response, mds: seq<ResponseMetadata>, what: What)
    ensures what.Acted? && what.act.Meta? ==> Fold(start, mds + [what.act.md]) == Apply(Fold(start, mds), what.act.md)
  {
    if what.Acted? && what.act.Meta? {
      assert (mds + [what.act.md])[..|mds|] == mds;
    }
  }

  lemma {:induction false} NoEventsUnborn(events: seq<Event>, tok: Tok)
    requires LifeOf(events, tok) == Unborn
    ensures Metas(events, tok) == [] && forall i | 0 <= i < |events| :: events[i].tok != tok
    decreases |events|
  {
    if events != [] {
      NoEventsUnborn(events[..|events| - 1], tok);
    }
  }

  /** A token is answered at most once: its log is empty until then and has one entry afterwards, carrying the
      response as it then was; a streamed answer is the only one that is on its way for a while. */
  lemma {:induction false} LifeLogsOnce(events: seq<Event>, tok: Tok)
    requires LifeOf(events, tok) != Illegal
    ensures Unanswered(LifeOf(events, tok)) ==> LifeOf(events, tok).transport.log == []
    ensures LifeOf(events, tok).Streaming? ==>
              |LifeOf(events, tok).transport.log| == 1 && LifeOf(events, tok).transport.log[0].Streamed?
    ensures LifeOf(events, tok).Ended? || LifeOf(events, tok).Streaming? ==>
              var x := LifeOf(events, tok).transport;
              |x.log| == 1 && match x.log[0]
                              case Sent(response, _) => response == x.response
                              case Streamed(response, _) => response == x.response
                              case _ => true
    decreases |events|
  {
    if events != [] {
      LegalPrefix(events, tok, |events| - 1);
      LifeLogsOnce(events[..|events| - 1], tok);
    }
  }

  /** Nothing happens to a token after its end. */
  lemma {:induction false} EndIsFinal(events: seq<Event>, tok: Tok, n: nat)
    requires n <= |events| && LifeOf(events, tok) != Illegal
    requires LifeOf(events[..n], tok).Ended? || LifeOf(events[..n], tok).Stranded?
    ensures LifeOf(events, tok) == LifeOf(events[..n], tok)
    ensures forall i | n <= i < |events| :: events[i].tok != tok
    decreases |events|
  {
    if n < |events| {
      var m := |events| - 1;
      LegalPrefix(events, tok, m);
      assert events[..m][..n] == events[..n];
      EndIsFinal(events[..m], tok, n);
      assert forall i | n <= i < m :: events[..m][i] == events[i];
    } else {
      assert events[..n] == events;
    }
  }

  /** Metadata reaches the token before the commit, or through a delayed writer that holds it. */
  lemma MetadataAfterCommitIsDelayed(events: seq<Event>, tok: Tok, n: nat)
    requires n < |events| && LifeOf(events, tok) != Illegal
    requires events[n].tok == tok && events[n].what.Acted? && events[n].what.act.Meta?
    ensures LifeOf(events[..n], tok).Open? || LifeOf(events[..n], tok).Held?
  {
    LegalPrefix(events, tok, n + 1);
    assert events[..n + 1][..n] == events[..n];
  }

  /** Each act that ends an exchange comes from where it belongs: an answer or a streamed body from the call that
      claimed the request, re-arming from `finish`, closing from a retained websocket, and dropping from a request
      that was abandoned or a delayed object that failed to send. */
  lemma EndsProperly(events: seq<Event>, tok: Tok, n: nat)
    requires n < |events| && LifeOf(events, tok) != Illegal
    requires events[n].tok == tok && events[n].what.Acted? && !events[n].what.act.Meta?
    ensures if events[n].what.act.Stream? then LifeOf(events[..n + 1], tok).Streaming?
            else LifeOf(events[..n + 1], tok).Ended?
    ensures var before := LifeOf(events[..n], tok);
            match events[n].what.act
            case Send(_) => before.Claimed? || before.Held?
            case Stream(_) => before.Claimed? && before.kind == Http && before.who.Thread?
            case Rearm => before.Claimed? && before.kind == WebSocket && before.who == Server
            case Close => before.Held? && before.kind == WebSocket
            case Drop => before.Abandoned? || before.Failing?
            case _ => false
  {
    LegalPrefix(events, tok, n + 1);
    assert events[..n + 1][..n] == events[..n];
  }

  /** The entry an act that ends an exchange leaves, with the response it had. */
  function EntryOf(act: Act, response: Response): Option<Disposal> {
    match act
    case Send(body) => Some(Sent(response, body))
    case Stream(source) => Some(Streamed(response, source))
    case Rearm => Some(Rearmed)
    case Close => Some(Closed)
    case Drop => Some(Dropped)
    case _ => None
  }

  /** In every legal log the act that ends an exchange leaves its own entry, and no other: what was sent with its
      body, streamed with its source, re-armed, closed or dropped. */
  lemma EndLeavesEntry(events: seq<Event>, tok: Tok, n: nat)
    requires n < |events| && LifeOf(events, tok) != Illegal
    requires events[n].tok == tok && events[n].what.Acted? && !events[n].what.act.Meta?
    ensures LifeOf(events[..n], tok) != Unborn && LifeOf(events[..n], tok) != Illegal && LifeOf(events, tok) != Unborn
    ensures EntryOf(events[n].what.act, LifeOf(events[..n], tok).transport.response).Some?
    ensures LifeOf(events, tok).transport.log
            == [EntryOf(events[n].what.act, LifeOf(events[..n], tok).transport.response).value]
  {
    EndsProperly(events, tok, n);
    LegalPrefix(events, tok, n);
    LifeLogsOnce(events[..n], tok);
    var e := EntryOf(events[n].what.act, LifeOf(events[..n], tok).transport.response).value;
    assert [] + [e] == [e];
    LegalPrefix(events, tok, n + 1);
    assert events[..n + 1][..n] == events[..n];
    LogIsFinal(events, tok, n + 1);
  }

  /** Once there is an entry, there is never another. */
  lemma {:induction false} LogIsFinal(events: seq<Event>, tok: Tok, n: nat)
    requires n <= |events| && LifeOf(events, tok) != Illegal
    requires LifeOf(events[..n], tok).Ended? || LifeOf(events[..n], tok).Streaming?
    ensures LifeOf(events, tok).Ended? || LifeOf(events, tok).Streaming?
    ensures LifeOf(events, tok).transport == LifeOf(events[..n], tok).transport
    decreases |events|
  {
    if n < |events| {
      var m := |events| - 1;
      LegalPrefix(events, tok, m);
      assert events[..m][..n] == events[..n];
      LogIsFinal(events[..m], tok, n);
    } else {
      assert events[..n] == events;
    }
  }

  // ----- unanswered tokens -----

  /** The reasons a token can go unanswered: a template that failed to load, a send that failed, or a websocket
      that was already closing. */
  predicate Excuse(what: What) {
    what == TemplateFailed || what == SendFailed || (what.Arrived? && !what.allowed)
  }

  ghost predicate Excused(events: seq<Event>, tok: Tok) {
    exists i :: 0 <= i < |events| && events[i].tok == tok && Excuse(events[i].what)
  }

  lemma ExcusedSnoc(events: seq<Event>, e: Event, tok: Tok)
    ensures Excused(events + [e], tok) <==> Excused(events, tok) || (e.tok == tok && Excuse(e.what))
  {
    var all := events + [e];
    if Excused(events, tok) {
      var i :| 0 <= i < |events| && events[i].tok == tok && Excuse(events[i].what);
      assert all[i] == events[i];
    }
    if e.tok == tok && Excuse(e.what) { assert all[|events|] == e; }
  }

  /** Will be dropped, or was. */
  predicate Doomed(life: Life) {
    life.Abandoned? || life.Failing? || (life.Ended? && life.transport.log == [Dropped])
  }

  lemma NextDoomed(life: Life, what: What)
    requires life != Illegal && Next(life, what) != Illegal
    requires life != Unborn && !life.Ended? && !life.Streaming? ==> life.transport.log == []
    requires life.Streaming? ==> life.transport.log != [Dropped]
    ensures Doomed(Next(life, what)) <==> Doomed(life) || Excuse(what)
  {
    if Next(life, what).Ended? && what.Acted? {
      assert Next(life, what).transport.log[0].Dropped? <==> what.act.Drop?;
      assert what.act.Drop? ==> Next(life, what).transport.log == [Dropped];
    }
  }

  /** In every legal log a token is dropped, or about to be, if and only if one of the three things went wrong. */
  lemma {:induction false} DoomedIffExcused(events: seq<Event>, tok: Tok)
    requires LifeOf(events, tok) != Illegal
    ensures Doomed(LifeOf(events, tok)) <==> Excused(events, tok)
    decreases |events|
  {
    if events != [] {
      var n := |events| - 1;
      var front, last := events[..n], events[n];
      assert events == front + [last];
      LegalPrefix(events, tok, n);
      DoomedIffExcused(front, tok);
      ExcusedSnoc(front, last, tok);
      if last.tok == tok {
        LifeLogsOnce(front, tok);
        NextDoomed(LifeOf(front, tok), last.what);
      }
    }
  }

  /** What went wrong comes before the drop. */
  lemma DropIsExcused(events: seq<Event>, tok: Tok, n: nat)
    requires n < |events| && LifeOf(events, tok) != Illegal
    requires events[n] == Event(tok, Acted(Drop))
    ensures Excused(events[..n], tok)
  {
    EndsProperly(events, tok, n);
    LegalPrefix(events, tok, n);
    DoomedIffExcused(events[..n], tok);
  }

  // ----- leaked tokens -----

  ghost predicate LeakLogged(events: seq<Event>, tok: Tok) {
    exists i :: 0 <= i < |events| && events[i] == Event(tok, Leaked)
  }

  /** A token is stranded in a leaked object if and only if a close of it threw. */
  lemma {:induction false} StrandedIffLeaked(events: seq<Event>, tok: Tok)
    requires LifeOf(events, tok) != Illegal
    ensures LifeOf(events, tok).Stranded? <==> LeakLogged(events, tok)
    decreases |events|
  {
    if events != [] {
      var n := |events| - 1;
      var front, last := events[..n], events[n];
      LegalPrefix(events, tok, n);
      StrandedIffLeaked(front, tok);
      if LeakLogged(front, tok) {
        var i :| 0 <= i < |front| && front[i] == Event(tok, Leaked);
        assert events[i] == front[i];
      }
      if LeakLogged(events, tok) && last != Event(tok, Leaked) {
        var i :| 0 <= i < |events| && events[i] == Event(tok, Leaked);
        assert front[i] == events[i];
      }
    }
  }
}
