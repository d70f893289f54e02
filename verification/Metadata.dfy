/** Response metadata and how a response accumulates it. */
module Metadata {
  import opened Common

  datatype Header = Header(name: string, value: string)

  /** `conf::response_metadata`: what one metadata call carries. */
  datatype ResponseMetadata = ResponseMetadata(statusCode: nat, statusMessage: string, headers: seq<Header>)

  /** The part of a response that metadata calls change. */
  datatype Response = Response(statusCode: nat, statusMessage: string, headers: map<string, string>)

  /** `change_header`, once per entry, in order. */
  function ChangeHeaders(m: map<string, string>, hs: seq<Header>): map<string, string> {
    if hs == [] then m
    else
      var last := hs[|hs| - 1];
      ChangeHeaders(m, hs[..|hs| - 1])[last.name := last.value]
  }

  /** One metadata call: status and message replaced, headers overridden by name. */
  function Apply(r: Response, md: ResponseMetadata): Response {
    Response(md.statusCode, md.statusMessage, ChangeHeaders(r.headers, md.headers))
  }

  /** All metadata calls, left to right. */
  function Fold(r: Response, mds: seq<ResponseMetadata>): Response {
    if mds == [] then r else Apply(Fold(r, mds[..|mds| - 1]), mds[|mds| - 1])
  }

  // ----- independent reading: the last call that speaks about something wins -----

  /** The header lines of all calls, in the order they were made. */
  function AllHeaders(mds: seq<ResponseMetadata>): seq<Header> {
    Concat(seq(|mds|, i requires 0 <= i < |mds| => mds[i].headers))
  }

  /** The last value given to `name` in `hs`, if there is one. */
  function LastValue(hs: seq<Header>, name: string): Option<string> {
    if hs == [] then None
    else if hs[|hs| - 1].name == name then Some(hs[|hs| - 1].value)
    else LastValue(hs[..|hs| - 1], name)
  }

  lemma {:induction false} ChangeHeadersLastWins(m: map<string, string>, hs: seq<Header>, name: string)
    ensures match LastValue(hs, name)
            case Some(v) => name in ChangeHeaders(m, hs) && ChangeHeaders(m, hs)[name] == v
            case None => (name in ChangeHeaders(m, hs) <==> name in m)
                         && (name in m ==> ChangeHeaders(m, hs)[name] == m[name])
  {
    if hs != [] {
      ChangeHeadersLastWins(m, hs[..|hs| - 1], name);
    }
  }

  lemma {:induction false} ChangeHeadersAppend(m: map<string, string>, a: seq<Header>, b: seq<Header>)
    ensures ChangeHeaders(m, a + b) == ChangeHeaders(ChangeHeaders(m, a), b)
  {
    if b == [] {
      assert a + b == a;
    } else {
      ChangeHeadersAppend(m, a, b[..|b| - 1]);
      assert (a + b)[..|a + b| - 1] == a + b[..|b| - 1];
    }
  }

  lemma AllHeadersSnoc(mds: seq<ResponseMetadata>, md: ResponseMetadata)
    ensures AllHeaders(mds + [md]) == AllHeaders(mds) + md.headers
  {
    var all := mds + [md];
    var parts := seq(|mds|, i requires 0 <= i < |mds| => mds[i].headers);
    assert seq(|all|, i requires 0 <= i < |all| => all[i].headers) == parts + [md.headers];
    ConcatSnoc(parts, md.headers);
  }

  lemma {:induction false} FoldHeaders(r: Response, mds: seq<ResponseMetadata>)
    ensures Fold(r, mds).headers == ChangeHeaders(r.headers, AllHeaders(mds))
  {
    if mds != [] {
      var front, last := mds[..|mds| - 1], mds[|mds| - 1];
      FoldHeaders(r, front);
      AllHeadersSnoc(front, last);
      assert mds == front + [last];
      ChangeHeadersAppend(r.headers, AllHeaders(front), last.headers);
    }
  }

  /** The fold of any list of metadata calls: the last call decides status and message, and for every
      header name the last line carrying it decides the value; names never mentioned keep theirs. */
  lemma FoldIsLastWins(r: Response, mds: seq<ResponseMetadata>, name: string)
    ensures mds != [] ==>
              Fold(r, mds).statusCode == mds[|mds| - 1].statusCode
              && Fold(r, mds).statusMessage == mds[|mds| - 1].statusMessage
    ensures mds == [] ==> Fold(r, mds) == r
    ensures match LastValue(AllHeaders(mds), name)
            case Some(v) => name in Fold(r, mds).headers && Fold(r, mds).headers[name] == v
            case None => (name in Fold(r, mds).headers <==> name in r.headers)
                         && (name in r.headers ==> Fold(r, mds).headers[name] == r.headers[name])
  {
    FoldHeaders(r, mds);
    ChangeHeadersLastWins(r.headers, AllHeaders(mds), name);
  }

  lemma {:induction false} FoldAppend(r: Response, a: seq<ResponseMetadata>, b: seq<ResponseMetadata>)
    ensures Fold(r, a + b) == Fold(Fold(r, a), b)
  {
    if b == [] {
      assert a + b == a;
    } else {
      FoldAppend(r, a, b[..|b| - 1]);
      assert (a + b)[..|a + b| - 1] == a + b[..|b| - 1];
    }
  }
}
