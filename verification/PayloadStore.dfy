/**
 The request body store as values: memory until a limit, then a temporary file; afterwards read as a string or
 as a file name, in any order. Handlers share stores; see `PayloadSharing`.
 */
module PayloadStore {
  import opened Common

  /** `request_payload_config`: the directory for spilled bodies (empty for none) and the memory limit. */
  datatype Config = Config(tmpDir: string, limit: nat)

  datatype Mode = Memory | File

  /** The shared `payload_data`, and the file system it writes to. `open` is whether `file` is set. */
  datatype Store = Store(
    mode: Mode,
    buffer: seq<Byte>,
    filename: string,
    open: bool,
    counter: nat,
    files: Files)

  datatype Failure = LimitExceeded | WriterClosed | FileMissing

  function Start(files: Files): Store {
    Store(Memory, [], "", false, 0, files)
  }

  function Decimal(n: nat): string {
    var digit := [['0', '1', '2', '3', '4', '5', '6', '7', '8', '9'][n % 10]];
    if n < 10 then digit else Decimal(n / 10) + digit
  }

  /** `gen_filename`, with the random part given. */
  function GenName(c: Config, counter: nat, random: string): (name: string)
    ensures name != ""
  {
    c.tmpDir + "/" + Decimal(counter) + "_" + random
  }

  // ----- generated names -----

  predicate IsDigit(ch: char) {
    '0' <= ch <= '9'
  }

  /** The number that decimal digits stand for. */
  function NumberOf(digits: string): nat
    requires forall i | 0 <= i < |digits| :: IsDigit(digits[i])
    decreases |digits|
  {
    if digits == "" then 0
    else
      assert IsDigit(digits[|digits| - 1]);
      10 * NumberOf(digits[..|digits| - 1]) + (digits[|digits| - 1] as int - '0' as int)
  }

  /** `Decimal` writes a number in decimal digits, without leading zeros. */
  lemma {:induction false} DecimalRoundTrip(n: nat)
    ensures Decimal(n) != "" && forall i | 0 <= i < |Decimal(n)| :: IsDigit(Decimal(n)[i])
    ensures NumberOf(Decimal(n)) == n
    ensures Decimal(n)[0] == '0' ==> n == 0
    decreases n
  {
    var digits := ['0', '1', '2', '3', '4', '5', '6', '7', '8', '9'];
    assert digits[n % 10] as int == '0' as int + n % 10;
    if n >= 10 {
      DecimalRoundTrip(n / 10);
      assert Decimal(n)[..|Decimal(n)| - 1] == Decimal(n / 10);
    } else {
      assert Decimal(n)[..0] == "";
    }
  }

  /** Where a number ends and the random part begins can be told, since digits are no underscores. */
  lemma DigitsEnd(x: string, y: string, r: string, q: string)
    requires x + "_" + r == y + "_" + q
    requires (forall i | 0 <= i < |x| :: IsDigit(x[i])) && forall i | 0 <= i < |y| :: IsDigit(y[i])
    ensures x == y && r == q
  {
    var a, b := x + "_" + r, y + "_" + q;
    assert forall i | 0 <= i < |x| :: a[i] == x[i] && IsDigit(a[i]);
    assert forall i | 0 <= i < |y| :: b[i] == y[i] && IsDigit(b[i]);
    assert !IsDigit(a[|x|]) && !IsDigit(b[|y|]);
    assert a[..|x|] == x && b[..|y|] == y && a[|x| + 1..] == r && b[|y| + 1..] == q;
  }

  /** A generated name lies in the configured directory and ends with the random part, and names are different
      whenever counter or random part are. */
  lemma NamesAreDistinct(c: Config, m: nat, r: string, n: nat, q: string)
    ensures c.tmpDir + "/" <= GenName(c, m, r)
    ensures |GenName(c, m, r)| > |c.tmpDir| + |r| && GenName(c, m, r)[|GenName(c, m, r)| - |r|..] == r
    ensures GenName(c, m, r) == GenName(c, n, q) <==> m == n && r == q
  {
    DecimalRoundTrip(m);
    DecimalRoundTrip(n);
    var dir := c.tmpDir + "/";
    var x, y := Decimal(m) + "_" + r, Decimal(n) + "_" + q;
    assert GenName(c, m, r) == dir + x && GenName(c, n, q) == dir + y;
    if GenName(c, m, r) == GenName(c, n, q) {
      assert (dir + x)[|dir|..] == x && (dir + y)[|dir|..] == y;
      DigitsEnd(Decimal(m), Decimal(n), r, q);
    }
  }

  /** The bytes of a file after writing more to it. */
  function Appended(files: Files, name: string, bytes: seq<Byte>): Files {
    files[name := (if name in files then files[name] else []) + bytes]
  }

  /** `operator()` in file mode. */
  function ReceiveToFile(st: Store, chunk: seq<Byte>): (Store, Option<Failure>) {
    if st.open then (st.(files := Appended(st.files, st.filename, chunk)), None) else (st, Some(WriterClosed))
  }

  /** The switch to file mode: a new file holding what was in memory. */
  function Spill(c: Config, st: Store, random: string): Store {
    var name := GenName(c, st.counter, random);
    Store(File, [], name, true, st.counter + 1, st.files[name := st.buffer])
  }

  /** `operator()`: one chunk of the body. */
  function Receive(c: Config, st: Store, chunk: seq<Byte>, random: string): (Store, Option<Failure>) {
    if st.mode == File then ReceiveToFile(st, chunk)
    else if |st.buffer| + |chunk| < c.limit then (st.(buffer := st.buffer + chunk), None)
    else if c.tmpDir == "" then (st, Some(LimitExceeded))
    else ReceiveToFile(Spill(c, st, random), chunk)
  }

  /** `get_data_as_string`. The mode changes before the file is opened. */
  function ReadString(st: Store): (Store, Result<seq<Byte>, Failure>) {
    var closed := st.(open := false, mode := Memory);
    if st.mode == Memory then (closed, Ok(st.buffer))
    else if st.filename !in st.files then (closed, Err(FileMissing))
    else (closed.(buffer := st.files[st.filename]), Ok(st.files[st.filename]))
  }

  /** `get_data_as_filename`. */
  function ReadFilename(c: Config, st: Store, random: string): (Store, string) {
    var closed := st.(open := false, mode := File);
    if st.mode == Memory && st.filename == "" then
      var name := GenName(c, st.counter, random);
      (closed.(filename := name, counter := st.counter + 1, files := st.files[name := st.buffer]), name)
    else (closed, st.filename)
  }

  /** The destructor of one handler. */
  function Drop(st: Store): Store {
    if st.filename == "" then st else st.(open := false, files := st.files - {st.filename})
  }

  // ----- receiving -----

  /** The store while receiving: `body` so far, in memory below the limit or in a file of its own. */
  ghost predicate Receiving(c: Config, st: Store, body: seq<Byte>, files: Files) {
    match st.mode
    case Memory =>
      st.buffer == body && st.filename == "" && !st.open && st.files == files && st.counter == 0
      && (body == [] || |body| < c.limit)
    case File =>
      st.buffer == [] && st.filename != "" && st.open && st.filename !in files && st.counter == 1
      && st.files == files[st.filename := body]
  }

  /** The random part makes the generated names new. */
  ghost predicate FreshNames(c: Config, files: Files, random: string) {
    forall counter: nat :: GenName(c, counter, random) !in files
  }

  lemma ReceiveAccumulates(c: Config, st: Store, body: seq<Byte>, files: Files, chunk: seq<Byte>, random: string)
    requires Receiving(c, st, body, files) && FreshNames(c, files, random)
    ensures var (st', failure) := Receive(c, st, chunk, random);
            match failure
            case None => Receiving(c, st', body + chunk, files)
            case Some(f) =>
              st' == st && f == LimitExceeded && st.mode == Memory && c.tmpDir == "" && |body| + |chunk| >= c.limit
    ensures st.mode == Memory && Receive(c, st, chunk, random).1.None? ==>
              (Receive(c, st, chunk, random).0.mode == File <==> |body| + |chunk| >= c.limit)
    ensures st.mode == File ==> Receive(c, st, chunk, random).0.mode == File && Receive(c, st, chunk, random).1.None?
  {
  }

  /** A body arriving in chunks, up to the first failure. */
  function Feed(c: Config, st: Store, chunks: seq<seq<Byte>>, random: string): (Store, Option<Failure>)
    decreases |chunks|
  {
    if chunks == [] then (st, None)
    else
      var (st', failure) := Receive(c, st, chunks[0], random);
      if failure.Some? then (st', failure) else Feed(c, st', chunks[1..], random)
  }

  /** The outcome of feeding a body on from `body` to `all`, starting in mode `mode`; `more` is whether any chunk
      came. */
  ghost predicate Fed(c: Config, mode: Mode, body: seq<Byte>, all: seq<Byte>, more: bool, files: Files,
      result: (Store, Option<Failure>)) {
    var over := mode == File || (more && |all| >= c.limit);
    if mode == Memory && c.tmpDir == "" && over then
      result.1 == Some(LimitExceeded) && result.0.mode == Memory && result.0.files == files
    else
      result.1 == None && Receiving(c, result.0, all, files) && (result.0.mode == File <==> over)
  }

  lemma ReceiveFed(c: Config, st: Store, body: seq<Byte>, files: Files, chunk: seq<Byte>, random: string)
    requires Receiving(c, st, body, files) && FreshNames(c, files, random)
    ensures Fed(c, st.mode, body, body + chunk, true, files, Receive(c, st, chunk, random))
  {
    ReceiveAccumulates(c, st, body, files, chunk, random);
  }

  lemma FedTrans(c: Config, mode: Mode, body: seq<Byte>, mid: seq<Byte>, all: seq<Byte>, more: bool, files: Files,
                 first: (Store, Option<Failure>), second: (Store, Option<Failure>))
    requires Fed(c, mode, body, mid, true, files, first) && first.1 == None
    requires Fed(c, first.0.mode, mid, all, more, files, second)
    requires |mid| <= |all| && (!more ==> all == mid)
    ensures Fed(c, mode, body, all, true, files, second)
  {
  }

  /** Whatever the chunks, the store holds their concatenation after what was there, or the body is refused. */
  lemma {:induction false} FeedAccumulates(c: Config, st: Store, body: seq<Byte>, files: Files,
      chunks: seq<seq<Byte>>, random: string)
    requires Receiving(c, st, body, files) && FreshNames(c, files, random)
    ensures Fed(c, st.mode, body, body + Concat(chunks), chunks != [], files, Feed(c, st, chunks, random))
    decreases |chunks|, 1
  {
    if chunks == [] {
      assert body + [] == body;
    } else {
      ReceiveFed(c, st, body, files, chunks[0], random);
      FeedOn(c, st.mode, body, body + chunks[0], files, Receive(c, st, chunks[0], random), chunks[1..], random);
      assert body + chunks[0] + Concat(chunks[1..]) == body + Concat(chunks);
    }
  }

  /** What follows one chunk. */
  lemma {:induction false} FeedOn(c: Config, mode: Mode, body: seq<Byte>, mid: seq<Byte>, files: Files,
      first: (Store, Option<Failure>), rest: seq<seq<Byte>>, random: string)
    requires Fed(c, mode, body, mid, true, files, first) && FreshNames(c, files, random)
    ensures Fed(c, mode, body, mid + Concat(rest), true, files,
                if first.1.Some? then first else Feed(c, first.0, rest, random))
    decreases |rest|, 2
  {
    if first.1.None? {
      FeedAccumulates(c, first.0, mid, files, rest, random);
      FedTrans(c, mode, body, mid, mid + Concat(rest), rest != [], files, first, Feed(c, first.0, rest, random));
    }
  }

  /** Without a name, or with the first one generated. */
  predicate Named(c: Config, st: Store, random: string) {
    if st.filename == "" then st.counter == 0 else st.filename == GenName(c, 0, random)
  }

  lemma {:induction false} FeedNames(c: Config, st: Store, chunks: seq<seq<Byte>>, random: string)
    requires Named(c, st, random) && (st.mode == Memory ==> st.filename == "")
    ensures Named(c, Feed(c, st, chunks, random).0, random)
    decreases |chunks|
  {
    if chunks != [] {
      var (st', failure) := Receive(c, st, chunks[0], random);
      if failure.None? { FeedNames(c, st', chunks[1..], random); }
    }
  }

  /** How a body ends up: in memory, in a file, or refused. */
  datatype Fate = InMemory | InFile | Rejected

  function FateOf(c: Config, files: Files, chunks: seq<seq<Byte>>, random: string): Fate {
    var (st, failure) := Feed(c, Start(files), chunks, random);
    if failure.Some? then Rejected else if st.mode == File then InFile else InMemory
  }

  /** Where a body goes depends on its length alone, for any limit of at least one byte. */
  lemma FateByLength(c: Config, files: Files, chunks: seq<seq<Byte>>, random: string)
    requires FreshNames(c, files, random) && c.limit >= 1
    ensures FateOf(c, files, chunks, random) ==
            if |Concat(chunks)| < c.limit then InMemory else if c.tmpDir == "" then Rejected else InFile
  {
    FeedAccumulates(c, Start(files), [], files, chunks, random);
    assert [] + Concat(chunks) == Concat(chunks);
  }

  lemma FateAtZeroLimit(c: Config, files: Files, chunks: seq<seq<Byte>>, random: string)
    requires FreshNames(c, files, random) && c.limit == 0
    ensures FateOf(c, files, chunks, random) ==
            if chunks == [] then InMemory else if c.tmpDir == "" then Rejected else InFile
  {
    FeedAccumulates(c, Start(files), [], files, chunks, random);
  }

  /** Two ways of splitting the same body fare alike exactly when the limit is positive, or both or
      neither arrive in no chunk at all. */
  lemma SplittingMattersIff(c: Config, files: Files, a: seq<seq<Byte>>, b: seq<seq<Byte>>, random: string)
    requires FreshNames(c, files, random) && Concat(a) == Concat(b)
    ensures FateOf(c, files, a, random) == FateOf(c, files, b, random)
            <==> c.limit >= 1 || (a == [] <==> b == [])
  {
    if c.limit >= 1 {
      FateByLength(c, files, a, random);
      FateByLength(c, files, b, random);
    } else {
      FateAtZeroLimit(c, files, a, random);
      FateAtZeroLimit(c, files, b, random);
    }
  }

  /** With a limit of zero an empty body is spilled when it arrives as one empty chunk. */
  lemma ZeroLimitSplitsDiffer(files: Files, random: string)
    requires FreshNames(Config("/tmp", 0), files, random)
    ensures Concat<Byte>([]) == Concat<Byte>([[]])
    ensures FateOf(Config("/tmp", 0), files, [], random) == InMemory
    ensures FateOf(Config("/tmp", 0), files, [[]], random) == InFile
  {
    var none: seq<Byte> := [];
    assert [none][1..] == [];
    FateAtZeroLimit(Config("/tmp", 0), files, [], random);
    FateAtZeroLimit(Config("/tmp", 0), files, [[]], random);
  }

  // ----- after receiving -----

  /** Every read closes the file that was being written, and so does destruction; once a body has been asked for as a
      file, no more of it is accepted and nothing changes. */
  lemma ReadingEndsReceiving(c: Config, st: Store, chunk: seq<Byte>, random: string)
    ensures !ReadString(st).0.open && !ReadFilename(c, st, random).0.open
    ensures st.filename != "" ==> !Drop(st).open && st.filename !in Drop(st).files
    ensures Receive(c, ReadFilename(c, st, random).0, chunk, random)
            == (ReadFilename(c, st, random).0, Some(WriterClosed))
  {
  }
}
