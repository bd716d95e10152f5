/**
 * The reader of an upload stream: it collects the chunks of a file under a size
 * bound, sniffing the content type from the first one, or drains the stream of a
 * URL source. The messages still to come are a sequence that ends in EOF or in an error.
 */
module UploadStream {
  import opened Options
  import opened SourceTable

  type Bytes = seq<bv8>

  const MAX_FILE_SIZE: int := 0x4000_0000
  const SNIFF_LENGTH: int := 512

  datatype Meta = Meta(project: int, name: string, kind: Option<SourceType>, size: int, url: string)

  datatype Msg = MetaMsg(meta: Meta) | Chunk(data: Bytes) | Done(flag: bool) | Empty

  datatype End = EOF | Broken

  datatype Recv = Message(msg: Msg) | AtEnd(end: End)

  datatype Reason =
    | StreamError | ExpectedChunk | FirstChunkTooSmall | UnsupportedType | TooLarge | Incomplete | EmptyFile
    | NoMetadata | NotMetadata | NoProject | NoName | NoType | NoUrl | NoSize

  datatype Result<+T> = Ok(value: T) | Err(reason: Reason)

  datatype File = File(content: Bytes, contentType: string)

  /** `http.DetectContentType` looks at no more than the first 512 bytes. */
  datatype Sniffer = Sniffer(detect: Bytes -> string, allowed: set<string>) {
    function TypeOf(data: Bytes): string {
      detect(if |data| <= SNIFF_LENGTH then data else data[..SNIFF_LENGTH])
    }
  }

  function Concat(chunks: seq<Bytes>): Bytes {
    if chunks == [] then [] else Concat(chunks[..|chunks| - 1]) + chunks[|chunks| - 1]
  }

  /** Addition of Go's int64. */
  function AddInt64(a: int, b: int): int {
    var sum := (a + b) % 0x1_0000_0000_0000_0000;
    if sum < 0x8000_0000_0000_0000 then sum else sum - 0x1_0000_0000_0000_0000
  }

  class Stream {
    const msgs: seq<Msg>
    const end: End
    var pos: nat

    ghost predicate Valid()
      reads this
    {
      pos <= |msgs|
    }

    constructor (msgs: seq<Msg>, end: End)
      ensures Valid() && this.msgs == msgs && this.end == end && pos == 0
    {
      this.msgs, this.end, pos := msgs, end, 0;
    }

    method Receive() returns (r: Recv)
      requires Valid()
      modifies this
      ensures Valid()
      ensures old(pos) < |msgs| ==> r == Message(msgs[old(pos)]) && pos == old(pos) + 1
      ensures old(pos) == |msgs| ==> r == AtEnd(end) && pos == old(pos)
    {
      if pos < |msgs| {
        r, pos := Message(msgs[pos]), pos + 1;
      } else {
        r := AtEnd(end);
      }
    }
  }

  /** What a run of chunks amounts to before the stream says anything else. */
  function Accumulate(s: Sniffer, chunks: seq<Bytes>): Result<File> {
    if chunks == [] then Ok(File([], ""))
    else if |chunks[0]| < SNIFF_LENGTH then Err(FirstChunkTooSmall)
    else if s.TypeOf(chunks[0]) !in s.allowed then Err(UnsupportedType)
    else if |Concat(chunks)| > MAX_FILE_SIZE then Err(TooLarge)
    else Ok(File(Concat(chunks), s.TypeOf(chunks[0])))
  }

  /** The longest run of chunks in front of the stream. */
  function Leading(msgs: seq<Msg>): (chunks: seq<Bytes>)
    ensures |chunks| <= |msgs|
    ensures forall k :: 0 <= k < |chunks| ==> msgs[k] == Chunk(chunks[k])
    ensures |chunks| < |msgs| ==> !msgs[|chunks|].Chunk?
  {
    if msgs == [] || !msgs[0].Chunk? then [] else [msgs[0].data] + Leading(msgs[1..])
  }

  /** The whole outcome: the chunks decide first, then the message that ends them. */
  function Outcome(s: Sniffer, msgs: seq<Msg>, end: End): Result<File> {
    var chunks := Leading(msgs);
    var file := Accumulate(s, chunks);
    if file.Err? then file
    else if |chunks| == |msgs| then Err(if end.EOF? then Incomplete else StreamError)
    else if msgs[|chunks|] != Done(true) then Err(ExpectedChunk)
    else if file.value.content == [] then Err(EmptyFile)
    else file
  }

  // ---- what follows from the outcome -------------------------------------------------

  lemma ConcatSnoc(chunks: seq<Bytes>, c: Bytes)
    ensures Concat(chunks + [c]) == Concat(chunks) + c
  {
    assert (chunks + [c])[..|chunks|] == chunks;
  }

  lemma ConcatEmpty()
    ensures Concat([]) == []
  {}

  /** A prefix of the chunks gives a prefix of the bytes. */
  lemma {:induction false} ConcatPrefix(chunks: seq<Bytes>, n: nat)
    requires n <= |chunks|
    ensures Concat(chunks[..n]) <= Concat(chunks)
  {
    if n < |chunks| {
      var most := chunks[..|chunks| - 1];
      assert most[..n] == chunks[..n];
      ConcatPrefix(most, n);
    } else {
      assert chunks[..n] == chunks;
    }
  }

  function Messages(chunks: seq<Bytes>): seq<Msg> {
    seq(|chunks|, k requires 0 <= k < |chunks| => Chunk(chunks[k]))
  }

  lemma {:induction false} LeadingOf(chunks: seq<Bytes>, rest: seq<Msg>)
    requires rest == [] || !rest[0].Chunk?
    ensures Leading(Messages(chunks) + rest) == chunks
  {
    var msgs := Messages(chunks) + rest;
    if chunks == [] {
      assert msgs == rest;
    } else {
      assert msgs[1..] == Messages(chunks[1..]) + rest;
      LeadingOf(chunks[1..], rest);
    }
  }

  /** What an upload of these bytes comes to, without a word about chunks. */
  function ByBytes(s: Sniffer, content: Bytes): Result<File> {
    if s.TypeOf(content) !in s.allowed then Err(UnsupportedType)
    else if |content| > MAX_FILE_SIZE then Err(TooLarge)
    else Ok(File(content, s.TypeOf(content)))
  }

  /** The first chunk and the whole file start with the same 512 bytes, and these are what the detector is asked about. */
  lemma SniffsTheSame(s: Sniffer, chunks: seq<Bytes>)
    requires chunks != [] && |chunks[0]| >= 512
    ensures |Concat(chunks)| >= 512 && Concat(chunks)[..512] == chunks[0][..512]
    ensures s.TypeOf(chunks[0]) == s.TypeOf(Concat(chunks)) == s.detect(chunks[0][..512])
  {
    ConcatPrefix(chunks, 1);
    assert chunks[..1][..0] == [] && Concat(chunks[..1]) == chunks[0];
    var short, long := chunks[0], Concat(chunks);
    assert short[..SNIFF_LENGTH] == long[..SNIFF_LENGTH];
    assert |short| == SNIFF_LENGTH ==> short == short[..SNIFF_LENGTH];
    assert |long| == SNIFF_LENGTH ==> long == long[..SNIFF_LENGTH];
  }

  /**
   * However the bytes are cut into chunks, the outcome depends on the bytes alone,
   * provided the first chunk is long enough to be sniffed; otherwise, and only then, it does not.
   */
  lemma OutcomeByBytes(s: Sniffer, chunks: seq<Bytes>, rest: seq<Msg>, end: End)
    requires chunks != []
    ensures var r := Outcome(s, Messages(chunks) + [Done(true)] + rest, end);
      && (r == ByBytes(s, Concat(chunks)) <==> |chunks[0]| >= SNIFF_LENGTH)
      && (r == Err(FirstChunkTooSmall) <==> |chunks[0]| < SNIFF_LENGTH)
  {
    hide Leading, Concat;
    var tail := [Done(true)] + rest;
    var msgs := Messages(chunks) + tail;
    assert Messages(chunks) + [Done(true)] + rest == msgs;
    LeadingOf(chunks, tail);
    assert msgs[|chunks|] == Done(true);
    if |chunks[0]| >= SNIFF_LENGTH {
      SniffsTheSame(s, chunks);
    }
  }

  lemma SplittingDoesNotMatter(s: Sniffer, cs: seq<Bytes>, ds: seq<Bytes>, rest: seq<Msg>, rest': seq<Msg>, end: End, end': End)
    requires cs != [] && ds != [] && |cs[0]| >= SNIFF_LENGTH && |ds[0]| >= SNIFF_LENGTH && Concat(cs) == Concat(ds)
    ensures Outcome(s, Messages(cs) + [Done(true)] + rest, end) == Outcome(s, Messages(ds) + [Done(true)] + rest', end')
  {
    OutcomeByBytes(s, cs, rest, end);
    OutcomeByBytes(s, ds, rest', end');
  }

  // ---- the loops ---------------------------------------------------------------------

  /** Every chunk is short enough for its length to be added in 64 bits. */
  predicate Addable(msgs: seq<Msg>) {
    forall k :: 0 <= k < |msgs| && msgs[k].Chunk? ==> |msgs[k].data| < 0x8000_0000_0000_0000 - MAX_FILE_SIZE
  }

  /** Where the first `true` done is, if the stream gets to one. */
  predicate FirstDone(msgs: seq<Msg>, k: nat) {
    k < |msgs| && msgs[k] == Done(true) && forall j :: 0 <= j < k ==> msgs[j] != Done(true)
  }

  lemma {:induction false} LeadingPrefix(msgs: seq<Msg>, chunks: seq<Bytes>, n: nat)
    requires n == |chunks| <= |msgs|
    requires forall k :: 0 <= k < n ==> msgs[k] == Chunk(chunks[k])
    ensures n <= |Leading(msgs)| && Leading(msgs)[..n] == chunks
    ensures n < |msgs| && !msgs[n].Chunk? ==> Leading(msgs) == chunks
    ensures n == |msgs| ==> Leading(msgs) == chunks
  {
    if n == 0 {
    } else {
      LeadingPrefix(msgs[1..], chunks[1..], n - 1);
    }
  }

  /** An error the chunks so far already force is the outcome, whatever follows. */
  lemma ErrorStands(s: Sniffer, msgs: seq<Msg>, end: End, chunks: seq<Bytes>)
    requires chunks != [] && |chunks| <= |msgs| && Accumulate(s, chunks).Err?
    requires forall k :: 0 <= k < |chunks| ==> msgs[k] == Chunk(chunks[k])
    ensures Outcome(s, msgs, end) == Accumulate(s, chunks)
  {
    var all := Leading(msgs);
    LeadingPrefix(msgs, chunks, |chunks|);
    hide Leading, Concat;
    assert all[0] == all[..|chunks|][0] == chunks[0];
    ConcatPrefix(all, |chunks|);
  }

  /** Otherwise the message after the last chunk decides. */
  lemma LastChunk(s: Sniffer, msgs: seq<Msg>, end: End, chunks: seq<Bytes>)
    requires |chunks| <= |msgs| && Accumulate(s, chunks).Ok?
    requires forall k :: 0 <= k < |chunks| ==> msgs[k] == Chunk(chunks[k])
    requires |chunks| == |msgs| || !msgs[|chunks|].Chunk?
    ensures var file := Accumulate(s, chunks);
      Outcome(s, msgs, end) ==
        if |chunks| == |msgs| then Err(if end.EOF? then Incomplete else StreamError)
        else if msgs[|chunks|] != Done(true) then Err(ExpectedChunk)
        else if file.value.content == [] then Err(EmptyFile)
        else file
  {
    LeadingPrefix(msgs, chunks, |chunks|);
  }

  /** The stream begins with a chunk. */
  predicate StartsWithChunk(msgs: seq<Msg>) {
    msgs != [] && msgs[0].Chunk?
  }

  /** The outcome in bytes: what is refused because of the first chunk, because of the size, and what is accepted as what. */
  lemma OutcomeInBytes(s: Sniffer, msgs: seq<Msg>, end: End)
    ensures var r := Outcome(s, msgs, end); var content := Concat(Leading(msgs));
      && (r == Err(FirstChunkTooSmall) <==> StartsWithChunk(msgs) && |msgs[0].data| < 512)
      && (r == Err(UnsupportedType) <==>
            StartsWithChunk(msgs) && |msgs[0].data| >= 512 && s.detect(msgs[0].data[..512]) !in s.allowed)
      && (r == Err(TooLarge) <==>
            StartsWithChunk(msgs) && |msgs[0].data| >= 512 && s.detect(msgs[0].data[..512]) in s.allowed && |content| > 0x4000_0000)
      && (r.Ok? ==> |content| >= 512 && r.value == File(content, s.detect(content[..512])))
  {
    var chunks := Leading(msgs);
    ConcatEmpty();
    if chunks != [] {
      if |chunks[0]| >= 512 { SniffsTheSame(s, chunks); }
    }
  }

  method ReceiveChunks(stream: Stream, s: Sniffer) returns (r: Result<File>)
    requires stream.Valid() && Addable(stream.msgs)
    modifies stream
    ensures stream.Valid()
    ensures r == Outcome(s, stream.msgs[old(stream.pos)..], stream.end)
    ensures var todo := stream.msgs[old(stream.pos)..];
      && (r == Err(FirstChunkTooSmall) <==> StartsWithChunk(todo) && |todo[0].data| < 512)
      && (r == Err(UnsupportedType) <==>
            StartsWithChunk(todo) && |todo[0].data| >= 512 && s.detect(todo[0].data[..512]) !in s.allowed)
      && (r == Err(TooLarge) <==>
            StartsWithChunk(todo) && |todo[0].data| >= 512 && s.detect(todo[0].data[..512]) in s.allowed
            && |Concat(Leading(todo))| > 0x4000_0000)
    ensures r.Ok? ==>
      && 512 <= |r.value.content| <= 0x4000_0000 && r.value.contentType in s.allowed
      && r.value.contentType == s.detect(r.value.content[..512])
      && old(stream.pos) < stream.pos && FirstDone(stream.msgs[old(stream.pos)..], stream.pos - 1 - old(stream.pos))
  {
    hide Leading, Concat, Outcome;
    var buf: Bytes, totalSize, contentType := [], 0, "";
    var firstChunk, doneReceived := true, false;
    ghost var todo := stream.msgs[stream.pos..];
    OutcomeInBytes(s, todo, stream.end);
    ghost var chunks: seq<Bytes> := [];
    assert Concat(chunks) == [] by { ConcatEmpty(); }

    while true
      invariant stream.Valid() && stream.pos == old(stream.pos) + |chunks| && !doneReceived
      invariant forall k :: 0 <= k < |chunks| ==> todo[k] == Chunk(chunks[k])
      invariant buf == Concat(chunks) && totalSize == |buf| <= MAX_FILE_SIZE
      invariant firstChunk == (chunks == [])
      invariant Accumulate(s, chunks) == Ok(File(buf, contentType))
      decreases |stream.msgs| - stream.pos
    {
      var received := stream.Receive();
      if received.AtEnd? {
        LastChunk(s, todo, stream.end, chunks);
        if received.end.Broken? {
          return Err(StreamError);
        }
        break;
      }
      assert todo[|chunks|] == received.msg;
      if !received.msg.Chunk? {
        LastChunk(s, todo, stream.end, chunks);
      }
      if received.msg == Done(true) {
        doneReceived := true;
        break;
      }
      if !received.msg.Chunk? {
        return Err(ExpectedChunk);
      }
      var chunk := received.msg.data;
      ghost var more := chunks + [chunk];
      ConcatSnoc(chunks, chunk);
      assert more[0] == if chunks == [] then chunk else chunks[0];
      if Accumulate(s, more).Err? {
        ErrorStands(s, todo, stream.end, more);
      }
      if firstChunk {
        if |chunk| < SNIFF_LENGTH {
          return Err(FirstChunkTooSmall);
        }
        contentType := s.TypeOf(chunk);
        if contentType !in s.allowed {
          return Err(UnsupportedType);
        }
        firstChunk := false;
      }
      totalSize := AddInt64(totalSize, |chunk|);
      if totalSize > MAX_FILE_SIZE {
        return Err(TooLarge);
      }
      buf := buf + chunk;
      chunks := more;
    }

    if !doneReceived {
      return Err(Incomplete);
    }
    if |buf| == 0 {
      return Err(EmptyFile);
    }
    return Ok(File(buf, contentType));
  }

  /** Consumes up to the first true done, the end of the stream, or its failure. */
  method DrainStream(stream: Stream) returns (r: Option<Reason>)
    requires stream.Valid()
    modifies stream
    ensures stream.Valid()
    ensures var todo := stream.msgs[old(stream.pos)..]; var used := stream.pos - old(stream.pos);
      if r.None? && used > 0 && used <= |todo| && todo[used - 1] == Done(true) then FirstDone(todo, used - 1)
      else used == |todo| && (forall k :: 0 <= k < |todo| ==> todo[k] != Done(true)) &&
           r == (if stream.end.EOF? then None else Some(StreamError))
  {
    ghost var todo, start := stream.msgs[stream.pos..], stream.pos;
    while true
      invariant stream.Valid() && start <= stream.pos
      invariant forall k :: 0 <= k < stream.pos - start ==> todo[k] != Done(true)
      decreases |stream.msgs| - stream.pos
    {
      var received := stream.Receive();
      if received.AtEnd? {
        return if received.end.EOF? then None else Some(StreamError);
      }
      assert todo[stream.pos - 1 - start] == received.msg;
      if received.msg == Done(true) {
        return None;
      }
    }
  }

  // ---- the handler ----------------------------------------------------------------------

  /** What the handler passes on to the service. */
  datatype Accepted = Accepted(request: Request, file: Option<File>)

  /** The drain of a URL upload ends well: a true done comes, or the stream just ends. */
  ghost predicate Drains(msgs: seq<Msg>, end: End) {
    end.EOF? || exists k :: 0 <= k < |msgs| && msgs[k] == Done(true)
  }

  function RequestOf(meta: Meta, owner: string): Request
    requires meta.kind.Some?
  {
    Request(meta.project, owner, meta.name, meta.kind.value, meta.size, meta.url)
  }

  /**
   * A request goes to the service exactly when its metadata is in order and its stream is:
   * the reader's outcome for a file, any orderly end for a URL.
   */
  method UploadSource(stream: Stream, s: Sniffer, owner: string) returns (r: Result<Accepted>)
    requires stream.Valid() && Addable(stream.msgs)
    modifies stream
    ensures stream.Valid()
    ensures var todo := stream.msgs[old(stream.pos)..];
      if todo == [] then r == Err(NoMetadata)
      else if !todo[0].MetaMsg? then r == Err(NotMetadata)
      else
        var meta := todo[0].meta;
        if meta.project <= 0 then r == Err(NoProject)
        else if meta.name == "" then r == Err(NoName)
        else if meta.kind.None? then r == Err(NoType)
        else
          var request := Request(meta.project, owner, meta.name, meta.kind.value, meta.size, meta.url);
          if meta.kind.value.URL? then
            if meta.url == "" then r == Err(NoUrl)
            else r == if Drains(todo[1..], stream.end) then Ok(Accepted(request, None)) else Err(StreamError)
          else if meta.size <= 0 then r == Err(NoSize)
          else
            var file := Outcome(s, todo[1..], stream.end);
            r == if file.Ok? then Ok(Accepted(request, Some(file.value))) else Err(file.reason)
    ensures r.Ok? && r.value.file.Some? ==>
      && 512 <= |r.value.file.value.content| <= 0x4000_0000 && r.value.file.value.contentType in s.allowed
      && r.value.file.value.contentType == s.detect(r.value.file.value.content[..512])
  {
    hide Outcome;
    ghost var todo := stream.msgs[stream.pos..];
    var first := stream.Receive();
    assert stream.msgs[stream.pos..] == if todo == [] then [] else todo[1..];
    if first.AtEnd? {
      return Err(NoMetadata);
    }
    if !first.msg.MetaMsg? {
      return Err(NotMetadata);
    }
    var meta := first.msg.meta;
    if meta.project <= 0 {
      return Err(NoProject);
    }
    if meta.name == "" {
      return Err(NoName);
    }
    if meta.kind.None? {
      return Err(NoType);
    }
    var request := RequestOf(meta, owner);
    if meta.kind.value.URL? {
      if meta.url == "" {
        return Err(NoUrl);
      }
      var drained := DrainStream(stream);
      if drained.Some? {
        return Err(drained.value);
      }
      return Ok(Accepted(request, None));
    }
    if meta.size <= 0 {
      return Err(NoSize);
    }
    var received := ReceiveChunks(stream, s);
    if received.Err? {
      return Err(received.reason);
    }
    return Ok(Accepted(request, Some(received.value)));
  }
}
