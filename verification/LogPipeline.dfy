/** The log path of worker/internal/a2aruntime/runtime.go: redact, split, number and emit. */
module LogPipeline {
  import opened Bytes
  import opened Redaction
  import opened Utf8

  datatype Stream = Stdout | Stderr | System

  /** a2aext.MaxLogChunkBytes */
  const MAX_LOG_CHUNK_BYTES: int := 32 * 1024

  datatype LogChunk = LogChunk(stream: Stream, content: Text, chunkIndex: nat)

  /** Held text and next chunk index of every stream, and the events emitted so far. */
  datatype Pipe = Pipe(held: map<Stream, Text>, next: map<Stream, nat>, events: seq<LogChunk>)

  ghost predicate Total(p: Pipe) {
    forall s: Stream :: s in p.held && s in p.next
  }

  function Numbered(stream: Stream, from: nat, pieces: seq<Text>): seq<LogChunk>
    decreases |pieces|
  {
    if pieces == [] then []
    else [LogChunk(stream, pieces[0], from)] + Numbered(stream, from + 1, pieces[1..])
  }

  /** emitLog when no emit fails. */
  function EmitLog(secrets: seq<Text>, p: Pipe, stream: Stream, content: Text, final: bool): (q: Pipe)
    requires AllUsable(secrets) && Total(p)
    ensures Total(q)
  {
    var safe := Emitted(secrets, p.held[stream] + content, final);
    var pieces := Split(safe, MAX_LOG_CHUNK_BYTES);
    Pipe(p.held[stream := Held(secrets, p.held[stream] + content, final)],
         p.next[stream := p.next[stream] + |pieces|],
         p.events + Numbered(stream, p.next[stream], pieces))
  }

  datatype Call = Call(stream: Stream, content: Text, final: bool)

  /** flushLogs: one final call per stream, in this order. */
  const FLUSH: seq<Call> := [Call(Stdout, [], true), Call(Stderr, [], true), Call(System, [], true)]

  /** A whole turn: the output of all streams in arrival order, then the flush. */
  function Turn(inputs: seq<(Stream, Text)>): seq<Call> {
    if inputs == [] then FLUSH else [Call(inputs[0].0, inputs[0].1, false)] + Turn(inputs[1..])
  }

  function RunCalls(secrets: seq<Text>, p: Pipe, calls: seq<Call>): (q: Pipe)
    requires AllUsable(secrets) && Total(p)
    ensures Total(q)
    decreases |calls|
  {
    if calls == [] then p
    else RunCalls(secrets, EmitLog(secrets, p, calls[0].stream, calls[0].content, calls[0].final), calls[1..])
  }

  const EMPTY := Pipe(map[Stdout := [], Stderr := [], System := []], map[Stdout := 0, Stderr := 0, System := 0], [])

  lemma EmptyIsTotal(s: Stream)
    ensures s in EMPTY.held && EMPTY.held[s] == [] && s in EMPTY.next && EMPTY.next[s] == 0
  {
    match s case Stdout => case Stderr => case System =>
  }

  function ChunksOf(inputs: seq<(Stream, Text)>, stream: Stream): seq<Text> {
    if inputs == [] then []
    else (if inputs[0].0 == stream then [inputs[0].1] else []) + ChunksOf(inputs[1..], stream)
  }

  /** The chunks of one stream in emission order. */
  function Of(events: seq<LogChunk>, stream: Stream): seq<LogChunk> {
    if events == [] then []
    else if events[0].stream == stream then [events[0]] + Of(events[1..], stream)
    else Of(events[1..], stream)
  }

  /** Their contents, joined. */
  function Joined(chunks: seq<LogChunk>): Text {
    if chunks == [] then [] else chunks[0].content + Joined(chunks[1..])
  }

  lemma {:induction false} OfAppend(a: seq<LogChunk>, b: seq<LogChunk>, stream: Stream)
    ensures Of(a + b, stream) == Of(a, stream) + Of(b, stream)
  {
    if a == [] {
      assert a + b == b;
    } else {
      assert (a + b)[1..] == a[1..] + b;
      OfAppend(a[1..], b, stream);
    }
  }

  lemma {:induction false} JoinedAppend(a: seq<LogChunk>, b: seq<LogChunk>)
    ensures Joined(a + b) == Joined(a) + Joined(b)
  {
    if a == [] {
      assert a + b == b;
    } else {
      assert (a + b)[1..] == a[1..] + b;
      JoinedAppend(a[1..], b);
    }
  }

  lemma {:induction false} NumberedChunks(owner: Stream, from: nat, pieces: seq<Text>)
    ensures var chunks := Numbered(owner, from, pieces);
            && |chunks| == |pieces| && Joined(chunks) == Concat(pieces)
            && forall i :: 0 <= i < |chunks| ==> chunks[i] == LogChunk(owner, pieces[i], from + i)
    decreases |pieces|
  {
    if pieces != [] {
      NumberedChunks(owner, from + 1, pieces[1..]);
      assert Numbered(owner, from, pieces)[1..] == Numbered(owner, from + 1, pieces[1..]);
    }
  }

  lemma {:induction false} OfOwned(chunks: seq<LogChunk>, owner: Stream, stream: Stream)
    requires forall i :: 0 <= i < |chunks| ==> chunks[i].stream == owner
    ensures Of(chunks, stream) == if owner == stream then chunks else []
  {
    if chunks != [] {
      OfOwned(chunks[1..], owner, stream);
      assert chunks == [chunks[0]] + chunks[1..];
    }
  }

  /** One call extends its own stream by the pieces it emits and leaves the other streams alone. */
  lemma EmitLogEffect(secrets: seq<Text>, p: Pipe, owner: Stream, content: Text, final: bool, stream: Stream)
    requires AllUsable(secrets) && Total(p)
    ensures var q := EmitLog(secrets, p, owner, content, final);
            var pieces := Split(Emitted(secrets, p.held[owner] + content, final), MAX_LOG_CHUNK_BYTES);
            Of(q.events, stream) ==
              Of(p.events, stream) + if owner == stream then Numbered(owner, p.next[owner], pieces) else []
  {
    var pieces := Split(Emitted(secrets, p.held[owner] + content, final), MAX_LOG_CHUNK_BYTES);
    var added := Numbered(owner, p.next[owner], pieces);
    NumberedChunks(owner, p.next[owner], pieces);
    OfAppend(p.events, added, stream);
    OfOwned(added, owner, stream);
  }

  lemma EmitLogText(secrets: seq<Text>, p: Pipe, owner: Stream, content: Text, final: bool, stream: Stream)
    requires AllUsable(secrets) && Total(p)
    ensures var before, after := Joined(Of(p.events, stream)),
                                 Joined(Of(EmitLog(secrets, p, owner, content, final).events, stream));
            if owner == stream then after == before + Emitted(secrets, p.held[owner] + content, final)
            else after == before
  {
    var safe := Emitted(secrets, p.held[owner] + content, final);
    var pieces := Split(safe, MAX_LOG_CHUNK_BYTES);
    EmitLogEffect(secrets, p, owner, content, final, stream);
    SplitPieces(safe, MAX_LOG_CHUNK_BYTES);
    NumberedChunks(owner, p.next[owner], pieces);
    JoinedAppend(Of(p.events, stream), Numbered(owner, p.next[owner], pieces));
    assert Of(p.events, stream) + [] == Of(p.events, stream);
  }

  /** What the calls of one stream emit, whatever the other streams do in between. */
  function FeedCalls(secrets: seq<Text>, held: Text, calls: seq<Call>, stream: Stream): Text
    requires AllUsable(secrets)
    decreases |calls|
  {
    if calls == [] then []
    else if calls[0].stream != stream then FeedCalls(secrets, held, calls[1..], stream)
    else
      var text := held + calls[0].content;
      Emitted(secrets, text, calls[0].final)
      + FeedCalls(secrets, Held(secrets, text, calls[0].final), calls[1..], stream)
  }

  lemma EmitLogHeld(secrets: seq<Text>, p: Pipe, c: Call, stream: Stream)
    requires AllUsable(secrets) && Total(p)
    ensures EmitLog(secrets, p, c.stream, c.content, c.final).held[stream]
         == if c.stream == stream then Held(secrets, p.held[stream] + c.content, c.final) else p.held[stream]
  {
  }

  /** One call, then the rest, on the text of one stream. */
  lemma CallThenRest(secrets: seq<Text>, held: Text, held': Text, calls: seq<Call>, stream: Stream, before: Text,
                     after: Text)
    requires AllUsable(secrets) && calls != []
    requires held' == if calls[0].stream == stream then Held(secrets, held + calls[0].content, calls[0].final) else held
    requires after == if calls[0].stream != stream then before
                      else before + Emitted(secrets, held + calls[0].content, calls[0].final)
    ensures after + FeedCalls(secrets, held', calls[1..], stream) == before + FeedCalls(secrets, held, calls, stream)
  {
    if calls[0].stream == stream {
      Assoc(before, Emitted(secrets, held + calls[0].content, calls[0].final),
            FeedCalls(secrets, held', calls[1..], stream));
    }
  }

  lemma {:induction false} RunCallsText(secrets: seq<Text>, p: Pipe, calls: seq<Call>, stream: Stream)
    requires AllUsable(secrets) && Total(p)
    ensures Joined(Of(RunCalls(secrets, p, calls).events, stream))
         == Joined(Of(p.events, stream)) + FeedCalls(secrets, p.held[stream], calls, stream)
    decreases |calls|
  {
    if calls != [] {
      var c := calls[0];
      var q := EmitLog(secrets, p, c.stream, c.content, c.final);
      EmitLogText(secrets, p, c.stream, c.content, c.final, stream);
      EmitLogHeld(secrets, p, c, stream);
      RunCallsText(secrets, q, calls[1..], stream);
      CallThenRest(secrets, p.held[stream], q.held[stream], calls, stream, Joined(Of(p.events, stream)),
                   Joined(Of(q.events, stream)));
    }
  }

  lemma FlushFeeds(secrets: seq<Text>, held: Text, stream: Stream)
    requires AllUsable(secrets)
    ensures FeedCalls(secrets, held, FLUSH, stream) == Emitted(secrets, held + [], true)
  {
    var (c1, c2) := (FLUSH[1..], FLUSH[2..]);
    assert c1[1..] == c2 && c2[1..] == [];
    FinalCallRedacts(secrets, held + []);
  }

  lemma {:induction false} TurnFeeds(secrets: seq<Text>, held: Text, inputs: seq<(Stream, Text)>, stream: Stream)
    requires AllUsable(secrets)
    ensures FeedCalls(secrets, held, Turn(inputs), stream) == Feed(secrets, held, ChunksOf(inputs, stream), [])
    decreases |inputs|
  {
    if inputs == [] {
      FlushFeeds(secrets, held, stream);
    } else {
      assert Turn(inputs)[1..] == Turn(inputs[1..]);
      if inputs[0].0 == stream {
        assert ChunksOf(inputs, stream)[1..] == ChunksOf(inputs[1..], stream);
        TurnFeeds(secrets, Held(secrets, held + inputs[0].1, false), inputs[1..], stream);
      } else {
        assert ChunksOf(inputs, stream) == ChunksOf(inputs[1..], stream);
        TurnFeeds(secrets, held, inputs[1..], stream);
      }
    }
  }

  lemma FeedIsRedaction(secrets: seq<Text>, inputs: seq<(Stream, Text)>, stream: Stream)
    requires AllUsable(secrets)
    ensures FeedCalls(secrets, [], Turn(inputs), stream) == Redact(secrets, Concat(ChunksOf(inputs, stream)))
  {
    TurnFeeds(secrets, [], inputs, stream);
    StreamingEqualsOneShot(secrets, [], ChunksOf(inputs, stream), []);
    assert [] + (Concat(ChunksOf(inputs, stream)) + []) == Concat(ChunksOf(inputs, stream));
  }

  lemma EmptyTotal()
    ensures Total(EMPTY)
  {
    forall s: Stream ensures s in EMPTY.held && s in EMPTY.next { EmptyIsTotal(s); }
  }

  lemma EmptyStart(text: Text, stream: Stream)
    ensures Joined(Of(EMPTY.events, stream)) + text == text
  {
  }

  /** Every stream, read in chunk order, is the one-shot redaction of everything written to it. */
  lemma LogsAreRedactedOutput(secrets: seq<Text>, inputs: seq<(Stream, Text)>, stream: Stream)
    requires AllUsable(secrets)
    ensures Total(EMPTY)
         && Joined(Of(RunCalls(secrets, EMPTY, Turn(inputs)).events, stream))
         == Redact(secrets, Concat(ChunksOf(inputs, stream)))
  {
    EmptyTotal();
    EmptyIsTotal(stream);
    RunCallsText(secrets, EMPTY, Turn(inputs), stream);
    FeedIsRedaction(secrets, inputs, stream);
    EmptyStart(FeedCalls(secrets, [], Turn(inputs), stream), stream);
  }

  // ---------------------------------------------------------------- numbering and bounds

  /** Chunks of a stream are numbered 0, 1, 2, ... in emission order; each is non-empty and within the limit. */
  ghost predicate Orderly(p: Pipe, stream: Stream)
    requires Total(p)
  {
    && |Of(p.events, stream)| == p.next[stream]
    && forall i :: 0 <= i < |Of(p.events, stream)| ==>
         && Of(p.events, stream)[i].chunkIndex == i
         && 0 < |Of(p.events, stream)[i].content| <= MAX_LOG_CHUNK_BYTES
  }

  lemma EmitLogOrderly(secrets: seq<Text>, p: Pipe, owner: Stream, content: Text, final: bool, stream: Stream)
    requires AllUsable(secrets) && Total(p) && Orderly(p, stream)
    ensures Orderly(EmitLog(secrets, p, owner, content, final), stream)
  {
    var safe := Emitted(secrets, p.held[owner] + content, final);
    var pieces := Split(safe, MAX_LOG_CHUNK_BYTES);
    EmitLogEffect(secrets, p, owner, content, final, stream);
    SplitPieces(safe, MAX_LOG_CHUNK_BYTES);
    NumberedChunks(owner, p.next[owner], pieces);
  }

  lemma {:induction false} ChunksAreOrderly(secrets: seq<Text>, p: Pipe, calls: seq<Call>, stream: Stream)
    requires AllUsable(secrets) && Total(p) && Orderly(p, stream)
    ensures Orderly(RunCalls(secrets, p, calls), stream)
    decreases |calls|
  {
    if calls != [] {
      var c := calls[0];
      EmitLogOrderly(secrets, p, c.stream, c.content, c.final, stream);
      ChunksAreOrderly(secrets, EmitLog(secrets, p, c.stream, c.content, c.final), calls[1..], stream);
    }
  }

  // ---------------------------------------------------------------- well-formed UTF-8

  ghost predicate WellFormedSecrets(secrets: seq<Text>) {
    AllUsable(secrets) && forall i :: 0 <= i < |secrets| ==> WellFormed(secrets[i])
  }

  /** Inside a code point nothing matches and nothing waits, because secrets start at a code point. */
  lemma TailIsPlain(secrets: seq<Text>, text: Text)
    requires WellFormedSecrets(secrets) && text != [] && Tail(text[0])
    ensures FirstMatch(secrets, text).None? && !Waiting(secrets, text)
  {
    forall i | 0 <= i < |secrets| ensures !(secrets[i] <= text) && !(text <= secrets[i]) {
      assert secrets[i] in secrets && RuneStart(secrets[i][0]);
    }
  }

  lemma PlainByte(secrets: seq<Text>, text: Text, final: bool)
    requires AllUsable(secrets) && !Stops(secrets, text, final) && FirstMatch(secrets, text).None?
    ensures Emitted(secrets, text, final) == [text[0]] + Emitted(secrets, text[1..], final)
    ensures Held(secrets, text, final) == Held(secrets, text[1..], final)
  {
  }

  lemma SplitHead(text: Text, n: nat, rest: Text)
    requires 1 <= n <= |text|
    ensures [text[0]] + (text[1..][..n - 1] + rest) == text[..n] + rest
  {
    assert [text[0]] + text[1..][..n - 1] == text[..n];
  }

  /** Emitting a plain code point takes one step per byte, and no step in between stops the scan. */
  lemma {:induction false} PlainBytes(secrets: seq<Text>, text: Text, n: nat, final: bool)
    requires WellFormedSecrets(secrets) && n <= |text|
    requires forall k :: 0 <= k < n ==> Tail(text[k])
    ensures Emitted(secrets, text, final) == text[..n] + Emitted(secrets, text[n..], final)
    ensures Held(secrets, text, final) == Held(secrets, text[n..], final)
    decreases n
  {
    if n == 0 {
      assert text[n..] == text && text[..n] == [];
    } else {
      TailIsPlain(secrets, text);
      PlainByte(secrets, text, final);
      PlainBytes(secrets, text[1..], n - 1, final);
      assert text[1..][n - 1..] == text[n..];
      SplitHead(text, n, Emitted(secrets, text[n..], final));
    }
  }

  /** Every call on well-formed input emits and holds well-formed text. */
  lemma {:induction false} RedactionKeepsUtf8(secrets: seq<Text>, text: Text, final: bool)
    requires WellFormedSecrets(secrets) && WellFormed(text)
    ensures WellFormed(Emitted(secrets, text, final)) && WellFormed(Held(secrets, text, final))
    decreases |text|
  {
    if !Stops(secrets, text, final) {
      if FirstMatch(secrets, text).Some? {
        var n := Width(secrets, text);
        HiddenHead(secrets, text);
        RedactionKeepsUtf8(secrets, text[n..], final);
        JoinWellFormed(PLACEHOLDER, Emitted(secrets, text[n..], final));
      } else {
        var n := RuneLen(text);
        PlainHead(secrets, text, n, final);
        WholeRune(text);
        RedactionKeepsUtf8(secrets, text[n..], final);
        JoinWellFormed(text[..n], Emitted(secrets, text[n..], final));
      }
    }
  }

  lemma HiddenHead(secrets: seq<Text>, text: Text)
    requires WellFormedSecrets(secrets) && WellFormed(text) && text != [] && FirstMatch(secrets, text).Some?
    ensures WellFormed(text[Width(secrets, text)..]) && WellFormed(PLACEHOLDER)
  {
    var m := FirstMatch(secrets, text).value;
    var i :| 0 <= i < |secrets| && secrets[i] == m;
    DropWellFormed(m, text);
    AsciiIsWellFormed(PLACEHOLDER);
  }

  lemma PlainHead(secrets: seq<Text>, text: Text, n: nat, final: bool)
    requires WellFormedSecrets(secrets) && 1 <= n <= |text| && forall k :: 1 <= k < n ==> Tail(text[k])
    requires !Stops(secrets, text, final) && FirstMatch(secrets, text).None?
    ensures Emitted(secrets, text, final) == text[..n] + Emitted(secrets, text[n..], final)
    ensures Held(secrets, text, final) == Held(secrets, text[n..], final)
  {
    var tail := text[1..];
    PlainByte(secrets, text, final);
    PlainBytes(secrets, tail, n - 1, final);
    assert tail[n - 1..] == text[n..];
    SplitHead(text, n, Emitted(secrets, text[n..], final));
  }

  lemma WholeRune(text: Text)
    requires RuneLen(text) > 0
    ensures WellFormed(text[..RuneLen(text)])
  {
    var n := RuneLen(text);
    RuneLenOfPrefix(text, n);
    assert text[..n][n..] == [];
  }

  lemma {:induction false} AsciiIsWellFormed(s: Text)
    requires forall k :: 0 <= k < |s| ==> s[k] < 0x80
    ensures WellFormed(s)
    decreases |s|
  {
    if s != [] { AsciiIsWellFormed(s[1..]); }
  }

  predicate AllUtf8(chunks: seq<LogChunk>) {
    forall i :: 0 <= i < |chunks| ==> WellFormed(chunks[i].content)
  }

  ghost predicate CleanPipe(p: Pipe) {
    && Total(p)
    && (forall s: Stream :: WellFormed(p.held[s]))
    && AllUtf8(p.events)
  }

  lemma EmitLogKeepsUtf8(secrets: seq<Text>, p: Pipe, owner: Stream, content: Text, final: bool)
    requires WellFormedSecrets(secrets) && CleanPipe(p) && WellFormed(content)
    ensures CleanPipe(EmitLog(secrets, p, owner, content, final))
  {
    JoinWellFormed(p.held[owner], content);
    var text := p.held[owner] + content;
    RedactionKeepsUtf8(secrets, text, final);
    var safe := Emitted(secrets, text, final);
    PiecesAreUtf8(safe, owner, p.next[owner]);
    AllUtf8Join(p.events, Numbered(owner, p.next[owner], Split(safe, MAX_LOG_CHUNK_BYTES)));
  }

  lemma AllUtf8Join(a: seq<LogChunk>, b: seq<LogChunk>)
    requires AllUtf8(a) && AllUtf8(b)
    ensures AllUtf8(a + b)
  {
  }

  lemma PiecesAreUtf8(safe: Text, owner: Stream, from: nat)
    requires WellFormed(safe)
    ensures AllUtf8(Numbered(owner, from, Split(safe, MAX_LOG_CHUNK_BYTES)))
  {
    FourBytesSuffice(safe, MAX_LOG_CHUNK_BYTES);
    SplitKeepsRunes(safe, MAX_LOG_CHUNK_BYTES);
    NumberedChunks(owner, from, Split(safe, MAX_LOG_CHUNK_BYTES));
  }

  /** With well-formed secrets and output, every emitted chunk is well-formed, as event validation demands. */
  lemma {:induction false} ChunksAreUtf8(secrets: seq<Text>, p: Pipe, calls: seq<Call>)
    requires WellFormedSecrets(secrets) && CleanPipe(p)
    requires forall i :: 0 <= i < |calls| ==> WellFormed(calls[i].content)
    ensures CleanPipe(RunCalls(secrets, p, calls))
    decreases |calls|
  {
    if calls != [] {
      var c := calls[0];
      EmitLogKeepsUtf8(secrets, p, c.stream, c.content, c.final);
      ChunksAreUtf8(secrets, EmitLog(secrets, p, c.stream, c.content, c.final), calls[1..]);
    }
  }

  // ---------------------------------------------------------------- the object

  /** The counters and the event stream of one execution. */
  class LogEmitter {
    var chunkIndex: map<Stream, nat>
    var events: seq<LogChunk>

    method EmitChunks(stream: Stream, pieces: seq<Text>)
      requires stream in chunkIndex
      modifies this
      ensures chunkIndex == old(chunkIndex)[stream := old(chunkIndex)[stream] + |pieces|]
      ensures events == old(events) + Numbered(stream, old(chunkIndex)[stream], pieces)
    {
      NumberedChunks(stream, chunkIndex[stream], pieces);
      ghost var all := Numbered(stream, chunkIndex[stream], pieces);
      for i := 0 to |pieces|
        invariant stream in chunkIndex
        invariant chunkIndex == old(chunkIndex)[stream := old(chunkIndex)[stream] + i]
        invariant events == old(events) + all[..i]
      {
        assert all[..i + 1] == all[..i] + [all[i]];
        var index := chunkIndex[stream];
        chunkIndex := chunkIndex[stream := index + 1];
        events := events + [LogChunk(stream, pieces[i], index)];
      }
    }

    /** emitLog on the redactor of the stream: the three fields move as EmitLog says. */
    method Emit(redactor: Redactor, stream: Stream, content: Text, final: bool)
      requires redactor.Valid() && stream in chunkIndex
      modifies this, redactor`pending
      ensures redactor.Valid()
      ensures redactor.pending == Held(redactor.secrets, old(redactor.pending) + content, final)
      ensures var pieces := Split(Emitted(redactor.secrets, old(redactor.pending) + content, final),
                                  MAX_LOG_CHUNK_BYTES);
              && chunkIndex == old(chunkIndex)[stream := old(chunkIndex)[stream] + |pieces|]
              && events == old(events) + Numbered(stream, old(chunkIndex)[stream], pieces)
    {
      var safe := redactor.RedactChunk(content, final);
      var pieces := SplitUTF8(safe, MAX_LOG_CHUNK_BYTES);
      EmitChunks(stream, pieces);
    }
  }
}
