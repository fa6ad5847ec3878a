/** The file phase: from the published selection to the end of both programs. */
module Transfer {
  import opened Prelude
  import opened Chunks
  import opened Messages
  import opened Session
  import opened Legs

  // ----- What the receiving application is told, as a function of the queue -----

  /** The events for binary messages that follow a header. */
  function Heard(open: bool, chunks: seq<Bytes>): (log: seq<Event>)
    ensures |log| == |chunks|
    ensures forall i :: 0 <= i < |log| ==>
      log[i] == if open then Data(chunks[i]) else FileError("unknown", "Received binary data without a header")
  {
    seq(|chunks|, i requires 0 <= i < |chunks| =>
      if open then Data(chunks[i]) else FileError("unknown", "Received binary data without a header"))
  }

  function FileEvents(files: seq<FileDto>, f: OutFile): seq<Event>
  {
    var open := InOffer(files, f.id);
    [if open then Opened(f.id) else FileError(f.id, "Expected size to be available")]
    + Heard(open, Split(Flatten(f.pieces), CHUNK_SIZE))
  }

  function EventsOf(files: seq<FileDto>, ids: set<string>, f: OutFile): seq<Event>
  {
    if f.id in ids then FileEvents(files, f) else []
  }

  /** One block of events for each queued file that was selected, in queue order. */
  function Deliveries(files: seq<FileDto>, ids: set<string>, queue: seq<OutFile>): seq<Event>
  {
    if queue == [] then []
    else EventsOf(files, ids, queue[0]) + Deliveries(files, ids, queue[1..])
  }

  function Skipped(ids: set<string>, queue: seq<OutFile>): seq<Event>
  {
    if queue == [] then []
    else (if queue[0].id in ids then [] else [FileError(queue[0].id, "Failed to get file token")])
         + Skipped(ids, queue[1..])
  }

  /** Whether a file is open when the closing delimiter arrives: the last file that was
      transmitted at all is one the sender has offered. */
  predicate EndsOpen(files: seq<FileDto>, ids: set<string>, queue: seq<OutFile>, open: bool)
  {
    if queue == [] then open
    else EndsOpen(files, ids, queue[1..], if queue[0].id in ids then InOffer(files, queue[0].id) else open)
  }

  // ----- One file on the sending side -----

  lemma SplitStep(a: Bytes, b: Bytes)
    requires |a| == CHUNK_SIZE
    ensures Split(a + b, CHUNK_SIZE) == [a] + Split(b, CHUNK_SIZE)
  {
    var s := a + b;
    if b == [] {
      assert s == a;
    } else {
      assert s[..CHUNK_SIZE] == a && s[CHUNK_SIZE..] == b;
    }
  }

  lemma BinariesCons(chunk: Bytes, chunks: seq<Bytes>)
    ensures Binaries([chunk] + chunks) == [Binary(chunk)] + Binaries(chunks)
  {
  }

  /** However the bytes are supplied, what goes out is their canonical cut. */
  lemma {:induction false} StreamAll(
    env: Env, tokens: map<string, string>, pieces: seq<Bytes>, buffer: Bytes, rest: seq<OutFile>, log: seq<Event>)
    ensures Walk(env, Peer(Stream(tokens, pieces, buffer, rest), log), [], false,
                 Binaries(Split(buffer + Flatten(pieces), 16 * 1024)), Peer(Queue(tokens, rest), log))
    decreases |pieces|, |buffer|
  {
    hide Walk;
    var s := Peer(Stream(tokens, pieces, buffer, rest), log);
    var done := Peer(Queue(tokens, rest), log);
    var data := buffer + Flatten(pieces);
    Stay(env, s);
    NothingAdded([]);
    if |buffer| >= CHUNK_SIZE {
      var chunk, left := buffer[..CHUNK_SIZE], buffer[CHUNK_SIZE..];
      var s1 := Peer(Stream(tokens, pieces, left, rest), log);
      ThenEmit(env, s, [], false, [], s, Binary(chunk), s1);
      StreamAll(env, tokens, pieces, left, rest, log);
      var more := Binaries(Split(left + Flatten(pieces), CHUNK_SIZE));
      Join(env, s, [], false, [] + [Binary(chunk)], s1, [], false, more, done);
      assert data == chunk + (left + Flatten(pieces));
      SplitStep(chunk, left + Flatten(pieces));
      BinariesCons(chunk, Split(left + Flatten(pieces), CHUNK_SIZE));
      assert [] + [Binary(chunk)] + more == Binaries(Split(data, CHUNK_SIZE));
    } else if pieces != [] {
      var s1 := Peer(Stream(tokens, pieces[1..], buffer + pieces[0], rest), log);
      ThenInternal(env, s, [], false, [], s, s1);
      StreamAll(env, tokens, pieces[1..], buffer + pieces[0], rest, log);
      var more := Binaries(Split(buffer + pieces[0] + Flatten(pieces[1..]), CHUNK_SIZE));
      assert data == buffer + pieces[0] + Flatten(pieces[1..]);
      Join(env, s, [], false, [], s1, [], false, more, done);
      NothingAdded(more);
    } else if buffer != [] {
      assert data == buffer;
      ThenEmit(env, s, [], false, [], s, Binary(buffer), done);
      assert [] + [Binary(buffer)] == Binaries(Split(data, CHUNK_SIZE));
    } else {
      assert data == [];
      ThenInternal(env, s, [], false, [], s, done);
      assert Binaries(Split(data, CHUNK_SIZE)) == [];
    }
  }

  /** The messages of one transmitted file. */
  function FileMessages(json: Json, tokens: map<string, string>, f: OutFile): seq<Message>
    requires f.id in tokens
  {
    [Say(json, Header(f.id, tokens[f.id]))] + Binaries(Split(Flatten(f.pieces), CHUNK_SIZE))
  }

  lemma SendFile(env: Env, tokens: map<string, string>, queue: seq<OutFile>, log: seq<Event>)
    requires queue != [] && queue[0].id in tokens
    ensures Walk(env, Peer(Queue(tokens, queue), log), [], false,
                 FileMessages(env.json, tokens, queue[0]), Peer(Queue(tokens, queue[1..]), log))
  {
    hide Walk;
    var f := queue[0];
    var s := Peer(Queue(tokens, queue), log);
    var s1 := QueueTop(env, tokens, queue, log);
    var s2 := Peer(Stream(tokens, f.pieces, [], queue[1..]), log);
    var done := Peer(Queue(tokens, queue[1..]), log);
    Stay(env, s);
    ThenInternal(env, s, [], false, [], s, s1);
    ThenSend(env, s, [], false, [], s1);
    StreamAll(env, tokens, f.pieces, [], queue[1..], log);
    assert [] + Flatten(f.pieces) == Flatten(f.pieces);
    var chunks := Binaries(Split(Flatten(f.pieces), CHUNK_SIZE));
    Join(env, s, [], false, [] + s1.pc.msgs, s2, [], false, chunks, done);
    NothingAdded([]);
    assert [] + s1.pc.msgs + chunks == FileMessages(env.json, tokens, f);
  }

  // ----- One file on the receiving side -----

  lemma {:induction false} HearChunks(env: Env, s: Peer, chunks: seq<Bytes>)
    requires env.role.Receiving? && s.pc.Files?
    ensures Walk(env, s, Binaries(chunks), false, [], s.(log := s.log + Heard(s.pc.open.Some?, chunks)))
    decreases |chunks|
  {
    hide Walk;
    Stay(env, s);
    NothingAdded([]);
    var open := s.pc.open.Some?;
    if chunks == [] {
      assert s.(log := s.log + Heard(open, chunks)) == s;
      assert Binaries(chunks) == [];
    } else {
      var s1 := Take(env, s, Some(Binary(chunks[0])));
      ThenTake(env, s, [], [], s, Binary(chunks[0]));
      HearChunks(env, s1, chunks[1..]);
      var s2 := s.(log := s.log + Heard(open, chunks));
      assert s1.log + Heard(open, chunks[1..]) == s2.log;
      Join(env, s, [] + [Binary(chunks[0])], false, [], s1, Binaries(chunks[1..]), false, [], s2);
      assert [] + [Binary(chunks[0])] + Binaries(chunks[1..]) == Binaries(chunks);
    }
  }

  /** A text message in the file phase, up to the point where its content is looked at. */
  function Reply(env: Env, s: Peer): seq<Message>
    requires env.role.Receiving? && s.pc.Files?
  {
    if s.pc.open.Some? then [ResponseFor(env, s.pc.open.value, s.pc.used)] else []
  }

  function AfterText(env: Env, s: Peer, data: Bytes): Peer
    requires s.pc.Files?
  {
    var open := s.pc.open.Some?;
    TextTop(env, data, open, s.pc.tokens, s.pc.files, s.pc.used + (if open then 1 else 0), s.log)
  }

  lemma HearText(env: Env, s: Peer, data: Bytes)
    requires env.role.Receiving? && s.pc.Files?
    ensures Walk(env, s, [Text(data)], false, Reply(env, s), AfterText(env, s, data))
  {
    hide Walk;
    var s1 := Take(env, s, Some(Text(data)));
    var none: seq<Message> := [];
    Stay(env, s);
    ThenTake(env, s, [], [], s, Text(data));
    assert none + [Text(data)] == [Text(data)];
    if s.pc.open.Some? {
      var s2 := s.(pc := s1.pc.next);
      ThenSend(env, s, [Text(data)], false, [], s1);
      assert none + s1.pc.msgs == Reply(env, s);
      ThenInternal(env, s, [Text(data)], false, Reply(env, s), s2, AfterText(env, s, data));
    } else {
      ThenInternal(env, s, [Text(data)], false, [], s1, AfterText(env, s, data));
    }
  }

  /** A header minted by this receiver opens the file, or reports it as not offered. */
  lemma HearHeader(env: Env, s: Peer, id: string)
    requires s.pc.Files? && Faithful(env.json) && id in s.pc.tokens
    ensures var open := InOffer(s.pc.files, id);
            AfterText(env, s, env.json.write(Header(id, s.pc.tokens[id])))
            == Peer(Files(s.pc.tokens, s.pc.files, if open then Some(id) else None,
                          s.pc.used + (if s.pc.open.Some? then 1 else 0)),
                    s.log + [if open then Opened(id) else FileError(id, "Expected size to be available")])
  {
    var header := Header(id, s.pc.tokens[id]);
    assert env.json.read(KindOf(header), env.json.write(header)) == Some(header);
  }

  /** A whole transmitted file, header first. */
  lemma HearFile(env: Env, s: Peer, f: OutFile)
    requires env.role.Receiving? && s.pc.Files? && Faithful(env.json)
    requires f.id in s.pc.tokens
    ensures var open := if InOffer(s.pc.files, f.id) then Some(f.id) else None;
            var used := s.pc.used + (if s.pc.open.Some? then 1 else 0);
            Walk(env, s, FileMessages(env.json, s.pc.tokens, f), false, Reply(env, s),
                 Peer(Files(s.pc.tokens, s.pc.files, open, used), s.log + FileEvents(s.pc.files, f)))
  {
    hide Walk;
    var header := env.json.write(Header(f.id, s.pc.tokens[f.id]));
    var chunks := Split(Flatten(f.pieces), CHUNK_SIZE);
    var s1 := AfterText(env, s, header);
    HearText(env, s, header);
    HearHeader(env, s, f.id);
    HearChunks(env, s1, chunks);
    var s2 := s1.(log := s1.log + Heard(s1.pc.open.Some?, chunks));
    Join(env, s, [Text(header)], false, Reply(env, s), s1, Binaries(chunks), false, [], s2);
    NothingAdded(Reply(env, s));
    assert s2.log == s.log + FileEvents(s.pc.files, f);
  }
}
