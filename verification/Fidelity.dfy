/** What the outcome of a session means for the files, and when it is a success. */
module Fidelity {
  import opened Prelude
  import opened Chunks
  import opened Messages
  import opened Network
  import opened Session
  import opened Transfer
  import opened Honest
  import opened SessionOutcome

  // ----- File streams -----

  /** A file as the receiving application gets it: its id and the messages with its bytes. */
  datatype FileStream = FileStream(id: string, chunks: seq<Bytes>)

  function Hear(streams: seq<FileStream>, e: Event): seq<FileStream>
  {
    match e
    case Opened(id) => streams + [FileStream(id, [])]
    case Data(bytes) =>
      if streams == [] then streams
      else
        var last := streams[|streams| - 1];
        streams[..|streams| - 1] + [last.(chunks := last.chunks + [bytes])]
    case _ => streams
  }

  /** The streams after a log; `Data` belongs to the latest `Opened`. */
  function StreamsFrom(streams: seq<FileStream>, log: seq<Event>): seq<FileStream>
    decreases |log|
  {
    if log == [] then streams else StreamsFrom(Hear(streams, log[0]), log[1..])
  }

  function Streams(log: seq<Event>): seq<FileStream>
  {
    StreamsFrom([], log)
  }

  lemma {:induction false} StreamsAppend(streams: seq<FileStream>, a: seq<Event>, b: seq<Event>)
    ensures StreamsFrom(streams, a + b) == StreamsFrom(StreamsFrom(streams, a), b)
    decreases |a|
  {
    if a == [] {
      assert a + b == b;
    } else {
      assert (a + b)[1..] == a[1..] + b;
      StreamsAppend(Hear(streams, a[0]), a[1..], b);
    }
  }

  lemma {:induction false} HearData(before: seq<FileStream>, id: string, had: seq<Bytes>, chunks: seq<Bytes>)
    ensures StreamsFrom(before + [FileStream(id, had)], Heard(true, chunks)) == before + [FileStream(id, had + chunks)]
    decreases |chunks|
  {
    var streams := before + [FileStream(id, had)];
    if chunks == [] {
      assert had + chunks == had;
    } else {
      assert streams[..|streams| - 1] == before;
      assert Heard(true, chunks)[1..] == Heard(true, chunks[1..]);
      HearData(before, id, had + [chunks[0]], chunks[1..]);
      assert had + [chunks[0]] + chunks[1..] == had + chunks;
    }
  }

  lemma {:induction false} HearNoise(streams: seq<FileStream>, chunks: seq<Bytes>)
    ensures StreamsFrom(streams, Heard(false, chunks)) == streams
    decreases |chunks|
  {
    if chunks != [] {
      assert Heard(false, chunks)[1..] == Heard(false, chunks[1..]);
      HearNoise(streams, chunks[1..]);
    }
  }

  /** The stream of one queued file, if it is wanted at all. */
  function WantedOf(files: seq<FileDto>, ids: set<string>, f: OutFile): seq<FileStream>
  {
    if f.id in ids && InOffer(files, f.id) then [FileStream(f.id, Split(Flatten(f.pieces), CHUNK_SIZE))] else []
  }

  /** The files that should arrive: queued, selected and offered, with their own bytes, cut
      into messages canonically. */
  function Wanted(files: seq<FileDto>, ids: set<string>, queue: seq<OutFile>): seq<FileStream>
  {
    if queue == [] then [] else WantedOf(files, ids, queue[0]) + Wanted(files, ids, queue[1..])
  }

  lemma HearFile(streams: seq<FileStream>, files: seq<FileDto>, f: OutFile)
    ensures StreamsFrom(streams, FileEvents(files, f))
         == streams + if InOffer(files, f.id) then [FileStream(f.id, Split(Flatten(f.pieces), CHUNK_SIZE))] else []
  {
    var chunks := Split(Flatten(f.pieces), CHUNK_SIZE);
    var open := InOffer(files, f.id);
    assert FileEvents(files, f)[1..] == Heard(open, chunks);
    if open {
      HearData(streams, f.id, [], chunks);
      assert [] + chunks == chunks;
    } else {
      HearNoise(streams, chunks);
    }
  }

  lemma HearQueued(streams: seq<FileStream>, files: seq<FileDto>, ids: set<string>, f: OutFile)
    ensures StreamsFrom(streams, EventsOf(files, ids, f)) == streams + WantedOf(files, ids, f)
  {
    HearFile(streams, files, f);
  }

  lemma HearBoth(streams: seq<FileStream>, now: seq<Event>, later: seq<Event>, first: seq<FileStream>,
                 more: seq<FileStream>)
    requires StreamsFrom(streams, now) == streams + first
    requires StreamsFrom(streams + first, later) == streams + first + more
    ensures StreamsFrom(streams, now + later) == streams + (first + more)
  {
    hide StreamsFrom;
    StreamsAppend(streams, now, later);
    Assoc(streams, first, more);
  }

  lemma {:induction false} HearDeliveries(streams: seq<FileStream>, files: seq<FileDto>, ids: set<string>,
                                          queue: seq<OutFile>)
    ensures StreamsFrom(streams, Deliveries(files, ids, queue)) == streams + Wanted(files, ids, queue)
    decreases |queue|
  {
    if queue != [] {
      var now, later := EventsOf(files, ids, queue[0]), Deliveries(files, ids, queue[1..]);
      var first, more := WantedOf(files, ids, queue[0]), Wanted(files, ids, queue[1..]);
      HearQueued(streams, files, ids, queue[0]);
      HearDeliveries(streams + first, files, ids, queue[1..]);
      HearBoth(streams, now, later, first, more);
    }
  }

  function Accepted(files: seq<FileDto>, ids: set<string>, queue: seq<OutFile>): seq<OutFile>
  {
    if queue == [] then []
    else (if queue[0].id in ids && InOffer(files, queue[0].id) then [queue[0]] else [])
         + Accepted(files, ids, queue[1..])
  }

  /** The stream carries the file: its id and exactly its bytes, both as messages of 16 KiB and as the
      1 MiB blocks that the application is handed. */
  predicate Carries(stream: FileStream, f: OutFile)
  {
    && stream.id == f.id
    && Flatten(stream.chunks) == Flatten(f.pieces)
    && stream.chunks == Split(Flatten(f.pieces), 16 * 1024)
    && Reblock([], stream.chunks, 1024 * 1024) == Split(Flatten(f.pieces), 1024 * 1024)
  }

  lemma CutCarries(f: OutFile)
    ensures Carries(FileStream(f.id, Split(Flatten(f.pieces), CHUNK_SIZE)), f)
  {
    SplitIsCanonical(Flatten(f.pieces), CHUNK_SIZE);
    ReblockedTransfer(Flatten(f.pieces));
  }

  /** Stream by stream: the right file, in the right order. */
  lemma {:induction false} WantedBytes(files: seq<FileDto>, ids: set<string>, queue: seq<OutFile>)
    ensures |Wanted(files, ids, queue)| == |Accepted(files, ids, queue)|
    ensures forall i :: 0 <= i < |Wanted(files, ids, queue)| ==>
      Carries(Wanted(files, ids, queue)[i], Accepted(files, ids, queue)[i])
  {
    hide Carries;
    if queue != [] {
      WantedBytes(files, ids, queue[1..]);
      CutCarries(queue[0]);
    }
  }

  // ----- Success -----

  /** The challenge of `own` is met by the answers of the other side's user. */
  ghost predicate PinMet(own: Env, guesses: seq<string>)
  {
    own.pin.Some? && own.pin.value.pin != "" &&
    exists k :: 0 <= k < own.pin.value.maxTries && k < |guesses| && guesses[k] == own.pin.value.pin
  }

  /** Everything that has to be in place beforehand. */
  ghost predicate Promising(e: Env, r: Env)
    requires e.role.Sending? && r.role.Receiving?
  {
    && Trusts(r, e, e.nonce + r.nonce) && Trusts(e, r, e.nonce + r.nonce)
    && (r.pin.None? || PinMet(r, e.guesses))
    && (Unguarded(e) || PinMet(e, r.guesses))
    && r.role.selection.Chosen?
  }

  /** Wherever an honest session comes to rest, it has succeeded on both sides exactly when
      the peers trust each other's tokens, each PIN challenge is met, the user accepts, and a
      file is open at the end. A receiver PIN that is the empty string is never met. */
  lemma SuccessExactlyWhen(e: Env, r: Env, n: Net<Peer, Message>)
    requires Setting(e, r)
    requires Reachable(e, r, n) && n.left.pc.Halt? && n.right.pc.Halt?
    ensures n.left.pc == Halt(Done) && n.right.pc == Halt(Done)
      <==> Promising(e, r) && EndsOpen(e.role.files, r.role.selection.ids, e.role.queue, false)
  {
    hide Reachable, EndsOpen, Skipped, Deliveries, Trusts;
    Conformance(e, r, n);
  }

  /** A receiver whose PIN is the empty string fails in every session with a peer it trusts:
      it takes the PIN that peer sends for the end of an empty message. */
  lemma EmptyPinSpoils(e: Env, r: Env, n: Net<Peer, Message>)
    requires Setting(e, r) && Trusts(r, e, e.nonce + r.nonce) && Trusts(e, r, e.nonce + r.nonce)
    requires r.pin.Some? && r.pin.value.pin == ""
    requires Reachable(e, r, n) && n.left.pc.Halt? && n.right.pc.Halt?
    ensures n.right.pc == Halt(Failed(ParseError)) && n.left.pc.result.Failed?
  {
    hide Reachable, Trusts;
    Conformance(e, r, n);
  }

  /** A session in which no file is open at the end looks done to the sender and failed to the
      receiver, which takes the closing delimiter for a header. */
  lemma NothingOpenSpoils(e: Env, r: Env, n: Net<Peer, Message>)
    requires Setting(e, r) && Promising(e, r)
    requires !EndsOpen(e.role.files, r.role.selection.ids, e.role.queue, false)
    requires Reachable(e, r, n) && n.left.pc.Halt? && n.right.pc.Halt?
    ensures n.left.pc == Halt(Done) && n.right.pc == Halt(Failed(ParseError))
  {
    hide Reachable, EndsOpen, Skipped, Deliveries;
    Conformance(e, r, n);
    ExpectedWhenPromising(e, r);
  }

  /** When all selected ids were offered, a file is open at the end exactly when some queued
      file was selected. */
  lemma {:induction false} OpenAtTheEnd(files: seq<FileDto>, ids: set<string>, queue: seq<OutFile>, open: bool)
    requires forall id :: id in ids ==> InOffer(files, id)
    ensures EndsOpen(files, ids, queue, open) <==> open || exists i :: 0 <= i < |queue| && queue[i].id in ids
    decreases |queue|
  {
    if queue != [] {
      var rest := queue[1..];
      OpenAtTheEnd(files, ids, rest, if queue[0].id in ids then true else open);
      assert forall i :: 0 <= i < |rest| ==> rest[i] == queue[i + 1];
      if exists i :: 0 <= i < |queue| && queue[i].id in ids {
        var i :| 0 <= i < |queue| && queue[i].id in ids;
        if i > 0 { assert rest[i - 1].id in ids; }
      }
    }
  }

  /** End-to-end fidelity, for every schedule: once an accepted session has come to rest, the
      receiving application holds exactly the queued files that were selected and offered, in
      order and with their bytes; the sending application knows the selection and which of
      its files were left out. */
  lemma FilesArrive(e: Env, r: Env, n: Net<Peer, Message>)
    requires Setting(e, r) && Promising(e, r)
    requires Reachable(e, r, n) && n.left.pc.Halt? && n.right.pc.Halt?
    ensures var ids := r.role.selection.ids;
            && n.left.pc == Halt(Done)
            && n.left.log == [Selected(ids)] + Skipped(ids, e.role.queue)
            && Streams(n.right.log) == Wanted(e.role.files, ids, e.role.queue)
  {
    var ids := r.role.selection.ids;
    var offered := [Offered(e.role.files)];
    Conformance(e, r, n);
    ExpectedWhenPromising(e, r);
    StreamsAppend([], offered, Deliveries(e.role.files, ids, e.role.queue));
    assert StreamsFrom([], offered) == StreamsFrom([], []);
    HearDeliveries([], e.role.files, ids, e.role.queue);
  }

  lemma ExpectedWhenPromising(e: Env, r: Env)
    requires Setting(e, r) && Promising(e, r)
    ensures Expected(e, r) == FilesOutcome(e.role.files, r.role.selection.ids, e.role.queue, false,
                                           [Selected(r.role.selection.ids)], [Offered(e.role.files)])
  {
  }

  // ----- At every moment -----

  lemma ActGrows(env: Env, s: Peer)
    ensures Act(env, s).Internal? || Act(env, s).Emit? ==> s.log <= Act(env, s).next.log
  {
  }

  lemma TakeGrows(env: Env, s: Peer, m: Option<Message>)
    ensures s.log <= Take(env, s, m).log
  {
  }

  lemma StepGrows(e: Env, r: Env, n: Net<Peer, Message>, side: Side)
    requires Step(Program(e), Program(r), n, side).Some?
    ensures var n' := Step(Program(e), Program(r), n, side).value;
            n.left.log <= n'.left.log && n.right.log <= n'.right.log
  {
    ActGrows(e, n.left);
    ActGrows(r, n.right);
    TakeGrows(e, n.left, if n.toLeft == [] then None else Some(n.toLeft[0]));
    TakeGrows(r, n.right, if n.toRight == [] then None else Some(n.toRight[0]));
  }

  lemma {:induction false} RunGrows(e: Env, r: Env, n: Net<Peer, Message>, schedule: seq<Side>)
    requires Run(Program(e), Program(r), n, schedule).Some?
    ensures var n' := Run(Program(e), Program(r), n, schedule).value;
            n.left.log <= n'.left.log && n.right.log <= n'.right.log
    decreases |schedule|
  {
    if schedule != [] {
      StepGrows(e, r, n, schedule[0]);
      RunGrows(e, r, Step(Program(e), Program(r), n, schedule[0]).value, schedule[1..]);
    }
  }

  /** At every moment of every run the applications have been told a prefix of the final
      account and nothing else. */
  lemma NothingPremature(e: Env, r: Env, n: Net<Peer, Message>)
    requires Setting(e, r) && Reachable(e, r, n)
    ensures n.left.log <= Expected(e, r).senderLog
    ensures n.right.log <= Expected(e, r).receiverLog
  {
    var schedule :| Run(Program(e), Program(r), Begin(e, r), schedule) == Some(n);
    var full, end := CompleteRun(e, r);
    var rest := Determinacy(Program(e), Program(r), Begin(e, r), full, schedule);
    RunGrows(e, r, n, rest);
  }
}
