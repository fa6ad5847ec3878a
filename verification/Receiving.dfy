/** The receiver's file loop against a peer that may send anything at all. */
module Receiving {
  import opened Prelude
  import opened Messages
  import opened Network
  import opened Session
  import opened Fidelity

  /** The tokens this receiver has minted, the files it was offered, and what its application
      had been told before the first of them came. */
  datatype Deal = Deal(env: Env, tokens: map<string, string>, files: seq<FileDto>, earlier: seq<Event>)

  /** A header the receiver accepts: it names a selected and offered file with its token. */
  function Accepts(deal: Deal, m: Message): Option<string>
  {
    if m.Binary? then None
    else
      match deal.env.json.read(FileHeader, m.data)
      case Some(Header(id, token)) =>
        if id in deal.tokens && deal.tokens[id] == token && InOffer(deal.files, id) then Some(id) else None
      case _ => None
  }

  // ----- What the messages say, read without any state -----

  function LeadingBinaries(ms: seq<Message>): seq<Bytes>
  {
    if ms == [] || ms[0].Text? then [] else [ms[0].data] + LeadingBinaries(ms[1..])
  }

  /** One stream for each accepted header: the binary messages up to the next text message. */
  function Sections(deal: Deal, ms: seq<Message>): seq<FileStream>
  {
    if ms == [] then []
    else
      var id := Accepts(deal, ms[0]);
      (if id.Some? then [FileStream(id.value, LeadingBinaries(ms[1..]))] else []) + Sections(deal, ms[1..])
  }

  /** The file that is open behind these messages. */
  function OpenAfter(deal: Deal, ms: seq<Message>): Option<string>
  {
    if ms == [] then None
    else
      var last := ms[|ms| - 1];
      if last.Text? then Accepts(deal, last) else OpenAfter(deal, ms[..|ms| - 1])
  }

  function CountBinary(ms: seq<Message>): nat
  {
    if ms == [] then 0 else CountBinary(ms[..|ms| - 1]) + if ms[|ms| - 1].Binary? then 1 else 0
  }

  /** Why a header is not accepted. */
  function Refusal(deal: Deal, id: string, token: string): string
  {
    if id !in deal.tokens then "File not found"
    else if deal.tokens[id] != token then "Invalid token"
    else "Expected size to be available"
  }

  /** The last message is the delimiter behind an open file, which ends the transfer. */
  predicate Completed(deal: Deal, ms: seq<Message>)
  {
    && ms != [] && ms[|ms| - 1].Text? && |ms[|ms| - 1].data| <= 1
    && OpenAfter(deal, ms[..|ms| - 1]).Some?
  }

  /** The last message stands where a header should, and is none. */
  predicate NoHeader(deal: Deal, ms: seq<Message>)
  {
    && ms != [] && ms[|ms| - 1].Text? && !Completed(deal, ms)
    && match deal.env.json.read(FileHeader, ms[|ms| - 1].data)
       case Some(Header(_, _)) => false
       case _ => true
  }

  /** What the application is told about these messages: one event for each binary message and
      one for each header, in order. */
  function Reports(deal: Deal, ms: seq<Message>): seq<Event>
  {
    if ms == [] then []
    else
      var before, m := ms[..|ms| - 1], ms[|ms| - 1];
      Reports(deal, before) +
      if m.Binary? then
        [if OpenAfter(deal, before).Some? then Data(m.data) else FileError("unknown", MISSING_HEADER)]
      else
        match deal.env.json.read(FileHeader, m.data)
        case Some(Header(id, token)) =>
          if Completed(deal, ms) then []
          else if Accepts(deal, m).Some? then [Opened(id)]
          else [FileError(id, Refusal(deal, id, token))]
        case _ => []
  }

  // ----- What the log says -----

  const MISSING_HEADER: string := "Received binary data without a header"

  /** Binary messages accounted for: forwarded, or reported as lacking a header. */
  function Handled(log: seq<Event>): nat
  {
    if log == [] then 0
    else
      var last := log[|log| - 1];
      Handled(log[..|log| - 1]) + if last.Data? || last == FileError("unknown", MISSING_HEADER) then 1 else 0
  }

  function Ids(streams: seq<FileStream>): (ids: seq<string>)
    ensures |ids| == |streams|
  {
    seq(|streams|, i requires 0 <= i < |streams| => streams[i].id)
  }

  /** The message answers for this file: it names the file, and says that all is well if the
      user has said so of the file in this place, and else why not. */
  predicate Answers(env: Env, m: Message, id: string, i: nat)
    requires env.role.Receiving?
  {
    var results := env.role.results;
    var good := i < |results| && results[i].success;
    var reason :=
      if i >= |results| then "Failed to receive file result"
      else if results[i].error.None? then "Unknown error"
      else results[i].error.value;
    && m.Text?
    && env.json.read(SendFileResponse, m.data) == Some(FileResponse(id, good, if good then None else Some(reason)))
  }

  /** One answer for each of these files, in order. */
  ghost predicate AnswersAll(env: Env, ms: seq<Message>, ids: seq<string>)
    requires env.role.Receiving?
  {
    |ms| == |ids| && forall i :: 0 <= i < |ids| ==> Answers(env, ms[i], ids[i], i)
  }

  lemma ResponsesAnswer(env: Env, ids: seq<string>)
    requires env.role.Receiving? && Faithful(env.json)
    ensures AnswersAll(env, Responses(env, ids), ids)
  {
    forall i | 0 <= i < |ids| ensures Answers(env, ResponseFor(env, ids[i], i), ids[i], i) {
      ResponseAnswers(env, ids[i], i);
    }
  }

  lemma ResponseAnswers(env: Env, id: string, i: nat)
    requires env.role.Receiving? && Faithful(env.json)
    ensures Answers(env, ResponseFor(env, id, i), id, i)
  {
    forall d: Dto ensures env.json.read(KindOf(d), env.json.write(d)) == Some(d) {
    }
  }

  /** The responses to these files, in order. */
  function Responses(env: Env, ids: seq<string>): (ms: seq<Message>)
    requires env.role.Receiving?
    ensures |ms| == |ids|
  {
    seq(|ids|, i requires 0 <= i < |ids| => ResponseFor(env, ids[i], i))
  }

  // ----- Appending one message -----

  lemma {:induction false} LeadingSnoc(ms: seq<Message>, m: Message)
    ensures LeadingBinaries(ms + [m])
         == if m.Binary? && (forall i :: 0 <= i < |ms| ==> ms[i].Binary?)
            then LeadingBinaries(ms) + [m.data] else LeadingBinaries(ms)
  {
    if ms != [] && ms[0].Binary? {
      assert (ms + [m])[1..] == ms[1..] + [m];
      assert forall i :: 0 <= i < |ms| - 1 ==> ms[1..][i] == ms[i + 1];
      LeadingSnoc(ms[1..], m);
      if forall i :: 0 <= i < |ms| - 1 ==> ms[1..][i].Binary? {
        assert forall i :: 0 < i < |ms| ==> ms[i] == ms[1..][i - 1];
      }
    }
  }

  predicate AllBinary(ms: seq<Message>)
  {
    forall i :: 0 <= i < |ms| ==> ms[i].Binary?
  }

  lemma {:induction false} OpenOfCons(deal: Deal, first: Message, ms: seq<Message>)
    ensures OpenAfter(deal, [first] + ms)
         == if AllBinary(ms) then (if first.Text? then Accepts(deal, first) else None) else OpenAfter(deal, ms)
    decreases |ms|
  {
    var all := [first] + ms;
    if ms == [] {
      assert all == [first];
      assert all[..0] == [];
    } else {
      assert all[..|all| - 1] == [first] + ms[..|ms| - 1];
      if ms[|ms| - 1].Binary? {
        OpenOfCons(deal, first, ms[..|ms| - 1]);
      }
    }
  }

  /** Behind an open file there is a last section. */
  lemma {:induction false} OpenHasSection(deal: Deal, ms: seq<Message>)
    requires OpenAfter(deal, ms).Some?
    ensures var streams := Sections(deal, ms);
            streams != [] && streams[|streams| - 1].id == OpenAfter(deal, ms).value
  {
    assert ms == [ms[0]] + ms[1..];
    OpenOfCons(deal, ms[0], ms[1..]);
    if AllBinary(ms[1..]) {
      NoTextNoSection(deal, ms[1..]);
    } else {
      OpenHasSection(deal, ms[1..]);
    }
  }

  lemma {:induction false} NoTextNoSection(deal: Deal, ms: seq<Message>)
    requires AllBinary(ms)
    ensures Sections(deal, ms) == []
  {
    if ms != [] {
      NoTextNoSection(deal, ms[1..]);
    }
  }

  function Extend(streams: seq<FileStream>, data: Bytes): seq<FileStream>
  {
    if streams == [] then streams
    else
      var last := streams[|streams| - 1];
      streams[..|streams| - 1] + [last.(chunks := last.chunks + [data])]
  }

  lemma ExtendCons(one: seq<FileStream>, more: seq<FileStream>, data: Bytes)
    requires more != []
    ensures Extend(one + more, data) == one + Extend(more, data)
  {
    var all := one + more;
    assert all[..|all| - 1] == one + more[..|more| - 1];
  }

  /** How one more message changes the sections. */
  lemma {:induction false} SectionsSnoc(deal: Deal, ms: seq<Message>, m: Message)
    ensures Sections(deal, ms + [m])
         == if m.Binary? then (if OpenAfter(deal, ms).Some? then Extend(Sections(deal, ms), m.data)
                               else Sections(deal, ms))
            else Sections(deal, ms)
                 + (if Accepts(deal, m).Some? then [FileStream(Accepts(deal, m).value, [])] else [])
  {
    if ms == [] {
      assert ms + [m] == [m];
      assert [m][1..] == [];
      assert Sections(deal, []) == [];
    } else {
      var tail := ms[1..];
      assert (ms + [m])[1..] == tail + [m];
      assert ms == [ms[0]] + tail;
      SectionsSnoc(deal, tail, m);
      LeadingSnoc(tail, m);
      OpenOfCons(deal, ms[0], tail);
      SectionsSnocStep(deal, ms[0], tail, m);
    }
  }

  lemma SectionsSnocStep(deal: Deal, first: Message, tail: seq<Message>, m: Message)
    requires Sections(deal, tail + [m])
         == if m.Binary? then (if OpenAfter(deal, tail).Some? then Extend(Sections(deal, tail), m.data)
                               else Sections(deal, tail))
            else Sections(deal, tail)
                 + (if Accepts(deal, m).Some? then [FileStream(Accepts(deal, m).value, [])] else [])
    requires LeadingBinaries(tail + [m])
         == if m.Binary? && AllBinary(tail) then LeadingBinaries(tail) + [m.data] else LeadingBinaries(tail)
    ensures Sections(deal, [first] + tail + [m])
         == if m.Binary? then (if OpenAfter(deal, [first] + tail).Some?
                               then Extend(Sections(deal, [first] + tail), m.data)
                               else Sections(deal, [first] + tail))
            else Sections(deal, [first] + tail)
                 + (if Accepts(deal, m).Some? then [FileStream(Accepts(deal, m).value, [])] else [])
  {
    hide Sections, OpenAfter, LeadingBinaries, Accepts, Extend;
    SectionsCons(deal, first, tail);
    SectionsCons(deal, first, tail + [m]);
    assert [first] + tail + [m] == [first] + (tail + [m]);
    OpenOfCons(deal, first, tail);
    var one := Heading(deal, first, tail);
    if m.Text? {
      var more := if Accepts(deal, m).Some? then [FileStream(Accepts(deal, m).value, [])] else [];
      assert one + Sections(deal, tail) + more == one + (Sections(deal, tail) + more);
    } else if AllBinary(tail) {
      NoTextNoSection(deal, tail);
      AllBinaryClosed(deal, tail);
      assert one + [] == one;
      HeadingGrows(deal, first, tail, m);
    } else if OpenAfter(deal, tail).Some? {
      OpenHasSection(deal, tail);
      ExtendCons(one, Sections(deal, tail), m.data);
    }
  }

  /** The stream that the first message opens, if it does. */
  function Heading(deal: Deal, first: Message, ms: seq<Message>): seq<FileStream>
  {
    if Accepts(deal, first).Some? then [FileStream(Accepts(deal, first).value, LeadingBinaries(ms))] else []
  }

  lemma SectionsCons(deal: Deal, first: Message, ms: seq<Message>)
    ensures Sections(deal, [first] + ms) == Heading(deal, first, ms) + Sections(deal, ms)
  {
    assert ([first] + ms)[1..] == ms;
  }

  lemma HeadingGrows(deal: Deal, first: Message, ms: seq<Message>, m: Message)
    requires m.Binary? && LeadingBinaries(ms + [m]) == LeadingBinaries(ms) + [m.data]
    ensures Heading(deal, first, ms + [m]) + []
         == if first.Text? && Accepts(deal, first).Some? then Extend(Heading(deal, first, ms), m.data)
            else Heading(deal, first, ms)
  {
  }

  lemma {:induction false} AllBinaryClosed(deal: Deal, ms: seq<Message>)
    requires AllBinary(ms)
    ensures OpenAfter(deal, ms) == None
  {
    if ms != [] {
      AllBinaryClosed(deal, ms[..|ms| - 1]);
    }
  }

  // ----- The invariant of the loop -----

  /** The log is right about the messages: it holds the reports on them, the streams are the
      sections, and every binary message is accounted for once. */
  ghost predicate Tally(deal: Deal, heard: seq<Message>, log: seq<Event>)
  {
    && Streams(log) == Sections(deal, heard) && Handled(log) == CountBinary(heard)
    && log == deal.earlier + Reports(deal, heard)
  }

  /** The files whose end has been heard: all accepted ones but the one still open. */
  function Closed(deal: Deal, heard: seq<Message>): seq<string>
  {
    var ids := Ids(Sections(deal, heard));
    if OpenAfter(deal, heard).Some? && ids != [] then ids[..|ids| - 1] else ids
  }

  ghost predicate InText(deal: Deal, heard: seq<Message>, s: Peer, data: Bytes, wasOpen: bool,
                         tokens: map<string, string>, files: seq<FileDto>, used: nat)
  {
    && heard != [] && heard[|heard| - 1] == Text(data)
    && tokens == deal.tokens && files == deal.files
    && Tally(deal, heard[..|heard| - 1], s.log)
    && (wasOpen <==> OpenAfter(deal, heard[..|heard| - 1]).Some?)
    && used == |Sections(deal, heard[..|heard| - 1])|
  }

  ghost predicate LoopInv(deal: Deal, heard: seq<Message>, outs: seq<Message>, s: Peer)
    requires deal.env.role.Receiving?
  {
    match s.pc
    case Files(tokens, files, open, used) =>
      && tokens == deal.tokens && files == deal.files
      && Tally(deal, heard, s.log)
      && open == OpenAfter(deal, heard)
      && !Completed(deal, heard) && !NoHeader(deal, heard)
      && outs == Responses(deal.env, Closed(deal, heard))
      && used == |Closed(deal, heard)|
    case Out(msgs, TextIn(data, wasOpen, tokens, files, used)) =>
      && wasOpen
      && InText(deal, heard, s, data, wasOpen, tokens, files, used)
      && |msgs| <= 1
      && outs + msgs == Responses(deal.env, Ids(Sections(deal, heard[..|heard| - 1])))
    case TextIn(data, wasOpen, tokens, files, used) =>
      && InText(deal, heard, s, data, wasOpen, tokens, files, used)
      && outs == Responses(deal.env, Ids(Sections(deal, heard[..|heard| - 1])))
    case Halt(result) =>
      && Tally(deal, heard, s.log)
      && result == (if NoHeader(deal, heard) then Failed(ParseError) else Done)
      && outs == Responses(deal.env, Closed(deal, heard))
    case _ => false
  }

  lemma StreamsSnoc(log: seq<Event>, e: Event)
    ensures Streams(log + [e]) == Hear(Streams(log), e)
    ensures Handled(log + [e]) == Handled(log) + if e.Data? || e == FileError("unknown", MISSING_HEADER) then 1 else 0
  {
    StreamsAppend([], log, [e]);
    assert [e][1..] == [];
    assert StreamsFrom(Streams(log), [e]) == StreamsFrom(Hear(Streams(log), e), []);
    assert (log + [e])[..|log|] == log;
  }

  lemma CountSnoc(deal: Deal, ms: seq<Message>, m: Message)
    ensures CountBinary(ms + [m]) == CountBinary(ms) + if m.Binary? then 1 else 0
    ensures OpenAfter(deal, ms + [m]) == if m.Text? then Accepts(deal, m) else OpenAfter(deal, ms)
  {
    assert (ms + [m])[..|ms|] == ms;
  }

  lemma ReportsSnoc(deal: Deal, before: seq<Message>, m: Message, e: seq<Event>)
    requires Reports(deal, before + [m]) == Reports(deal, before) + e
    ensures deal.earlier + Reports(deal, before + [m]) == deal.earlier + Reports(deal, before) + e
  {
  }

  /** How one more binary message is reported. */
  lemma ReportBinary(deal: Deal, before: seq<Message>, data: Bytes)
    ensures var ms := before + [Binary(data)];
      && !Completed(deal, ms) && !NoHeader(deal, ms)
      && Reports(deal, ms) == Reports(deal, before)
           + [if OpenAfter(deal, before).Some? then Data(data) else FileError("unknown", MISSING_HEADER)]
  {
    var ms := before + [Binary(data)];
    assert ms[..|ms| - 1] == before;
  }

  /** How one more text message is reported. */
  lemma ReportText(deal: Deal, before: seq<Message>, m: Message)
    requires m.Text?
    ensures var ms := before + [m];
      var read := deal.env.json.read(FileHeader, m.data);
      && (Completed(deal, ms) <==> OpenAfter(deal, before).Some? && |m.data| <= 1)
      && (NoHeader(deal, ms) <==> !Completed(deal, ms) && (read.None? || !read.value.Header?))
      && Reports(deal, ms) == Reports(deal, before) +
           (if read.None? || !read.value.Header? || Completed(deal, ms) then []
            else if Accepts(deal, m).Some? then [Opened(read.value.id)]
            else [FileError(read.value.id, Refusal(deal, read.value.id, read.value.token))])
  {
    var ms := before + [m];
    assert ms[..|ms| - 1] == before;
  }

  lemma HearBinary(deal: Deal, heard: seq<Message>, outs: seq<Message>, s: Peer, data: Bytes)
    requires deal.env.role.Receiving? && s.pc.Files? && LoopInv(deal, heard, outs, s)
    ensures LoopInv(deal, heard + [Binary(data)], outs, Take(deal.env, s, Some(Binary(data))))
  {
    hide Sections, OpenAfter, StreamsFrom, Streams, CountBinary, Handled, Accepts, Reports, Completed, NoHeader;
    var m := Binary(data);
    ReportBinary(deal, heard, data);
    var e := if s.pc.open.Some? then Data(data) else FileError("unknown", MISSING_HEADER);
    SectionsSnoc(deal, heard, m);
    CountSnoc(deal, heard, m);
    StreamsSnoc(s.log, e);
    if s.pc.open.Some? {
      OpenHasSection(deal, heard);
      SameIds(Sections(deal, heard), data);
      HearExtends(Streams(s.log), data);
    }
  }

  lemma HearExtends(streams: seq<FileStream>, data: Bytes)
    ensures Hear(streams, Data(data)) == Extend(streams, data)
    ensures |Extend(streams, data)| == |streams|
  {
  }

  lemma SameIds(streams: seq<FileStream>, data: Bytes)
    ensures Ids(Extend(streams, data)) == Ids(streams)
  {
  }

  lemma HearTextMessage(deal: Deal, heard: seq<Message>, outs: seq<Message>, s: Peer, data: Bytes)
    requires deal.env.role.Receiving? && s.pc.Files? && LoopInv(deal, heard, outs, s)
    ensures LoopInv(deal, heard + [Text(data)], outs, Take(deal.env, s, Some(Text(data))))
  {
    hide Sections, OpenAfter, StreamsFrom, Streams, CountBinary, Handled, Accepts, Reports, Completed, NoHeader;
    var heard' := heard + [Text(data)];
    assert heard'[..|heard'| - 1] == heard;
    var ids := Ids(Sections(deal, heard));
    if s.pc.open.Some? {
      OpenHasSection(deal, heard);
      var id := s.pc.open.value;
      assert ids == ids[..|ids| - 1] + [id];
      assert Responses(deal.env, ids) == Responses(deal.env, ids[..|ids| - 1]) + [ResponseFor(deal.env, id, |ids| - 1)];
    }
  }

  lemma ReadText(deal: Deal, heard: seq<Message>, outs: seq<Message>, s: Peer)
    requires deal.env.role.Receiving? && Faithful(deal.env.json)
    requires s.pc.TextIn? && LoopInv(deal, heard, outs, s)
    ensures LoopInv(deal, heard, outs, Act(deal.env, s).next)
  {
    hide Sections, OpenAfter, StreamsFrom, Streams, CountBinary, Handled, Reports, Completed, NoHeader;
    hide TextTop, Accepts, Refusal, Responses;
    var before, m := heard[..|heard| - 1], heard[|heard| - 1];
    assert heard == before + [m];
    var s' := Act(deal.env, s).next;
    SectionsSnoc(deal, before, m);
    CountSnoc(deal, before, m);
    TextOutcome(deal, m, s, s');
    ReportText(deal, before, m);
    if Accepts(deal, m).Some? {
      var id := Accepts(deal, m).value;
      StreamsSnoc(s.log, Opened(id));
      assert Sections(deal, heard) == Sections(deal, before) + [FileStream(id, [])];
      assert Closed(deal, heard) == Ids(Sections(deal, before));
    } else {
      ReadRejected(deal, before, m, s.log, s'.log);
    }
  }

  lemma ReadRejected(deal: Deal, before: seq<Message>, m: Message, log: seq<Event>, log': seq<Event>)
    requires m.Text? && Accepts(deal, m).None? && Tally(deal, before, log)
    requires
      || (log' == log && Reports(deal, before + [m]) == Reports(deal, before))
      || exists id, why :: why != MISSING_HEADER && log' == log + [FileError(id, why)]
           && Reports(deal, before + [m]) == Reports(deal, before) + [FileError(id, why)]
    ensures Tally(deal, before + [m], log')
    ensures Closed(deal, before + [m]) == Ids(Sections(deal, before))
  {
    hide Reports, Sections, OpenAfter, StreamsFrom, Streams, CountBinary, Handled, Accepts;
    SectionsSnoc(deal, before, m);
    CountSnoc(deal, before, m);
    assert Sections(deal, before) + [] == Sections(deal, before);
    if log' != log {
      var id, why :| why != MISSING_HEADER && log' == log + [FileError(id, why)]
        && Reports(deal, before + [m]) == Reports(deal, before) + [FileError(id, why)];
      StreamsSnoc(log, FileError(id, why));
    }
  }

  /** What looking at a text message does, by what it is. */
  lemma TextOutcome(deal: Deal, m: Message, s: Peer, s': Peer)
    requires Faithful(deal.env.json) && s.pc.TextIn? && m == Text(s.pc.data)
    requires s.pc.tokens == deal.tokens && s.pc.files == deal.files
    requires s' == TextTop(deal.env, s.pc.data, s.pc.wasOpen, s.pc.tokens, s.pc.files, s.pc.used, s.log)
    ensures var read := deal.env.json.read(FileHeader, m.data);
      if s.pc.wasOpen && |m.data| <= 1 then
        Accepts(deal, m).None? && (read.None? || !read.value.Header?) && s' == Peer(Halt(Done), s.log)
      else if read.None? || !read.value.Header? then
        Accepts(deal, m).None? && s' == Peer(Fail(ParseError), s.log)
      else if Accepts(deal, m).Some? then
        && Accepts(deal, m).value == read.value.id
        && s' == Peer(Files(deal.tokens, deal.files, Accepts(deal, m), s.pc.used), s.log + [Opened(read.value.id)])
      else
        var why := Refusal(deal, read.value.id, read.value.token);
        && why != MISSING_HEADER
        && s' == Peer(Files(deal.tokens, deal.files, None, s.pc.used), s.log + [FileError(read.value.id, why)])
  {
  }

  lemma LoopRead(deal: Deal, heard: seq<Message>, outs: seq<Message>, s: Peer, m: Message)
    requires deal.env.role.Receiving? && s.pc.Files? && LoopInv(deal, heard, outs, s)
    ensures LoopInv(deal, heard + [m], outs, Take(deal.env, s, Some(m)))
  {
    if m.Binary? {
      HearBinary(deal, heard, outs, s, m.data);
    } else {
      HearTextMessage(deal, heard, outs, s, m.data);
    }
  }

  lemma LoopWrite(deal: Deal, heard: seq<Message>, outs: seq<Message>, s: Peer)
    requires deal.env.role.Receiving? && s.pc.Out? && LoopInv(deal, heard, outs, s)
    ensures var outs' := if s.pc.msgs == [] then outs else outs + [s.pc.msgs[0]];
            LoopInv(deal, heard, outs', Act(deal.env, s).next)
  {
    if s.pc.msgs != [] {
      assert outs + s.pc.msgs == outs + [s.pc.msgs[0]] + [];
      assert s.pc.msgs[1..] == [];
    } else {
      assert outs + [] == outs;
    }
  }

  lemma LoopEnd(deal: Deal, heard: seq<Message>, outs: seq<Message>, s: Peer)
    requires deal.env.role.Receiving? && s.pc.Files? && LoopInv(deal, heard, outs, s)
    ensures LoopInv(deal, heard, outs, Take(deal.env, s, None))
  {
  }

  /** The shape of one step in this part of the program. */
  lemma LoopShape(deal: Deal, heard: seq<Message>, s: Solo)
    requires deal.env.role.Receiving? && LoopInv(deal, heard, s.outs, s.st)
    requires LocalStep(Program(deal.env), s).Some?
    ensures s.st.pc.Files? || s.st.pc.Out? || s.st.pc.TextIn?
    ensures var s' := LocalStep(Program(deal.env), s).value;
      && (s.st.pc.Files? && s.inbox != [] ==>
            s' == s.(st := Take(deal.env, s.st, Some(s.inbox[0])), inbox := s.inbox[1..]))
      && (s.st.pc.Files? && s.inbox == [] ==> s' == s.(st := Take(deal.env, s.st, None)))
      && (s.st.pc.TextIn? ==> s' == s.(st := Act(deal.env, s.st).next))
      && (s.st.pc.Out? ==> s' == s.(st := Act(deal.env, s.st).next,
                                    outs := if s.st.pc.msgs == [] then s.outs else s.outs + [s.st.pc.msgs[0]]))
      && (s'.st.pc.Halt? ==> s.st.pc.TextIn? || (s.st.pc.Files? && s'.inbox == [] && s'.closed))
  {
  }

  /** The program stops only behind such a message, or at the end of the channel. */
  ghost predicate StopsFor(deal: Deal, heard: seq<Message>, s: Solo)
  {
    s.st.pc.Halt? ==> Completed(deal, heard) || NoHeader(deal, heard) || (s.inbox == [] && s.closed)
  }

  lemma TextStops(deal: Deal, heard: seq<Message>, outs: seq<Message>, s: Peer)
    requires deal.env.role.Receiving? && Faithful(deal.env.json)
    requires s.pc.TextIn? && LoopInv(deal, heard, outs, s) && Act(deal.env, s).next.pc.Halt?
    ensures Completed(deal, heard) || NoHeader(deal, heard)
  {
    hide Sections, OpenAfter, StreamsFrom, Streams, CountBinary, Handled, Reports, Completed, NoHeader;
    hide TextTop, Accepts;
    var before, m := heard[..|heard| - 1], heard[|heard| - 1];
    assert heard == before + [m];
    TextOutcome(deal, m, s, Act(deal.env, s).next);
    ReportText(deal, before, m);
  }

  lemma LoopStep(deal: Deal, heard: seq<Message>, s: Solo, s': Solo) returns (read: seq<Message>)
    requires deal.env.role.Receiving? && Faithful(deal.env.json)
    requires LoopInv(deal, heard, s.outs, s.st)
    requires LocalStep(Program(deal.env), s) == Some(s')
    ensures s.inbox == read + s'.inbox && LoopInv(deal, heard + read, s'.outs, s'.st)
    ensures StopsFor(deal, heard + read, s') && s'.closed == s.closed
  {
    hide LoopInv, Act, Take, Completed, NoHeader;
    read := [];
    assert heard + [] == heard && [] + s.inbox == s.inbox;
    LoopShape(deal, heard, s);
    if s.st.pc.Out? {
      LoopWrite(deal, heard, s.outs, s.st);
    } else if s.st.pc.TextIn? {
      ReadText(deal, heard, s.outs, s.st);
      if s'.st.pc.Halt? {
        TextStops(deal, heard, s.outs, s.st);
      }
    } else if s.inbox != [] {
      read := [s.inbox[0]];
      LoopRead(deal, heard, s.outs, s.st, s.inbox[0]);
    } else {
      LoopEnd(deal, heard, s.outs, s.st);
    }
  }

  lemma {:induction false} LoopGo(deal: Deal, heard: seq<Message>, s: Solo, n: nat, s': Solo)
    returns (more: seq<Message>)
    requires deal.env.role.Receiving? && Faithful(deal.env.json)
    requires LoopInv(deal, heard, s.outs, s.st)
    requires StopsFor(deal, heard, s) && Go(Program(deal.env), s, n) == Some(s')
    ensures s.inbox == more + s'.inbox && LoopInv(deal, heard + more, s'.outs, s'.st)
    ensures StopsFor(deal, heard + more, s') && s'.closed == s.closed
    decreases n
  {
    hide LoopInv, Act, Take, StopsFor;
    more := [];
    if n == 0 {
      assert heard + [] == heard && [] + s.inbox == s.inbox;
    } else {
      var next := GoFirst(Program(deal.env), s, n, s');
      var read := LoopStep(deal, heard, s, next);
      var rest := LoopGo(deal, heard + read, next, n - 1, s');
      more := read + rest;
      Assoc(heard, read, rest);
      Assoc(read, rest, s'.inbox);
    }
  }

  /** The receiver's file loop, for any messages and at any point between two of them or at
      its end: what the application is told are the reports on the messages; the streams handed
      to it are exactly the binary messages from each accepted header to the next text message;
      every binary message is forwarded once or reported once; the messages sent answer for the
      accepted files that have been closed, one for each, in order. The loop ends exactly with
      the delimiter behind an open file, with a text that is no header, or with the channel. */
  lemma FileLoop(deal: Deal, arriving: seq<Message>, closed: bool, n: nat)
    returns (heard: seq<Message>)
    requires deal.env.role.Receiving? && Faithful(deal.env.json)
    requires Streams(deal.earlier) == [] && Handled(deal.earlier) == 0
    requires var start := Local(Peer(Files(deal.tokens, deal.files, None, 0), deal.earlier), arriving, closed, []);
             Go(Program(deal.env), start, n).Some?
    ensures var start := Local(Peer(Files(deal.tokens, deal.files, None, 0), deal.earlier), arriving, closed, []);
            var l := Go(Program(deal.env), start, n).value;
            && arriving == heard + l.inbox
            && (l.st.pc.Files? || l.st.pc.Halt? ==>
                && l.st.log == deal.earlier + Reports(deal, heard)
                && Streams(l.st.log) == Sections(deal, heard)
                && Handled(l.st.log) == CountBinary(heard)
                && AnswersAll(deal.env, l.outs, Closed(deal, heard)))
            && (l.st.pc.Files? ==> !Completed(deal, heard) && !NoHeader(deal, heard))
            && (l.st.pc.Halt? ==>
                && (Completed(deal, heard) || NoHeader(deal, heard) || (l.inbox == [] && closed))
                && l.st.pc.result == if NoHeader(deal, heard) then Failed(ParseError) else Done)
  {
    hide Act, Take, Go, Completed, NoHeader, Reports, Answers;
    var start := Local(Peer(Files(deal.tokens, deal.files, None, 0), deal.earlier), arriving, closed, []);
    EmptyLoop(deal, start.st);
    heard := LoopGo(deal, [], start, n, Go(Program(deal.env), start, n).value);
    assert [] + heard == heard;
    ResponsesAnswer(deal.env, Closed(deal, heard));
  }

  lemma EmptyLoop(deal: Deal, s: Peer)
    requires deal.env.role.Receiving? && s == Peer(Files(deal.tokens, deal.files, None, 0), deal.earlier)
    requires Streams(s.log) == [] && Handled(s.log) == 0
    ensures LoopInv(deal, [], [], s)
  {
    assert s.log + [] == s.log;
  }

  /** Every stream answers to a header that named it with the token minted for it. */
  lemma {:induction false} SectionsAreMinted(deal: Deal, ms: seq<Message>)
    ensures forall i :: 0 <= i < |Sections(deal, ms)| ==>
      var id := Sections(deal, ms)[i].id;
      && id in deal.tokens && InOffer(deal.files, id)
      && exists k :: 0 <= k < |ms| && ms[k].Text?
           && deal.env.json.read(FileHeader, ms[k].data) == Some(Header(id, deal.tokens[id]))
  {
    if ms != [] {
      SectionsAreMinted(deal, ms[1..]);
      var rest := Sections(deal, ms[1..]);
      forall i | 0 <= i < |Sections(deal, ms)|
        ensures var id := Sections(deal, ms)[i].id;
          && id in deal.tokens && InOffer(deal.files, id)
          && exists k :: 0 <= k < |ms| && ms[k].Text?
               && deal.env.json.read(FileHeader, ms[k].data) == Some(Header(id, deal.tokens[id]))
      {
        var id := Sections(deal, ms)[i].id;
        if Accepts(deal, ms[0]).Some? && i == 0 {
          assert ms[0].Text?;
        } else {
          var j := if Accepts(deal, ms[0]).Some? then i - 1 else i;
          assert rest[j].id == id;
          var k :| 0 <= k < |ms[1..]| && ms[1..][k].Text?
            && deal.env.json.read(FileHeader, ms[1..][k].data) == Some(Header(id, deal.tokens[id]));
          assert ms[k + 1] == ms[1..][k];
        }
      }
    }
  }
}
