/** The receiver from its start to the last file, in a session with any program on the other
    side: what the user chose, what was offered, and what is handed out belong together. */
module Delivery {
  import opened Prelude
  import opened Messages
  import opened Network
  import opened Session
  import opened Fidelity
  import opened Receiving

  function Tokens(env: Env): map<string, string>
  {
    if env.role.Receiving? && env.role.selection.Chosen? then MintTokens(env.role.mint, env.role.selection.ids)
    else map[]
  }

  /** What this receiver deals in, once its user has chosen from `files`. */
  function DealOf(env: Env, files: seq<FileDto>): Deal
  {
    Deal(env, Tokens(env), files, [Offered(files)])
  }

  /** Nothing but an offer has been reported. */
  predicate Quiet(log: seq<Event>)
  {
    log == [] || (|log| == 1 && log[0].Offered?)
  }

  /** The points of the receiver's program up to the start of the file loop. */
  ghost predicate Early(env: Env, pc: Pc, log: seq<Event>)
  {
    Quiet(log) &&
    match pc
    case Out(_, next) => Early(env, next, log)
    case Choose(files) => log == [Offered(files)]
    case Files(tokens, files, open, used) =>
      && env.role.Receiving? && env.role.selection.Chosen?
      && log == [Offered(files)] && tokens == Tokens(env) && open == None && used == 0
    case AwaitSelection(_, _, _) => false
    case Queue(_, _) => false
    case Stream(_, _, _, _) => false
    case AwaitLast => false
    case TextIn(_, _, _, _, _) => false
    case Halt(_) => true
    case _ => log == []
  }

  lemma QuietStreams(log: seq<Event>)
    requires Quiet(log)
    ensures Streams(log) == [] && Handled(log) == 0
  {
    if log != [] {
      assert log == [] + [log[0]];
      StreamsSnoc([], log[0]);
    }
  }

  lemma EarlyMove(env: Env, s: Peer)
    requires env.role.Receiving? && Early(env, s.pc, s.log) && (Act(env, s).Internal? || Act(env, s).Emit?)
    ensures Early(env, Act(env, s).next.pc, Act(env, s).next.log)
  {
    hide SayFramed;
  }

  lemma EarlyRead(env: Env, s: Peer, m: Option<Message>)
    requires env.role.Receiving? && Early(env, s.pc, s.log) && Act(env, s) == Receive && !s.pc.Files?
    ensures Early(env, Take(env, s, m).pc, Take(env, s, m).log)
  {
    hide SayFramed, Check;
  }

  lemma EarlyStep(env: Env, l: Solo)
    requires env.role.Receiving? && Early(env, l.st.pc, l.st.log) && !l.st.pc.Files?
    requires LocalStep(Program(env), l).Some?
    ensures var l' := LocalStep(Program(env), l).value; Early(env, l'.st.pc, l'.st.log)
  {
    hide Act, Take, Early;
    SoloStep(env, l);
    if Act(env, l.st) != Receive {
      EarlyMove(env, l.st);
    } else {
      EarlyRead(env, l.st, if l.inbox == [] then None else Some(l.inbox[0]));
    }
  }

  /** How far a step gets does not depend on what is already written. */
  lemma {:induction false} GoOuts(env: Env, l: Solo, n: nat, outs: seq<Message>)
    requires Go(Program(env), l, n).Some?
    ensures Go(Program(env), l.(outs := outs), n).Some?
    decreases n
  {
    hide Act, Take;
    if n > 0 {
      var next := LocalStep(Program(env), l).value;
      var other := LocalStep(Program(env), l.(outs := outs)).value;
      assert other == next.(outs := other.outs);
      GoOuts(env, next, n - 1, other.outs);
    }
  }

  lemma {:induction false} LogGrows(env: Env, l: Solo, n: nat)
    requires Go(Program(env), l, n).Some?
    ensures l.st.log <= Go(Program(env), l, n).value.st.log
    decreases n
  {
    hide Act, Take;
    if n > 0 {
      var next := LocalStep(Program(env), l).value;
      SoloStep(env, l);
      ActGrows(env, l.st);
      TakeGrows(env, l.st, if l.inbox == [] then None else Some(l.inbox[0]));
      LogGrows(env, next, n - 1);
    }
  }

  /** From the entry of the file loop on. */
  lemma InLoop(env: Env, l: Solo, n: nat) returns (heard: seq<Message>, replies: seq<Message>)
    requires env.role.Receiving? && Faithful(env.json)
    requires Early(env, l.st.pc, l.st.log) && l.st.pc.Files? && Go(Program(env), l, n).Some?
    ensures var l' := Go(Program(env), l, n).value;
      && l.inbox == heard + l'.inbox && l'.outs == l.outs + replies
      && LoopInv(DealOf(env, l.st.pc.files), heard, replies, l'.st)
      && StopsFor(DealOf(env, l.st.pc.files), heard, l')
      && l.st.log <= l'.st.log
  {
    hide Act, Take, Go;
    var deal := DealOf(env, l.st.pc.files);
    var fresh0 := l.(outs := []);
    GoOuts(env, l, n, []);
    LogGrows(env, l, n);
    QuietStreams(l.st.log);
    EmptyLoop(deal, l.st);
    var l0 := Go(Program(env), fresh0, n).value;
    heard := LoopGo(deal, [], fresh0, n, l0);
    replies := l0.outs;
    assert [] + heard == heard;
    GoFrame(Program(env), fresh0, n, l.outs, [], l.closed);
    var none: seq<Message> := [];
    assert l.outs + none == l.outs && l.inbox + none == l.inbox && l0.inbox + none == l0.inbox;
    ClosedStays(env, fresh0, n);
  }

  lemma {:induction false} ClosedStays(env: Env, l: Solo, n: nat)
    requires Go(Program(env), l, n).Some?
    ensures Go(Program(env), l, n).value.closed == l.closed
    decreases n
  {
    hide Act, Take;
    if n > 0 {
      ClosedStays(env, LocalStep(Program(env), l).value, n - 1);
    }
  }

  /** What a run of the receiver has come to: it is still on the way to its file loop, or in it
      or behind it with the messages heard there. */
  ghost predicate Course(env: Env, heard: seq<Message>, files: seq<FileDto>, l: Solo)
    requires env.role.Receiving?
  {
    || (Early(env, l.st.pc, l.st.log) && heard == [])
    || (&& env.role.selection.Chosen? && [Offered(files)] <= l.st.log
        && StopsFor(DealOf(env, files), heard, l)
        && exists before, replies :: l.outs == before + replies && LoopInv(DealOf(env, files), heard, replies, l.st))
  }

  lemma {:induction false} Follow(env: Env, l: Solo, n: nat)
    returns (early: seq<Message>, heard: seq<Message>, files: seq<FileDto>)
    requires env.role.Receiving? && Faithful(env.json)
    requires Early(env, l.st.pc, l.st.log) && Go(Program(env), l, n).Some?
    ensures var l' := Go(Program(env), l, n).value;
      l.inbox == early + heard + l'.inbox && Course(env, heard, files, l')
    decreases n
  {
    hide Act, Take, LoopInv, Early, Course, StopsFor;
    early, heard, files := [], [], [];
    var l' := Go(Program(env), l, n).value;
    if l.st.pc.Files? {
      var replies;
      files := l.st.pc.files;
      heard, replies := InLoop(env, l, n);
      Assoc([], heard, l'.inbox);
      LoopCourse(env, l, heard, replies, l');
    } else if n == 0 {
      Assoc([], heard, l'.inbox);
      EarlyCourse(env, l);
    } else {
      var next := LocalStep(Program(env), l).value;
      EarlyStep(env, l);
      var e;
      e, heard, files := Follow(env, next, n - 1);
      var read := StepReads(env, l);
      early := read + e;
      Assoc(read, e, heard);
      Assoc(read, e + heard, l'.inbox);
    }
  }

  lemma StepReads(env: Env, l: Solo) returns (read: seq<Message>)
    requires LocalStep(Program(env), l).Some?
    ensures l.inbox == read + LocalStep(Program(env), l).value.inbox
  {
    var next := LocalStep(Program(env), l).value;
    SoloStep(env, l);
    read := l.inbox[..|l.inbox| - |next.inbox|];
  }

  lemma EarlyCourse(env: Env, l: Solo)
    requires env.role.Receiving? && Early(env, l.st.pc, l.st.log)
    ensures forall files :: Course(env, [], files, l)
  {
  }

  lemma LoopCourse(env: Env, l: Solo, heard: seq<Message>, replies: seq<Message>, l': Solo)
    requires env.role.Receiving? && Early(env, l.st.pc, l.st.log) && l.st.pc.Files?
    requires l'.outs == l.outs + replies && LoopInv(DealOf(env, l.st.pc.files), heard, replies, l'.st)
    requires StopsFor(DealOf(env, l.st.pc.files), heard, l') && l.st.log <= l'.st.log
    ensures Course(env, heard, l.st.pc.files, l')
  {
    hide LoopInv, StopsFor;
  }

  /** What the log says about the streams, at any point of the course. */
  lemma CourseStreams(env: Env, heard: seq<Message>, files: seq<FileDto>, l: Solo)
    returns (upTo: nat)
    requires env.role.Receiving? && Course(env, heard, files, l)
    ensures upTo <= |heard| && (l.st.pc.Files? || l.st.pc.Halt? ==> upTo == |heard|)
    ensures Streams(l.st.log) == Sections(DealOf(env, files), heard[..upTo])
    ensures Streams(l.st.log) != [] ==> env.role.selection.Chosen? && [Offered(files)] <= l.st.log
  {
    hide Streams, Sections, Handled, CountBinary, Reports, Completed, NoHeader, StopsFor;
    upTo := |heard|;
    assert heard[..|heard|] == heard;
    if Early(env, l.st.pc, l.st.log) && heard == [] {
      QuietStreams(l.st.log);
      NothingHeard(DealOf(env, files));
    } else {
      var before, replies :| l.outs == before + replies && LoopInv(DealOf(env, files), heard, replies, l.st);
      if !l.st.pc.Files? && !l.st.pc.Halt? {
        upTo := |heard| - 1;
      }
    }
  }

  /** What has come of the messages between two of them, or at the end of the program. */
  lemma CourseSettled(env: Env, heard: seq<Message>, files: seq<FileDto>, l: Solo)
    returns (before: seq<Message>, replies: seq<Message>)
    requires env.role.Receiving? && Faithful(env.json) && Course(env, heard, files, l)
    requires l.st.pc.Files? || l.st.pc.Halt?
    ensures l.outs == before + replies && AnswersAll(env, replies, Closed(DealOf(env, files), heard))
    ensures Handled(l.st.log) == CountBinary(heard)
    ensures heard != [] ==> Settled(env, heard, files, l)
  {
    hide Streams, Sections, Handled, CountBinary, Reports, Completed, NoHeader;
    if Early(env, l.st.pc, l.st.log) && heard == [] {
      QuietStreams(l.st.log);
      NothingHeard(DealOf(env, files));
      before, replies := l.outs, [];
      assert l.outs + [] == l.outs;
    } else {
      before, replies :| l.outs == before + replies && LoopInv(DealOf(env, files), heard, replies, l.st);
      ResponsesAnswer(env, Closed(DealOf(env, files), heard));
    }
  }

  /** The application has been told of the offer and of every message behind it; the program has
      stopped exactly if there is a reason to. */
  ghost predicate Settled(env: Env, heard: seq<Message>, files: seq<FileDto>, l: Solo)
  {
    var deal := DealOf(env, files);
    var over := Completed(deal, heard) || NoHeader(deal, heard);
    && l.st.log == [Offered(files)] + Reports(deal, heard)
    && (l.st.pc.Files? ==> !over)
    && (l.st.pc.Halt? ==>
        && (over || (l.inbox == [] && l.closed))
        && l.st.pc.result == if NoHeader(deal, heard) then Failed(ParseError) else Done)
  }

  lemma NothingHeard(deal: Deal)
    ensures Sections(deal, []) == [] && CountBinary([]) == 0 && Closed(deal, []) == []
  {
  }

  /** The message is a header of that file, with the token minted for it. */
  predicate WithHeader(env: Env, m: Message, id: string)
  {
    env.role.Receiving? && m.Text? && env.json.read(FileHeader, m.data) == Some(Header(id, env.role.mint(id)))
  }

  /** The user chose that file, it was offered, and its header came with the minted token. */
  ghost predicate Chosen(env: Env, files: seq<FileDto>, heard: seq<Message>, id: string)
  {
    && env.role.Receiving? && env.role.selection.Chosen? && id in env.role.selection.ids && InOffer(files, id)
    && exists k :: 0 <= k < |heard| && WithHeader(env, heard[k], id)
  }

  /** In any session, with any program on the other side and under every schedule: the streams
      handed out are the binary messages behind accepted headers, and each of them is a file
      that the user chose, from the list the user was offered, under the token minted for it.
      The last messages sent answer for the files that are closed, and the application has
      been told of every message. */
  lemma StreamsInAnySession(other: Process<Peer, Message>, start: Peer, env: Env, n: Net<Peer, Message>)
    returns (early: seq<Message>, heard: seq<Message>, files: seq<FileDto>, closed: bool,
             before: seq<Message>, replies: seq<Message>)
    requires env.role.Receiving? && Faithful(env.json)
    requires Reach(other, Program(env), Net(start, Start(env), [], []), n)
    ensures Leg(Program(env), Start(env), early + heard, closed, before + replies, n.right)
    ensures n.right.pc.Files? || n.right.pc.Halt? ==>
      && Streams(n.right.log) == Sections(DealOf(env, files), heard)
      && Handled(n.right.log) == CountBinary(heard)
      && AnswersAll(env, replies, Closed(DealOf(env, files), heard))
      && (heard != [] ==> Settled(env, heard, files, Local(n.right, [], closed, before + replies)))
    ensures forall i :: 0 <= i < |Streams(n.right.log)| ==>
      && Chosen(env, files, heard, Streams(n.right.log)[i].id)
      && [Offered(files)] <= n.right.log
  {
    hide Streams, Sections, Handled, CountBinary, Act, Take, LoopInv, Course, Chosen, Settled, Closed, AnswersAll;
    var begin := Net(start, Start(env), [], []);
    var schedule :| Run(other, Program(env), begin, schedule) == Some(n);
    var all, outs, sent;
    all, closed, outs, sent := RightAlone(other, Program(env), begin, schedule);
    var l := Local(n.right, [], closed, outs);
    var k: nat :| Go(Program(env), Local(Start(env), all, closed, []), k) == Some(l);
    early, heard, files := Follow(env, Local(Start(env), all, closed, []), k);
    assert early + heard + [] == early + heard;
    before, replies := outs, [];
    assert outs + [] == outs;
    if n.right.pc.Files? || n.right.pc.Halt? {
      before, replies := CourseSettled(env, heard, files, l);
    }
    var upTo := CourseStreams(env, heard, files, l);
    assert upTo == |heard| ==> heard[..upTo] == heard;
    MintedAreChosen(env, files, heard, upTo);
  }

  lemma MintedAreChosen(env: Env, files: seq<FileDto>, heard: seq<Message>, upTo: nat)
    requires upTo <= |heard|
    ensures forall i :: 0 <= i < |Sections(DealOf(env, files), heard[..upTo])| ==>
      Chosen(env, files, heard, Sections(DealOf(env, files), heard[..upTo])[i].id)
  {
    hide Sections;
    var deal := DealOf(env, files);
    SectionsAreMinted(deal, heard[..upTo]);
    forall i | 0 <= i < |Sections(deal, heard[..upTo])|
      ensures Chosen(env, files, heard, Sections(deal, heard[..upTo])[i].id)
    {
      var id := Sections(deal, heard[..upTo])[i].id;
      TokensAreMinted(env, id);
      var k :| 0 <= k < upTo && heard[..upTo][k].Text?
        && env.json.read(FileHeader, heard[..upTo][k].data) == Some(Header(id, deal.tokens[id]));
      assert heard[..upTo][k] == heard[k];
      assert WithHeader(env, heard[k], id);
    }
  }

  lemma TokensAreMinted(env: Env, id: string)
    requires id in Tokens(env)
    ensures env.role.Receiving? && env.role.selection.Chosen? && id in env.role.selection.ids
    ensures Tokens(env)[id] == env.role.mint(id)
  {
  }
}
