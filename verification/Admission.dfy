/** What becomes of a program up to the choice of files, whatever its peer sends: read off the
    messages in one go, without the program's states. */
module Admission {
  import opened Prelude
  import opened Messages
  import opened Token
  import opened Network
  import opened Session
  import opened Fidelity
  import opened Gates
  import opened Delivery
  import Base64

  /** How far a stage gets: it waits for more messages, the program fails in it, or it has been
      gone through, with a result and messages left over. */
  datatype Stage<+T> = Waiting | Failing(why: Reason) | Through(value: T, rest: seq<Message>)
  {
    predicate IsFailure() { !Through? }
    function PropagateFailure<U>(): Stage<U> requires !Through?
    {
      match this case Waiting => Waiting case Failing(why) => Failing(why)
    }
    function Extract(): (T, seq<Message>) requires Through? { (value, rest) }
  }

  // ----- The stages -----

  /** One text message. */
  function TextStage(ms: seq<Message>, closed: bool): Stage<Bytes>
  {
    if ms == [] then (if closed then Failing(PeerClosed) else Waiting)
    else if ms[0].Binary? then Failing(WrongKind)
    else Through(ms[0].data, ms[1..])
  }

  /** The peer's nonce, of 16 to 128 bytes; the sender's comes first in the common one. */
  function NonceStage(env: Env, ms: seq<Message>, closed: bool): Stage<Bytes>
  {
    var (data, rest) :- TextStage(ms, closed);
    match env.json.read(NonceMessage, data)
    case Some(Nonce(text)) =>
      var remote := Base64.Decode(text);
      if remote.None? || |remote.value| < 16 || |remote.value| > 128 then Failing(BadNonce)
      else Through(if env.role.Sending? then env.nonce + remote.value else remote.value + env.nonce, rest)
    case _ => Failing(ParseError)
  }

  /** The peer's token, and whether it asks for a PIN. */
  function TokenStage(env: Env, nonce: Bytes, ms: seq<Message>, closed: bool): Stage<(Identity, bool)>
  {
    var (data, rest) :- TextStage(ms, closed);
    match env.json.read(if env.role.Sending? then TokenResponse else TokenRequestMessage, data)
    case Some(TokenInvalidSignature) => if env.role.Sending? then Failing(BadTokenAtPeer) else Failing(ParseError)
    case Some(TokenOk(token)) =>
      if env.role.Sending? then Judged(env, Identity(nonce, token), false, rest) else Failing(ParseError)
    case Some(TokenPinRequired(token)) =>
      if env.role.Sending? then Judged(env, Identity(nonce, token), true, rest) else Failing(ParseError)
    case Some(TokenRequest(token)) =>
      if env.role.Receiving? then Judged(env, Identity(nonce, token), false, rest) else Failing(ParseError)
    case _ => Failing(ParseError)
  }

  function Judged(env: Env, who: Identity, asked: bool, rest: seq<Message>): Stage<(Identity, bool)>
  {
    if env.expecting.None? then Through((who, asked), rest)
    else
      match VerifyTokenNonce(env.scheme, env.expecting.value, who.token, who.nonce)
      case Accepted => Through((who, asked), rest)
      case Rejected => Failing(BadToken)
      case Panicked => Failing(TokenPanic)
  }

  /** The sender answers the receiver's challenge, beginning with guess number `used`. */
  function AnswerStage(env: Env, used: nat, ms: seq<Message>, closed: bool): Stage<()>
    decreases |ms|
  {
    if used >= |env.guesses| then Failing(NoPinGiven)
    else
      var (data, rest) :- TextStage(ms, closed);
      match env.json.read(PinReceivingResponse, data)
      case Some(PinReceivingOk) => Through((), rest)
      case Some(PinReceivingRequired) => AnswerStage(env, used + 1, rest, closed)
      case Some(PinReceivingTooMany) => Failing(TooManyAttempts)
      case _ => Failing(ParseError)
  }

  /** The own challenge, after `tries` PINs of which `given` was the last. A PIN may come in a
      message of either kind. */
  function ChallengeStage(env: Env, tries: nat, given: string, ms: seq<Message>, closed: bool): Stage<()>
    decreases |ms|
  {
    if env.pin.None? || given == env.pin.value.pin then Through((), ms)
    else if tries >= env.pin.value.maxTries then Failing(TooManyAttempts)
    else if ms == [] then (if closed then Failing(PeerClosed) else Waiting)
    else
      match env.json.read(PinMessage, ms[0].data)
      case Some(Pin(pin)) => ChallengeStage(env, tries + 1, pin, ms[1..], closed)
      case _ => Failing(ParseError)
  }

  /** The file list, after as many challenges as the sender makes; each status comes in parts and
      ends with any text message or with the channel. */
  function OfferStage(env: Env, buffer: Bytes, used: nat, ms: seq<Message>, closed: bool): Stage<seq<FileDto>>
    decreases if used < |env.guesses| then |env.guesses| - used else 0, |ms|
  {
    if ms != [] && ms[0].Binary? then OfferStage(env, buffer + ms[0].data, used, ms[1..], closed)
    else if ms == [] && !closed then Waiting
    else
      var rest := if ms == [] then [] else ms[1..];
      match env.json.read(PinSendingResponse, buffer)
      case Some(PinSendingOk(files)) => Through(files, rest)
      case Some(PinSendingRequired) =>
        if used >= |env.guesses| then Failing(NoPinGiven) else OfferStage(env, [], used + 1, rest, closed)
      case Some(PinSendingTooMany) => Failing(if used == 0 then Unexpected else TooManyAttempts)
      case _ => Failing(ParseError)
  }

  /** Everything up to the offer, for the receiver. */
  function Offer(env: Env, ms: seq<Message>, closed: bool): Stage<seq<FileDto>>
  {
    var (nonce, m1) :- NonceStage(env, ms, closed);
    var (_, m2) :- TokenStage(env, nonce, m1, closed);
    var (_, m3) :- ChallengeStage(env, 0, "", m2, closed);
    OfferStage(env, [], 0, m3, closed)
  }

  /** Everything up to the offer, for the sender, which makes it. */
  function Introduction(env: Env, ms: seq<Message>, closed: bool): Stage<Identity>
  {
    var (nonce, m1) :- NonceStage(env, ms, closed);
    var ((who, asked), m2) :- TokenStage(env, nonce, m1, closed);
    var (_, m3) :- if asked then AnswerStage(env, 0, m2, closed) else Through((), m2);
    var (_, m4) :- ChallengeStage(env, 0, "", m3, closed);
    Through(who, m4)
  }

  // ----- Running a program up to a point -----

  /** In fewer than `n` steps the program makes no offer of its own. */
  ghost predicate Unoffered(env: Env, l: Solo, n: nat)
  {
    forall k: nat :: k < n ==> Go(Program(env), l, k).Some? && !Go(Program(env), l, k).value.st.pc.AwaitSelection?
  }

  /** The program gets there, with these messages left, and makes no offer on the way. */
  ghost predicate Gets(env: Env, l: Solo, s: Peer, rest: seq<Message>)
  {
    exists n: nat, outs :: Go(Program(env), l, n) == Some(Local(s, rest, l.closed, outs)) && Unoffered(env, l, n)
  }

  /** It gets to a point where it waits for a message, and there is none. */
  ghost predicate Waits(env: Env, l: Solo)
  {
    && !l.closed
    && exists s :: Gets(env, l, s, []) && Act(env, s) == Receive && !s.pc.AwaitSelection? && s.log == l.st.log
  }

  lemma Already(env: Env, l: Solo)
    ensures Gets(env, l, l.st, l.inbox)
  {
    assert Go(Program(env), l, 0) == Some(Local(l.st, l.inbox, l.closed, l.outs)) && Unoffered(env, l, 0);
  }

  /** One step on the way. */
  lemma After(env: Env, l: Solo) returns (l': Solo)
    requires !l.st.pc.AwaitSelection?
    requires Act(env, l.st).Internal? || Act(env, l.st).Emit?
      || (Act(env, l.st) == Receive && (l.inbox != [] || l.closed))
    ensures l'.closed == l.closed
    ensures l'.inbox == if Act(env, l.st) == Receive && l.inbox != [] then l.inbox[1..] else l.inbox
    ensures l'.st ==
      if Act(env, l.st) != Receive then Act(env, l.st).next
      else Take(env, l.st, if l.inbox == [] then None else Some(l.inbox[0]))
    ensures forall s, rest :: Gets(env, l', s, rest) ==> Gets(env, l, s, rest)
    ensures l'.st.log == l.st.log && Waits(env, l') ==> Waits(env, l)
  {
    l' := LocalStep(Program(env), l).value;
    forall s, rest | Gets(env, l', s, rest) ensures Gets(env, l, s, rest) {
      var n: nat, outs :| Go(Program(env), l', n) == Some(Local(s, rest, l'.closed, outs)) && Unoffered(env, l', n);
      LaterUnoffered(env, l, l', n);
      assert Go(Program(env), l, n + 1) == Some(Local(s, rest, l.closed, outs));
    }
  }

  lemma LaterUnoffered(env: Env, l: Solo, l': Solo, n: nat)
    requires LocalStep(Program(env), l) == Some(l') && !l.st.pc.AwaitSelection? && Unoffered(env, l', n)
    ensures Unoffered(env, l, n + 1)
  {
    forall k: nat | k < n + 1
      ensures Go(Program(env), l, k).Some? && !Go(Program(env), l, k).value.st.pc.AwaitSelection?
    {
      if k > 0 {
        assert Go(Program(env), l, k) == Go(Program(env), l', k - 1);
      }
    }
  }

  lemma UnofferedAdds(env: Env, l: Solo, n: nat, l': Solo, n': nat)
    requires Go(Program(env), l, n) == Some(l') && Unoffered(env, l, n) && Unoffered(env, l', n')
    ensures Unoffered(env, l, n + n')
  {
    forall k: nat | k < n + n'
      ensures Go(Program(env), l, k).Some? && !Go(Program(env), l, k).value.st.pc.AwaitSelection?
    {
      if k >= n {
        GoAdd(Program(env), l, n, k - n);
      }
    }
  }

  /** Once it has got there it can go on. */
  lemma Onward(env: Env, l: Solo, s: Peer, rest: seq<Message>) returns (l': Solo)
    requires Gets(env, l, s, rest)
    ensures l'.st == s && l'.inbox == rest && l'.closed == l.closed
    ensures forall s', rest' :: Gets(env, l', s', rest') ==> Gets(env, l, s', rest')
    ensures s.log == l.st.log && Waits(env, l') ==> Waits(env, l)
  {
    var n: nat, outs :| Go(Program(env), l, n) == Some(Local(s, rest, l.closed, outs)) && Unoffered(env, l, n);
    l' := Local(s, rest, l.closed, outs);
    forall s', rest' | Gets(env, l', s', rest') ensures Gets(env, l, s', rest') {
      var n': nat, outs' :|
        Go(Program(env), l', n') == Some(Local(s', rest', l'.closed, outs')) && Unoffered(env, l', n');
      GoAdd(Program(env), l, n, n');
      UnofferedAdds(env, l, n, l', n');
      assert Go(Program(env), l, n + n') == Some(Local(s', rest', l.closed, outs'));
    }
  }

  lemma {:induction false} Writes(env: Env, l: Solo)
    requires l.st.pc.Out?
    ensures Gets(env, l, Peer(l.st.pc.next, l.st.log), l.inbox)
    decreases |l.st.pc.msgs|
  {
    hide Gets;
    var l' := After(env, l);
    if l.st.pc.msgs != [] {
      Writes(env, l');
    } else {
      Already(env, l');
    }
  }

  /** How a stage that leads to `next` ends for the program. */
  ghost predicate Ends<T>(env: Env, l: Solo, stage: Stage<T>, next: T -> Pc)
  {
    match stage
    case Waiting => Waits(env, l)
    case Failing(why) => exists rest :: Gets(env, l, Peer(Fail(why), l.st.log), rest)
    case Through(value, rest) => Gets(env, l, Peer(next(value), l.st.log), rest)
  }

  /** What holds from a later point holds from here. */
  lemma Sooner<T(!new)>(env: Env, l: Solo, l': Solo, stage: Stage<T>, next: T -> Pc)
    requires Ends(env, l', stage, next) && l'.st.log == l.st.log
    requires forall s, rest :: Gets(env, l', s, rest) ==> Gets(env, l, s, rest)
    requires Waits(env, l') ==> Waits(env, l)
    ensures Ends(env, l, stage, next)
  {
    hide Gets, Waits;
  }

  lemma Stands<T(!new)>(env: Env, l: Solo, stage: Stage<T>, next: T -> Pc)
    requires stage.Failing? ==> l.st.pc == Fail(stage.why)
    requires stage.Through? ==> l.st.pc == next(stage.value) && l.inbox == stage.rest
    requires stage.Waiting? ==> l.inbox == [] && !l.closed && Act(env, l.st) == Receive && !l.st.pc.AwaitSelection?
    ensures Ends(env, l, stage, next)
  {
    Already(env, l);
  }

  /** The same once what is to be sent first is sent. */
  lemma StandsAfter<T(!new)>(env: Env, l: Solo, stage: Stage<T>, next: T -> Pc)
    requires l.st.pc.Out? && !stage.Waiting?
    requires stage.Failing? ==> l.st.pc.next == Fail(stage.why)
    requires stage.Through? ==> l.st.pc.next == next(stage.value) && l.inbox == stage.rest
    ensures Ends(env, l, stage, next)
  {
    Writes(env, l);
  }

  // ----- Stage by stage -----

  function ForToken(env: Env, nonce: Bytes): Pc
  {
    if env.role.Sending? then AwaitTokenResponse(nonce) else AwaitToken(nonce)
  }

  lemma NonceEnds(env: Env, l: Solo)
    requires l.st.pc.AwaitNonce?
    ensures Ends(env, l, NonceStage(env, l.inbox, l.closed), nonce => ForToken(env, nonce))
  {
    hide Ends, Gets, Waits, GenerateTokenNonce, Base64.Encode, Base64.Decode;
    var stage := NonceStage(env, l.inbox, l.closed);
    if stage.Waiting? {
      Stands(env, l, stage, nonce => ForToken(env, nonce));
    } else {
      var l' := After(env, l);
      if stage.Failing? {
        Stands(env, l', stage, nonce => ForToken(env, nonce));
      } else {
        StandsAfter(env, l', stage, nonce => ForToken(env, nonce));
      }
      Sooner(env, l, l', stage, nonce => ForToken(env, nonce));
    }
  }

  /** Where a program goes on that has taken the peer's token. */
  function ForPin(env: Env, who: Identity, asked: bool): Pc
  {
    if asked then Guess(0, who) else Challenge(env, who)
  }

  lemma TokenEnds(env: Env, l: Solo, nonce: Bytes)
    requires l.st.pc == ForToken(env, nonce)
    ensures Ends(env, l, TokenStage(env, nonce, l.inbox, l.closed), (x: (Identity, bool)) => ForPin(env, x.0, x.1))
  {
    hide Ends, Gets, Waits, GenerateTokenNonce, VerifyTokenNonce, Challenge;
    var stage := TokenStage(env, nonce, l.inbox, l.closed);
    var next := (x: (Identity, bool)) => ForPin(env, x.0, x.1);
    if stage.Waiting? {
      Stands(env, l, stage, next);
    } else {
      var l' := After(env, l);
      if env.role.Receiving? && l'.st.pc.Out? {
        StandsAfter(env, l', stage, next);
      } else {
        Stands(env, l', stage, next);
      }
      Sooner(env, l, l', stage, next);
    }
  }

  lemma {:induction false} AnswerEnds(env: Env, l: Solo, used: nat, who: Identity)
    requires env.role.Sending? && l.st.pc == Guess(used, who)
    ensures Ends(env, l, AnswerStage(env, used, l.inbox, l.closed), (x: ()) => Challenge(env, who))
    decreases |l.inbox|
  {
    hide Ends, Gets, Waits, Challenge;
    var stage := AnswerStage(env, used, l.inbox, l.closed);
    var next := (x: ()) => Challenge(env, who);
    var l1 := After(env, l);
    if used >= |env.guesses| {
      Stands(env, l1, stage, next);
    } else {
      Writes(env, l1);
      var l2 := Onward(env, l1, Peer(Answer(used + 1, [], who), l.st.log), l1.inbox);
      if stage.Waiting? && l2.inbox == [] {
        Stands(env, l2, stage, next);
      } else {
        var l3 := After(env, l2);
        if l2.inbox != [] && l2.inbox[0].Text?
           && env.json.read(PinReceivingResponse, l2.inbox[0].data) == Some(PinReceivingRequired) {
          AnswerEnds(env, l3, used + 1, who);
        } else {
          Stands(env, l3, stage, next);
        }
        Sooner(env, l2, l3, stage, next);
      }
      Sooner(env, l1, l2, stage, next);
    }
    Sooner(env, l, l1, stage, next);
  }

  /** Where a program goes on behind its own challenge. */
  function Behind(env: Env, who: Identity): Pc
  {
    if env.role.Sending? then AwaitSelection([], false, who) else Collect([], who)
  }

  lemma {:induction false} VerifyEnds(env: Env, l: Solo, tries: nat, given: string, notice: bool, who: Identity)
    requires l.st.pc == Verify(tries, given, notice, who)
    ensures Ends(env, l, ChallengeStage(env, tries, given, l.inbox, l.closed), (x: ()) => Behind(env, who))
    decreases |l.inbox|
  {
    hide Ends, Gets, Waits, SayFramed;
    var stage := ChallengeStage(env, tries, given, l.inbox, l.closed);
    var next := (x: ()) => Behind(env, who);
    var l1 := After(env, l);
    if env.pin.None? || given == env.pin.value.pin || tries >= env.pin.value.maxTries {
      StandsAfter(env, l1, stage, next);
    } else {
      var wait := Peer(VerifyWait(tries, who), l.st.log);
      if l1.st.pc.Out? {
        Writes(env, l1);
      } else {
        Already(env, l1);
      }
      var l2 := Onward(env, l1, wait, l1.inbox);
      if stage.Waiting? && l2.inbox == [] {
        Stands(env, l2, stage, next);
      } else {
        var l3 := After(env, l2);
        if l3.st.pc.Verify? {
          VerifyEnds(env, l3, tries + 1, l3.st.pc.remotePin, false, who);
        } else {
          Stands(env, l3, stage, next);
        }
        Sooner(env, l2, l3, stage, next);
      }
      Sooner(env, l1, l2, stage, next);
    }
    Sooner(env, l, l1, stage, next);
  }

  lemma ChallengeEnds(env: Env, l: Solo, who: Identity)
    requires l.st.pc == Challenge(env, who)
    ensures Ends(env, l, ChallengeStage(env, 0, "", l.inbox, l.closed), (x: ()) => Behind(env, who))
  {
    hide Ends, Gets, Waits, SayFramed;
    var next := (x: ()) => Behind(env, who);
    if env.pin.Some? {
      VerifyEnds(env, l, 0, "", env.role.Sending?, who);
    } else if env.role.Sending? {
      StandsAfter(env, l, ChallengeStage(env, 0, "", l.inbox, l.closed), next);
    } else {
      Stands(env, l, ChallengeStage(env, 0, "", l.inbox, l.closed), next);
    }
  }

  /** How the last stage ends for the receiver: with the offer told to its application. */
  ghost predicate Told(env: Env, l: Solo, stage: Stage<seq<FileDto>>)
  {
    match stage
    case Waiting => Waits(env, l)
    case Failing(why) => exists rest :: Gets(env, l, Peer(Fail(why), l.st.log), rest)
    case Through(files, rest) => Gets(env, l, Peer(Choose(files), l.st.log + [Offered(files)]), rest)
  }

  lemma ToldSooner(env: Env, l: Solo, l': Solo, stage: Stage<seq<FileDto>>)
    requires Told(env, l', stage) && l'.st.log == l.st.log
    requires forall s, rest :: Gets(env, l', s, rest) ==> Gets(env, l, s, rest)
    requires Waits(env, l') ==> Waits(env, l)
    ensures Told(env, l, stage)
  {
    hide Gets, Waits;
  }

  predicate Collecting(pc: Pc, buffer: Bytes, used: nat)
  {
    match pc
    case Collect(b, _) => b == buffer && used == 0
    case Answer(u, b, _) => b == buffer && used == u > 0
    case _ => false
  }

  lemma {:induction false} OfferEnds(env: Env, l: Solo, buffer: Bytes, used: nat)
    requires env.role.Receiving? && Collecting(l.st.pc, buffer, used)
    ensures Told(env, l, OfferStage(env, buffer, used, l.inbox, l.closed))
    decreases if used < |env.guesses| then |env.guesses| - used else 0, |l.inbox|
  {
    hide Told, Gets, Waits;
    var stage := OfferStage(env, buffer, used, l.inbox, l.closed);
    if l.inbox == [] && !l.closed {
      StillCollecting(env, l);
    } else {
      var l1 := After(env, l);
      if l.inbox != [] && l.inbox[0].Binary? {
        OfferEnds(env, l1, buffer + l.inbox[0].data, used);
        ToldSooner(env, l, l1, stage);
      } else if l1.st.pc.Guess? {
        var l2 := After(env, l1);
        if used >= |env.guesses| {
          FailedThere(env, l2, stage);
        } else {
          Writes(env, l2);
          var l3 := Onward(env, l2, Peer(Answer(used + 1, [], l1.st.pc.who), l.st.log), l2.inbox);
          OfferEnds(env, l3, [], used + 1);
          ToldSooner(env, l2, l3, stage);
        }
        ToldSooner(env, l1, l2, stage);
        ToldSooner(env, l, l1, stage);
      } else {
        Heard(env, l, l1, stage);
      }
    }
  }

  lemma StillCollecting(env: Env, l: Solo)
    requires env.role.Receiving? && (l.st.pc.Collect? || l.st.pc.Answer?) && l.inbox == [] && !l.closed
    ensures Told(env, l, Waiting)
  {
    Already(env, l);
  }

  lemma FailedThere(env: Env, l: Solo, stage: Stage<seq<FileDto>>)
    requires stage.Failing? && l.st.pc == Fail(stage.why)
    ensures Told(env, l, stage)
  {
    Already(env, l);
  }

  lemma Heard(env: Env, l: Solo, l1: Solo, stage: Stage<seq<FileDto>>)
    requires !stage.Waiting?
    requires stage.Failing? ==> l1.st == Peer(Fail(stage.why), l.st.log)
    requires stage.Through? ==>
      l1.st == Peer(Choose(stage.value), l.st.log + [Offered(stage.value)]) && l1.inbox == stage.rest
    requires forall s, rest :: Gets(env, l1, s, rest) ==> Gets(env, l, s, rest)
    ensures Told(env, l, stage)
  {
    hide Gets;
    Already(env, l1);
  }

  // ----- From the start -----

  lemma Begins(env: Env, l: Solo) returns (l': Solo)
    requires l.st == Start(env)
    ensures l'.st == Peer(AwaitNonce, []) && l'.inbox == l.inbox && l'.closed == l.closed
    ensures forall s, rest :: Gets(env, l', s, rest) ==> Gets(env, l, s, rest)
    ensures Waits(env, l') ==> Waits(env, l)
  {
    hide Gets, Waits;
    Already(env, l);
    if env.role.Sending? {
      Writes(env, l);
    }
    l' := Onward(env, l, Peer(AwaitNonce, []), l.inbox);
  }

  /** What a receiver comes to against any peer: whether it waits, fails and why, or tells its
      user of an offer and of which. */
  lemma OfferFate(env: Env, arriving: seq<Message>, closed: bool)
    requires env.role.Receiving?
    ensures Told(env, Local(Start(env), arriving, closed, []), Offer(env, arriving, closed))
  {
    hide Gets, Waits, NonceStage, TokenStage, ChallengeStage, OfferStage, Challenge;
    var l := Local(Start(env), arriving, closed, []);
    var stage := Offer(env, arriving, closed);
    var l0 := Begins(env, l);
    NonceEnds(env, l0);
    var nonce := NonceStage(env, arriving, closed);
    if nonce.Through? {
      var l1 := Onward(env, l0, Peer(ForToken(env, nonce.value), []), nonce.rest);
      TokenEnds(env, l1, nonce.value);
      var token := TokenStage(env, nonce.value, nonce.rest, closed);
      if token.Through? {
        NotAsked(env, nonce.value, nonce.rest, closed);
        var who := token.value.0;
        var l2 := Onward(env, l1, Peer(Challenge(env, who), []), token.rest);
        ChallengeEnds(env, l2, who);
        var pin := ChallengeStage(env, 0, "", token.rest, closed);
        if pin.Through? {
          var l3 := Onward(env, l2, Peer(Collect([], who), []), pin.rest);
          OfferEnds(env, l3, [], 0);
          ToldSooner(env, l2, l3, stage);
        }
        ToldSooner(env, l1, l2, stage);
      }
      ToldSooner(env, l0, l1, stage);
    }
    ToldSooner(env, l, l0, stage);
  }

  lemma NotAsked(env: Env, nonce: Bytes, ms: seq<Message>, closed: bool)
    requires env.role.Receiving? && TokenStage(env, nonce, ms, closed).Through?
    ensures !TokenStage(env, nonce, ms, closed).value.1
  {
  }

  /** What a sender comes to: whether it waits, fails and why, or has made its offer. */
  lemma IntroductionFate(env: Env, arriving: seq<Message>, closed: bool)
    requires env.role.Sending?
    ensures Ends(env, Local(Start(env), arriving, closed, []), Introduction(env, arriving, closed),
                 (who: Identity) => AwaitSelection([], false, who))
  {
    hide Gets, Waits, NonceStage, TokenStage, AnswerStage, ChallengeStage, Challenge;
    var l := Local(Start(env), arriving, closed, []);
    var stage := Introduction(env, arriving, closed);
    var next := (who: Identity) => AwaitSelection([], false, who);
    var l0 := Begins(env, l);
    NonceEnds(env, l0);
    var nonce := NonceStage(env, arriving, closed);
    if nonce.Through? {
      var l1 := Onward(env, l0, Peer(ForToken(env, nonce.value), []), nonce.rest);
      TokenEnds(env, l1, nonce.value);
      var token := TokenStage(env, nonce.value, nonce.rest, closed);
      if token.Through? {
        var (who, asked) := token.value;
        var l2 := Onward(env, l1, Peer(ForPin(env, who, asked), []), token.rest);
        if asked {
          AnswerEnds(env, l2, 0, who);
        }
        var answered := if asked then AnswerStage(env, 0, token.rest, closed) else Through((), token.rest);
        if answered.Through? {
          if !asked { Already(env, l2); }
          var l3 := Onward(env, l2, Peer(Challenge(env, who), []), answered.rest);
          ChallengeEnds(env, l3, who);
          Sooner(env, l2, l3, stage, next);
        }
        Sooner(env, l1, l2, stage, next);
      }
      Sooner(env, l0, l1, stage, next);
    }
    Sooner(env, l, l0, stage, next);
  }

  // ----- And nothing else -----

  /** A program that cannot go on has gone as far as it ever does. */
  lemma NoFurther(env: Env, l: Solo, m: nat, n: nat)
    requires Go(Program(env), l, m).Some? && LocalStep(Program(env), Go(Program(env), l, m).value) == None
    requires Go(Program(env), l, n).Some?
    ensures n <= m
  {
    if n > m {
      GoAdd(Program(env), l, m, n - m);
    }
  }

  lemma LogsGrow(env: Env, l: Solo, m: nat, n: nat)
    requires m <= n && Go(Program(env), l, m).Some? && Go(Program(env), l, n).Some?
    ensures Go(Program(env), l, m).value.st.log <= Go(Program(env), l, n).value.st.log
  {
    hide Act, Take, Go;
    GoAdd(Program(env), l, m, n - m);
    LogGrows(env, Go(Program(env), l, m).value, n - m);
  }

  /** A program that waits or has failed. */
  lemma AtRest(env: Env, l: Solo)
    requires (l.st.pc.Halt?) || (Act(env, l.st) == Receive && l.inbox == [] && !l.closed)
    ensures LocalStep(Program(env), l) == None
    ensures l.st.pc.Halt? ==> Act(env, l.st) != Receive
  {
  }

  /** The offer told is the one that can be read off the messages, and there is none if there is
      none to be read. */
  lemma OfferedExactly(env: Env, arriving: seq<Message>, closed: bool, files: seq<FileDto>)
    requires env.role.Receiving?
    ensures (exists n ::
              Alone(env, arriving, closed, n).Some? && [Offered(files)] <= Alone(env, arriving, closed, n).value.st.log)
      <==> Offer(env, arriving, closed).Through? && Offer(env, arriving, closed).value == files
  {
    hide Offer, Act, Take, Go, Unoffered;
    var l, stage := Local(Start(env), arriving, closed, []), Offer(env, arriving, closed);
    OfferFate(env, arriving, closed);
    var m, l' := Fate(env, l, stage);
    forall n: nat |
        Alone(env, arriving, closed, n).Some? && [Offered(files)] <= Alone(env, arriving, closed, n).value.st.log
      ensures stage.Through? && stage.value == files
    {
      assert Alone(env, arriving, closed, n).value.st.log[0] == Offered(files);
      if n <= m {
        LogsGrow(env, l, n, m);
      } else {
        if !stage.Through? {
          AtRest(env, l');
          NoFurther(env, l, m, n);
        }
        LogsGrow(env, l, m, n);
      }
    }
    if stage.Through? && stage.value == files {
      assert Alone(env, arriving, closed, m) == Some(l');
    }
  }

  /** The point at which the fate is decided. */
  lemma Fate(env: Env, l: Solo, stage: Stage<seq<FileDto>>) returns (m: nat, l': Solo)
    requires Told(env, l, stage) && l.st.log == []
    ensures Go(Program(env), l, m) == Some(l')
    ensures match stage
      case Waiting => Act(env, l'.st) == Receive && l'.inbox == [] && !l'.closed && l'.st.log == []
      case Failing(why) => l'.st == Peer(Fail(why), [])
      case Through(files, rest) => l'.st == Peer(Choose(files), [Offered(files)]) && l'.inbox == rest
  {
    hide Act, Take, Unoffered;
    match stage {
      case Waiting =>
        var s :| Gets(env, l, s, []) && Act(env, s) == Receive && s.log == l.st.log;
        var n: nat, outs :| Go(Program(env), l, n) == Some(Local(s, [], l.closed, outs));
        m, l' := n, Local(s, [], l.closed, outs);
      case Failing(why) =>
        var rest :| Gets(env, l, Peer(Fail(why), l.st.log), rest);
        var n: nat, outs :| Go(Program(env), l, n) == Some(Local(Peer(Fail(why), []), rest, l.closed, outs));
        m, l' := n, Local(Peer(Fail(why), []), rest, l.closed, outs);
      case Through(files, rest) =>
        var s := Peer(Choose(files), [Offered(files)]);
        assert [] + [Offered(files)] == [Offered(files)];
        var n: nat, outs :| Go(Program(env), l, n) == Some(Local(s, rest, l.closed, outs));
        m, l' := n, Local(s, rest, l.closed, outs);
    }
  }

  /** And a receiver fails before any offer for exactly the reason that can be read off. */
  lemma FailedExactly(env: Env, arriving: seq<Message>, closed: bool, why: Reason)
    requires env.role.Receiving?
    ensures (exists n ::
              Alone(env, arriving, closed, n).Some?
              && Alone(env, arriving, closed, n).value.st == Peer(Fail(why), []))
      <==> Offer(env, arriving, closed) == Failing(why)
  {
    hide Offer, Act, Take, Go, Unoffered;
    var l, stage := Local(Start(env), arriving, closed, []), Offer(env, arriving, closed);
    OfferFate(env, arriving, closed);
    var m, l' := Fate(env, l, stage);
    forall n: nat |
        Alone(env, arriving, closed, n).Some? && Alone(env, arriving, closed, n).value.st == Peer(Fail(why), [])
      ensures stage == Failing(why)
    {
      AtRest(env, Alone(env, arriving, closed, n).value);
      NoFurther(env, l, n, m);
      LogsGrow(env, l, m, n);
      if !stage.Through? {
        AtRest(env, l');
        NoFurther(env, l, m, n);
      }
    }
    if stage == Failing(why) {
      assert Alone(env, arriving, closed, m) == Some(l');
    }
  }

  /** A sender makes its offer exactly if the messages show that its peer has passed, and then
      to the peer that they show. */
  lemma IntroducedExactly(env: Env, arriving: seq<Message>, closed: bool)
    requires env.role.Sending?
    ensures (exists n ::
              Alone(env, arriving, closed, n).Some? && Alone(env, arriving, closed, n).value.st.pc.AwaitSelection?)
      <==> Introduction(env, arriving, closed).Through?
  {
    hide Introduction, Act, Take, Go, Unoffered;
    var l, stage := Local(Start(env), arriving, closed, []), Introduction(env, arriving, closed);
    IntroductionFate(env, arriving, closed);
    var m, l' := SenderFate(env, l, stage);
    forall n: nat |
        Alone(env, arriving, closed, n).Some? && Alone(env, arriving, closed, n).value.st.pc.AwaitSelection?
      ensures stage.Through?
    {
      if !stage.Through? {
        AtRest(env, l');
        NoFurther(env, l, m, n);
        NotBefore(env, l, m, n);
      }
    }
    if stage.Through? {
      assert Alone(env, arriving, closed, m) == Some(l');
    }
  }

  lemma NotBefore(env: Env, l: Solo, m: nat, n: nat)
    requires Unoffered(env, l, m) && n < m
    ensures Go(Program(env), l, n).Some? && !Go(Program(env), l, n).value.st.pc.AwaitSelection?
  {
  }

  lemma SenderFate(env: Env, l: Solo, stage: Stage<Identity>) returns (m: nat, l': Solo)
    requires Ends(env, l, stage, (who: Identity) => AwaitSelection([], false, who)) && l.st.log == []
    ensures Go(Program(env), l, m) == Some(l') && Unoffered(env, l, m)
    ensures match stage
      case Waiting => Act(env, l'.st) == Receive && l'.inbox == [] && !l'.closed && !l'.st.pc.AwaitSelection?
      case Failing(why) => l'.st == Peer(Fail(why), [])
      case Through(who, rest) => l'.st == Peer(AwaitSelection([], false, who), []) && l'.inbox == rest
  {
    hide Act, Take, Unoffered;
    match stage {
      case Waiting =>
        var s :| Gets(env, l, s, []) && Act(env, s) == Receive && !s.pc.AwaitSelection?;
        var n: nat, outs :| Go(Program(env), l, n) == Some(Local(s, [], l.closed, outs)) && Unoffered(env, l, n);
        m, l' := n, Local(s, [], l.closed, outs);
      case Failing(why) =>
        var rest :| Gets(env, l, Peer(Fail(why), l.st.log), rest);
        var s := Peer(Fail(why), []);
        var n: nat, outs :| Go(Program(env), l, n) == Some(Local(s, rest, l.closed, outs)) && Unoffered(env, l, n);
        m, l' := n, Local(s, rest, l.closed, outs);
      case Through(who, rest) =>
        var s := Peer(AwaitSelection([], false, who), []);
        var n: nat, outs :| Go(Program(env), l, n) == Some(Local(s, rest, l.closed, outs)) && Unoffered(env, l, n);
        m, l' := n, Local(s, rest, l.closed, outs);
    }
  }
}
