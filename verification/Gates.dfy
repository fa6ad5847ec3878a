/** One honest program against a peer that may send anything at all. */
module Gates {
  import opened Prelude
  import opened Messages
  import opened Token
  import opened Network
  import opened Session
  import opened SessionOutcome
  import Base64

  /** The program after `n` steps, fed with `arriving` and nothing else. */
  function Alone(env: Env, arriving: seq<Message>, closed: bool, n: nat): Option<Solo>
  {
    Go(Program(env), Local(Start(env), arriving, closed, []), n)
  }

  // ----- What an admitted peer has shown -----

  function NonceIn(env: Env, m: Message): Option<Bytes>
  {
    match env.json.read(NonceMessage, m.data)
    case Some(Nonce(text)) =>
      var remote := Base64.Decode(text);
      if m.Binary? || remote.None? || |remote.value| < 16 || |remote.value| > 128 then None
      else Some(if env.role.Sending? then env.nonce + remote.value else remote.value + env.nonce)
    case _ => None
  }

  function TokenIn(env: Env, m: Message): Option<string>
  {
    if m.Binary? then None
    else if env.role.Sending? then
      match env.json.read(TokenResponse, m.data)
      case Some(TokenOk(token)) => Some(token)
      case Some(TokenPinRequired(token)) => Some(token)
      case _ => None
    else
      match env.json.read(TokenRequestMessage, m.data)
      case Some(TokenRequest(token)) => Some(token)
      case _ => None
  }

  function PinIn(env: Env, m: Message): Option<string>
  {
    match env.json.read(PinMessage, m.data)
    case Some(Pin(pin)) => Some(pin)
    case _ => None
  }

  /** The peer has opened with its nonce and a token that passes the check, if there is one. */
  ghost predicate Identified(env: Env, heard: seq<Message>, who: Identity)
  {
    && |heard| >= 2
    && NonceIn(env, heard[0]) == Some(who.nonce)
    && TokenIn(env, heard[1]) == Some(who.token)
    && Check(env, who.token, who.nonce).Accepted?
  }

  ghost predicate WrongPins(env: Env, ms: seq<Message>)
    requires env.pin.Some?
  {
    forall i :: 0 <= i < |ms| ==> PinIn(env, ms[i]).Some? && PinIn(env, ms[i]).value != env.pin.value.pin
  }

  /** The last `tries` messages are PINs, all wrong but the last, and within the limit; the
      receiver asks right after the token, the sender possibly later. */
  ghost predicate PinShown(env: Env, heard: seq<Message>, tries: nat)
    requires env.pin.Some?
  {
    && 1 <= tries <= env.pin.value.maxTries
    && 2 + tries <= |heard|
    && (env.role.Receiving? ==> |heard| == 2 + tries)
    && PinIn(env, heard[|heard| - 1]) == Some(env.pin.value.pin)
    && WrongPins(env, heard[|heard| - tries..|heard| - 1])
  }

  ghost predicate Admitted(env: Env, heard: seq<Message>)
  {
    && (exists who :: Identified(env, heard, who))
    && (Unguarded(env) || exists tries :: PinShown(env, heard, tries))
  }

  /** Some beginning of the messages satisfies both gates. */
  ghost predicate Passes(env: Env, arriving: seq<Message>)
  {
    exists k :: 0 <= k <= |arriving| && Admitted(env, arriving[..k])
  }

  // ----- The invariant -----

  ghost predicate GateInv(env: Env, arriving: seq<Message>, heard: seq<Message>, pc: Pc)
  {
    match pc
    case Out(_, next) => GateInv(env, arriving, heard, next)
    case AwaitNonce => heard == []
    case AwaitToken(nonce) => env.role.Receiving? && |heard| == 1 && NonceIn(env, heard[0]) == Some(nonce)
    case AwaitTokenResponse(nonce) => env.role.Sending? && |heard| == 1 && NonceIn(env, heard[0]) == Some(nonce)
    case Guess(_, who) => if env.role.Sending? then Identified(env, heard, who) else Passes(env, arriving)
    case Answer(_, _, who) => if env.role.Sending? then Identified(env, heard, who) else Passes(env, arriving)
    case Verify(tries, remotePin, _, who) =>
      && env.pin.Some?
      && Asking(env, heard, tries, who)
      && tries <= env.pin.value.maxTries
      && (tries > 0 ==> !Unguarded(env))
      && (if tries == 0 then remotePin == ""
          else PinIn(env, heard[|heard| - 1]) == Some(remotePin)
               && WrongPins(env, heard[|heard| - tries..|heard| - 1]))
    case VerifyWait(tries, who) =>
      && !Unguarded(env)
      && Asking(env, heard, tries, who)
      && tries < env.pin.value.maxTries
      && WrongPins(env, heard[|heard| - tries..])
    case Halt(_) => true
    case Collect(_, _) => env.role.Receiving? && Passes(env, arriving)
    case _ => Passes(env, arriving)
  }

  /** `tries` PINs have been read since the peer identified itself. */
  ghost predicate Asking(env: Env, heard: seq<Message>, tries: nat, who: Identity)
  {
    && tries + 2 <= |heard|
    && (env.role.Receiving? ==> |heard| == 2 + tries)
    && Identified(env, heard, who)
  }

  ghost predicate HasOffer(log: seq<Event>)
  {
    exists i :: 0 <= i < |log| && log[i].Offered?
  }

  function HeardBy(arriving: seq<Message>, l: Solo): seq<Message>
    requires |l.inbox| <= |arriving|
  {
    arriving[..|arriving| - |l.inbox|]
  }

  ghost predicate Inv(env: Env, arriving: seq<Message>, l: Solo)
  {
    && |l.inbox| <= |arriving|
    && l.inbox == arriving[|arriving| - |l.inbox|..]
    && GateInv(env, arriving, HeardBy(arriving, l), l.st.pc)
    && (HasOffer(l.st.log) ==> Passes(env, arriving))
  }

  lemma AdmittedNow(env: Env, arriving: seq<Message>, k: nat)
    requires k <= |arriving| && Admitted(env, arriving[..k])
    ensures Passes(env, arriving)
  {
  }

  /** The step on which a challenge begins, or is not needed. */
  lemma ChallengeKeeps(env: Env, arriving: seq<Message>, k: nat, who: Identity)
    requires k <= |arriving| && Identified(env, arriving[..k], who)
    requires env.role.Receiving? ==> k == 2
    ensures GateInv(env, arriving, arriving[..k], Challenge(env, who))
  {
    hide Check, GenerateTokenNonce, VerifyTokenNonce, ExtractSignatureIdentifier, Base64.Decode, Framed;
    if env.pin.None? {
      AdmittedNow(env, arriving, k);
    }
  }

  lemma RightPin(env: Env, arriving: seq<Message>, k: nat, pc: Pc)
    requires k <= |arriving| && pc.Verify? && GateInv(env, arriving, arriving[..k], pc)
    requires pc.remotePin == env.pin.value.pin
    ensures Passes(env, arriving)
  {
    hide Check, GenerateTokenNonce, VerifyTokenNonce, ExtractSignatureIdentifier, Base64.Decode, Framed;
    assert Identified(env, arriving[..k], pc.who);
    if pc.tries > 0 { assert PinShown(env, arriving[..k], pc.tries); }
    AdmittedNow(env, arriving, k);
  }

  lemma WrongPin(env: Env, heard: seq<Message>, tries: nat, remotePin: string, who: Identity)
    requires env.pin.Some? && Asking(env, heard, tries, who)
    requires if tries == 0 then remotePin == ""
             else PinIn(env, heard[|heard| - 1]) == Some(remotePin)
                  && WrongPins(env, heard[|heard| - tries..|heard| - 1])
    requires remotePin != env.pin.value.pin
    ensures WrongPins(env, heard[|heard| - tries..])
  {
    hide Check, GenerateTokenNonce, VerifyTokenNonce, ExtractSignatureIdentifier, Base64.Decode, Framed;
    if tries > 0 {
      OneMoreWrong(env, heard[|heard| - tries..|heard| - 1], heard[|heard| - 1]);
      assert heard[|heard| - tries..] == heard[|heard| - tries..|heard| - 1] + [heard[|heard| - 1]];
    } else {
      assert heard[|heard|..] == [];
    }
  }

  /** The top of the PIN loop. */
  lemma VerifyKeeps(env: Env, arriving: seq<Message>, k: nat, pc: Pc)
    requires k <= |arriving| && pc.Verify? && GateInv(env, arriving, arriving[..k], pc)
    ensures GateInv(env, arriving, arriving[..k], VerifyTop(env, pc.tries, pc.remotePin, pc.notice, pc.who))
  {
    hide Check, GenerateTokenNonce, VerifyTokenNonce, ExtractSignatureIdentifier, Base64.Decode, Framed;
    if pc.remotePin == env.pin.value.pin {
      RightPin(env, arriving, k, pc);
    } else {
      WrongPin(env, arriving[..k], pc.tries, pc.remotePin, pc.who);
    }
  }

  lemma OneMoreWrong(env: Env, ms: seq<Message>, m: Message)
    requires env.pin.Some? && WrongPins(env, ms)
    requires PinIn(env, m).Some? && PinIn(env, m).value != env.pin.value.pin
    ensures WrongPins(env, ms + [m])
  {
  }

  /** A PIN is read. */
  lemma PinReadKeeps(env: Env, arriving: seq<Message>, k: nat, tries: nat, who: Identity, log: seq<Event>)
    requires k < |arriving| && GateInv(env, arriving, arriving[..k], VerifyWait(tries, who))
    ensures GateInv(env, arriving, arriving[..k + 1],
                    Take(env, Peer(VerifyWait(tries, who), log), Some(arriving[k])).pc)
  {
    hide Check, GenerateTokenNonce, VerifyTokenNonce, ExtractSignatureIdentifier, Base64.Decode, Framed;
    var heard, heard' := arriving[..k], arriving[..k + 1];
    assert heard' == heard + [arriving[k]];
    var t := tries + 1;
    assert heard'[|heard'| - t..|heard'| - 1] == heard[|heard| - tries..];
  }

  lemma NonceReadKeeps(env: Env, arriving: seq<Message>, log: seq<Event>)
    requires |arriving| > 0
    ensures GateInv(env, arriving, arriving[..1], Take(env, Peer(AwaitNonce, log), Some(arriving[0])).pc)
  {
  }

  lemma TokenReadKeeps(env: Env, arriving: seq<Message>, pc: Pc, log: seq<Event>)
    requires |arriving| > 1 && GateInv(env, arriving, arriving[..1], pc)
    requires pc.AwaitToken? || pc.AwaitTokenResponse?
    ensures GateInv(env, arriving, arriving[..2], Take(env, Peer(pc, log), Some(arriving[1])).pc)
  {
    hide Check, GenerateTokenNonce, VerifyTokenNonce, ExtractSignatureIdentifier, Base64.Decode, Framed;
    var token := TokenIn(env, arriving[1]);
    assert arriving[..2][0] == arriving[..1][0];
    if token.Some? && Check(env, token.value, pc.nonce).Accepted? {
      assert Identified(env, arriving[..2], Identity(pc.nonce, token.value));
      ChallengeKeeps(env, arriving, 2, Identity(pc.nonce, token.value));
    }
  }

  lemma VerdictReadKeeps(env: Env, arriving: seq<Message>, k: nat, pc: Pc, log: seq<Event>)
    requires k < |arriving| && GateInv(env, arriving, arriving[..k], pc)
    requires pc.Answer? && env.role.Sending?
    ensures GateInv(env, arriving, arriving[..k + 1], Take(env, Peer(pc, log), Some(arriving[k])).pc)
  {
    hide Check, GenerateTokenNonce, VerifyTokenNonce, ExtractSignatureIdentifier, Base64.Decode, Framed;
    assert arriving[..k + 1] == arriving[..k] + [arriving[k]];
    assert Identified(env, arriving[..k + 1], pc.who);
    ChallengeKeeps(env, arriving, k + 1, pc.who);
  }

  lemma EarlyReadKeeps(env: Env, arriving: seq<Message>, k: nat, pc: Pc, log: seq<Event>)
    requires k < |arriving| && GateInv(env, arriving, arriving[..k], pc)
    requires pc.AwaitNonce? || pc.AwaitToken? || pc.AwaitTokenResponse? || (pc.Answer? && env.role.Sending?)
    ensures GateInv(env, arriving, arriving[..k + 1], Take(env, Peer(pc, log), Some(arriving[k])).pc)
  {
    hide Check, GenerateTokenNonce, VerifyTokenNonce, ExtractSignatureIdentifier, Base64.Decode, Framed;
    if pc.AwaitNonce? {
      NonceReadKeeps(env, arriving, log);
    } else if pc.Answer? {
      VerdictReadKeeps(env, arriving, k, pc, log);
    } else {
      TokenReadKeeps(env, arriving, pc, log);
    }
  }

  lemma SelectionKeeps(env: Env, arriving: seq<Message>, heard: seq<Message>, data: Bytes, paired: bool, who: Identity,
                       log: seq<Event>)
    requires Passes(env, arriving)
    ensures GateInv(env, arriving, heard, OnSelection(env, data, paired, who, log).pc)
  {
    hide Check, GenerateTokenNonce, VerifyTokenNonce, ExtractSignatureIdentifier, Base64.Decode, Framed;
    var pc := OnSelection(env, data, paired, who, log).pc;
    if pc.Out? {
      assert pc.next.Halt? || pc.next.AwaitSelection?;
    }
  }

  lemma FilesKeeps(env: Env, arriving: seq<Message>, heard: seq<Message>, s: Peer, m: Message)
    requires Passes(env, arriving) && s.pc.Files? && env.role.Receiving?
    ensures GateInv(env, arriving, heard, OnFileMessage(env, s, m).pc)
  {
  }

  /** Everything behind the gates stays behind them. */
  lemma LateReadKeeps(env: Env, arriving: seq<Message>, heard: seq<Message>, heard': seq<Message>, s: Peer,
                      m: Option<Message>)
    requires GateInv(env, arriving, heard, s.pc) && Act(env, s) == Receive
    requires s.pc.Collect? || s.pc.AwaitSelection? || s.pc.AwaitLast? || s.pc.Files?
          || (s.pc.Answer? && env.role.Receiving?)
    ensures GateInv(env, arriving, heard', Take(env, s, m).pc)
  {
    hide Check, GenerateTokenNonce, VerifyTokenNonce, ExtractSignatureIdentifier, Base64.Decode, Framed;
    if s.pc.AwaitSelection? {
      SelectionKeeps(env, arriving, heard', s.pc.buffer, s.pc.paired, s.pc.who, s.log);
    } else if s.pc.Files? && m.Some? && env.role.Receiving? {
      FilesKeeps(env, arriving, heard', s, m.value);
    }
  }

  lemma CutShort(env: Env, s: Peer)
    requires Act(env, s) == Receive
    requires !(s.pc.Collect? || s.pc.AwaitSelection? || s.pc.AwaitLast? || s.pc.Files?
          || (s.pc.Answer? && env.role.Receiving?))
    ensures Take(env, s, None).pc.Halt?
  {
  }

  lemma LogKeeps(env: Env, s: Peer, m: Option<Message>)
    requires Act(env, s) == Receive && !HasOffer(s.log) && HasOffer(Take(env, s, m).log)
    ensures s.pc.Collect? || (s.pc.Answer? && env.role.Receiving?)
  {
    hide Check, GenerateTokenNonce, VerifyTokenNonce, ExtractSignatureIdentifier, Base64.Decode, Framed;
    var log' := Take(env, s, m).log;
    var i :| 0 <= i < |log'| && log'[i].Offered?;
    assert i < |s.log| ==> !s.log[i].Offered?;
  }

  lemma OwnMovesDoNotOffer(env: Env, s: Peer)
    requires Act(env, s).Internal? || Act(env, s).Emit?
    ensures HasOffer(Act(env, s).next.log) ==> HasOffer(s.log)
  {
    hide Check, GenerateTokenNonce, VerifyTokenNonce, ExtractSignatureIdentifier, Base64.Decode, Framed;
    var log' := Act(env, s).next.log;
    assert log' == s.log || (|log'| == |s.log| + 1 && log'[..|s.log|] == s.log && !log'[|s.log|].Offered?);
    if HasOffer(log') {
      var i :| 0 <= i < |log'| && log'[i].Offered?;
      assert i < |s.log| && log'[..|s.log|][i] == s.log[i];
    }
  }

  lemma OwnMoveKeeps(env: Env, arriving: seq<Message>, k: nat, s: Peer)
    requires k <= |arriving| && GateInv(env, arriving, arriving[..k], s.pc)
    requires Act(env, s).Internal? || Act(env, s).Emit?
    ensures GateInv(env, arriving, arriving[..k], Act(env, s).next.pc)
    ensures HasOffer(Act(env, s).next.log) ==> HasOffer(s.log)
  {
    hide HasOffer, Passes, Check, GenerateTokenNonce, VerifyTokenNonce, ExtractSignatureIdentifier;
    hide Base64.Decode, Framed;
    OwnMovesDoNotOffer(env, s);
    if s.pc.Verify? {
      VerifyKeeps(env, arriving, k, s.pc);
    }
  }

  lemma InvAt(env: Env, arriving: seq<Message>, k: nat, l: Solo)
    requires k <= |arriving| && l.inbox == arriving[k..]
    requires GateInv(env, arriving, arriving[..k], l.st.pc)
    requires HasOffer(l.st.log) ==> Passes(env, arriving)
    ensures Inv(env, arriving, l)
  {
    hide Check, GenerateTokenNonce, VerifyTokenNonce, ExtractSignatureIdentifier, Base64.Decode, Framed;
    assert |arriving| - |l.inbox| == k;
  }

  lemma InvStep(env: Env, arriving: seq<Message>, l: Solo)
    requires Inv(env, arriving, l)
    requires LocalStep(Program(env), l).Some?
    ensures Inv(env, arriving, LocalStep(Program(env), l).value)
  {
    hide Check, GenerateTokenNonce, VerifyTokenNonce, ExtractSignatureIdentifier, Base64.Decode, Framed;
    var s := l.st;
    var k := |arriving| - |l.inbox|;
    var l' := LocalStep(Program(env), l).value;
    SoloStep(env, l);
    if Act(env, s) == Receive {
      if l.inbox != [] {
        assert l.inbox[0] == arriving[k];
        assert l.inbox[1..] == arriving[k + 1..];
        ReadKeeps(env, arriving, k, s);
        InvAt(env, arriving, k + 1, l');
      } else {
        EndKeeps(env, arriving, |arriving|, s);
        InvAt(env, arriving, |arriving|, l');
      }
    } else {
      OwnMoveKeeps(env, arriving, k, s);
      InvAt(env, arriving, k, l');
    }
  }

  lemma ReadKeeps(env: Env, arriving: seq<Message>, k: nat, s: Peer)
    requires k < |arriving| && GateInv(env, arriving, arriving[..k], s.pc) && Act(env, s) == Receive
    requires HasOffer(s.log) ==> Passes(env, arriving)
    ensures GateInv(env, arriving, arriving[..k + 1], Take(env, s, Some(arriving[k])).pc)
    ensures HasOffer(Take(env, s, Some(arriving[k])).log) ==> Passes(env, arriving)
  {
    hide Check, GenerateTokenNonce, VerifyTokenNonce, ExtractSignatureIdentifier, Base64.Decode, Framed;
    if s.pc.VerifyWait? {
      PinReadKeeps(env, arriving, k, s.pc.tries, s.pc.who, s.log);
    } else if s.pc.AwaitNonce? || s.pc.AwaitToken? || s.pc.AwaitTokenResponse? || (s.pc.Answer? && env.role.Sending?) {
      EarlyReadKeeps(env, arriving, k, s.pc, s.log);
    } else {
      LateReadKeeps(env, arriving, arriving[..k], arriving[..k + 1], s, Some(arriving[k]));
    }
    if !HasOffer(s.log) && HasOffer(Take(env, s, Some(arriving[k])).log) {
      LogKeeps(env, s, Some(arriving[k]));
    }
  }

  /** The end of the channel, wherever in the messages it is met. */
  lemma EndKeeps(env: Env, arriving: seq<Message>, k: nat, s: Peer)
    requires k <= |arriving| && GateInv(env, arriving, arriving[..k], s.pc) && Act(env, s) == Receive
    requires HasOffer(s.log) ==> Passes(env, arriving)
    ensures GateInv(env, arriving, arriving[..k], Take(env, s, None).pc)
    ensures HasOffer(Take(env, s, None).log) ==> Passes(env, arriving)
  {
    hide Check, GenerateTokenNonce, VerifyTokenNonce, ExtractSignatureIdentifier, Base64.Decode, Framed;
    if s.pc.Collect? || s.pc.AwaitSelection? || s.pc.AwaitLast? || s.pc.Files?
       || (s.pc.Answer? && env.role.Receiving?) {
      LateReadKeeps(env, arriving, arriving[..k], arriving[..k], s, None);
    } else {
      CutShort(env, s);
    }
    if !HasOffer(s.log) && HasOffer(Take(env, s, None).log) {
      LogKeeps(env, s, None);
    }
  }

  lemma {:induction false} InvGo(env: Env, arriving: seq<Message>, l: Solo, n: nat)
    requires Inv(env, arriving, l) && Go(Program(env), l, n).Some?
    ensures Inv(env, arriving, Go(Program(env), l, n).value)
    decreases n
  {
    hide Inv, Passes, Act, Take;
    if n > 0 {
      InvStep(env, arriving, l);
      InvGo(env, arriving, LocalStep(Program(env), l).value, n - 1);
    }
  }

  lemma InvStart(env: Env, arriving: seq<Message>, closed: bool)
    ensures Inv(env, arriving, Local(Start(env), arriving, closed, []))
  {
    assert arriving[0..] == arriving;
    assert arriving[..0] == [];
  }

  /** Gating, receiver: a file list reaches the receiving user only from a peer that has
      passed the token check and the PIN challenge. */
  lemma NoOfferBeforeGates(env: Env, arriving: seq<Message>, closed: bool, n: nat)
    requires Alone(env, arriving, closed, n).Some? && HasOffer(Alone(env, arriving, closed, n).value.st.log)
    ensures Passes(env, arriving)
  {
    hide Check, GenerateTokenNonce, VerifyTokenNonce, ExtractSignatureIdentifier, Base64.Decode, Framed;
    InvStart(env, arriving, closed);
    InvGo(env, arriving, Local(Start(env), arriving, closed, []), n);
  }

  // ----- The sender's secret -----

  /** Two senders that differ in nothing but their files, the files' bytes and the answer to a
      pairing request. */
  ghost predicate SameButFiles(a: Env, b: Env)
  {
    a.role.Sending? && b.role.Sending? && b == a.(role := b.role)
  }

  lemma SameMove(a: Env, b: Env, arriving: seq<Message>, k: nat, s: Peer)
    requires SameButFiles(a, b) && k <= |arriving|
    requires GateInv(a, arriving, arriving[..k], s.pc) && !Passes(a, arriving)
    ensures Act(a, s) == Act(b, s)
  {
    hide Check, GenerateTokenNonce, VerifyTokenNonce, ExtractSignatureIdentifier, Base64.Decode, Framed;
    if s.pc.Verify? {
      VerifyKeeps(a, arriving, k, s.pc);
    }
  }

  lemma SameRead(a: Env, b: Env, arriving: seq<Message>, k: nat, s: Peer, m: Option<Message>)
    requires SameButFiles(a, b) && k <= |arriving|
    requires GateInv(a, arriving, arriving[..k], s.pc) && !Passes(a, arriving)
    requires Act(a, s) == Receive
    requires m.Some? ==> k < |arriving| && m.value == arriving[k]
    ensures Take(a, s, m) == Take(b, s, m)
  {
    if m.Some? && (s.pc.AwaitTokenResponse? || s.pc.Answer?) {
      EarlyReadKeeps(a, arriving, k, s.pc, s.log);
    }
  }

  lemma SameStep(a: Env, b: Env, arriving: seq<Message>, l: Solo)
    requires SameButFiles(a, b) && Inv(a, arriving, l) && !Passes(a, arriving)
    ensures LocalStep(Program(a), l) == LocalStep(Program(b), l)
  {
    hide Check, GenerateTokenNonce, VerifyTokenNonce, ExtractSignatureIdentifier, Base64.Decode, Framed;
    var k := |arriving| - |l.inbox|;
    SameMove(a, b, arriving, k, l.st);
    if Act(a, l.st) == Receive {
      if l.inbox != [] {
        assert l.inbox[0] == arriving[k];
        SameRead(a, b, arriving, k, l.st, Some(arriving[k]));
      } else {
        SameRead(a, b, arriving, k, l.st, None);
      }
    }
  }

  lemma {:induction false} SameGo(a: Env, b: Env, arriving: seq<Message>, l: Solo, n: nat)
    requires SameButFiles(a, b) && Inv(a, arriving, l) && !Passes(a, arriving)
    ensures Go(Program(a), l, n) == Go(Program(b), l, n)
    decreases n
  {
    hide Inv, Passes, Act, Take, SameButFiles;
    if n > 0 {
      SameStep(a, b, arriving, l);
      var next := LocalStep(Program(a), l);
      if next.Some? {
        InvStep(a, arriving, l);
        SameGo(a, b, arriving, next.value, n - 1);
      }
    }
  }

  /** Gating, sender: towards a peer that has not passed both gates, the sender behaves, step
      for step and message for message, as it would with any other files. */
  lemma NothingDisclosed(a: Env, b: Env, arriving: seq<Message>, closed: bool, n: nat)
    requires SameButFiles(a, b)
    requires !Passes(a, arriving)
    ensures Alone(a, arriving, closed, n) == Alone(b, arriving, closed, n)
  {
    hide Check, GenerateTokenNonce, VerifyTokenNonce, ExtractSignatureIdentifier, Base64.Decode, Framed;
    InvStart(a, arriving, closed);
    SameGo(a, b, arriving, Local(Start(a), arriving, closed, []), n);
  }

  /** The same inside a session: whatever program the other side runs, and under every
      schedule, the receiving user sees a file list only if the messages read so far pass
      both gates. */
  lemma NoOfferInAnySession(other: Process<Peer, Message>, start: Peer, env: Env, n: Net<Peer, Message>)
    returns (heard: seq<Message>, closed: bool, outs: seq<Message>)
    requires Reach(other, Program(env), Net(start, Start(env), [], []), n)
    requires HasOffer(n.right.log)
    ensures Leg(Program(env), Start(env), heard, closed, outs, n.right)
    ensures Passes(env, heard)
  {
    hide Check, GenerateTokenNonce, VerifyTokenNonce, ExtractSignatureIdentifier, Base64.Decode, Framed;
    var begin := Net(start, Start(env), [], []);
    var schedule :| Run(other, Program(env), begin, schedule) == Some(n);
    var sent;
    heard, closed, outs, sent := RightAlone(other, Program(env), begin, schedule);
    var k: nat :| Go(Program(env), Local(Start(env), heard, closed, []), k) == Some(Local(n.right, [], closed, outs));
    NoOfferBeforeGates(env, heard, closed, k);
  }

  // ----- The sender's secret in a session with any partner -----

  /** What the left program reads on a schedule. */
  function ReadLeft(p: Process<Peer, Message>, q: Process<Peer, Message>, n: Net<Peer, Message>, schedule: seq<Side>)
    : seq<Message>
    decreases |schedule|
  {
    if schedule == [] then []
    else
      match Step(p, q, n, schedule[0])
      case None => []
      case Some(n') =>
        (if schedule[0].Left? && p.act(n.left) == Receive && n.toLeft != [] then [n.toLeft[0]] else [])
          + ReadLeft(p, q, n', schedule[1..])
  }

  /** A move of the left program in a session, spelled out. */
  lemma LeftStep(env: Env, q: Process<Peer, Message>, n: Net<Peer, Message>)
    requires Step(Program(env), q, n, Left).Some?
    ensures var n', a := Step(Program(env), q, n, Left).value, Act(env, n.left);
      && (a.Internal? || a.Emit? || a == Receive)
      && (a.Internal? || a.Emit? ==> n'.left == a.next)
      && (a == Receive && n.toLeft != [] ==> n'.left == Take(env, n.left, Some(n.toLeft[0])))
      && (a == Receive && n.toLeft == [] ==> n'.left == Take(env, n.left, None))
  {
  }

  lemma SameSessionStep(a: Env, b: Env, q: Process<Peer, Message>, n: Net<Peer, Message>, side: Side,
                        arriving: seq<Message>, k: nat)
    requires SameButFiles(a, b) && k <= |arriving| && !Passes(a, arriving)
    requires GateInv(a, arriving, arriving[..k], n.left.pc) && Step(Program(a), q, n, side).Some?
    requires side.Left? && Act(a, n.left) == Receive && n.toLeft != [] ==> k < |arriving| && arriving[k] == n.toLeft[0]
    ensures Step(Program(b), q, n, side) == Step(Program(a), q, n, side)
  {
    hide Check, GenerateTokenNonce, VerifyTokenNonce, ExtractSignatureIdentifier, Base64.Decode, Framed;
    hide Act, Take, GateInv;
    SameMove(a, b, arriving, k, n.left);
    if side.Left? && Act(a, n.left) == Receive {
      SameRead(a, b, arriving, k, n.left, if n.toLeft == [] then None else Some(n.toLeft[0]));
    }
  }

  /** One move of the session keeps what is known about the gates. */
  lemma SessionStepKeeps(a: Env, q: Process<Peer, Message>, n: Net<Peer, Message>, side: Side,
                         arriving: seq<Message>, k: nat, k': nat)
    requires Step(Program(a), q, n, side).Some? && k' <= |arriving| && k <= k'
    requires GateInv(a, arriving, arriving[..k], n.left.pc) && !HasOffer(n.left.log) && !Passes(a, arriving)
    requires if side.Left? && Act(a, n.left) == Receive && n.toLeft != []
      then k' == k + 1 && arriving[k] == n.toLeft[0] else k' == k
    ensures var n' := Step(Program(a), q, n, side).value;
      GateInv(a, arriving, arriving[..k'], n'.left.pc) && !HasOffer(n'.left.log)
  {
    hide Check, GenerateTokenNonce, VerifyTokenNonce, ExtractSignatureIdentifier, Base64.Decode, Framed;
    hide Act, Take, GateInv, HasOffer;
    if side.Left? {
      LeftStep(a, q, n);
      if Act(a, n.left) != Receive {
        OwnMoveKeeps(a, arriving, k, n.left);
      } else if n.toLeft != [] {
        ReadKeeps(a, arriving, k, n.left);
      } else {
        EndKeeps(a, arriving, k, n.left);
      }
    }
  }

  lemma {:induction false} SameSession(a: Env, b: Env, q: Process<Peer, Message>, n: Net<Peer, Message>,
                                       schedule: seq<Side>, before: seq<Message>)
    requires SameButFiles(a, b) && Run(Program(a), q, n, schedule).Some?
    requires var arriving := before + ReadLeft(Program(a), q, n, schedule);
      GateInv(a, arriving, before, n.left.pc) && !HasOffer(n.left.log) && !Passes(a, arriving)
    ensures Run(Program(b), q, n, schedule) == Run(Program(a), q, n, schedule)
    decreases |schedule|
  {
    hide Act, Take, GateInv, HasOffer, Passes, SameButFiles;
    if schedule != [] {
      var side := schedule[0];
      var arriving := before + ReadLeft(Program(a), q, n, schedule);
      var n' := Step(Program(a), q, n, side).value;
      var hears := side.Left? && Act(a, n.left) == Receive && n.toLeft != [];
      var before' := if hears then before + [n.toLeft[0]] else before;
      assert arriving == before' + ReadLeft(Program(a), q, n', schedule[1..]);
      assert arriving[..|before|] == before && arriving[..|before'|] == before';
      SameSessionStep(a, b, q, n, side, arriving, |before|);
      SessionStepKeeps(a, q, n, side, arriving, |before|, |before'|);
      SameSession(a, b, q, n', schedule[1..], before');
    }
  }

  /** The same inside a session: whatever program the other side runs, and under every
      schedule, as long as what the sender has read does not pass both gates the session goes,
      move for move and message for message, as it would with any other files. */
  lemma NothingDisclosedInAnySession(a: Env, b: Env, other: Process<Peer, Message>, start: Peer, schedule: seq<Side>)
    requires SameButFiles(a, b)
    requires var begin := Net(Start(a), start, [], []);
      Run(Program(a), other, begin, schedule).Some? && !Passes(a, ReadLeft(Program(a), other, begin, schedule))
    ensures Start(b) == Start(a)
    ensures Run(Program(b), other, Net(Start(b), start, [], []), schedule)
         == Run(Program(a), other, Net(Start(a), start, [], []), schedule)
  {
    hide Passes;
    var begin := Net(Start(a), start, [], []);
    var arriving := ReadLeft(Program(a), other, begin, schedule);
    assert [] + arriving == arriving;
    assert GateInv(a, arriving, [], AwaitNonce) && !HasOffer([]);
    SameSession(a, b, other, begin, schedule, []);
  }
}
