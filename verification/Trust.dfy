/** When two honest peers trust each other, and what that leaves for success to depend on. */
module Trust {
  import opened Prelude
  import opened Messages
  import opened Network
  import opened Token
  import opened Session
  import opened Transfer
  import opened Honest
  import opened SessionOutcome
  import opened Fidelity

  /** Without an expectation about the other side there is nothing to check. */
  predicate Expects(own: Env, other: Env)
  {
    own.expecting == None || own.expecting == Some(ToVerifyingKey(own.scheme, other.key))
  }

  /** The common nonce is the one the token was made over, so a peer that expects the other
      side's key, or none, trusts it. */
  lemma ExpectedIsTrusted(own: Env, other: Env, nonce: Bytes)
    requires Sound(own.scheme) && Expects(own, other)
    ensures Trusts(own, other, nonce)
  {
    NonceToken(own.scheme, other.key, nonce, nonce);
  }

  /** Conversely, who is trusted under another key has one that hashes alike. */
  lemma TrustedIsExpected(own: Env, other: Env, nonce: Bytes)
    requires Trusts(own, other, nonce) && own.expecting.Some?
    ensures own.expecting.value.Ed25519?
    ensures own.scheme.sha256(own.expecting.value.der + nonce)
         == own.scheme.sha256(own.scheme.publicDer(other.key) + nonce)
  {
    TokenBindsKey(own.scheme, other.key, nonce, own.expecting.value, nonce);
  }

  /** The expected key and the other side's do not hash alike over this nonce by accident. */
  predicate NoCollision(own: Env, other: Env, nonce: Bytes)
    requires own.expecting.Some?
  {
    var expected, actual := own.expecting.value.der, own.scheme.publicDer(other.key);
    own.scheme.sha256(expected + nonce) == own.scheme.sha256(actual + nonce) ==> expected == actual
  }

  /** Short of such a collision, trust is exactly that the expected key is the right one. */
  lemma TrustExactly(own: Env, other: Env, nonce: Bytes)
    requires Sound(own.scheme) && (own.expecting.Some? ==> NoCollision(own, other, nonce))
    ensures Trusts(own, other, nonce) <==> Expects(own, other)
  {
    if Expects(own, other) {
      ExpectedIsTrusted(own, other, nonce);
    }
    if Trusts(own, other, nonce) && own.expecting.Some? {
      TrustedIsExpected(own, other, nonce);
    }
  }

  /** Peers that expect each other's keys, or none: their sessions succeed exactly when the PINs
      are given, the user accepts, and a file is open at the end. */
  lemma AcquaintedSuccessExactlyWhen(e: Env, r: Env, n: Net<Peer, Message>)
    requires Setting(e, r) && Sound(e.scheme) && Expects(e, r) && Expects(r, e)
    requires Reachable(e, r, n) && n.left.pc.Halt? && n.right.pc.Halt?
    ensures n.left.pc == Halt(Done) && n.right.pc == Halt(Done) <==>
      && (r.pin.None? || PinMet(r, e.guesses)) && (Unguarded(e) || PinMet(e, r.guesses))
      && r.role.selection.Chosen?
      && EndsOpen(e.role.files, r.role.selection.ids, e.role.queue, false)
  {
    hide Reachable, Trusts, EndsOpen;
    ExpectedIsTrusted(e, r, e.nonce + r.nonce);
    ExpectedIsTrusted(r, e, e.nonce + r.nonce);
    SuccessExactlyWhen(e, r, n);
  }

  /** And with no PIN on either side nothing but the users and the files decide. */
  lemma OpenDoors(e: Env, r: Env, n: Net<Peer, Message>)
    requires Setting(e, r) && Sound(e.scheme) && Expects(e, r) && Expects(r, e)
    requires e.pin.None? && r.pin.None?
    requires r.role.selection.Chosen? && forall id :: id in r.role.selection.ids ==> InOffer(e.role.files, id)
    requires Reachable(e, r, n) && n.left.pc.Halt? && n.right.pc.Halt?
    ensures n.left.pc == Halt(Done) && n.right.pc == Halt(Done) <==>
      exists i :: 0 <= i < |e.role.queue| && e.role.queue[i].id in r.role.selection.ids
  {
    hide Reachable, Trusts;
    AcquaintedSuccessExactlyWhen(e, r, n);
    OpenAtTheEnd(e.role.files, r.role.selection.ids, e.role.queue, false);
  }
}
