/** The data channel as a program sees it, and the loops over it. Beside the real queues the
    channel carries, as ghost state, the point the step model has reached; every operation
    moves both together. */
module Channel {
  import opened Prelude
  import opened Chunks
  import opened Messages
  import opened Network
  import opened Session
  import opened Legs

  class DataChannel {
    const env: Env
    ghost const arriving: seq<Message>
    var inbox: seq<Message>
    var sent: seq<Message>
    ghost var heard: seq<Message>
    ghost var ended: bool
    ghost var at: Peer

    /** What has been read and sent takes the step model from its start to `at`. */
    ghost predicate Valid()
      reads this
    {
      && arriving == heard + inbox
      && (ended ==> inbox == [])
      && Walk(env, Start(env), heard, ended, sent, at)
    }

    constructor (env: Env, arriving: seq<Message>)
      ensures Valid()
      ensures this.env == env && this.arriving == arriving && at == Start(env)
      ensures inbox == arriving && sent == [] && !ended
    {
      this.env := env;
      this.arriving := arriving;
      inbox := arriving;
      sent, heard, ended := [], [], false;
      at := Start(env);
      new;
      Stay(env, at);
    }

    /** The next message; `None` when the other side has closed. */
    method Recv() returns (m: Option<Message>)
      requires Valid() && Act(env, at) == Receive
      modifies this
      ensures Valid()
      ensures at == Take(env, old(at), m) && sent == old(sent)
      ensures if old(inbox) == [] then m == None && inbox == []
              else m == Some(old(inbox)[0]) && inbox == old(inbox)[1..]
    {
      hide Walk;
      if inbox == [] {
        m := None;
        ThenEnd(env, Start(env), heard, ended, sent, at);
        ended := true;
      } else {
        m := Some(inbox[0]);
        ThenTake(env, Start(env), heard, sent, at, inbox[0]);
        heard := heard + [inbox[0]];
        inbox := inbox[1..];
      }
      at := Take(env, at, m);
    }

    method Send(m: Message)
      requires Valid() && Act(env, at).Emit? && Act(env, at).msg == m
      modifies this
      ensures Valid()
      ensures at == Act(env, old(at)).next && sent == old(sent) + [m] && inbox == old(inbox)
    {
      hide Walk;
      ThenEmit(env, Start(env), heard, ended, sent, at, m, Act(env, at).next);
      sent := sent + [m];
      at := Act(env, at).next;
    }

    ghost method Advance()
      requires Valid() && Act(env, at).Internal?
      modifies this`at
      ensures Valid()
      ensures at == Act(env, old(at)).next
    {
      hide Walk;
      ThenInternal(env, Start(env), heard, ended, sent, at, Act(env, at).next);
      at := Act(env, at).next;
    }

    /** A single message on its own. */
    method SendOne(m: Message)
      requires Valid() && at.pc.Out? && at.pc.msgs == [m]
      modifies this
      ensures Valid()
      ensures at == old(at).(pc := old(at.pc.next)) && sent == old(sent) + [m] && inbox == old(inbox)
    {
      hide Walk;
      Send(m);
      Advance();
    }

    /** A string in chunks of 16 KiB, and the delimiter. */
    method SendFramed(payload: Bytes)
      requires Valid() && at.pc.Out? && at.pc.msgs == Framed(payload)
      modifies this
      ensures Valid()
      ensures at == old(at).(pc := old(at.pc.next)) && sent == old(sent) + Framed(payload) && inbox == old(inbox)
    {
      hide Walk;
      var chunks := ProcessInChunks([payload], CHUNK_SIZE);
      FlattenOne(payload);
      ghost var msgs := Framed(payload);
      for i := 0 to |chunks|
        invariant Valid() && at == old(at).(pc := Out(msgs[i..], old(at.pc.next)))
        invariant sent == old(sent) + msgs[..i] && inbox == old(inbox)
      {
        Send(Binary(chunks[i]));
        assert msgs[i..][1..] == msgs[i + 1..];
        assert msgs[..i + 1] == msgs[..i] + [msgs[i]];
      }
      assert msgs[|chunks|..] == [DELIMITER];
      assert msgs[..|chunks|] + [DELIMITER] == msgs;
      SendOne(DELIMITER);
    }

    /** Binary messages up to the next text message, or to the end, joined; `last` is the
        message that closed the string, if there was one. */
    method ReceiveString() returns (payload: Bytes, ghost last: Option<Message>)
      requires Valid() && Gathers(env, at) && at.pc.buffer == []
      modifies this
      ensures Valid() && sent == old(sent)
      ensures payload == Unframe(old(inbox)).0 && inbox == Unframe(old(inbox)).1
      ensures last.None? || last.value.Text?
      ensures at == Take(env, old(at).(pc := Gathered(old(at.pc), payload)), last)
    {
      hide Walk, Act, Take, Gathered;
      payload := [];
      ghost var start := old(at);
      assert at == start.(pc := Gathered(start.pc, [])) by { NothingGathered(start.pc); }
      assert payload + Unframe(inbox).0 == Unframe(inbox).0;
      while true
        invariant Valid() && sent == old(sent)
        invariant at == start.(pc := Gathered(start.pc, payload))
        invariant Unframe(old(inbox)) == (payload + Unframe(inbox).0, Unframe(inbox).1)
        decreases |inbox|
      {
        GatherOne(env, start, payload, []);
        ghost var before := inbox;
        var m := Recv();
        last := m;
        if m.None? || m.value.Text? {
          assert Unframe(before).0 == [];
          return;
        }
        GatherOne(env, start, payload, m.value.data);
        Assoc(payload, m.value.data, Unframe(inbox).0);
        payload := payload + m.value.data;
      }
    }
  }
}
