/** The sender from its user's files to its end, with no regard to what its peer does. */
module Sending {
  import opened Prelude
  import opened Chunks
  import opened Messages
  import opened Session
  import opened Legs
  import opened Transfer

  /** A header and the bytes in messages of 16 KiB for each file that has a token, in the order of
      the queue. */
  function Files(json: Json, tokens: map<string, string>, queue: seq<OutFile>): seq<Message>
  {
    if queue == [] then []
    else
      var f := queue[0];
      (if f.id !in tokens then []
       else [Text(json.write(Header(f.id, tokens[f.id])))] + Binaries(Split(Flatten(f.pieces), 16 * 1024)))
      + Files(json, tokens, queue[1..])
  }

  /** A report for each of the others. */
  function Reports(tokens: map<string, string>, queue: seq<OutFile>): seq<Event>
  {
    if queue == [] then []
    else
      (if queue[0].id in tokens then [] else [FileError(queue[0].id, "Failed to get file token")])
      + Reports(tokens, queue[1..])
  }

  lemma SkipOne(env: Env, tokens: map<string, string>, queue: seq<OutFile>, log: seq<Event>)
    requires queue != [] && queue[0].id !in tokens
    ensures Walk(env, Peer(Queue(tokens, queue), log), [], false, [],
                 Peer(Queue(tokens, queue[1..]), log + [FileError(queue[0].id, "Failed to get file token")]))
  {
    Stay(env, Peer(Queue(tokens, queue), log));
    ThenInternal(env, Peer(Queue(tokens, queue), log), [], false, [], Peer(Queue(tokens, queue), log),
                 QueueTop(env, tokens, queue, log));
  }

  /** All files, and the delimiter behind them. */
  lemma {:induction false} QueueSent(env: Env, tokens: map<string, string>, queue: seq<OutFile>, log: seq<Event>)
    ensures Walk(env, Peer(Queue(tokens, queue), log), [], false, Files(env.json, tokens, queue) + [DELIMITER],
                 Peer(AwaitLast, log + Reports(tokens, queue)))
    decreases |queue|
  {
    hide Walk, Split, Flatten;
    var s := Peer(Queue(tokens, queue), log);
    if queue == [] {
      Stay(env, s);
      var s' := QueueTop(env, tokens, [], log);
      ThenInternal(env, s, [], false, [], s, s');
      ThenSend(env, s, [], false, [], s');
      assert log + [] == log && [] + [DELIMITER] == Files(env.json, tokens, []) + [DELIMITER];
    } else {
      var rest := queue[1..];
      var first, told: seq<Event> := [], [];
      if queue[0].id in tokens {
        first := FileMessages(env.json, tokens, queue[0]);
        SendFile(env, tokens, queue, log);
      } else {
        told := [FileError(queue[0].id, "Failed to get file token")];
        SkipOne(env, tokens, queue, log);
      }
      assert log + [] == log;
      QueueSent(env, tokens, rest, log + told);
      Join(env, s, [], false, first, Peer(Queue(tokens, rest), log + told), [], false,
           Files(env.json, tokens, rest) + [DELIMITER], Peer(AwaitLast, log + told + Reports(tokens, rest)));
      Assoc(first, Files(env.json, tokens, rest), [DELIMITER]);
      Assoc(log, told, Reports(tokens, rest));
      NothingAdded([]);
    }
  }

  /** Once the files are out any message at all, or the end of the channel, ends the sender well. */
  lemma LastHeard(env: Env, log: seq<Event>, last: Option<Message>)
    ensures Walk(env, Peer(AwaitLast, log), if last.Some? then [last.value] else [], last.None?, [],
                 Peer(Halt(Done), log))
  {
    hide Walk;
    var s := Peer(AwaitLast, log);
    Stay(env, s);
    if last.Some? {
      ThenTake(env, s, [], [], s, last.value);
      assert [] + [last.value] == [last.value];
    } else {
      ThenEnd(env, s, [], false, [], s);
    }
  }

  /** From the selection on nothing can go wrong: every file with a token goes out whole, every
      other one is reported, and the sender is done with the next thing it hears. */
  lemma SentRegardless(env: Env, tokens: map<string, string>, log: seq<Event>, last: Option<Message>)
    requires env.role.Sending?
    ensures Walk(env, Peer(Queue(tokens, env.role.queue), log),
                 if last.Some? then [last.value] else [], last.None?,
                 Files(env.json, tokens, env.role.queue) + [DELIMITER],
                 Peer(Halt(Done), log + Reports(tokens, env.role.queue)))
  {
    hide Walk;
    var outs := Files(env.json, tokens, env.role.queue) + [DELIMITER];
    QueueSent(env, tokens, env.role.queue, log);
    LastHeard(env, log + Reports(tokens, env.role.queue), last);
    var ins := if last.Some? then [last.value] else [];
    Join(env, Peer(Queue(tokens, env.role.queue), log), [], false, outs,
         Peer(AwaitLast, log + Reports(tokens, env.role.queue)), ins, last.None?, [],
         Peer(Halt(Done), log + Reports(tokens, env.role.queue)));
    NothingAdded(ins);
    NothingAdded(outs);
  }
}
