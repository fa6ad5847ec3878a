/** Re-blocking of byte streams: the sender cuts into 16 KiB messages, the
    receiving application glues those into 1 MiB blocks. */
module Chunks {
  import opened Prelude

  const CHUNK_SIZE: nat := 16 * 1024

  const BUFFER_SIZE: nat := 1024 * 1024

  /** Chunks of exactly `n` bytes, except that the last may be shorter but not empty. */
  ghost predicate Canonical(chunks: seq<Bytes>, n: nat)
  {
    forall i :: 0 <= i < |chunks| ==>
      0 < |chunks[i]| <= n && (i < |chunks| - 1 ==> |chunks[i]| == n)
  }

  function Split(s: Bytes, n: nat): (chunks: seq<Bytes>)
    requires n > 0
  {
    if s == [] then []
    else if |s| <= n then [s]
    else [s[..n]] + Split(s[n..], n)
  }

  function CeilDiv(a: nat, n: nat): nat
    requires n > 0
  {
    (a + n - 1) / n
  }

  lemma {:induction false} SplitIsCanonical(s: Bytes, n: nat)
    requires n > 0
    ensures Canonical(Split(s, n), n)
    ensures Flatten(Split(s, n)) == s
  {
    if s == [] {
    } else if |s| <= n {
      FlattenOne(s);
    } else {
      SplitIsCanonical(s[n..], n);
      var rest := Split(s[n..], n);
      assert Split(s, n)[1..] == rest;
      assert forall i :: 0 < i <= |rest| ==> Split(s, n)[i] == rest[i - 1];
      assert rest != [];
    }
  }

  /** There is only one canonical way to cut a byte string. */
  lemma {:induction false} CanonicalIsSplit(chunks: seq<Bytes>, n: nat)
    requires n > 0
    requires Canonical(chunks, n)
    ensures chunks == Split(Flatten(chunks), n)
  {
    if chunks != [] {
      var rest := chunks[1..];
      assert Canonical(rest, n) by {
        assert forall i :: 0 <= i < |rest| ==> rest[i] == chunks[i + 1];
      }
      CanonicalIsSplit(rest, n);
      var s := Flatten(chunks);
      if rest == [] {
        FlattenOne(chunks[0]);
        assert chunks == [chunks[0]];
      } else {
        assert |rest[0]| > 0 && |Flatten(rest)| >= |rest[0]|;
        assert s[..n] == chunks[0] && s[n..] == Flatten(rest);
        assert chunks == [chunks[0]] + rest;
      }
    }
  }

  lemma {:induction false} SplitCount(s: Bytes, n: nat)
    requires n > 0
    ensures |Split(s, n)| == CeilDiv(|s|, n)
  {
    if s == [] {
      assert (n - 1) / n == 0;
    } else if |s| <= n {
      CeilDivOne(|s|, n);
    } else {
      SplitCount(s[n..], n);
      CeilDivStep(|s|, n);
    }
  }

  lemma CeilDivOne(a: nat, n: nat)
    requires 0 < a <= n
    ensures CeilDiv(a, n) == 1
  {
    var x := a - 1;
    assert (a + n - 1) == x + n;
    assert 0 <= x < n;
    CeilUnique(x + n, n, 1, x);
  }

  lemma CeilDivStep(a: nat, n: nat)
    requires 0 < n < a
    ensures CeilDiv(a, n) == CeilDiv(a - n, n) + 1
  {
    var q, r := (a - 1) / n, (a - 1) % n;
    assert (q + 1) * n == q * n + n;
    CeilUnique(a + n - 1, n, q + 1, r);
  }

  lemma CeilUnique(a: nat, n: nat, q: nat, r: nat)
    requires n > 0 && a == q * n + r && r < n
    ensures a / n == q
  {
    var d := a / n;
    assert a == d * n + a % n;
    if d < q { assert (d + 1) * n <= q * n by { MulMono(d + 1, q, n); } }
    if d > q { assert (q + 1) * n <= d * n by { MulMono(q + 1, d, n); } }
  }

  lemma {:induction false} MulMono(a: nat, b: nat, n: nat)
    requires a <= b
    ensures a * n <= b * n
  {
    assert b * n - a * n == (b - a) * n;
  }

  /** The inner loop: full chunks leave the buffer. */
  method TakeChunks(full: Bytes, n: nat) returns (sent: seq<Bytes>, buffer: Bytes)
    requires n > 0
    ensures Flatten(sent) + buffer == full && |buffer| < n
    ensures forall k :: 0 <= k < |sent| ==> |sent[k]| == n
  {
    sent, buffer := [], full;
    while |buffer| >= n
      invariant Flatten(sent) + buffer == full
      invariant forall k :: 0 <= k < |sent| ==> |sent[k]| == n
      decreases |buffer|
    {
      FlattenAppend(sent, [buffer[..n]]);
      FlattenOne(buffer[..n]);
      assert buffer == buffer[..n] + buffer[n..];
      Assoc(Flatten(sent), buffer[..n], buffer[n..]);
      sent, buffer := sent + [buffer[..n]], buffer[n..];
    }
  }

  lemma AllSent(sent: seq<Bytes>, buffer: Bytes, n: nat)
    requires |buffer| < n
    requires forall k :: 0 <= k < |sent| ==> |sent[k]| == n
    ensures Split(Flatten(sent) + buffer, n) == sent + if buffer == [] then [] else [buffer]
  {
    var last := if buffer == [] then [] else [buffer];
    assert Flatten(last) == buffer by { FlattenOne(buffer); }
    FlattenAppend(sent, last);
    assert Canonical(sent + last, n);
    CanonicalIsSplit(sent + last, n);
  }

  lemma OnePieceMore(before: Bytes, sent: seq<Bytes>, buffer: Bytes, piece: Bytes, more: seq<Bytes>, left: Bytes)
    requires Flatten(sent) + buffer == before && Flatten(more) + left == buffer + piece
    ensures Flatten(sent + more) + left == before + piece
  {
    FlattenAppend(sent, more);
    Assoc(Flatten(sent), Flatten(more), left);
    Assoc(Flatten(sent), buffer, piece);
  }

  /** What the two nested loops of the sender make of the pieces they are fed. */
  method ProcessInChunks(pieces: seq<Bytes>, n: nat) returns (sent: seq<Bytes>)
    requires n > 0
    ensures sent == Split(Flatten(pieces), n)
  {
    var buffer: Bytes := [];
    sent := [];
    for i := 0 to |pieces|
      invariant Flatten(sent) + buffer == Flatten(pieces[..i])
      invariant forall k :: 0 <= k < |sent| ==> |sent[k]| == n
      invariant |buffer| < n
    {
      var more, left := TakeChunks(buffer + pieces[i], n);
      FlattenSnoc(pieces, i);
      OnePieceMore(Flatten(pieces[..i]), sent, buffer, pieces[i], more, left);
      sent, buffer := sent + more, left;
    }
    assert pieces[..|pieces|] == pieces;
    AllSent(sent, buffer, n);
    if buffer != [] {
      sent := sent + [buffer];
    }
  }

  lemma FlattenSnoc<T>(parts: seq<seq<T>>, i: nat)
    requires i < |parts|
    ensures Flatten(parts[..i + 1]) == Flatten(parts[..i]) + parts[i]
  {
    assert parts[..i + 1] == parts[..i] + [parts[i]];
    FlattenAppend(parts[..i], [parts[i]]);
    FlattenOne(parts[i]);
  }

  /** What re-blocking leaves in the output, from a buffer and the messages still to come. */
  function Reblock(buffer: Bytes, incoming: seq<Bytes>, limit: nat): (blocks: seq<Bytes>)
    decreases |incoming|
  {
    if incoming == [] then
      if buffer == [] then [] else [buffer]
    else
      var grown := buffer + incoming[0];
      if |grown| >= limit then [grown] + Reblock([], incoming[1..], limit)
      else Reblock(grown, incoming[1..], limit)
  }

  method BufferReceiver(incoming: seq<Bytes>) returns (blocks: seq<Bytes>)
    ensures blocks == Reblock([], incoming, 1024 * 1024)
  {
    var buffer: Bytes := [];
    blocks := [];
    for i := 0 to |incoming|
      invariant blocks + Reblock(buffer, incoming[i..], BUFFER_SIZE) == Reblock([], incoming, BUFFER_SIZE)
    {
      assert incoming[i..][1..] == incoming[i + 1..];
      buffer := buffer + incoming[i];
      if |buffer| >= BUFFER_SIZE {
        blocks, buffer := blocks + [buffer], [];
      }
    }
    if buffer != [] {
      blocks := blocks + [buffer];
    }
  }

  /** Re-blocking neither loses, adds nor reorders bytes, whatever the incoming pieces. */
  lemma {:induction false} ReblockConserves(buffer: Bytes, incoming: seq<Bytes>, limit: nat)
    ensures Flatten(Reblock(buffer, incoming, limit)) == buffer + Flatten(incoming)
    decreases |incoming|
  {
    if incoming == [] {
      if buffer != [] { FlattenOne(buffer); }
    } else {
      var grown := buffer + incoming[0];
      if |grown| >= limit {
        ReblockConserves([], incoming[1..], limit);
        assert Reblock(buffer, incoming, limit)[1..] == Reblock([], incoming[1..], limit);
      } else {
        ReblockConserves(grown, incoming[1..], limit);
      }
    }
  }

  lemma CanonicalTail(chunks: seq<Bytes>, n: nat)
    requires Canonical(chunks, n) && chunks != []
    ensures Canonical(chunks[1..], n)
    ensures 0 < |chunks[0]| <= n && (|chunks| > 1 ==> |chunks[0]| == n)
  {
    assert forall i :: 0 <= i < |chunks| - 1 ==> chunks[1..][i] == chunks[i + 1];
  }

  lemma CanonicalCons(first: Bytes, rest: seq<Bytes>, n: nat)
    requires n > 0 && |first| == n && Canonical(rest, n)
    ensures Canonical([first] + rest, n)
  {
  }

  /** Room for another chunk below a limit of `per` chunks. */
  lemma Room(held: nat, per: nat, n: nat)
    requires held < per
    ensures held * n + n == (held + 1) * n
    ensures held + 1 == per ==> held * n + n == per * n
    ensures held + 1 < per ==> held * n + n + n <= per * n
  {
    if held + 1 < per {
      MulMono(held + 2, per, n);
      assert (held + 2) * n == held * n + n + n;
    }
  }

  /** Full chunks of a size dividing the limit fill every block exactly. */
  lemma {:induction false} ReblockFillsBlocks(buffer: Bytes, held: nat, incoming: seq<Bytes>, n: nat, per: nat,
                                              limit: nat)
    requires n > 0 && Canonical(incoming, n) && limit == per * n
    requires |buffer| == held * n && held < per
    ensures Canonical(Reblock(buffer, incoming, limit), limit)
    decreases |incoming|
  {
    hide Canonical;
    Room(held, per, n);
    if incoming == [] {
      ShortEnd(buffer, limit);
    } else {
      CanonicalTail(incoming, n);
      var grown, rest := buffer + incoming[0], incoming[1..];
      if rest == [] {
        ShortEnd(grown, limit);
        assert Reblock([], rest, limit) == [];
        assert Reblock(grown, rest, limit) == [grown];
      } else if held + 1 == per {
        ReblockFillsBlocks([], 0, rest, n, per, limit);
        CanonicalCons(grown, Reblock([], rest, limit), limit);
      } else {
        ReblockFillsBlocks(grown, held + 1, rest, n, per, limit);
      }
    }
  }

  lemma ShortEnd(buffer: Bytes, limit: nat)
    requires |buffer| <= limit
    ensures Canonical(if buffer == [] then [] else [buffer], limit)
    ensures buffer != [] ==> Canonical([buffer] + [], limit)
  {
  }

  /** The two halves composed: whatever pieces the sending application supplies, the
      receiving application is handed the canonical cut into 1 MiB blocks. */
  lemma ReblockedTransfer(data: Bytes)
    ensures Reblock([], Split(data, 16 * 1024), 1024 * 1024) == Split(data, 1024 * 1024)
    ensures |Reblock([], Split(data, 16 * 1024), 1024 * 1024)| == CeilDiv(|data|, 1024 * 1024)
  {
    var chunks := Split(data, CHUNK_SIZE);
    SplitIsCanonical(data, CHUNK_SIZE);
    ReblockFillsBlocks([], 0, chunks, CHUNK_SIZE, 64, BUFFER_SIZE);
    ReblockConserves([], chunks, BUFFER_SIZE);
    assert [] + Flatten(chunks) == data;
    CanonicalIsSplit(Reblock([], chunks, BUFFER_SIZE), BUFFER_SIZE);
    SplitCount(data, BUFFER_SIZE);
  }
}
