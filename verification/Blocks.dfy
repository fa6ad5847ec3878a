/** What re-blocking does to messages of any sizes. */
module Blocks {
  import opened Prelude
  import opened Chunks

  /** The first block is what the first `k` messages hold: the fewest that reach the limit, or
      all there are. */
  predicate FirstBlock(block: Bytes, incoming: seq<Bytes>, k: nat, limit: nat)
  {
    && 0 < k <= |incoming|
    && block == Flatten(incoming[..k]) && block != []
    && |Flatten(incoming[..k - 1])| < limit
    && (|block| >= limit || k == |incoming|)
  }

  /** Each block takes up where the one before it ended; only empty messages give none. */
  ghost predicate Filled(blocks: seq<Bytes>, incoming: seq<Bytes>, limit: nat)
    decreases |blocks|
  {
    if blocks == [] then Flatten(incoming) == []
    else exists k: nat :: FirstBlock(blocks[0], incoming, k, limit) && Filled(blocks[1..], incoming[k..], limit)
  }

  lemma FlattenSplit(parts: seq<Bytes>, k: nat)
    requires k <= |parts|
    ensures Flatten(parts[..k]) + Flatten(parts[k..]) == Flatten(parts)
  {
    assert parts == parts[..k] + parts[k..];
    FlattenAppend(parts[..k], parts[k..]);
  }

  lemma Grows(parts: seq<Bytes>, j: nat, k: nat)
    requires j <= k <= |parts|
    ensures |Flatten(parts[..j])| <= |Flatten(parts[..k])|
  {
    assert parts[..k][..j] == parts[..j];
    FlattenSplit(parts[..k], j);
  }

  /** As long as the limit is not reached all goes into the buffer. */
  lemma {:induction false} Holds(buffer: Bytes, incoming: seq<Bytes>, k: nat, limit: nat)
    requires k <= |incoming| && |buffer + Flatten(incoming[..k])| < limit
    ensures Reblock(buffer, incoming, limit) == Reblock(buffer + Flatten(incoming[..k]), incoming[k..], limit)
    decreases k
  {
    if k == 0 {
      assert buffer + [] == buffer && incoming[0..] == incoming;
    } else {
      var grown, rest := buffer + incoming[0], incoming[1..];
      assert incoming[..k][0] == incoming[0] && incoming[..k][1..] == rest[..k - 1];
      assert buffer + Flatten(incoming[..k]) == grown + Flatten(rest[..k - 1]);
      Holds(grown, rest, k - 1, limit);
      assert rest[k - 1..] == incoming[k..];
    }
  }

  lemma FirstOut(block: Bytes, incoming: seq<Bytes>, k: nat, limit: nat)
    requires FirstBlock(block, incoming, k, limit)
    ensures Reblock([], incoming, limit) == [block] + Reblock([], incoming[k..], limit)
  {
    var held, rest := Flatten(incoming[..k - 1]), incoming[k - 1..];
    assert [] + held == held;
    Holds([], incoming, k - 1, limit);
    FlattenSnoc(incoming, k - 1);
    assert held + rest[0] == block && rest[1..] == incoming[k..];
    if |block| < limit {
      assert rest[1..] == [];
      assert Reblock(block, [], limit) == [block];
      assert Reblock([], [], limit) == [];
    }
  }

  /** Messages that hold anything have a first block. */
  lemma {:induction false} HasFirst(incoming: seq<Bytes>, n: nat, limit: nat) returns (k: nat)
    requires n <= |incoming| && limit > 0
    requires |Flatten(incoming[..n])| >= limit || (n == |incoming| && Flatten(incoming) != [])
    ensures k <= |incoming| && FirstBlock(Flatten(incoming[..k]), incoming, k, limit)
    decreases n
  {
    assert incoming[..0] == [] && incoming[..|incoming|] == incoming;
    if |Flatten(incoming[..n - 1])| < limit {
      k := n;
    } else {
      k := HasFirst(incoming, n - 1, limit);
    }
  }

  /** Nothing but the least sufficient number of messages makes a first block. */
  lemma OnlyFirst(a: Bytes, j: nat, b: Bytes, k: nat, incoming: seq<Bytes>, limit: nat)
    requires FirstBlock(a, incoming, j, limit) && FirstBlock(b, incoming, k, limit)
    ensures j == k && a == b
  {
    if j < k {
      Grows(incoming, j, k - 1);
    } else if k < j {
      Grows(incoming, k, j - 1);
    }
  }

  /** Re-blocking cuts the messages exactly so, whatever their sizes. */
  lemma {:induction false} ReblockExactly(blocks: seq<Bytes>, incoming: seq<Bytes>, limit: nat)
    requires limit > 0
    ensures blocks == Reblock([], incoming, limit) <==> Filled(blocks, incoming, limit)
    decreases |incoming|
  {
    ReblockConserves([], incoming, limit);
    assert [] + Flatten(incoming) == Flatten(incoming);
    if Flatten(incoming) == [] {
      NothingToCut(incoming, limit);
      if blocks != [] && Filled(blocks, incoming, limit) {
        var k: nat :| FirstBlock(blocks[0], incoming, k, limit) && Filled(blocks[1..], incoming[k..], limit);
        FlattenSplit(incoming, k);
      }
    } else {
      assert incoming[..|incoming|] == incoming;
      var k := HasFirst(incoming, |incoming|, limit);
      var first, rest := Flatten(incoming[..k]), incoming[k..];
      FirstOut(first, incoming, k, limit);
      if blocks != [] {
        ReblockExactly(blocks[1..], rest, limit);
        assert blocks == [blocks[0]] + blocks[1..];
        if Filled(blocks, incoming, limit) {
          var j: nat :| FirstBlock(blocks[0], incoming, j, limit) && Filled(blocks[1..], incoming[j..], limit);
          OnlyFirst(blocks[0], j, first, k, incoming, limit);
        }
        if blocks == Reblock([], incoming, limit) {
          assert blocks[0] == first && blocks[1..] == Reblock([], rest, limit);
          assert FirstBlock(blocks[0], incoming, k, limit) && Filled(blocks[1..], rest, limit);
        }
      }
    }
  }

  lemma NothingToCut(incoming: seq<Bytes>, limit: nat)
    requires Flatten(incoming) == [] && limit > 0
    ensures Reblock([], incoming, limit) == []
  {
    assert incoming[..|incoming|] == incoming && incoming[|incoming|..] == [];
    assert [] + Flatten(incoming) == [];
    Holds([], incoming, |incoming|, limit);
  }
}
