/** The two caches in which a server, and likewise a client, keeps the nonces of its most
    recent exchanges: those it received and those it generated. */
module NonceCaches {
  import opened Prelude
  import Base64
  import Session

  const CAPACITY: nat := 200

  datatype Entry = Entry(key: string, value: Bytes)

  /** Most recently used first. */
  type Cache = seq<Entry>

  function Keys(c: Cache): (keys: seq<string>)
    ensures |keys| == |c| && forall i :: 0 <= i < |c| ==> keys[i] == c[i].key
  {
    seq(|c|, i requires 0 <= i < |c| => c[i].key)
  }

  predicate Distinct(c: Cache)
  {
    forall i, j :: 0 <= i < j < |c| ==> c[i].key != c[j].key
  }

  function Without(c: Cache, key: string): (rest: Cache)
    ensures |rest| <= |c|
  {
    if c == [] then [] else (if c[0].key == key then [] else [c[0]]) + Without(c[1..], key)
  }

  function Truncate(c: Cache, n: nat): (top: Cache)
    ensures |top| == if |c| > n then n else |c|
    ensures forall i :: 0 <= i < |top| ==> top[i] == c[i]
  {
    if |c| > n then c[..n] else c
  }

  /** The entry becomes the most recent one; beyond the capacity the least recent one goes. */
  function Put(c: Cache, e: Entry): Cache
  {
    Truncate([e] + Without(c, e.key), CAPACITY)
  }

  /** The cache after a series of puts. */
  function Filled(puts: seq<Entry>): Cache
  {
    if puts == [] then [] else Put(Filled(puts[..|puts| - 1]), puts[|puts| - 1])
  }

  // ----- What a cache holds, said without caches -----

  /** No later use of the same key. */
  predicate IsLast(keys: seq<string>, p: nat)
  {
    p < |keys| && forall q :: p < q < |keys| ==> keys[q] != keys[p]
  }

  /** `at` lists the last uses of all keys, latest first. */
  ghost predicate Recency(keys: seq<string>, at: seq<nat>)
  {
    && (forall i :: 0 <= i < |at| ==> IsLast(keys, at[i]))
    && Descending(at)
    && (forall p :: IsLast(keys, p) ==> p in at)
  }

  predicate Descending(at: seq<nat>)
  {
    forall i, j :: 0 <= i < j < |at| ==> at[i] > at[j]
  }

  predicate Within(at: seq<nat>, n: nat)
  {
    forall i :: 0 <= i < |at| ==> at[i] < n
  }

  function Select(puts: seq<Entry>, at: seq<nat>): (c: Cache)
    requires Within(at, |puts|)
    ensures |c| == |at| && forall i :: 0 <= i < |at| ==> c[i] == puts[at[i]]
  {
    seq(|at|, i requires 0 <= i < |at| => puts[at[i]])
  }

  function DropKey(keys: seq<string>, at: seq<nat>, key: string): (rest: seq<nat>)
    requires Within(at, |keys|)
    ensures Within(rest, |keys|)
  {
    if at == [] then [] else (if keys[at[0]] == key then [] else [at[0]]) + DropKey(keys, at[1..], key)
  }

  function LastUses(keys: seq<string>): (at: seq<nat>)
    ensures Within(at, |keys|)
  {
    if keys == [] then []
    else [|keys| - 1] + DropKey(keys, LastUses(keys[..|keys| - 1]), keys[|keys| - 1])
  }

  /** The last puts of all keys, latest first. */
  function History(puts: seq<Entry>): Cache
  {
    Select(puts, LastUses(Keys(puts)))
  }

  lemma {:induction false} DropKeyKeepsOthers(keys: seq<string>, at: seq<nat>, key: string)
    requires Within(at, |keys|)
    ensures forall p :: p in DropKey(keys, at, key) <==> p in at && keys[p] != key
  {
    if at != [] {
      DropKeyKeepsOthers(keys, at[1..], key);
      assert at == [at[0]] + at[1..];
    }
  }

  lemma {:induction false} DropKeyDescends(keys: seq<string>, at: seq<nat>, key: string)
    requires Within(at, |keys|) && Descending(at)
    ensures Descending(DropKey(keys, at, key))
  {
    if at != [] {
      assert forall i :: 0 <= i < |at[1..]| ==> at[1..][i] == at[i + 1];
      DropKeyDescends(keys, at[1..], key);
      DropKeyKeepsOthers(keys, at[1..], key);
      DescendingCons(at[0], DropKey(keys, at[1..], key), at[1..]);
    }
  }

  lemma DescendingCons(p: nat, rest: seq<nat>, at: seq<nat>)
    requires Descending(rest) && (forall q :: q in rest ==> q in at) && forall q :: q in at ==> q < p
    ensures Descending([p] + rest)
  {
    assert forall i :: 0 <= i < |rest| ==> rest[i] in rest;
  }

  lemma LastUsesSnoc(keys: seq<string>, at: seq<nat>, rest: seq<nat>)
    requires keys != [] && Recency(keys[..|keys| - 1], at) && Descending(rest)
    requires forall p :: p in rest <==> p in at && p < |keys| && keys[p] != keys[|keys| - 1]
    ensures Recency(keys, [|keys| - 1] + rest)
  {
    var before := keys[..|keys| - 1];
    var n := |keys| - 1;
    forall i | 0 <= i < |rest| ensures IsLast(keys, rest[i]) && rest[i] < n {
      assert rest[i] in rest;
      var j :| 0 <= j < |at| && at[j] == rest[i];
      assert IsLast(before, at[j]);
    }
    forall p: nat | IsLast(keys, p) ensures p in [n] + rest {
      if p < n {
        assert keys[n] != keys[p];
        assert IsLast(before, p);
      }
    }
  }

  /** What `LastUses` means. */
  lemma {:induction false} LastUsesRecency(keys: seq<string>)
    ensures Recency(keys, LastUses(keys))
  {
    if keys != [] {
      var before := keys[..|keys| - 1];
      LastUsesRecency(before);
      var at := LastUses(before);
      DropKeyKeepsOthers(keys, at, keys[|keys| - 1]);
      DropKeyDescends(keys, at, keys[|keys| - 1]);
      LastUsesSnoc(keys, at, DropKey(keys, at, keys[|keys| - 1]));
    }
  }

  lemma {:induction false} SelectDrop(puts: seq<Entry>, at: seq<nat>, key: string)
    requires Within(at, |puts|)
    ensures Select(puts, DropKey(Keys(puts), at, key)) == Without(Select(puts, at), key)
  {
    if at != [] {
      SelectDrop(puts, at[1..], key);
      assert Select(puts, at)[1..] == Select(puts, at[1..]);
    }
  }

  /** How the history grows. */
  lemma HistorySnoc(puts: seq<Entry>)
    requires puts != []
    ensures var last := puts[|puts| - 1];
      History(puts) == [last] + Without(History(puts[..|puts| - 1]), last.key)
  {
    var before := puts[..|puts| - 1];
    var at := LastUses(Keys(before));
    var last := puts[|puts| - 1];
    assert Keys(puts)[..|puts| - 1] == Keys(before);
    assert Select(puts, at) == Select(before, at);
    SelectDrop(puts, at, last.key);
    var rest := DropKey(Keys(puts), at, last.key);
    assert Select(puts, [|puts| - 1] + rest) == [last] + Select(puts, rest);
  }

  // ----- Removing a key -----

  lemma DistinctTail(c: Cache)
    requires c != [] && Distinct(c)
    ensures Distinct(c[1..]) && forall e :: e in c[1..] ==> e.key != c[0].key
  {
    assert forall i :: 0 <= i < |c[1..]| ==> c[1..][i] == c[i + 1];
  }

  lemma {:induction false} WithoutAbsent(c: Cache, key: string)
    requires forall e :: e in c ==> e.key != key
    ensures Without(c, key) == c
  {
    if c != [] {
      assert c == [c[0]] + c[1..];
      WithoutAbsent(c[1..], key);
    }
  }

  lemma {:induction false} WithoutAt(c: Cache, i: nat)
    requires Distinct(c) && i < |c|
    ensures Without(c, c[i].key) == c[..i] + c[i + 1..]
  {
    DistinctTail(c);
    assert c == [c[0]] + c[1..];
    if i == 0 {
      WithoutAbsent(c[1..], c[0].key);
    } else {
      assert c[1..][i - 1] == c[i];
      WithoutAt(c[1..], i - 1);
      assert c[..i] + c[i + 1..] == [c[0]] + (c[1..][..i - 1] + c[1..][i..]);
    }
  }

  lemma CutAfter(c: Cache, i: nat, n: nat)
    requires i < n < |c|
    ensures (c[..i] + c[i + 1..])[..n - 1] == c[..n][..i] + c[..n][i + 1..]
  {
  }

  /** Truncating before a put makes no difference. */
  lemma PutTruncated(c: Cache, e: Entry)
    requires Distinct(c)
    ensures Put(Truncate(c, CAPACITY), e) == Truncate([e] + Without(c, e.key), CAPACITY)
  {
    hide Without;
    if |c| > CAPACITY {
      var top := c[..CAPACITY];
      var rest := Without(c, e.key);
      assert |rest| >= CAPACITY - 1 && Truncate(Without(top, e.key), CAPACITY - 1) == rest[..CAPACITY - 1] by {
        TopWithout(c, e.key);
      }
      assert ([e] + rest)[..CAPACITY] == [e] + rest[..CAPACITY - 1];
      assert Truncate([e] + Without(top, e.key), CAPACITY) == [e] + Truncate(Without(top, e.key), CAPACITY - 1);
    }
  }

  lemma TopWithout(c: Cache, key: string)
    requires Distinct(c) && |c| > CAPACITY
    ensures |Without(c, key)| >= CAPACITY - 1
    ensures Truncate(Without(c[..CAPACITY], key), CAPACITY - 1) == Without(c, key)[..CAPACITY - 1]
  {
    hide Without;
    var top := c[..CAPACITY];
    if i: nat :| i < |c| && c[i].key == key {
      WithoutAt(c, i);
      if i < CAPACITY {
        WithoutAt(top, i);
        CutAfter(c, i, CAPACITY);
      } else {
        assert forall x :: x in top ==> x.key != key;
        WithoutAbsent(top, key);
      }
    } else {
      assert forall x :: x in c ==> x.key != key;
      WithoutAbsent(c, key);
      WithoutAbsent(top, key);
    }
  }

  lemma HistoryDistinct(puts: seq<Entry>)
    ensures Distinct(History(puts))
  {
    var keys := Keys(puts);
    var at := LastUses(keys);
    LastUsesRecency(keys);
    forall i, j | 0 <= i < j < |at| ensures History(puts)[i].key != History(puts)[j].key {
      assert IsLast(keys, at[j]) && at[j] < at[i];
      assert keys[at[i]] != keys[at[j]];
    }
  }

  /** A cache holds the last puts of the most recently used keys, up to its capacity. */
  lemma {:induction false} FilledIsHistory(puts: seq<Entry>)
    ensures Filled(puts) == Truncate(History(puts), 200)
  {
    if puts != [] {
      FilledIsHistory(puts[..|puts| - 1]);
      HistoryDistinct(puts[..|puts| - 1]);
      PutTruncated(History(puts[..|puts| - 1]), puts[|puts| - 1]);
      HistorySnoc(puts);
    }
  }

  // ----- Both caches, filled by many tasks -----

  /** One exchange with a remote, known by its public key or its address. */
  datatype Exchange = Exchange(key: string, received: Bytes, generated: Bytes)

  function Received(es: seq<Exchange>): (puts: seq<Entry>)
    ensures |puts| == |es| && forall i :: 0 <= i < |es| ==> puts[i] == Entry(es[i].key, es[i].received)
  {
    seq(|es|, i requires 0 <= i < |es| => Entry(es[i].key, es[i].received))
  }

  function Generated(es: seq<Exchange>): (puts: seq<Entry>)
    ensures |puts| == |es| && forall i :: 0 <= i < |es| ==> puts[i] == Entry(es[i].key, es[i].generated)
  {
    seq(|es|, i requires 0 <= i < |es| => Entry(es[i].key, es[i].generated))
  }

  /** `holder` is the task that holds the first lock, between its two puts. */
  datatype Twins = Twins(received: Cache, generated: Cache, holder: Option<Exchange>)

  datatype Step = First(e: Exchange) | Second

  /** Both locks are held to the end, the first one taken first: no task can put into either
      cache while another is between its two puts. */
  function After(run: seq<Step>): Option<Twins>
  {
    if run == [] then Some(Twins([], [], None))
    else
      match After(run[..|run| - 1])
      case None => None
      case Some(t) =>
        match run[|run| - 1]
        case First(e) =>
          if t.holder.Some? then None else Some(Twins(Put(t.received, Entry(e.key, e.received)), t.generated, Some(e)))
        case Second =>
          if t.holder.None? then None
          else
            var e := t.holder.value;
            Some(Twins(t.received, Put(t.generated, Entry(e.key, e.generated)), None))
  }

  /** The exchanges of a run in the order of their first puts. */
  function Begun(run: seq<Step>): seq<Exchange>
  {
    if run == [] then []
    else
      Begun(run[..|run| - 1]) + match run[|run| - 1] case First(e) => [e] case Second => []
  }

  /** Both caches are filled by the same exchanges, but for the last one while its task is
      between its two puts. */
  predicate Reflects(t: Twins, es: seq<Exchange>)
  {
    && t.received == Filled(Received(es))
    && match t.holder
       case None => t.generated == Filled(Generated(es))
       case Some(e) => es != [] && e == es[|es| - 1] && t.generated == Filled(Generated(es[..|es| - 1]))
  }

  lemma ReflectsFirst(t: Twins, es: seq<Exchange>, e: Exchange)
    requires Reflects(t, es) && t.holder.None?
    ensures Reflects(Twins(Put(t.received, Entry(e.key, e.received)), t.generated, Some(e)), es + [e])
  {
    hide Put, Filled;
    assert (es + [e])[..|es|] == es;
    assert Received(es + [e]) == Received(es) + [Entry(e.key, e.received)];
    FilledSnoc(Received(es), Entry(e.key, e.received));
  }

  lemma ReflectsSecond(t: Twins, es: seq<Exchange>)
    requires Reflects(t, es) && t.holder.Some?
    ensures var e := t.holder.value;
      Reflects(Twins(t.received, Put(t.generated, Entry(e.key, e.generated)), None), es)
  {
    hide Put, Filled;
    var e := t.holder.value;
    var before := es[..|es| - 1];
    assert Generated(es) == Generated(before) + [Entry(e.key, e.generated)];
    FilledSnoc(Generated(before), Entry(e.key, e.generated));
  }

  lemma {:induction false} EachIsFilled(run: seq<Step>)
    requires After(run).Some?
    ensures Reflects(After(run).value, Begun(run))
  {
    hide Put, Reflects;
    if run == [] {
      NothingBegun();
    } else {
      var before := run[..|run| - 1];
      EachIsFilled(before);
      match run[|run| - 1]
      case First(e) => ReflectsFirst(After(before).value, Begun(before), e);
      case Second =>
        ReflectsSecond(After(before).value, Begun(before));
        assert Begun(run) == Begun(before);
    }
  }

  lemma NothingBegun()
    ensures Reflects(Twins([], [], None), [])
  {
  }

  lemma FilledSnoc(puts: seq<Entry>, e: Entry)
    ensures Filled(puts + [e]) == Put(Filled(puts), e)
  {
    assert (puts + [e])[..|puts|] == puts;
  }

  /** Whenever no task is between its two puts, the caches hold, in the same order, the two
      nonces of one exchange for each of the 200 most recent remotes, namely the last exchange
      with it; `at` are the positions of these exchanges, latest first. */
  lemma TwinsAgree(run: seq<Step>) returns (at: seq<nat>)
    requires After(run).Some? && After(run).value.holder.None?
    ensures var es := Begun(run);
      var t := After(run).value;
      && Recency(Keys(Received(es)), at)
      && |t.received| == |t.generated| == (if |at| > 200 then 200 else |at|)
      && forall i :: 0 <= i < |t.received| ==>
           at[i] < |es| && t.received[i] == Entry(es[at[i]].key, es[at[i]].received)
           && t.generated[i] == Entry(es[at[i]].key, es[at[i]].generated)
  {
    var es := Begun(run);
    EachIsFilled(run);
    at := LastUses(Keys(Received(es)));
    assert Keys(Received(es)) == Keys(Generated(es));
    LastUsesRecency(Keys(Received(es)));
    FilledIsHistory(Received(es));
    FilledIsHistory(Generated(es));
  }

  // ----- The handlers -----

  class LruCache {
    var entries: Cache

    constructor ()
      ensures entries == []
    {
      entries := [];
    }

    method Insert(key: string, value: Bytes)
      requires Distinct(entries)
      modifies this
      ensures entries == Put(old(entries), Entry(key, value))
    {
      var i := 0;
      while i < |entries| && entries[i].key != key
        invariant i <= |entries| && forall j :: 0 <= j < i ==> entries[j].key != key
      {
        i := i + 1;
      }
      var rest := entries;
      if i < |entries| {
        WithoutAt(entries, i);
        rest := entries[..i] + entries[i + 1..];
      } else {
        WithoutAbsent(entries, key);
      }
      entries := [Entry(key, value)] + rest;
      if |entries| > CAPACITY {
        entries := entries[..CAPACITY];
      }
    }
  }

  datatype Response = Ok(nonce: string) | InvalidFormat | InvalidNonce

  class NonceMaps {
    const received: LruCache
    const generated: LruCache
    ghost var done: seq<Exchange>

    ghost predicate Valid()
      reads this, received, generated
    {
      && received != generated
      && received.entries == Filled(Received(done))
      && generated.entries == Filled(Generated(done))
    }

    constructor ()
      ensures Valid() && done == [] && fresh(received) && fresh(generated)
    {
      received := new LruCache();
      generated := new LruCache();
      done := [];
    }

    method Save(e: Exchange)
      requires Valid()
      modifies this, received, generated
      ensures Valid() && done == old(done) + [e]
    {
      FilledDistinct(Received(done));
      FilledDistinct(Generated(done));
      received.Insert(e.key, e.received);
      generated.Insert(e.key, e.generated);
      FilledSnoc(Received(done), Entry(e.key, e.received));
      FilledSnoc(Generated(done), Entry(e.key, e.generated));
      assert Received(done + [e]) == Received(done) + [Entry(e.key, e.received)];
      assert Generated(done + [e]) == Generated(done) + [Entry(e.key, e.generated)];
      done := done + [e];
    }

    /** The server's side: a nonce that is not valid changes nothing. */
    method NonceExchange(nonce: string, key: string, own: Bytes) returns (r: Response)
      requires Valid()
      modifies this, received, generated
      ensures Valid()
      ensures r.Ok? <==> Base64.Decode(nonce).Some? && 16 <= |Base64.Decode(nonce).value| <= 128
      ensures r.InvalidFormat? <==> Base64.Decode(nonce).None?
      ensures if r.Ok? then
          r.nonce == Base64.Encode(own) && done == old(done) + [Exchange(key, Base64.Decode(nonce).value, own)]
        else done == old(done)
    {
      var decoded := Base64.Decode(nonce);
      if decoded.None? {
        return InvalidFormat;
      }
      if !Session.ValidNonce(decoded.value) {
        return InvalidNonce;
      }
      Save(Exchange(key, decoded.value, own));
      return Ok(Base64.Encode(own));
    }

    /** The client's side, once the response is there: it takes any nonce that can be decoded. */
    method TakeResponse(nonce: string, key: string, own: Bytes) returns (ok: bool)
      requires Valid()
      modifies this, received, generated
      ensures Valid() && ok == Base64.Decode(nonce).Some?
      ensures done == old(done) + if ok then [Exchange(key, Base64.Decode(nonce).value, own)] else []
    {
      var decoded := Base64.Decode(nonce);
      ok := decoded.Some?;
      if ok {
        Save(Exchange(key, decoded.value, own));
      }
    }
  }

  lemma FilledDistinct(puts: seq<Entry>)
    ensures Distinct(Filled(puts))
  {
    FilledIsHistory(puts);
    HistoryDistinct(puts);
  }
}
