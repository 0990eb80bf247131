/**
 * The retry cache of unsent readings (`local_readings`): after a successful
 * send of the fresh reading, the cached readings are re-sent oldest first
 * until the first failure, and the ones sent are removed by position.
 */
module OutboundCache {
  import opened Http

  /**
   * How many of the first `n` cached readings are sent before the first
   * failed send, when the `i`-th send is answered by `replies(i)`.
   */
  function SentCount(n: nat, replies: nat -> Reply): (k: nat)
    ensures k <= n
  {
    if n == 0 then 0
    else
      var k := SentCount(n - 1, replies);
      if k == n - 1 && Created(replies(n - 1)) then n else k
  }

  /** Every send counted was answered 201, and the next one, if made, was not. */
  lemma {:induction false} SentCountSpec(n: nat, replies: nat -> Reply)
    ensures var k := SentCount(n, replies);
      && (forall i :: 0 <= i < k ==> Created(replies(i)))
      && (k < n ==> !Created(replies(k)))
  {
    if n > 0 {
      SentCountSpec(n - 1, replies);
    }
  }

  /** The count is determined by where the first failure is. */
  lemma {:induction false} SentCountAt(n: nat, replies: nat -> Reply, k: nat)
    requires k <= n
    requires forall i :: 0 <= i < k ==> Created(replies(i))
    requires k < n ==> !Created(replies(k))
    ensures SentCount(n, replies) == k
  {
    if n > 0 {
      SentCountAt(n - 1, replies, if k == n then n - 1 else k);
    }
  }

  /** `[r for i, r in enumerate(cache) if i not in sent]`. */
  function Unsent(cache: seq<string>, sent: seq<nat>): seq<string> {
    if cache == [] then []
    else Unsent(cache[..|cache| - 1], sent) + (if |cache| - 1 in sent then [] else [cache[|cache| - 1]])
  }

  /**
   * Removing the positions of a sent prefix leaves exactly the rest of the
   * cache: a suffix of the old cache, in the same order.
   */
  lemma {:induction false} UnsentAfterSentPrefix(cache: seq<string>, sent: seq<nat>, k: nat)
    requires forall i :: 0 <= i < |cache| ==> (i in sent <==> i < k)
    ensures k <= |cache| ==> Unsent(cache, sent) == cache[k..]
    ensures k > |cache| ==> Unsent(cache, sent) == []
  {
    if cache != [] {
      var n := |cache| - 1;
      var init := cache[..n];
      assert forall i :: 0 <= i < |init| ==> (i in sent <==> i < k);
      UnsentAfterSentPrefix(init, sent, k);
      assert Unsent(cache, sent) == Unsent(init, sent) + (if n in sent then [] else [cache[n]]);
      assert n in sent <==> n < k;
      if k <= n {
        assert cache[k..] == init[k..] + [cache[n]];
      }
    }
  }

  /**
   * The drain loop: re-send the cached readings in order, collecting the
   * positions sent and stopping at the first failure. `tried` is the number
   * of sends made, the failed one included.
   */
  method SendCached(cache: seq<string>, replies: nat -> Reply) returns (sent: seq<nat>, tried: nat)
    ensures |sent| <= |cache|
    ensures forall i :: 0 <= i < |sent| ==> sent[i] == i && Created(replies(i))
    ensures |sent| < |cache| ==> !Created(replies(|sent|))
    ensures |sent| == SentCount(|cache|, replies)
    ensures tried == if |sent| < |cache| then |sent| + 1 else |cache|
  {
    sent := [];
    tried := 0;
    var idx := 0;
    while idx < |cache|
      invariant idx <= |cache|
      invariant |sent| == idx == tried
      invariant forall i :: 0 <= i < idx ==> sent[i] == i && Created(replies(i))
    {
      tried := tried + 1;
      if Created(replies(idx)) {
        sent := sent + [idx];
      } else {
        break;
      }
      idx := idx + 1;
    }
    SentCountAt(|cache|, replies, |sent|);
  }

  /** Rebuilds the cache without the readings at the sent positions. */
  method RemoveSent(cache: seq<string>, sent: seq<nat>) returns (remaining: seq<string>)
    ensures remaining == Unsent(cache, sent)
  {
    remaining := [];
    for i := 0 to |cache|
      invariant remaining == Unsent(cache[..i], sent)
    {
      assert cache[..i + 1][..i] == cache[..i];
      if i !in sent {
        remaining := remaining + [cache[i]];
      }
    }
    assert cache[..|cache|] == cache;
  }

  /**
   * Draining then removing leaves the old cache without its longest
   * successfully sent prefix.
   */
  lemma DrainLeavesSuffix(cache: seq<string>, replies: nat -> Reply, sent: seq<nat>)
    requires |sent| <= |cache|
    requires forall i :: 0 <= i < |sent| ==> sent[i] == i
    requires |sent| == SentCount(|cache|, replies)
    ensures Unsent(cache, sent) == cache[SentCount(|cache|, replies)..]
  {
    forall i | 0 <= i < |cache|
      ensures i in sent <==> i < |sent|
    {
      if i < |sent| {
        assert sent[i] == i;
      }
    }
    UnsentAfterSentPrefix(cache, sent, |sent|);
  }
}
