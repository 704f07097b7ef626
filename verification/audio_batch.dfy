/** The batching loop used on both legs of the audio path: the browser's microphone queue
    and the worker's speaker queue.  A batch is sent once the queue holds more than 10
    chunks, and carries at most 20. */
module AudioBatch {

  /** A batch is only taken once the queue holds more than this many chunks. */
  const MinQueued: nat := 10
  /** A batch carries at most this many chunks. */
  const MaxPerBatch: nat := 20

  /** The chunks that pass the loops' `if (chunk)` test: empty strings (and missing
      values, which the model writes as empty strings) are dropped. */
  function NonEmpty(q: seq<string>): (r: seq<string>)
    ensures |r| <= |q|
    ensures forall i :: 0 <= i < |r| ==> r[i] != ""
  {
    if q == [] then []
    else (if q[0] != "" then [q[0]] else []) + NonEmpty(q[1..])
  }

  lemma {:induction false} NonEmptyAppend(a: seq<string>, b: seq<string>)
    ensures NonEmpty(a + b) == NonEmpty(a) + NonEmpty(b)
  {
    if a == [] {
      assert a + b == b;
    } else {
      assert (a + b)[1..] == a[1..] + b;
      NonEmptyAppend(a[1..], b);
    }
  }

  lemma {:induction false} NonEmptyOfNonEmpty(q: seq<string>)
    requires forall i :: 0 <= i < |q| ==> q[i] != ""
    ensures NonEmpty(q) == q
  {
    if q != [] {
      NonEmptyOfNonEmpty(q[1..]);
    }
  }

  lemma TakenCons(q: seq<string>, restLength: nat)
    requires 0 < |q| && restLength <= |q| - 1
    ensures NonEmpty(q[..|q| - restLength])
         == (if q[0] != "" then [q[0]] else []) + NonEmpty(q[1..][..|q| - 1 - restLength])
    ensures q[1..][|q| - 1 - restLength..] == q[|q| - restLength..]
  {
    assert q[..|q| - restLength][1..] == q[1..][..|q| - 1 - restLength];
  }

  /** One batch and what is left of the queue after it. */
  datatype Batch = Batch(chunks: seq<string>, rest: seq<string>)

  /** The shift loop: chunks leave the head of the queue until `limit` non-empty ones are
      taken or the queue is empty. */
  function TakeBatch(q: seq<string>, limit: nat): (b: Batch)
    ensures |b.rest| <= |q| && b.rest == q[|q| - |b.rest|..]
    ensures b.chunks == NonEmpty(q[..|q| - |b.rest|])
    ensures |b.chunks| <= limit
    ensures |b.chunks| == limit || b.rest == []
  {
    if q == [] || limit == 0 then Batch([], q)
    else
      var b := TakeBatch(q[1..], if q[0] == "" then limit else limit - 1);
      TakenCons(q, |b.rest|);
      if q[0] == "" then b else Batch([q[0]] + b.chunks, b.rest)
  }

  /** FIFO: a batch followed by the non-empty chunks still queued is exactly the non-empty
      chunks of the queue before the batch, in order. */
  lemma TakeBatchKeepsOrder(q: seq<string>, limit: nat)
    ensures TakeBatch(q, limit).chunks + NonEmpty(TakeBatch(q, limit).rest) == NonEmpty(q)
  {
    var b := TakeBatch(q, limit);
    var k := |q| - |b.rest|;
    assert q == q[..k] + b.rest;
    NonEmptyAppend(q[..k], b.rest);
  }

  /** A queue no longer than the limit is drained by one batch. */
  lemma TakeBatchDrainsShortQueue(q: seq<string>, limit: nat)
    requires |q| <= limit
    ensures TakeBatch(q, limit).rest == []
  {
    var b := TakeBatch(q, limit);
    assert |b.chunks| <= |q[..|q| - |b.rest|]|;
  }

  /** Without empty chunks, a batch is the oldest min(limit, |q|) chunks. */
  lemma TakeBatchPlain(q: seq<string>, limit: nat)
    requires forall i :: 0 <= i < |q| ==> q[i] != ""
    ensures var n := if |q| < limit then |q| else limit;
            TakeBatch(q, limit) == Batch(q[..n], q[n..])
  {
    var b := TakeBatch(q, limit);
    var k := |q| - |b.rest|;
    assert forall i :: 0 <= i < k ==> q[..k][i] != "";
    NonEmptyOfNonEmpty(q[..k]);
  }
}
