// The ObjectPool<T> template of MinecraftAI.h: a FIFO queue of reusable
// objects, refilled by a factory when empty.

module Pools {
  import opened Wrappers
  import opened Sequences

  /** One pool operation: an acquire, with the object the factory would
      make if the pool is empty, or a release of a possibly null object. */
  datatype PoolOp<T> = AcquireOp(made: T) | ReleaseOp(obj: Option<T>)

  /** The queue after one operation, and the object an acquire hands out. */
  function Apply<T>(pool: seq<T>, op: PoolOp<T>): (r: (seq<T>, Option<T>))
    ensures op.AcquireOp? ==> r.1.Some?
    ensures op.ReleaseOp? ==> r.1.None?
  {
    match op
    case AcquireOp(made) =>
      if pool == [] then ([], Some(made)) else (pool[1..], Some(pool[0]))
    case ReleaseOp(obj) =>
      if obj.Some? then (pool + [obj.value], None) else (pool, None)
  }

  /** The queue after a sequence of operations, and the objects the acquires
      handed out, in order. */
  function RunOps<T>(pool: seq<T>, ops: seq<PoolOp<T>>): (seq<T>, seq<T>)
    decreases |ops|
  {
    if ops == [] then (pool, [])
    else
      var (next, out) := Apply(pool, ops[0]);
      var (last, outs) := RunOps(next, ops[1..]);
      (last, (if out.Some? then [out.value] else []) + outs)
  }

  /** `k` acquires, each with `made` as the factory's object. */
  function Acquires<T>(k: nat, made: T): (ops: seq<PoolOp<T>>)
    ensures |ops| == k && forall i :: 0 <= i < k ==> ops[i] == AcquireOp(made)
  {
    if k == 0 then [] else [AcquireOp(made)] + Acquires(k - 1, made)
  }

  /** Releasing each of `xs` (none null). */
  function Releases<T>(xs: seq<T>): (ops: seq<PoolOp<T>>)
    ensures |ops| == |xs| && forall i :: 0 <= i < |xs| ==> ops[i] == ReleaseOp(Some(xs[i]))
  {
    if xs == [] then [] else [ReleaseOp(Some(xs[0]))] + Releases(xs[1..])
  }

  /** Acquiring as many objects as are pooled hands them out oldest first
      and empties the pool. */
  lemma {:induction false} AcquiresDrain<T>(pool: seq<T>, made: T)
    ensures RunOps(pool, Acquires(|pool|, made)) == ([], pool)
    decreases |pool|
  {
    if pool != [] {
      var ops := Acquires(|pool|, made);
      assert ops[0] == AcquireOp(made);
      assert ops[1..] == Acquires(|pool| - 1, made);
      AcquiresDrain(pool[1..], made);
      assert [pool[0]] + pool[1..] == pool;
    }
  }

  /** Releases append in order and hand nothing out. */
  lemma {:induction false} ReleasesAppend<T>(pool: seq<T>, xs: seq<T>, rest: seq<PoolOp<T>>)
    ensures RunOps(pool, Releases(xs) + rest) == RunOps(pool + xs, rest)
    decreases |xs|
  {
    if xs == [] {
      assert Releases(xs) + rest == rest;
      assert pool + xs == pool;
    } else {
      var ops := Releases(xs) + rest;
      AppendAssoc([ReleaseOp(Some(xs[0]))], Releases(xs[1..]), rest);
      assert ops == [ReleaseOp(Some(xs[0]))] + (Releases(xs[1..]) + rest);
      assert ops[1..] == Releases(xs[1..]) + rest;
      assert Apply(pool, ops[0]) == (pool + [xs[0]], None);
      var after := RunOps(pool + [xs[0]], ops[1..]);
      assert [] + after.1 == after.1;
      assert RunOps(pool, ops) == after;
      ReleasesAppend(pool + [xs[0]], xs[1..], rest);
      AppendAssoc(pool, [xs[0]], xs[1..]);
      assert [xs[0]] + xs[1..] == xs;
    }
  }

  /** First in, first out: after releasing `xs` into a pool holding `pool`,
      the next |pool| + |xs| acquires hand out the pooled objects and then
      the released ones, each in order, and leave the pool empty. */
  lemma FirstInFirstOut<T>(pool: seq<T>, xs: seq<T>, made: T)
    ensures RunOps(pool, Releases(xs) + Acquires(|pool| + |xs|, made)) == ([], pool + xs)
  {
    ReleasesAppend(pool, xs, Acquires(|pool| + |xs|, made));
    AcquiresDrain(pool + xs, made);
  }

  /** The pool: the queue of idle objects. The factory is outside the model;
      each operation that would call it receives its result. */
  class ObjectPool<T> {
    var pool: seq<T>

    /** The constructor, with `made` the objects initialSize calls of the
        factory return, pushed in order. */
    constructor(made: seq<T>)
      ensures pool == made && Size() == |made|
    {
      var queue := [];
      var i := 0;
      while i < |made|
        invariant 0 <= i <= |made|
        invariant queue == made[..i]
      {
        queue := queue + [made[i]];
        assert made[..i + 1] == made[..i] + [made[i]];
        i := i + 1;
      }
      assert made[..i] == made;
      pool := queue;
    }

    /** acquire, with `made` what the factory returns when called: the
        oldest pooled object, or `made` from an empty pool. */
    method Acquire(made: T) returns (obj: T)
      modifies this
      ensures (pool, Some(obj)) == Apply(old(pool), AcquireOp(made))
      ensures old(pool) == [] ==> obj == made && pool == []
      ensures old(pool) != [] ==> obj == old(pool)[0] && Size() == old(Size()) - 1
    {
      if pool == [] {
        return made;
      }
      obj := pool[0];
      pool := pool[1..];
    }

    /** release: a non-null object joins the back of the queue; a null one
        is dropped. */
    method Release(obj: Option<T>)
      modifies this
      ensures (pool, None) == Apply(old(pool), ReleaseOp(obj))
      ensures obj.Some? ==> pool == old(pool) + [obj.value] && Size() == old(Size()) + 1
      ensures obj.None? ==> pool == old(pool)
    {
      if obj.Some? {
        pool := pool + [obj.value];
      }
    }

    /** size: the number of pooled objects, zero exactly when the next
        acquire has to create one. */
    function Size(): (n: nat)
      reads this
      ensures n == 0 <==> pool == []
    {
      |pool|
    }
  }
}
