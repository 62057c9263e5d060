/** Creating an immutable evidence file: all of it or none of it, and never over another one.

    The operating system may write fewer bytes than asked, and any call may fail. */
module EvidenceFile {
  import opened Bags

  datatype Failure = Conflict | WriteFailed | FlushFailed

  datatype Created = Fine | Failed(why: Failure)

  /** What the calls do: how many bytes each write reports, whether the file and its directory
      can be flushed, and whether a failed file can be removed again. */
  datatype System = System(writes: nat -> int, fileFlushes: bool, directoryFlushes: bool, removes: bool)

  /** The bytes the `k`-th call takes of those left. */
  function Taken(os: System, left: nat, k: nat): int {
    if os.writes(k) > left then left else os.writes(k)
  }

  /** Whether writing `left` bytes from the `k`-th call on succeeds; a call that makes no
      progress is a failure. */
  predicate WritesAll(os: System, left: nat, k: nat)
    decreases left
  {
    left == 0 || (Taken(os, left, k) > 0 && WritesAll(os, left - Taken(os, left, k), k + 1))
  }

  /** What `n` calls from the `k`-th on report together. */
  function Reported(os: System, k: nat, n: nat): int {
    if n == 0 then 0 else Reported(os, k, n - 1) + os.writes(k + n - 1)
  }

  /** These calls all make progress, and report enough bytes together. */
  ghost predicate Enough(os: System, k: nat, n: nat, bytes: int) {
    (forall j: nat :: k <= j < k + n ==> os.writes(j) > 0) && Reported(os, k, n) >= bytes
  }

  /** Writing succeeds exactly when some calls all make progress and report enough bytes together. */
  lemma {:induction false} WritesAllIff(os: System, left: nat, k: nat)
    ensures WritesAll(os, left, k) <==> exists n: nat :: Enough(os, k, n, left)
    decreases left
  {
    if left == 0 {
      assert Enough(os, k, 0, left);
    } else if os.writes(k) >= left {
      assert Reported(os, k, 1) == Reported(os, k, 0) + os.writes(k);
      assert Enough(os, k, 1, left);
    } else if os.writes(k) > 0 {
      WritesAllIff(os, left - os.writes(k), k + 1);
      FirstAndThen(os, left, k, k + 1, left - os.writes(k));
    } else {
      forall n: nat ensures !Enough(os, k, n, left) {
        assert n > 0 ==> k <= k < k + n;
      }
    }
  }

  lemma FirstAndThen(os: System, left: nat, k: nat, next: nat, rest: int)
    requires 0 < os.writes(k) < left && next == k + 1 && rest == left - os.writes(k)
    ensures (exists n: nat :: Enough(os, k, n, left)) <==> exists n: nat :: Enough(os, next, n, rest)
  {
    if n: nat :| Enough(os, k, n, left) {
      FirstCall(os, k, n - 1);
      assert Enough(os, next, n - 1, rest);
    }
    if n: nat :| Enough(os, next, n, rest) {
      FirstCall(os, k, n);
      assert Enough(os, k, n + 1, left);
    }
  }

  lemma {:induction false} FirstCall(os: System, k: nat, n: nat)
    ensures Reported(os, k, n + 1) == os.writes(k) + Reported(os, k + 1, n)
  {
    if n > 0 {
      FirstCall(os, k, n - 1);
    }
  }

  class Evidence {
    var content: Option<seq<int>>
    ghost var trail: seq<seq<int>>

    constructor (content: Option<seq<int>>)
      ensures this.content == content && trail == []
    {
      this.content, this.trail := content, [];
    }

    /** Writes until nothing is left; every state on the way is a beginning of the data. */
    method WriteOut(data: seq<int>, os: System) returns (ok: bool)
      requires content == Some([])
      modifies this
      ensures content.Some? && content.value <= data
      ensures ok <==> WritesAll(os, |data|, 0)
      ensures ok ==> content.value == data
      ensures old(trail) <= trail && forall i :: |old(trail)| <= i < |trail| ==> trail[i] <= data
    {
      var remaining := data;
      var k := 0;
      while remaining != []
        invariant content.Some? && content.value + remaining == data
        invariant WritesAll(os, |remaining|, k) <==> WritesAll(os, |data|, 0)
        invariant old(trail) <= trail && forall i :: |old(trail)| <= i < |trail| ==> trail[i] <= data
        decreases |remaining|
      {
        var written := Taken(os, |remaining|, k);
        if written <= 0 {
          return false;
        }
        content := Some(content.value + remaining[..written]);
        remaining := remaining[written..];
        k := k + 1;
        trail := trail + [content.value];
      }
      return true;
    }

    /** A file left behind by a crash holds a beginning of the data (`trail`); a later attempt
        goes through only if that beginning was all of it, and is refused for good otherwise. */
    method AtomicCreate(data: seq<int>, os: System) returns (r: Created)
      modifies this
      ensures old(content).Some? ==>
                content == old(content) && r == if old(content) == Some(data) then Fine else Failed(Conflict)
      ensures old(content).None? ==> (r == Fine <==> WritesAll(os, |data|, 0) && os.fileFlushes && os.directoryFlushes)
      ensures r == Fine ==> content == Some(data)
      ensures old(content).None? && r != Fine && os.removes ==>
                content == if r == Failed(FlushFailed) then Some(data) else None
      ensures content.Some? && old(content).None? ==> content.value <= data
      ensures old(trail) <= trail && forall i :: |old(trail)| <= i < |trail| ==> trail[i] <= data
    {
      if content.Some? {
        return if content.value == data then Fine else Failed(Conflict);
      }
      content := Some([]);
      trail := trail + [[]];
      var ok := WriteOut(data, os);
      if !ok || !os.fileFlushes {
        if os.removes {
          content := None;
        }
        return Failed(WriteFailed);
      }
      return if os.directoryFlushes then Fine else Failed(FlushFailed);
    }
  }
}
