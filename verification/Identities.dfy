/**
 Deterministic identities (src/detthread.rs and the channel ids of src/rr.rs).

 A thread is named by its path of spawn positions from the root. The program stores such a path as
 an array of ten u32 cells, padded with zeros, and a size; `DetThreadId` is that representation and
 `Path` is what it stands for.
 */
module Identities {

  /** What a `DetThreadId` stands for: the spawn positions from the root thread, whose path is empty. */
  type Path = seq<nat>

  /** Greatest depth of the thread tree. */
  const MAX_SIZE: nat := 10

  /** A channel is named by the thread that created it and that thread's channel counter. */
  datatype DetChannelId = DetChannelId(thread: Path, number: nat)

  /** The id used where an API wants one that is never looked at. */
  const FAKE_CHANNEL := DetChannelId([], 0)

  /** The stored form of a thread id. Equality and hashing in the program are those of the two fields. */
  datatype DetThreadId = DetThreadId(cells: seq<nat>, size: nat) {
    predicate Valid() {
      && |cells| == MAX_SIZE
      && size <= MAX_SIZE
      && forall i | size <= i < MAX_SIZE :: cells[i] == 0
    }

    /** The used part of the array. */
    function AsSlice(): Path
      requires Valid()
    {
      cells[..size]
    }

    /** Writes one more position; None is the panic "Thread tree too deep". */
    function ExtendPath(node: nat): (r: Maybe<DetThreadId>)
      requires Valid()
      ensures r.Some? <==> |AsSlice()| < MAX_SIZE
      ensures r.Some? ==> r.value.Valid() && r.value.AsSlice() == AsSlice() + [node]
    {
      if size < MAX_SIZE then Some(DetThreadId(cells[size := node], size + 1)) else None
    }
  }

  datatype Maybe<+T> = None | Some(value: T)

  const ROOT := DetThreadId(seq(MAX_SIZE, i => 0), 0)

  /** Builds the stored form from a slice, one cell at a time. None is the panic for a path that is too long. */
  method FromSlice(slice: Path) returns (r: Maybe<DetThreadId>)
    ensures r.Some? <==> |slice| <= MAX_SIZE
    ensures r.Some? ==> r.value.Valid() && r.value.AsSlice() == slice
  {
    var dti := ROOT;
    assert dti.AsSlice() == slice[..0];
    for i := 0 to |slice|
      invariant i <= MAX_SIZE
      invariant dti.Valid() && dti.AsSlice() == slice[..i]
    {
      var next := dti.ExtendPath(slice[i]);
      if next.None? {
        return None;
      }
      assert slice[..i] + [slice[i]] == slice[..i + 1];
      dti := next.value;
    }
    assert slice[..|slice|] == slice;
    return Some(dti);
  }

  /** Comparing arrays and sizes is comparing paths: the zero padding never confuses two threads. */
  lemma StoredIdsAgreeWithPaths(a: DetThreadId, b: DetThreadId)
    requires a.Valid() && b.Valid()
    ensures a == b <==> a.AsSlice() == b.AsSlice()
  {
    if a.AsSlice() == b.AsSlice() {
      assert a.size == |a.AsSlice()| == |b.AsSlice()| == b.size;
      forall i | 0 <= i < MAX_SIZE
        ensures a.cells[i] == b.cells[i]
      {
        if i < a.size {
          assert a.cells[i] == a.AsSlice()[i] == b.AsSlice()[i];
        }
      }
      assert a.cells == b.cells;
    }
  }

  /** Hands out the ids of one thread's children. The object is thread local. */
  class DetIdSpawner {
    var childIndex: nat
    const threadId: DetThreadId

    ghost predicate Valid()
      reads this
    {
      threadId.Valid()
    }

    constructor (id: DetThreadId)
      requires id.Valid()
      ensures Valid() && threadId == id && childIndex == 1
    {
      threadId := id;
      childIndex := 1;
    }

    /** None is the panic of `extend_path`, which strikes before the index is advanced. */
    method NewChildDetId() returns (child: Maybe<DetThreadId>)
      requires Valid()
      modifies this
      ensures Valid()
      ensures child.Some? <==> |threadId.AsSlice()| < MAX_SIZE
      ensures child.Some? ==> child.value.Valid() && child.value.AsSlice() == threadId.AsSlice() + [old(childIndex)]
      ensures childIndex == old(childIndex) + if child.Some? then 1 else 0
    {
      child := threadId.ExtendPath(childIndex);
      if child.Some? {
        childIndex := childIndex + 1;
      }
    }
  }

  /** Number of values of the u32 channel counter. */
  const U32: nat := 0x1_0000_0000

  /** The number that a thread gives to its k-th channel (k from 0): the counter starts at 1 and wraps. */
  function ChannelNumber(k: nat): nat {
    (1 + k) % U32
  }

  lemma SameRemainder(a: nat, b: nat)
    requires a <= b
    ensures a % U32 == b % U32 <==> (b - a) % U32 == 0
  {
    assert a == U32 * (a / U32) + a % U32;
    assert b == U32 * (b / U32) + b % U32;
    if (b - a) % U32 == 0 {
      assert b - a == U32 * ((b - a) / U32);
      assert b == U32 * (a / U32 + (b - a) / U32) + a % U32;
      RemainderUnique(a / U32 + (b - a) / U32, a % U32, b / U32, b % U32);
    }
    if a % U32 == b % U32 {
      assert b - a == U32 * (b / U32 - a / U32);
      RemainderUnique((b - a) / U32, (b - a) % U32, b / U32 - a / U32, 0);
    }
  }

  lemma RemainderUnique(q: int, r: nat, q': int, r': nat)
    requires r < U32 && r' < U32 && U32 * q + r == U32 * q' + r'
    ensures r == r' && q == q'
  {
  }

  /**
   Two creations get the same channel id exactly when one thread made them and they are a multiple of
   2^32 creations apart. A created channel carries the fake id exactly when the root thread's counter
   has wrapped to 0.
   */
  lemma ChannelIdsDistinctUntilWrap(t: Path, j: nat, u: Path, k: nat)
    requires j <= k
    ensures DetChannelId(t, ChannelNumber(j)) == DetChannelId(u, ChannelNumber(k)) <==> t == u && (k - j) % U32 == 0
    ensures DetChannelId(t, ChannelNumber(k)) == FAKE_CHANNEL <==> t == [] && (1 + k) % U32 == 0
  {
    SameRemainder(1 + j, 1 + k);
  }
}
