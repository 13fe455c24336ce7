/** The segmented memory manager (memory.c): a table of word segments indexed
    by segment id, where a freed slot is a tombstone, a FIFO queue of freed ids
    that allocation reuses oldest first, and the program counter into
    segment 0.

    The abstract state `MemState` and the functions over it say what each
    operation does; the class `Memory` is the in-place implementation, whose
    methods are proved to perform exactly those state changes. */
module SegmentedMemory {
  import opened Words

  /** A slot is `Some(words)` while mapped and `None` once unmapped. */
  type Slot = Option<seq<Word>>

  datatype MemState = MemState(segments: seq<Slot>, free: seq<nat>, pc: nat)

  /** The manager's invariant: segment 0 exists and is never a tombstone, and
      the free queue holds exactly the tombstoned ids, each once, never 0. */
  ghost predicate Invariant(m: MemState) {
    && |m.segments| > 0
    && m.segments[0].Some?
    && (forall k :: 0 <= k < |m.free| ==> 0 < m.free[k] < |m.segments| && m.segments[m.free[k]].None?)
    && (forall j, k :: 0 <= j < k < |m.free| ==> m.free[j] != m.free[k])
    && (forall id :: 0 <= id < |m.segments| && m.segments[id].None? ==> id in m.free)
  }

  predicate IsMapped(m: MemState, id: int) {
    0 <= id < |m.segments| && m.segments[id].Some?
  }

  /** The words of a mapped segment. */
  function Segment(m: MemState, id: int): seq<Word>
    requires IsMapped(m, id)
  {
    m.segments[id].value
  }

  /** The running program: segment 0. */
  function Program(m: MemState): seq<Word>
    requires Invariant(m)
  {
    Segment(m, 0)
  }

  /** A readable or writable location: a mapped segment and an offset inside it. */
  predicate InBounds(m: MemState, id: int, offset: int) {
    IsMapped(m, id) && 0 <= offset < |Segment(m, id)|
  }

  function Zeros(n: nat): (s: seq<Word>)
    ensures |s| == n && forall i :: 0 <= i < n ==> s[i] == 0
  {
    seq(n, _ => 0)
  }

  /** create_segment0: the table holds one empty segment 0, nothing is free
      and the program counter is 0. */
  function Initial(): (m: MemState)
    ensures Invariant(m)
    ensures Program(m) == [] && |m.segments| == 1 && m.free == [] && m.pc == 0
  {
    MemState([Some([])], [], 0)
  }

  /** append_segment0: one more program word at the end of segment 0. */
  function Appended(m: MemState, w: Word): (r: MemState)
    requires Invariant(m)
    ensures Invariant(r)
    ensures Program(r) == Program(m) + [w]
    ensures |r.segments| == |m.segments|
    ensures forall id :: 0 < id < |m.segments| ==> r.segments[id] == m.segments[id]
    ensures r.free == m.free && r.pc == m.pc
  {
    m.(segments := m.segments[0 := Some(Program(m) + [w])])
  }

  /** map_segment_helper: a zero-filled segment of `n` words, installed at the
      oldest freed id when there is one, otherwise in a new slot at the end.
      The second component is the id. */
  function Mapped(m: MemState, n: nat): (r: (MemState, nat))
    requires Invariant(m)
    ensures Invariant(r.0)
    ensures r.1 != 0 && IsMapped(r.0, r.1)
    ensures |Segment(r.0, r.1)| == n && forall i :: 0 <= i < n ==> Segment(r.0, r.1)[i] == 0
    ensures m.free == [] ==> r.1 == |m.segments| && |r.0.segments| == |m.segments| + 1 && r.0.free == []
    ensures m.free != [] ==> r.1 == m.free[0] && |r.0.segments| == |m.segments| && r.0.free == m.free[1..]
    ensures forall id :: 0 <= id < |m.segments| && id != r.1 ==> r.0.segments[id] == m.segments[id]
    ensures r.0.pc == m.pc
  {
    var slot := Some(Zeros(n));
    if m.free == [] then
      (m.(segments := m.segments + [slot]), |m.segments|)
    else
      (m.(segments := m.segments[m.free[0] := slot], free := m.free[1..]), m.free[0])
  }

  /** unmap_segment_helper: the slot becomes a tombstone and its id joins the
      back of the free queue. */
  function Unmapped(m: MemState, id: nat): (r: MemState)
    requires Invariant(m) && id != 0 && IsMapped(m, id)
    ensures Invariant(r)
    ensures !IsMapped(r, id) && r.free == m.free + [id]
    ensures |r.segments| == |m.segments|
    ensures forall j :: 0 <= j < |m.segments| && j != id ==> r.segments[j] == m.segments[j]
    ensures r.pc == m.pc
  {
    assert id !in m.free;
    m.(segments := m.segments[id := None], free := m.free + [id])
  }

  /** load_program_helper: segment 0 becomes a copy of segment `id` (when
      `id` is not 0) and the program counter becomes `target`. */
  function ProgramLoaded(m: MemState, id: nat, target: nat): (r: MemState)
    requires Invariant(m) && IsMapped(m, id)
    ensures Invariant(r)
    ensures Program(r) == Segment(m, id) && r.pc == target
    ensures |r.segments| == |m.segments| && r.free == m.free
    ensures forall j :: 0 < j < |m.segments| ==> r.segments[j] == m.segments[j]
    ensures id == 0 ==> r.segments == m.segments
  {
    if id != 0 then
      m.(segments := m.segments[0 := Some(Segment(m, id))], pc := target)
    else
      m.(pc := target)
  }

  /** value_in_segment: the word at `offset` in segment `id`; storing it
      back changes nothing. */
  function ValueAt(m: MemState, id: nat, offset: nat): (v: Word)
    requires InBounds(m, id, offset)
    ensures Invariant(m) ==> Stored(m, v, id, offset) == m
  {
    var v := Segment(m, id)[offset];
    assert Segment(m, id)[offset := v] == Segment(m, id);
    assert m.segments[id := Some(Segment(m, id))] == m.segments;
    v
  }

  /** store_in_segment: one word of one segment replaced by `v`. */
  function Stored(m: MemState, v: Word, id: nat, offset: nat): (r: MemState)
    requires Invariant(m) && InBounds(m, id, offset)
    ensures Invariant(r)
    ensures IsMapped(r, id) && Segment(r, id) == Segment(m, id)[offset := v]
    ensures |r.segments| == |m.segments|
    ensures forall j :: 0 <= j < |m.segments| && j != id ==> r.segments[j] == m.segments[j]
    ensures r.free == m.free && r.pc == m.pc
  {
    m.(segments := m.segments[id := Some(Segment(m, id)[offset := v])])
  }

  /** instructions_complete: execution goes on while the program counter is
      inside segment 0. */
  predicate Continues(m: MemState): (more: bool)
    requires Invariant(m)
    ensures more <==> InBounds(m, 0, m.pc)
  {
    m.pc < |Program(m)|
  }

  /** instruction: the word under the program counter, which moves on by one. */
  function Fetched(m: MemState): (r: (MemState, Word))
    requires Invariant(m) && Continues(m)
    ensures Invariant(r.0)
    ensures r.1 == Program(m)[m.pc]
    ensures r.0.pc == m.pc + 1 && r.0.segments == m.segments && r.0.free == m.free
  {
    (m.(pc := m.pc + 1), Program(m)[m.pc])
  }

  // ---------------------------------------------------------------------------
  // Properties relating several operations

  /** Maps `n` segments in turn, one for each requested size, collecting the ids. */
  function MapAll(m: MemState, sizes: seq<nat>): (r: (MemState, seq<nat>))
    requires Invariant(m)
    ensures Invariant(r.0) && |r.1| == |sizes|
    decreases |sizes|
  {
    if sizes == [] then (m, [])
    else
      var (m1, id) := Mapped(m, sizes[0]);
      var (m2, ids) := MapAll(m1, sizes[1..]);
      (m2, [id] + ids)
  }

  /** FIFO reuse: as long as freed ids remain, successive maps hand them out
      in the order they were freed. */
  lemma {:induction false} MapAllReusesOldestFirst(m: MemState, sizes: seq<nat>)
    requires Invariant(m) && |sizes| <= |m.free|
    ensures MapAll(m, sizes).1 == m.free[..|sizes|]
    ensures MapAll(m, sizes).0.free == m.free[|sizes|..]
    decreases |sizes|
  {
    if sizes != [] {
      var first := Mapped(m, sizes[0]);
      MapAllUnfolds(m, sizes);
      MapAllReusesOldestFirst(first.0, sizes[1..]);
      QueueSlices(m.free, |sizes[1..]|);
    }
  }

  /** One map from a non-empty free queue takes its head. */
  lemma MapAllUnfolds(m: MemState, sizes: seq<nat>)
    requires Invariant(m) && 0 < |sizes| <= |m.free|
    ensures var first := Mapped(m, sizes[0]);
            && first.1 == m.free[0] && first.0.free == m.free[1..]
            && MapAll(m, sizes).1 == [m.free[0]] + MapAll(first.0, sizes[1..]).1
            && MapAll(m, sizes).0 == MapAll(first.0, sizes[1..]).0
  {
  }

  /** Taking `n + 1` items of a queue is its head followed by `n` of its tail. */
  lemma QueueSlices(q: seq<nat>, n: nat)
    requires n < |q|
    ensures q[..n + 1] == [q[0]] + q[1..][..n] && q[n + 1..] == q[1..][n..]
  {
  }

  /** Unmapping `a` and then `b`, from a table with nothing free, makes the
      next two maps return `a` and then `b`. */
  lemma FreedIdsReusedInOrder(m: MemState, a: nat, b: nat, n1: nat, n2: nat)
    requires Invariant(m) && m.free == []
    requires a != 0 && b != 0 && a != b && IsMapped(m, a) && IsMapped(m, b)
    ensures var m2 := Unmapped(Unmapped(m, a), b);
            var (m3, x) := Mapped(m2, n1);
            var (m4, y) := Mapped(m3, n2);
            x == a && y == b && m4.free == []
  {
  }

  /** A store is seen by a load from the same location and by no other. */
  lemma StoreThenLoad(m: MemState, v: Word, id: nat, offset: nat, id': nat, offset': nat)
    requires Invariant(m) && InBounds(m, id, offset) && InBounds(m, id', offset')
    ensures InBounds(Stored(m, v, id, offset), id', offset')
    ensures ValueAt(Stored(m, v, id, offset), id', offset') ==
            if id' == id && offset' == offset then v else ValueAt(m, id', offset')
  {
  }

  /** Segment 0 is a copy, not an alias: after loading segment `id` as the
      program, writes to segment `id` leave the running program unchanged. */
  lemma LoadedProgramIsACopy(m: MemState, id: nat, target: nat, v: Word, offset: nat)
    requires Invariant(m) && id != 0 && InBounds(m, id, offset)
    ensures var loaded := ProgramLoaded(m, id, target);
            Program(Stored(loaded, v, id, offset)) == Segment(m, id)
  {
  }

  // ---------------------------------------------------------------------------
  // The loops of memory.c that build fresh segments

  /** The zero-filling loop of map_segment_helper. */
  method NewZeroSegment(n: nat) returns (s: seq<Word>)
    ensures |s| == n && forall i :: 0 <= i < n ==> s[i] == 0
  {
    s := [];
    var i := 0;
    while i < n
      invariant i <= n && |s| == i
      invariant forall k :: 0 <= k < i ==> s[k] == 0
    {
      s := s + [0];
      i := i + 1;
    }
  }

  /** The element-by-element copying loop of load_program_helper. */
  method Duplicate(original: seq<Word>) returns (copy: seq<Word>)
    ensures copy == original
  {
    copy := [];
    var i := 0;
    while i < |original|
      invariant i <= |original| && copy == original[..i]
    {
      copy := copy + [original[i]];
      i := i + 1;
    }
  }

  // ---------------------------------------------------------------------------
  // The in-place implementation

  /** struct Memory: the segment table, the free queue and the program counter. */
  class Memory {
    var segments: seq<Slot>
    var free: seq<nat>
    var pc: nat

    function State(): MemState
      reads this
    {
      MemState(segments, free, pc)
    }

    ghost predicate Valid()
      reads this
    {
      Invariant(State())
    }

    /** create_segment0 */
    constructor ()
      ensures Valid() && State() == Initial()
    {
      segments := [Some([])];
      free := [];
      pc := 0;
    }

    /** append_segment0 */
    method AppendSegment0(w: Word)
      requires Valid()
      modifies this
      ensures Valid() && State() == Appended(old(State()), w)
    {
      segments := segments[0 := Some(segments[0].value + [w])];
    }

    /** map_segment_helper */
    method MapSegmentHelper(n: nat) returns (id: nat)
      requires Valid()
      modifies this
      ensures Valid()
      ensures (State(), id) == Mapped(old(State()), n)
    {
      var s := NewZeroSegment(n);
      assert s == Zeros(n);
      if free == [] {
        segments := segments + [Some(s)];
        id := |segments| - 1;
      } else {
        id := free[0];
        free := free[1..];
        segments := segments[id := Some(s)];
      }
    }

    /** unmap_segment_helper */
    method UnmapSegmentHelper(id: nat)
      requires Valid() && id != 0 && IsMapped(State(), id)
      modifies this
      ensures Valid() && State() == Unmapped(old(State()), id)
    {
      segments := segments[id := None];
      free := free + [id];
    }

    /** load_program_helper */
    method LoadProgramHelper(id: nat, target: nat)
      requires Valid() && IsMapped(State(), id)
      modifies this
      ensures Valid() && State() == ProgramLoaded(old(State()), id, target)
    {
      if id != 0 {
        var copy := Duplicate(segments[id].value);
        segments := segments[0 := Some(copy)];
      }
      pc := target;
    }

    /** value_in_segment */
    method ValueInSegment(id: nat, offset: nat) returns (v: Word)
      requires Valid() && InBounds(State(), id, offset)
      ensures v == ValueAt(State(), id, offset)
    {
      v := segments[id].value[offset];
    }

    /** store_in_segment */
    method StoreInSegment(v: Word, id: nat, offset: nat)
      requires Valid() && InBounds(State(), id, offset)
      modifies this
      ensures Valid() && State() == Stored(old(State()), v, id, offset)
    {
      segments := segments[id := Some(segments[id].value[offset := v])];
    }

    /** instruction */
    method Instruction() returns (w: Word)
      requires Valid() && Continues(State())
      modifies this
      ensures Valid() && (State(), w) == Fetched(old(State()))
    {
      w := segments[0].value[pc];
      pc := pc + 1;
    }

    /** instructions_complete */
    method InstructionsComplete() returns (more: bool)
      requires Valid()
      ensures more == Continues(State())
    {
      more := pc < |segments[0].value|;
    }
  }
}
