/** The index arithmetic of Buffer: how the size of the vector and its two
    indices move, independently of the bytes stored.  The bound on how much
    memory a buffer can ever hold is a statement about runs of these moves. */
module BufferShape {

  const CHEAP_PREPEND: nat := 8
  const INITIAL_SIZE: nat := 1024
  const EXTRA_SIZE: nat := 65536

  datatype Shape = Shape(size: nat, reader: nat, writer: nat) {

    /** What every operation keeps.  The last conjunct says that the read index
        strays from its start only while there is something to read. */
    predicate Ok() {
      && CHEAP_PREPEND <= reader <= writer <= size
      && (reader == writer ==> reader == CHEAP_PREPEND)
    }

    function Readable(): int {
      writer - reader
    }

    function Writable(): int {
      size - writer
    }
  }

  function Initial(initialSize: nat): Shape {
    Shape(CHEAP_PREPEND + initialSize, CHEAP_PREPEND, CHEAP_PREPEND)
  }

  /** makeSpace: grow the vector, or slide the readable bytes to the front. */
  function MadeSpace(s: Shape, len: nat): Shape
    requires s.Ok()
  {
    if s.Writable() + s.reader < len + CHEAP_PREPEND then
      s.(size := s.writer + len)
    else
      s.(reader := CHEAP_PREPEND, writer := CHEAP_PREPEND + s.Readable())
  }

  function Ensured(s: Shape, len: nat): Shape
    requires s.Ok()
  {
    if s.Writable() < len then MadeSpace(s, len) else s
  }

  function Appended(s: Shape, len: nat): Shape
    requires s.Ok()
  {
    var e := Ensured(s, len);
    e.(writer := e.writer + len)
  }

  function Retrieved(s: Shape, len: nat): Shape
    requires s.Ok()
  {
    if len < s.Readable() then s.(reader := s.reader + len)
    else s.(reader := CHEAP_PREPEND, writer := CHEAP_PREPEND)
  }

  /** The number of bytes readv may return: the second area is offered only
      when the first is smaller than it. */
  function ReadLimit(s: Shape): nat
    requires s.Ok()
  {
    if s.Writable() < EXTRA_SIZE then s.Writable() + EXTRA_SIZE else s.Writable()
  }

  function Received(s: Shape, n: nat): Shape
    requires s.Ok()
  {
    if n <= s.Writable() then s.(writer := s.writer + n)
    else Appended(s.(writer := s.size), n - s.Writable())
  }

  /** Sliding is chosen only when the readable bytes really move down and the
      room it makes suffices; growing never moves an index. */
  lemma MakeSpaceMakesRoom(s: Shape, len: nat)
    requires s.Ok() && s.Writable() < len
    ensures MadeSpace(s, len).Ok() && MadeSpace(s, len).Writable() >= len
    ensures MadeSpace(s, len).Readable() == s.Readable()
    ensures MadeSpace(s, len).size > s.size || s.reader > CHEAP_PREPEND
    ensures MadeSpace(s, len).size > s.size <==> s.Writable() + s.reader < len + CHEAP_PREPEND
  {
  }

  // ---------- Runs ----------

  datatype Op = Append(n: nat) | Retrieve(n: nat) | Receive(n: nat)

  function Apply(s: Shape, op: Op): (r: Shape)
    requires s.Ok()
    ensures r.Ok()
    ensures r.size >= s.size
  {
    match op
    case Append(n) => Appended(s, n)
    case Retrieve(n) => Retrieved(s, n)
    case Receive(n) => Received(s, n)
  }

  function Run(s: Shape, ops: seq<Op>): (r: Shape)
    requires s.Ok()
    ensures r.Ok()
    ensures r.size >= s.size
    decreases |ops|
  {
    if ops == [] then s else Run(Apply(s, ops[0]), ops[1..])
  }

  function Max(a: int, b: int): int {
    if a >= b then a else b
  }

  /** The largest number of readable bytes seen from `s` on. */
  function Peak(s: Shape, ops: seq<Op>): (p: int)
    requires s.Ok()
    ensures p >= s.Readable()
    decreases |ops|
  {
    if ops == [] then s.Readable()
    else Max(s.Readable(), Peak(Apply(s, ops[0]), ops[1..]))
  }

  function SpaceLimit(initialSize: nat, peak: int): int {
    Max(CHEAP_PREPEND + initialSize, Max(peak + 8, 2 * peak + 6))
  }

  lemma ApplyWithinLimit(s: Shape, op: Op)
    requires s.Ok()
    ensures var r := Apply(s, op);
            r.size <= Max(s.size, Max(r.Readable() + 8, 2 * r.Readable() + 6))
  {
  }

  lemma {:induction false} RunWithinLimit(s: Shape, ops: seq<Op>, initialSize: nat, bound: int)
    requires s.Ok() && s.size <= SpaceLimit(initialSize, bound)
    requires Peak(s, ops) <= bound
    ensures Run(s, ops).size <= SpaceLimit(initialSize, bound)
    decreases |ops|
  {
    if ops != [] {
      ApplyWithinLimit(s, ops[0]);
      RunWithinLimit(Apply(s, ops[0]), ops[1..], initialSize, bound);
    }
  }

  /** Over every run of a fresh buffer, the vector never shrinks and its size is
      bounded by the peak backlog alone. */
  lemma SpaceBound(initialSize: nat, ops: seq<Op>)
    ensures var r := Run(Initial(initialSize), ops);
            var peak := Peak(Initial(initialSize), ops);
            && CHEAP_PREPEND + initialSize <= r.size <= SpaceLimit(initialSize, peak)
            && (peak >= 1 ==> r.size <= Max(CHEAP_PREPEND + initialSize, 2 * peak + 7))
  {
    var s := Initial(initialSize);
    RunWithinLimit(s, ops, initialSize, Peak(s, ops));
  }

  /** The bound is met: for every peak of two or more some run reaches it. */
  lemma SpaceBoundIsTight(peak: nat)
    requires peak >= 2
    ensures var ops := [Append(peak - 1), Retrieve(peak - 2), Append(peak - 1)];
            var s := Initial(peak - 1);
            Peak(s, ops) == peak && Run(s, ops).size == SpaceLimit(peak - 1, peak) == 2 * peak + 6
  {
    var ops := [Append(peak - 1), Retrieve(peak - 2), Append(peak - 1)];
    var s0 := Initial(peak - 1);
    var s1 := Apply(s0, ops[0]);
    var s2 := Apply(s1, ops[1]);
    var s3 := Apply(s2, ops[2]);
    assert ops[1..][1..] == ops[2..] && ops[2..][1..] == [];
    assert Run(s2, ops[2..]) == Run(s3, []) == s3;
    assert Peak(s2, ops[2..]) == Max(s2.Readable(), Peak(s3, []));
    assert Run(s0, ops) == s3;
  }
}
