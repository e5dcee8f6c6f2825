/** What the input shaper sees of the planner's move queue and of the segment sink it
    feeds. MoveQueue.h and FuncManager are not part of this model; both are described here
    only by the behaviour the shaper relies on. */
module MoveQueueModel {

  /** One planned move, projected on the shaped axis: it starts at `startT` with speed
      `startV`, accelerates at `accelerate` until `endT`, and moves the axis by `axisR`
      per unit of path from `startPos`. */
  datatype Move = Move(startV: real, accelerate: real, startT: real, endT: real, startPos: real, axisR: real)

  /** The move queue: a ring of moves whose oldest live entry is `tail`. `size` is
      getMoveSize(), `isBetween` says whether an index is live, and `positionAcross` is
      getAxisPositionAcrossMoves for the shaped axis. */
  datatype MoveQueue = MoveQueue(
    moves: seq<Move>,
    tail: nat,
    size: nat,
    isBetween: int -> bool,
    positionAcross: (int, real, int, int) -> real)

  ghost predicate ValidQueue(q: MoveQueue)
  {
    |q.moves| > 0 && q.tail < |q.moves|
  }

  /** prevMoveIndex: the ring predecessor. */
  function Prev(q: MoveQueue, i: nat): (r: nat)
    requires ValidQueue(q) && i < |q.moves|
    ensures r < |q.moves|
  {
    if i == 0 then |q.moves| - 1 else i - 1
  }

  /** nextMoveIndex: the ring successor. */
  function Next(q: MoveQueue, i: nat): (r: nat)
    requires ValidQueue(q) && i < |q.moves|
    ensures r < |q.moves|
  {
    if i + 1 == |q.moves| then 0 else i + 1
  }

  /** How many steps back from `i` the tail lies: the position of `i` in queue order. */
  function Dist(q: MoveQueue, i: nat): (d: nat)
    requires ValidQueue(q) && i < |q.moves|
    ensures d < |q.moves|
    ensures d == 0 <==> i == q.tail
  {
    if i >= q.tail then i - q.tail else i + |q.moves| - q.tail
  }

  /** The index `d` steps after the tail. */
  function AtDist(q: MoveQueue, d: nat): (i: nat)
    requires ValidQueue(q) && d < |q.moves|
    ensures i < |q.moves| && Dist(q, i) == d
  {
    if q.tail + d < |q.moves| then q.tail + d else q.tail + d - |q.moves|
  }

  /** Prev and Next undo each other, and a step back from any move but the tail brings the
      walk one move closer to the tail. */
  lemma PrevNext(q: MoveQueue, i: nat)
    requires ValidQueue(q) && i < |q.moves|
    ensures Prev(q, Next(q, i)) == i && Next(q, Prev(q, i)) == i
    ensures i != q.tail ==> Dist(q, Prev(q, i)) == Dist(q, i) - 1
    ensures i == AtDist(q, Dist(q, i))
  {
  }

  /** One emitted quadratic segment: a * x^2 + b * x + c for x measured from `startTime`,
      valid until `endTime`, with the shaped position `pos` at `endTime`. */
  datatype Segment = Segment(a: real, b: real, c: real, startTime: real, endTime: real, pos: real)

  /** The sink of emitted segments. Each segment starts where the previous one ended. */
  class FuncManager {
    var segments: seq<Segment>
    var lastTime: real
    var maxSize: nat

    /** Segments follow each other without gaps, and last_time is the end of the last. */
    ghost predicate Chained()
      reads this`segments, this`lastTime
    {
      && (forall k :: 0 < k < |segments| ==> segments[k].startTime == segments[k - 1].endTime)
      && (|segments| > 0 ==> lastTime == segments[|segments| - 1].endTime)
    }

    constructor (start: real)
      ensures Chained() && segments == [] && lastTime == start && maxSize == 0
    {
      segments, lastTime, maxSize := [], start, 0;
    }

    /** getSize() */
    function Size(): (r: nat)
      reads this`segments
    {
      |segments|
    }

    /** addDeltaTimeFuncParams(a, b, c, start, end, pos): record one segment and move
        last_time to its end. */
    method AddDeltaTimeFuncParams(a: real, b: real, c: real, start: real, end: real, pos: real)
      modifies this`segments, this`lastTime
      ensures segments == old(segments) + [Segment(a, b, c, start, end, pos)]
      ensures lastTime == end
      ensures old(Chained()) && start == old(lastTime) ==> Chained()
    {
      segments := segments + [Segment(a, b, c, start, end, pos)];
      lastTime := end;
    }
  }
}
