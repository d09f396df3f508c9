/**
  The car carousel (frontend/components/CarsHero.tsx): a current slide
  moved one step forward or back by the arrows, each move locked for the
  length of its animation, and the map from a slide's index to the
  position class it is drawn with.
*/
module CarsHero {

  /** The five cars of the slider. */
  const CarCount: nat := 5
  /** The longest keyframe, after which a move completes. */
  const AnimationMs: nat := 1150

  datatype Direction = NoDirection | NextDir | PrevDir

  datatype Position = Pos1 | Pos2 | Pos3 | Pos4 | Pos5 | Hidden

  // -----------------------------------------------------------------------
  // Index arithmetic
  // -----------------------------------------------------------------------

  /** For 0 <= a < 2n the remainder is a or a - n. */
  lemma ModOnce(a: int, n: int)
    requires n > 0 && 0 <= a < 2 * n
    ensures a % n == if a < n then a else a - n
  {
    if a < n {
      assert a == 0 * n + a;
    } else {
      assert a == 1 * n + (a - n);
    }
  }

  /** The slide after `c`, wrapping from the last to the first. */
  function NextIndex(c: int, n: int): (r: int)
    requires n > 0 && 0 <= c < n
    ensures 0 <= r < n
    ensures r == if c == n - 1 then 0 else c + 1
  {
    ModOnce(c + 1, n);
    (c + 1) % n
  }

  /** The slide before `c`, wrapping from the first to the last. */
  function PrevIndex(c: int, n: int): (r: int)
    requires n > 0 && 0 <= c < n
    ensures 0 <= r < n
    ensures r == if c == 0 then n - 1 else c - 1
  {
    ModOnce(c - 1 + n, n);
    (c - 1 + n) % n
  }

  /** A step forward and a step back cancel, in either order. */
  lemma NextPrevInverse(c: int, n: int)
    requires n > 0 && 0 <= c < n
    ensures PrevIndex(NextIndex(c, n), n) == c
    ensures NextIndex(PrevIndex(c, n), n) == c
  {
  }

  /** How far `idx` lies ahead of the current slide, counted around the ring. */
  function Offset(idx: int, current: int, n: int): (d: int)
    requires n > 0 && 0 <= idx < n && 0 <= current < n
    ensures 0 <= d < n
    ensures d == if idx >= current then idx - current else idx - current + n
  {
    ModOnce(idx - current + n, n);
    (idx - current + n) % n
  }

  /** `getPos`: the current slide is in the centre, two follow it and two precede it. */
  function GetPos(idx: int, current: int, n: int): Position
    requires n > 0 && 0 <= idx < n && 0 <= current < n
  {
    var diff := Offset(idx, current, n);
    if diff == 0 then Pos2
    else if diff == 1 then Pos3
    else if diff == 2 then Pos4
    else if diff == n - 1 then Pos1
    else if diff == n - 2 then Pos5
    else Hidden
  }

  /** How far ahead of the current slide each visible position lies. */
  function PositionOffset(p: Position, n: int): int
    requires p != Hidden
  {
    match p
    case Pos1 => n - 1
    case Pos2 => 0
    case Pos3 => 1
    case Pos4 => 2
    case Pos5 => n - 2
  }

  /** The index a visible position falls on. */
  function IndexAt(p: Position, current: int, n: int): (idx: int)
    requires n >= CarCount && 0 <= current < n && p != Hidden
    ensures 0 <= idx < n
  {
    ModOnce(current + PositionOffset(p, n), n);
    (current + PositionOffset(p, n)) % n
  }

  lemma CurrentIsCentre(current: int, n: int)
    requires n > 0 && 0 <= current < n
    ensures GetPos(current, current, n) == Pos2
  {
  }

  /**
    With at least five slides each of pos1 … pos5 is given to exactly one
    index: `idx` gets position `p` if and only if it is p's index.
  */
  lemma {:induction false} PositionsAreUnique(idx: int, current: int, n: int, p: Position)
    requires n >= CarCount && 0 <= idx < n && 0 <= current < n && p != Hidden
    ensures GetPos(idx, current, n) == p <==> idx == IndexAt(p, current, n)
  {
    ModOnce(current + PositionOffset(p, n), n);
  }

  /** With exactly the five cars every slide is on screen. */
  lemma NothingHiddenWithFive(idx: int, current: int)
    requires 0 <= idx < CarCount && 0 <= current < CarCount
    ensures GetPos(idx, current, CarCount) != Hidden
  {
  }

  /** With more than five slides, a slide three or more steps away on both sides is hidden. */
  lemma FarSlidesHidden(idx: int, current: int, n: int)
    requires n > CarCount && 0 <= idx < n && 0 <= current < n
    requires 3 <= Offset(idx, current, n) <= n - 3
    ensures GetPos(idx, current, n) == Hidden
  {
  }

  // -----------------------------------------------------------------------
  // The carousel
  // -----------------------------------------------------------------------

  datatype Carousel = Carousel(current: int, showDetail: bool, direction: Direction, animating: bool, pending: Direction)

  /** What every reachable carousel satisfies: a slide in range, and a move pending exactly while animating. */
  predicate CarouselValid(c: Carousel, n: int) {
    && 0 <= c.current < n
    && (c.animating <==> c.pending != NoDirection)
    && c.direction == c.pending
  }

  /** next or prev: ignored while animating, else lock and start the move. */
  function Start(c: Carousel, d: Direction): Carousel
    requires d != NoDirection
  {
    if c.animating then c else c.(animating := true, direction := d, pending := d)
  }

  /** The animation timeout: move the slide, clear the direction and the lock. */
  function Settle(c: Carousel, n: int): Carousel
    requires n > 0 && 0 <= c.current < n && c.pending != NoDirection
  {
    var next := if c.pending == NextDir then NextIndex(c.current, n) else PrevIndex(c.current, n);
    c.(current := next, direction := NoDirection, animating := false, pending := NoDirection)
  }

  lemma StartValid(c: Carousel, d: Direction, n: int)
    requires CarouselValid(c, n) && d != NoDirection
    ensures CarouselValid(Start(c, d), n)
    ensures c.animating ==> Start(c, d) == c
  {
  }

  lemma SettleValid(c: Carousel, n: int)
    requires n > 0 && CarouselValid(c, n) && c.animating
    ensures CarouselValid(Settle(c, n), n)
    ensures !Settle(c, n).animating && Settle(c, n).direction == NoDirection
  {
  }

  /** A completed next followed by a completed prev returns to the starting slide, and the other way round. */
  lemma RoundTrip(c: Carousel, n: int)
    requires n > 0 && CarouselValid(c, n) && !c.animating
    ensures Settle(Start(Settle(Start(c, NextDir), n), PrevDir), n).current == c.current
    ensures Settle(Start(Settle(Start(c, PrevDir), n), NextDir), n).current == c.current
  {
    NextPrevInverse(c.current, n);
  }

  /** `cars.map((car, i) => getPos(i))`: with the five cars each slide is drawn, the current one in the centre. */
  function Positions(current: int): (ps: seq<Position>)
    requires 0 <= current < CarCount
    ensures |ps| == CarCount && ps[current] == Pos2
    ensures forall i :: 0 <= i < CarCount ==> ps[i] == GetPos(i, current, CarCount) && ps[i] != Hidden
  {
    var ps := seq(CarCount, i requires 0 <= i < CarCount => GetPos(i, current, CarCount));
    assert forall i :: 0 <= i < CarCount ==> ps[i] != Hidden by {
      forall i | 0 <= i < CarCount ensures ps[i] != Hidden {
        NothingHiddenWithFive(i, current);
      }
    }
    ps
  }

  class CarsSlider {
    var current: int
    var showDetail: bool
    var direction: Direction
    var animating: bool
    /** The move whose timeout is scheduled, if any. */
    var pending: Direction

    function Snapshot(): Carousel
      reads this
    {
      Carousel(current, showDetail, direction, animating, pending)
    }

    predicate Valid()
      reads this
    {
      CarouselValid(Snapshot(), CarCount)
    }

    constructor ()
      ensures Valid() && Snapshot() == Carousel(0, false, NoDirection, false, NoDirection)
    {
      current, showDetail, direction, animating, pending := 0, false, NoDirection, false, NoDirection;
    }

    method Next()
      requires Valid()
      modifies this
      ensures Valid() && Snapshot() == Start(old(Snapshot()), NextDir)
    {
      if animating {
        return;
      }
      animating := true;
      direction := NextDir;
      pending := NextDir;
    }

    method Prev()
      requires Valid()
      modifies this
      ensures Valid() && Snapshot() == Start(old(Snapshot()), PrevDir)
    {
      if animating {
        return;
      }
      animating := true;
      direction := PrevDir;
      pending := PrevDir;
    }

    /** The timeout AnimationMs after a move started. */
    method OnAnimationTimeout()
      requires Valid() && pending != NoDirection
      modifies this
      ensures Valid() && Snapshot() == Settle(old(Snapshot()), CarCount)
    {
      if pending == NextDir {
        current := (current + 1) % CarCount;
      } else {
        current := (current - 1 + CarCount) % CarCount;
      }
      direction := NoDirection;
      animating := false;
      pending := NoDirection;
    }

    method SeeMore()
      modifies this`showDetail
      ensures showDetail
    {
      showDetail := true;
    }

    method Back()
      modifies this`showDetail
      ensures !showDetail
    {
      showDetail := false;
    }
  }
}
