/** The media carousel: a cursor over the `n` media items of one post,
    moved by the previous/next arrows and by the row of dots. */
module Carousel {

  /** The cursor never goes negative and, when there is media, points at
      one of the items. */
  predicate Valid(idx: int, n: nat) {
    0 <= idx && (n > 0 ==> idx < n)
  }

  /** `nextImage`: advance while below the last item. */
  function Next(idx: int, n: nat): (r: int)
    ensures Valid(idx, n) ==> Valid(r, n)
    ensures Valid(idx, n) && n > 0 ==> r == if idx + 1 < n then idx + 1 else n - 1
  {
    if idx < n - 1 then idx + 1 else idx
  }

  /** `prevImage`: step back while above the first item. */
  function Prev(idx: int): (r: int)
    ensures 0 <= idx ==> r == if idx > 0 then idx - 1 else 0
    ensures 0 <= idx ==> 0 <= r <= idx
  {
    if idx > 0 then idx - 1 else idx
  }

  /** A dot jumps straight to its position; dots exist only for items. */
  function Select(i: int, n: nat): (r: int)
    requires 0 <= i < n
    ensures Valid(r, n) && r == i
  {
    i
  }

  /** The arrows and dots are rendered only for several items of content
      that is not blurred. */
  function ControlsShown(n: nat, blurred: bool): (shown: bool)
    ensures shown ==> n >= 2 && !blurred
    ensures n >= 2 && !blurred ==> shown
  {
    n > 1 && !blurred
  }

  /** The "previous" arrow is disabled at the first item ... */
  predicate PrevDisabled(idx: int) {
    idx == 0
  }

  /** ... and the "next" arrow at the last. */
  predicate NextDisabled(idx: int, n: nat) {
    idx == n - 1
  }

  /** A disabled arrow is exactly an arrow whose action would do nothing. */
  lemma DisabledIffNoOp(idx: int, n: nat)
    requires Valid(idx, n) && n > 0
    ensures NextDisabled(idx, n) <==> Next(idx, n) == idx
    ensures PrevDisabled(idx) <==> Prev(idx) == idx
  {
  }

  /** Next and previous undo each other away from the ends. */
  lemma NextPrevInverse(idx: int, n: nat)
    requires Valid(idx, n) && n > 0
    ensures idx < n - 1 ==> Prev(Next(idx, n)) == idx
    ensures idx > 0 ==> Next(Prev(idx), n) == idx
  {
  }

  /** A user gesture on the carousel. */
  datatype Gesture = NextArrow | PrevArrow | Dot(i: nat)

  /** The effect of one gesture; controls that are not rendered (and dots
      beyond the items) cannot be clicked. */
  function Step(idx: int, n: nat, blurred: bool, g: Gesture): (r: int)
    requires Valid(idx, n)
    ensures Valid(r, n)
    ensures !ControlsShown(n, blurred) ==> r == idx
  {
    if !ControlsShown(n, blurred) then idx
    else match g
      case NextArrow => Next(idx, n)
      case PrevArrow => Prev(idx)
      case Dot(i) => if i < n then Select(i, n) else idx
  }

  /** Replays a session of gestures from the initial cursor 0. Whatever the
      gestures, the cursor stays valid, and on blurred content it never
      leaves the first item. */
  method Replay(n: nat, blurred: bool, gestures: seq<Gesture>) returns (idx: int)
    ensures Valid(idx, n)
    ensures blurred || n <= 1 ==> idx == 0
    ensures |gestures| == 0 ==> idx == 0
  {
    idx := 0;
    var k := 0;
    while k < |gestures|
      invariant 0 <= k <= |gestures|
      invariant Valid(idx, n)
      invariant blurred || n <= 1 ==> idx == 0
      invariant k == 0 ==> idx == 0
    {
      idx := Step(idx, n, blurred, gestures[k]);
      k := k + 1;
    }
  }

  /** Three items: next three times visits 0, 1, 2, 2; previous three times
      from 2 visits 2, 1, 0, 0. */
  lemma ThreeItemWalk()
    ensures Next(0, 3) == 1 && Next(1, 3) == 2 && Next(2, 3) == 2
    ensures Prev(2) == 1 && Prev(1) == 0 && Prev(0) == 0
  {
  }
}
