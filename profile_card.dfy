/** The marketplace card (components/ProfileCard.tsx): the photos it cycles
    through, the carousel index that the arrow buttons move, and the dots
    under the photo. */
module Card {
  import opened Common
  import opened Types

  /** `photos && photos.length > 0 ? photos : [avatar]`; the profile page's
      `photos?.length ? photos : [avatar]` is the same choice. */
  function DisplayPhotos(c: Creator): (photos: seq<string>)
    ensures |photos| > 0
    ensures c.photos.Some? && c.photos.value != [] ==> photos == c.photos.value
    ensures c.photos.None? || c.photos.value == [] ==> photos == [c.avatar]
  {
    if c.photos.Some? && |c.photos.value| > 0 then c.photos.value else [c.avatar]
  }

  /** `(prev + 1) % photos.length`: the following photo, wrapping from the
      last to the first. */
  function NextIndex(i: int, n: int): (r: int)
    requires 0 <= i < n
    ensures 0 <= r < n
    ensures r == if i == n - 1 then 0 else i + 1
  {
    (i + 1) % n
  }

  /** `(prev - 1 + photos.length) % photos.length`: the preceding photo,
      wrapping from the first to the last. */
  function PrevIndex(i: int, n: int): (r: int)
    requires 0 <= i < n
    ensures 0 <= r < n
    ensures r == if i == 0 then n - 1 else i - 1
  {
    (i - 1 + n) % n
  }

  /** The two arrows undo each other, and with a single photo neither moves. */
  lemma ArrowsAreInverse(i: int, n: int)
    requires 0 <= i < n
    ensures PrevIndex(NextIndex(i, n), n) == i
    ensures NextIndex(PrevIndex(i, n), n) == i
    ensures n == 1 ==> NextIndex(i, n) == 0 && PrevIndex(i, n) == 0
  {
  }

  /** The index after `k` presses of the "next" arrow. */
  function NextTimes(i: int, n: int, k: nat): (r: int)
    requires 0 <= i < n
    ensures 0 <= r < n
  {
    if k == 0 then i else NextIndex(NextTimes(i, n, k - 1), n)
  }

  /** Below the last photo, each press of "next" moves one place on. */
  lemma {:induction false} NextTimesClimbs(i: int, n: int, k: nat)
    requires 0 <= i && i + k < n
    ensures NextTimes(i, n, k) == i + k
  {
    if k > 0 {
      NextTimesClimbs(i, n, k - 1);
    }
  }

  /** Presses add up: `a` presses followed by `b` presses are `a + b` presses. */
  lemma {:induction false} NextTimesCompose(i: int, n: int, a: nat, b: nat)
    requires 0 <= i < n
    ensures NextTimes(i, n, a + b) == NextTimes(NextTimes(i, n, a), n, b)
  {
    if b > 0 {
      NextTimesCompose(i, n, a, b - 1);
    }
  }

  /** Pressing "next" once per photo comes back to the starting photo: the
      presses climb to the last photo, wrap to the first and climb back. */
  lemma FullCycle(i: int, n: int)
    requires 0 <= i < n
    ensures NextTimes(i, n, n) == i
  {
    NextTimesCompose(i, n, n - i, i);
    NextTimesClimbs(i, n, n - i - 1);
    assert NextTimes(i, n, n - i) == 0;
    NextTimesClimbs(0, n, i);
  }

  /** The card of one creator. */
  class ProfileCard {
    const photos: seq<string>
    var currentPhotoIndex: int

    /** The index always names one of the photos. */
    ghost predicate Valid()
      reads this
    {
      0 <= currentPhotoIndex < |photos|
    }

    constructor (c: Creator)
      ensures Valid()
      ensures photos == DisplayPhotos(c) && currentPhotoIndex == 0
    {
      photos := DisplayPhotos(c);
      currentPhotoIndex := 0;
    }

    /** `nextPhoto` */
    method NextPhoto()
      requires Valid()
      modifies this`currentPhotoIndex
      ensures Valid()
      ensures currentPhotoIndex == NextIndex(old(currentPhotoIndex), |photos|)
    {
      currentPhotoIndex := (currentPhotoIndex + 1) % |photos|;
    }

    /** `prevPhoto` */
    method PrevPhoto()
      requires Valid()
      modifies this`currentPhotoIndex
      ensures Valid()
      ensures currentPhotoIndex == PrevIndex(old(currentPhotoIndex), |photos|)
    {
      currentPhotoIndex := (currentPhotoIndex - 1 + |photos|) % |photos|;
    }

    /** The photo on display. */
    function ShownPhoto(): (p: string)
      requires Valid()
      reads this
      ensures p in photos
    {
      photos[currentPhotoIndex]
    }

    /** The arrows are rendered only when there is more than one photo. */
    predicate ShowArrows()
      reads this
    {
      |photos| > 1
    }

    /** One dot per photo; a dot is active when its position is the index,
        so exactly one dot is active. */
    function Dots(): (dots: seq<bool>)
      requires Valid()
      reads this
      ensures |dots| == |photos|
      ensures dots[currentPhotoIndex]
      ensures forall i :: 0 <= i < |dots| && dots[i] ==> i == currentPhotoIndex
    {
      var current := currentPhotoIndex;
      seq(|photos|, i requires 0 <= i < |photos| => i == current)
    }
  }
}
