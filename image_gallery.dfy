/** The image carousel (components/image-gallery.tsx): a cursor over the
    gallery's images with wrap-around stepping. */
module ImageGallery {

  const Placeholder := "/placeholder.svg"

  /** The index `goToNext` moves to from `i` over `n` images: one more,
      modulo `n`, which keeps a valid cursor valid. */
  function NextIndex(i: int, n: nat): (j: int)
    ensures 0 <= i < n ==> 0 <= j < n && j == (i + 1) % n
  {
    if i == n - 1 then 0 else i + 1
  }

  /** The index `goToPrevious` moves to from `i` over `n` images: one less,
      modulo `n`, which keeps a valid cursor valid. */
  function PreviousIndex(i: int, n: nat): (j: int)
    ensures 0 <= i < n ==> 0 <= j < n && j == (i - 1 + n) % n
  {
    if i == 0 then n - 1 else i - 1
  }

  /** Next then previous, or previous then next, restores the cursor. */
  lemma StepsAreInverse(i: int, n: nat)
    requires 0 <= i < n
    ensures PreviousIndex(NextIndex(i, n), n) == i
    ensures NextIndex(PreviousIndex(i, n), n) == i
  {
  }

  /** The cursor after `k` successive `goToNext` calls. */
  function NextTimes(i: int, n: nat, k: nat): int {
    if k == 0 then i else NextIndex(NextTimes(i, n, k - 1), n)
  }

  /** Without reaching the last image, `k` steps forward add `k`. */
  lemma {:induction false} NextTimesAdds(i: int, n: nat, k: nat)
    requires 0 <= i && i + k < n
    ensures NextTimes(i, n, k) == i + k
  {
    if k > 0 {
      NextTimesAdds(i, n, k - 1);
    }
  }

  /** `a + b` steps are `a` steps and then `b` more. */
  lemma {:induction false} NextTimesCompose(i: int, n: nat, a: nat, b: nat)
    ensures NextTimes(i, n, a + b) == NextTimes(NextTimes(i, n, a), n, b)
  {
    if b > 0 {
      NextTimesCompose(i, n, a, b - 1);
    }
  }

  /** `n` successive `goToNext` calls come back to the starting image. */
  lemma FullTurn(i: int, n: nat)
    requires 0 <= i < n
    ensures NextTimes(i, n, n) == i
  {
    var toLast := n - 1 - i;
    NextTimesAdds(i, n, toLast);
    assert NextTimes(i, n, toLast + 1) == 0;
    NextTimesCompose(i, n, toLast + 1, i);
    NextTimesAdds(0, n, i);
  }

  /** `images[i] || "/placeholder.svg"`: a missing or empty entry shows the placeholder. */
  function SourceAt(images: seq<string>, i: int): (src: string)
    ensures 0 <= i < |images| && images[i] != "" ==> src == images[i]
    ensures !(0 <= i < |images|) || images[i] == "" ==> src == Placeholder
  {
    if 0 <= i < |images| && images[i] != "" then images[i] else Placeholder
  }

  /** The gallery component: its `images` prop and its `currentIndex` state. */
  class Gallery {
    const images: seq<string>
    var currentIndex: int

    /** `useState(0)`: the gallery opens on the first image. */
    constructor (images: seq<string>)
      ensures this.images == images && currentIndex == 0
    {
      this.images := images;
      currentIndex := 0;
    }

    /** The cursor points at an image; the dots and thumbnails keep it so. */
    predicate InRange()
      reads this
    {
      0 <= currentIndex < |images|
    }

    method GoToPrevious()
      modifies this
      ensures currentIndex == PreviousIndex(old(currentIndex), |images|)
      ensures old(InRange()) ==> InRange()
    {
      var isFirstImage := currentIndex == 0;
      currentIndex := if isFirstImage then |images| - 1 else currentIndex - 1;
    }

    method GoToNext()
      modifies this
      ensures currentIndex == NextIndex(old(currentIndex), |images|)
      ensures old(InRange()) ==> InRange()
    {
      var isLastImage := currentIndex == |images| - 1;
      currentIndex := if isLastImage then 0 else currentIndex + 1;
    }

    /** Sets the cursor to `index` as given, without clamping. */
    method GoToImage(index: int)
      modifies this
      ensures currentIndex == index
      ensures 0 <= index < |images| ==> InRange()
    {
      currentIndex := index;
    }

    /** The `src` of the large image. */
    function DisplayedSource(): (src: string)
      reads this
      ensures InRange() && images[currentIndex] != "" ==> src == images[currentIndex]
      ensures !InRange() || images[currentIndex] == "" ==> src == Placeholder
    {
      SourceAt(images, currentIndex)
    }
  }
}
