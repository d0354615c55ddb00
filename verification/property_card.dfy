/**
 * A listing card with its image carousel. The carousel index is a plain number:
 * `next`/`previous` wrap around, but jumping to an index is not checked, so the
 * index can leave the range of the images, and the current image is then absent.
 */
module PropertyCard {
  import opened Wrappers
  import opened PropertyModel
  import opened Dom

  /** The carousel's images: the listing's gallery when it has one, otherwise its single image. */
  function ImagesOf(p: Property): (images: seq<string>)
    ensures |images| >= 1
    ensures p.imageUrls.Some? && |p.imageUrls.value| > 0 ==> images == p.imageUrls.value
    ensures !(p.imageUrls.Some? && |p.imageUrls.value| > 0) ==> images == [p.imageUrl]
  {
    if p.imageUrls.Some? && |p.imageUrls.value| > 0 then p.imageUrls.value else [p.imageUrl]
  }

  /** JavaScript indexing: `images[i]` is the element when `i` is a valid index, otherwise `undefined`. */
  function ImageAt(images: seq<string>, i: int): (r: Option<string>)
    ensures r.Some? <==> 0 <= i < |images|
    ensures r.Some? ==> r.value == images[i]
  {
    if 0 <= i < |images| then Some(images[i]) else None
  }

  /** The index after `nextImage` on `count` images: step forward, or go back to 0 from the last index or beyond. */
  function NextIndex(i: int, count: nat): int {
    if i < count - 1 then i + 1 else 0
  }

  /** The index after `previousImage` on `count` images: step back, or jump to the last index from 0 or below. */
  function PreviousIndex(i: int, count: nat): int {
    if i > 0 then i - 1 else count - 1
  }

  /** On a valid index, `nextImage` is a step forward modulo the number of images; the last wraps to 0. */
  lemma NextIsModular(i: int, count: nat)
    requires 0 <= i < count
    ensures NextIndex(i, count) == (i + 1) % count
    ensures 0 <= NextIndex(i, count) < count
  {
    if i + 1 == count {
      assert (i + 1) % count == 0;
    } else {
      assert (i + 1) % count == i + 1;
    }
  }

  /** On a valid index, `previousImage` is a step back modulo the number of images; 0 wraps to the last. */
  lemma PreviousIsModular(i: int, count: nat)
    requires 0 <= i < count
    ensures PreviousIndex(i, count) == (i - 1 + count) % count
    ensures 0 <= PreviousIndex(i, count) < count
  {
    if i == 0 {
      assert (i - 1 + count) % count == count - 1;
    } else {
      assert (i - 1 + count) % count == i - 1 by {
        assert i - 1 + count == (i - 1) + 1 * count;
      }
    }
  }

  /** On valid indexes, `nextImage` and `previousImage` undo each other. */
  lemma NextPreviousInverse(i: int, count: nat)
    requires 0 <= i < count
    ensures PreviousIndex(NextIndex(i, count), count) == i
    ensures NextIndex(PreviousIndex(i, count), count) == i
  {
  }

  /**
   * From an out-of-range index at or past the end, `nextImage` returns to the
   * first image, while `previousImage` only steps back by one and so stays out
   * of range unless the index was exactly the image count.
   */
  lemma PastTheEnd(k: int, count: nat)
    requires count >= 1 && k >= count
    ensures NextIndex(k, count) == 0
    ensures PreviousIndex(k, count) == k - 1
    ensures 0 <= PreviousIndex(k, count) < count <==> k == count
  {
  }

  /** `steps` presses of "previous" on `count` images. */
  function PreviousTimes(i: int, count: nat, steps: nat): int
    decreases steps
  {
    if steps == 0 then i else PreviousTimes(PreviousIndex(i, count), count, steps - 1)
  }

  /** From index `k` past the end, it takes exactly `k - count + 1` presses of "previous" to see an image again. */
  lemma {:induction false} PreviousWalksBackFromPastTheEnd(k: int, count: nat, steps: nat)
    requires count >= 1 && k >= count && steps <= k - count + 1
    ensures PreviousTimes(k, count, steps) == k - steps
    ensures 0 <= PreviousTimes(k, count, steps) < count <==> steps == k - count + 1
    decreases steps
  {
    if steps > 0 {
      if k - 1 >= count {
        PreviousWalksBackFromPastTheEnd(k - 1, count, steps - 1);
      } else {
        assert steps == 1;
      }
    }
  }

  class PropertyCardComponent {
    var property: Property
    var currentImageIndex: int
    /** The ids emitted on the card's `contactClick` output, oldest first. */
    var contactClicks: seq<string>

    constructor (property: Property)
      ensures this.property == property && currentImageIndex == 0 && contactClicks == []
    {
      this.property := property;
      currentImageIndex := 0;
      contactClicks := [];
    }

    function Images(): (images: seq<string>)
      reads this
    {
      ImagesOf(property)
    }

    /** Navigation controls and indicators are shown only with more than one image. */
    function HasMultipleImages(): (r: bool)
      reads this
      ensures r <==> |Images()| > 1
      ensures !r <==> Images() == [Images()[0]]
    {
      |Images()| > 1
    }

    /** The image on display, absent when the index is out of range. */
    function CurrentImage(): (r: Option<string>)
      reads this
      ensures r.Some? <==> IndexInRange()
      ensures r.Some? ==> r.value == Images()[currentImageIndex]
    {
      ImageAt(Images(), currentImageIndex)
    }

    predicate IndexInRange()
      reads this
    {
      0 <= currentImageIndex < |Images()|
    }

    /** A new listing bound to the card keeps the index, which may then be out of range. */
    method SetProperty(property: Property)
      modifies this`property
      ensures this.property == property
    {
      this.property := property;
    }

    method NextImage(event: UiEvent)
      modifies this`currentImageIndex, event
      ensures event.propagationStopped
      ensures currentImageIndex == NextIndex(old(currentImageIndex), |Images()|)
      ensures old(IndexInRange()) ==>
                IndexInRange() && currentImageIndex == (old(currentImageIndex) + 1) % |Images()|
    {
      event.StopPropagation();
      if currentImageIndex < |Images()| - 1 {
        currentImageIndex := currentImageIndex + 1;
      } else {
        currentImageIndex := 0;
      }
      if old(IndexInRange()) {
        NextIsModular(old(currentImageIndex), |Images()|);
      }
    }

    method PreviousImage(event: UiEvent)
      modifies this`currentImageIndex, event
      ensures event.propagationStopped
      ensures currentImageIndex == PreviousIndex(old(currentImageIndex), |Images()|)
      ensures old(IndexInRange()) ==>
                IndexInRange() && currentImageIndex == (old(currentImageIndex) - 1 + |Images()|) % |Images()|
    {
      event.StopPropagation();
      if currentImageIndex > 0 {
        currentImageIndex := currentImageIndex - 1;
      } else {
        currentImageIndex := |Images()| - 1;
      }
      if old(IndexInRange()) {
        PreviousIsModular(old(currentImageIndex), |Images()|);
      }
    }

    /** Jump to an indicator's index; the index is taken as given, without any bounds check. */
    method GoToImage(index: int, event: UiEvent)
      modifies this`currentImageIndex, event
      ensures event.propagationStopped
      ensures currentImageIndex == index
      ensures CurrentImage() == if 0 <= index < |Images()| then Some(Images()[index]) else None
    {
      event.StopPropagation();
      currentImageIndex := index;
    }

    /** Emit the listing's id on `contactClick`; the carousel is untouched. */
    method OnContactClick()
      modifies this`contactClicks
      ensures contactClicks == old(contactClicks) + [property.id]
    {
      contactClicks := contactClicks + [property.id];
    }
  }
}
