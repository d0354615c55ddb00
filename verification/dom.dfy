/**
 * The slice of the browser the components touch: `window.scrollY`,
 * `document.getElementById` with an element's `offsetTop`/`offsetHeight`,
 * `window.scrollTo` (recorded as a log of commands) and
 * `document.body.style.overflow`, plus the click event whose propagation the
 * carousel stops.
 */
module Dom {
  import opened Wrappers

  /** A rendered element's measurements, in whole pixels. */
  datatype Element = Element(offsetTop: int, offsetHeight: int)

  datatype ScrollBehavior = Smooth

  /** One `window.scrollTo({ top, behavior })` call. */
  datatype ScrollCommand = ScrollTo(top: int, behavior: ScrollBehavior)

  /** Height of the sticky header, subtracted from every scroll target. */
  const HeaderOffset: int := 80

  /**
   * What a "scroll to section with header offset" handler issues for `id`:
   * nothing when no element has that id, otherwise one smooth scroll that puts
   * the element's top edge just below the header. The target is not clamped.
   */
  function SectionScroll(elements: map<string, Element>, id: string): (cmds: seq<ScrollCommand>)
  {
    if id in elements then [ScrollTo(elements[id].offsetTop - HeaderOffset, Smooth)] else []
  }

  /** A handler issues at most one command; exactly one, to `offsetTop - 80`, when the element exists. */
  lemma SectionScrollShape(elements: map<string, Element>, id: string)
    ensures |SectionScroll(elements, id)| <= 1
    ensures SectionScroll(elements, id) == [] <==> id !in elements
    ensures id in elements ==>
      SectionScroll(elements, id)[0].top + HeaderOffset == elements[id].offsetTop &&
      SectionScroll(elements, id)[0].behavior == Smooth
  {
  }

  /** An element closer than the header height to the top of the page yields a negative target. */
  lemma SectionScrollNotClamped(elements: map<string, Element>, id: string)
    requires id in elements && elements[id].offsetTop < HeaderOffset
    ensures SectionScroll(elements, id)[0].top < 0
  {
  }

  /** `window` and `document` as one object that all components share. */
  class Page {
    var scrollY: int
    var elements: map<string, Element>
    var scrolls: seq<ScrollCommand>
    var bodyOverflow: string

    constructor (scrollY: int, elements: map<string, Element>)
      ensures this.scrollY == scrollY && this.elements == elements
      ensures scrolls == [] && bodyOverflow == ""
    {
      this.scrollY := scrollY;
      this.elements := elements;
      scrolls := [];
      bodyOverflow := "";
    }

    /** `document.getElementById(id)`: the element with that id, or nothing (never an error). */
    function GetElementById(id: string): (r: Option<Element>)
      reads this
      ensures r.Some? <==> id in elements
      ensures r.Some? ==> r.value == elements[id]
    {
      if id in elements then Some(elements[id]) else None
    }

    /** `window.scrollTo({ top, behavior: 'smooth' })`: fire-and-forget, so `scrollY` is unchanged. */
    method ScrollTo(top: int)
      modifies this`scrolls
      ensures scrolls == old(scrolls) + [ScrollCommand.ScrollTo(top, Smooth)]
    {
      scrolls := scrolls + [ScrollCommand.ScrollTo(top, Smooth)];
    }

    /** Issues what `SectionScroll` prescribes for `id`: the body every scroll handler shares. */
    method ScrollToElement(id: string)
      modifies this`scrolls
      ensures scrolls == old(scrolls) + SectionScroll(elements, id)
    {
      var element := GetElementById(id);
      if element.Some? {
        var offsetPosition := element.value.offsetTop - HeaderOffset;
        ScrollTo(offsetPosition);
      }
    }
  }

  /** A DOM input event; only its propagation flag matters here. */
  class UiEvent {
    var propagationStopped: bool

    constructor ()
      ensures !propagationStopped
    {
      propagationStopped := false;
    }

    method StopPropagation()
      modifies this
      ensures propagationStopped
    {
      propagationStopped := true;
    }
  }
}
