/** The photo gallery: a "view gallery" button opens a modal over a fixed
    list of images; arrows and the keyboard move through them circularly;
    while the modal is open the page behind it cannot scroll. */
module Gallery {

  import opened Arith

  /** The number of images the page passes to the gallery. */
  const ImageCount: nat := 4

  /** `(i + 1) % images.length`. */
  function Next(i: int, n: int): (j: int)
    requires n > 0 && 0 <= i < n
    ensures 0 <= j < n
    ensures j == if i == n - 1 then 0 else i + 1
  {
    (i + 1) % n
  }

  /** `(i - 1 + images.length) % images.length`; the added length keeps the
      dividend non-negative, so the source's `%` and Dafny's agree. */
  function Prev(i: int, n: int): (j: int)
    requires n > 0 && 0 <= i < n
    ensures 0 <= j < n
    ensures j == if i == 0 then n - 1 else i - 1
  {
    (i - 1 + n) % n
  }

  /** Next and Prev undo each other. */
  lemma PrevNextInverse(i: int, n: int)
    requires n > 0 && 0 <= i < n
    ensures Prev(Next(i, n), n) == i
    ensures Next(Prev(i, n), n) == i
  {
  }

  /** The index after `k` presses of Next. */
  function Advance(i: int, n: int, k: nat): (j: int)
    requires n > 0 && 0 <= i < n
    ensures 0 <= j < n
  {
    if k == 0 then i else Next(Advance(i, n, k - 1), n)
  }

  /** `k` presses of Next move `k` places round the circle. */
  lemma {:induction false} AdvanceIsModular(i: int, n: int, k: nat)
    requires n > 0 && 0 <= i < n
    ensures Advance(i, n, k) == (i + k) % n
  {
    if k == 0 {
      DivModUnique(i, n, 0, i);
    } else {
      AdvanceIsModular(i, n, k - 1);
      NextOfMod(i + k - 1, n);
    }
  }

  /** One step of Next on a residue is the residue of the successor. */
  lemma NextOfMod(a: int, n: int)
    requires n > 0
    ensures Next(a % n, n) == (a + 1) % n
  {
    var q, j := a / n, a % n;
    if j == n - 1 {
      assert a + 1 == (q + 1) * n + 0;
      DivModUnique(a + 1, n, q + 1, 0);
    } else {
      assert a + 1 == q * n + (j + 1);
      DivModUnique(a + 1, n, q, j + 1);
    }
  }

  /** Going all the way round returns to the start. */
  lemma FullCircle(i: int, n: int)
    requires n > 0 && 0 <= i < n
    ensures Advance(i, n, n) == i
  {
    AdvanceIsModular(i, n, n);
    DivModUnique(i + n, n, 1, i);
  }

  /** With the page's four images, three presses of Next from the first
      show the second, third and fourth, a fourth press wraps to the first,
      and Prev from the first shows the last. */
  lemma FourImagesExample()
    ensures Advance(0, ImageCount, 1) == 1 && Advance(0, ImageCount, 2) == 2
    ensures Advance(0, ImageCount, 3) == 3 && Advance(0, ImageCount, 4) == 0
    ensures Prev(0, ImageCount) == 3
  {
  }

  /** What a key press does while the modal listens. */
  datatype Action = Close | Back | Forward | Ignore

  /** The three independent `if`s of `onKey`: a key name can match at most
      one of them. */
  function KeyAction(key: string): (a: Action)
    ensures a == Close <==> key == "Escape"
    ensures a == Back <==> key == "ArrowLeft"
    ensures a == Forward <==> key == "ArrowRight"
  {
    if key == "Escape" then Close
    else if key == "ArrowLeft" then Back
    else if key == "ArrowRight" then Forward
    else Ignore
  }

  /** What the user does to the gallery. */
  datatype Event = ViewGallery | Dismiss | PrevButton | NextButton | Key(key: string)

  /** The gallery and the page's scroll lock: whether the modal is open, the
      image shown, the overflow value saved on open, and the page body's
      current `overflow` style. */
  datatype Viewer = Viewer(open: bool, index: int, saved: string, overflow: string)

  predicate Valid(v: Viewer, n: int)
  {
    n > 0 && (v.open ==> 0 <= v.index < n)
  }

  /** One event. Opening starts at the first image, saves the page's
      overflow and locks it; closing restores the saved value. The modal's
      buttons and key listener exist only while it is open, and the view
      button sets an already-true `open` again, which does not remount the
      modal; so those events change nothing in the other state. */
  function Step(v: Viewer, n: int, e: Event): (v': Viewer)
    requires Valid(v, n)
    ensures Valid(v', n)
  {
    match e
    case ViewGallery =>
      if v.open then v else Viewer(true, 0, v.overflow, "hidden")
    case Dismiss =>
      if v.open then Viewer(false, v.index, v.saved, v.saved) else v
    case PrevButton =>
      if v.open then v.(index := Prev(v.index, n)) else v
    case NextButton =>
      if v.open then v.(index := Next(v.index, n)) else v
    case Key(key) =>
      if !v.open then v
      else match KeyAction(key)
        case Close => Viewer(false, v.index, v.saved, v.saved)
        case Back => v.(index := Prev(v.index, n))
        case Forward => v.(index := Next(v.index, n))
        case Ignore => v
  }

  function Replay(v: Viewer, n: int, events: seq<Event>): (v': Viewer)
    requires Valid(v, n)
    ensures Valid(v', n)
    decreases |events|
  {
    if events == [] then v else Replay(Step(v, n, events[0]), n, events[1..])
  }

  /** The scroll lock's invariant with respect to the page's own overflow
      value `page`: closed, the page has it; open, it is locked and `page`
      is what the modal saved. */
  predicate LockHeld(v: Viewer, page: string)
  {
    if v.open then v.overflow == "hidden" && v.saved == page else v.overflow == page
  }

  /** Whatever the user does, the scroll lock keeps its invariant; so after
      any sequence of events that leaves the modal closed, the page's
      overflow is exactly what it was before the first open, however often
      the modal was opened, navigated and closed. */
  lemma {:induction false} ScrollLockRestored(v: Viewer, n: int, events: seq<Event>, page: string)
    requires Valid(v, n) && LockHeld(v, page)
    ensures LockHeld(Replay(v, n, events), page)
    ensures !Replay(v, n, events).open ==> Replay(v, n, events).overflow == page
    decreases |events|
  {
    if events != [] {
      ScrollLockRestored(Step(v, n, events[0]), n, events[1..], page);
    }
  }

  /** Every open shows the first image. */
  lemma OpenStartsAtFirst(v: Viewer, n: int)
    requires Valid(v, n) && !v.open
    ensures Step(v, n, ViewGallery).open && Step(v, n, ViewGallery).index == 0
  {
  }

  /** The page body whose `style.overflow` the modal locks. */
  class PageBody {
    var overflow: string

    constructor (overflow: string)
      ensures this.overflow == overflow
    {
      this.overflow := overflow;
    }
  }

  /** `GalleryTrigger` with its `GalleryModal`: the `open` flag, the modal's
      `index`, the overflow value its effect saved, and the page body it
      locks. */
  class GalleryViewer {
    const images: nat
    const body: PageBody
    var open: bool
    var index: int
    var saved: string

    function State(): Viewer
      reads this, body
    {
      Viewer(open, index, saved, body.overflow)
    }

    constructor (images: nat, body: PageBody)
      requires images > 0
      ensures this.images == images && this.body == body
      ensures !open && Valid(State(), images)
    {
      this.images := images;
      this.body := body;
      open := false;
      index := 0;
      saved := "";
    }

    /** The "view gallery" button. */
    method ViewGallery()
      requires Valid(State(), images)
      modifies this, body
      ensures State() == Step(old(State()), images, Event.ViewGallery)
    {
      if open {
        return;
      }
      index := 0;
      open := true;
      saved := body.overflow;
      body.overflow := "hidden";
    }

    /** `onClose`: the backdrop, the close button, or Escape. Unmounting
        the modal runs the effect's cleanup, which restores the overflow. */
    method Dismiss()
      requires Valid(State(), images)
      modifies this, body
      ensures State() == Step(old(State()), images, Event.Dismiss)
    {
      if !open {
        return;
      }
      open := false;
      body.overflow := saved;
    }

    method PrevImage()
      requires Valid(State(), images)
      modifies this
      ensures State() == Step(old(State()), images, PrevButton)
    {
      if open {
        index := (index - 1 + images) % images;
      }
    }

    method NextImage()
      requires Valid(State(), images)
      modifies this
      ensures State() == Step(old(State()), images, NextButton)
    {
      if open {
        index := (index + 1) % images;
      }
    }

    /** The window `keydown` listener, registered only while the modal is
        mounted. */
    method OnKey(key: string)
      requires Valid(State(), images)
      modifies this, body
      ensures State() == Step(old(State()), images, Key(key))
    {
      if !open {
        return;
      }
      if key == "Escape" {
        Dismiss();
      }
      if key == "ArrowLeft" {
        PrevImage();
      }
      if key == "ArrowRight" {
        NextImage();
      }
    }
  }
}
