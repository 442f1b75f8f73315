/** The project viewer of the full site script: a modal that shows one
    project, steps through its pictures without wrapping, zooms between 1x
    and 3x, shrinks the picture area as the description is scrolled, and
    reacts to horizontal swipes. The page's markup decisions (which layout,
    which buttons are disabled, the counter, the active thumbnail) are pure
    functions of the project and the position. */
module ArchitecturalGallery {
  import opened Strings

  const MinZoom: real := 1.0
  const MaxZoom: real := 3.0
  const OriginalImageHeight: real := 70.0
  const MinImageHeight: real := 35.0
  const MinInfoHeight: real := 30.0
  const SwipeThreshold: real := 50.0

  /** An entry of the projects table: a gallery of pictures, or a single picture, or neither. */
  datatype Project = Project(title: string, images: Option<seq<string>>, image: Option<string>)

  /** `project.images && project.images.length > 1` */
  predicate HasGallery(p: Project)
  {
    p.images.Some? && |p.images.value| > 1
  }

  /** The number of positions the viewer can take in a project. */
  function PositionCount(p: Project): (n: nat)
    ensures n >= 1
    ensures HasGallery(p) ==> n == |p.images.value|
  {
    if HasGallery(p) then |p.images.value| else 1
  }

  // ---------------------------------------------------------------------
  // Rendering decisions

  datatype NavBar = NavBar(prevDisabled: bool, nextDisabled: bool, counter: nat, total: nat)

  datatype Layout =
    | GalleryView(src: string, nav: NavBar, thumbnails: seq<bool>)
    | SingleView(src: string)
    | Placeholder

  /** `createGalleryInterface` navigation: prev is disabled on the first picture,
      next on the last, and the counter reads position + 1 of the total. */
  function NavBarFor(index: nat, total: nat): (b: NavBar)
    ensures b.prevDisabled <==> index == 0
    ensures b.nextDisabled <==> index == total - 1
    ensures b.counter == index + 1 && b.total == total
  {
    NavBar(index == 0, index == total - 1, index + 1, total)
  }

  /** `createThumbnailStrip`: nothing for a single picture, otherwise one thumbnail per
      picture, marked active only at the current position. */
  function Thumbnails(images: seq<string>, index: nat): (t: seq<bool>)
    ensures |images| <= 1 ==> t == []
    ensures |images| > 1 ==> |t| == |images| && forall i :: 0 <= i < |t| ==> (t[i] <==> i == index)
  {
    if |images| <= 1 then [] else seq(|images|, i => i == index)
  }

  /** Exactly one thumbnail is active whenever the strip is shown and the position is in range. */
  lemma ExactlyOneActiveThumbnail(images: seq<string>, index: nat)
    requires |images| > 1 && index < |images|
    ensures var t := Thumbnails(images, index);
      t[index] && forall i :: 0 <= i < |t| && t[i] ==> i == index
  {
  }

  /** `updateImageDisplay` */
  function LayoutFor(p: Project, index: nat): (l: Layout)
    requires index < PositionCount(p)
    ensures l.GalleryView? <==> HasGallery(p)
    ensures l.SingleView? <==> !HasGallery(p) && p.image.Some? && p.image.value != []
    ensures l.Placeholder? <==> !HasGallery(p) && (p.image.None? || p.image.value == [])
  {
    if HasGallery(p) then
      GalleryView(p.images.value[index], NavBarFor(index, |p.images.value|), Thumbnails(p.images.value, index))
    else if p.image.Some? && p.image.value != [] then SingleView(p.image.value)
    else Placeholder
  }

  /** In the gallery layout the shown picture is the one at the position, the nav bar
      disables at the ends only, and the thumbnail of that picture is the active one. */
  lemma GalleryLayoutConsistent(p: Project, index: nat)
    requires HasGallery(p) && index < |p.images.value|
    ensures var l := LayoutFor(p, index);
      l.src == p.images.value[index] &&
      (l.nav.prevDisabled || l.nav.nextDisabled <==> index == 0 || index == |p.images.value| - 1) &&
      l.thumbnails[index] &&
      1 <= l.nav.counter <= l.nav.total
  {
  }

  // ---------------------------------------------------------------------
  // Zoom and picture height

  /** `Math.max(1, Math.min(3, zoom + delta))` */
  function ClampZoom(z: real): (r: real)
    ensures MinZoom <= r <= MaxZoom
    ensures MinZoom <= z <= MaxZoom ==> r == z
    ensures z < MinZoom ==> r == MinZoom
    ensures z > MaxZoom ==> r == MaxZoom
  {
    if z < MinZoom then MinZoom else if z > MaxZoom then MaxZoom else z
  }

  /** `Math.max(35, Math.min(70, h))` */
  function ClampHeight(h: real): (r: real)
    ensures MinImageHeight <= r <= OriginalImageHeight
    ensures MinImageHeight <= h <= OriginalImageHeight ==> r == h
  {
    if h < MinImageHeight then MinImageHeight else if h > OriginalImageHeight then OriginalImageHeight else h
  }

  /** `Math.max(30, 100 - clamped)` */
  function InfoHeight(clamped: real): real
  {
    if 100.0 - clamped < MinInfoHeight then MinInfoHeight else 100.0 - clamped
  }

  /** For a clamped picture height the floor of 30 never applies: the two areas share
      the whole viewport, the description getting between 30 and 65. */
  lemma InfoHeightComplements(h: real)
    ensures InfoHeight(ClampHeight(h)) + ClampHeight(h) == 100.0
    ensures 30.0 <= InfoHeight(ClampHeight(h)) <= 65.0
  {
  }

  // ---------------------------------------------------------------------
  // Swipes

  datatype SwipeAction = NoSwipe | SwipeNext | SwipePrevious

  function Abs(x: real): real { if x < 0.0 then -x else x }

  /** A swipe counts when mostly horizontal and longer than 50 pixels; a leftward
      finger movement (positive start minus end) goes to the next picture. */
  function SwipeFor(deltaX: real, deltaY: real): (a: SwipeAction)
    ensures a != NoSwipe <==> Abs(deltaX) > Abs(deltaY) && Abs(deltaX) > SwipeThreshold
    ensures a == SwipeNext ==> deltaX > SwipeThreshold
    ensures a == SwipePrevious ==> deltaX < -SwipeThreshold
  {
    if Abs(deltaX) > Abs(deltaY) && Abs(deltaX) > SwipeThreshold then
      (if deltaX > 0.0 then SwipeNext else SwipePrevious)
    else NoSwipe
  }

  /** The same gesture made in the opposite direction has the opposite effect. */
  lemma SwipeReversed(deltaX: real, deltaY: real)
    ensures SwipeFor(-deltaX, -deltaY) == match SwipeFor(deltaX, deltaY)
      case NoSwipe => NoSwipe
      case SwipeNext => SwipePrevious
      case SwipePrevious => SwipeNext
  {
  }

  /** The touch listeners' shared start point. A start coordinate of 0 counts as no
      start at all, and then the end of the touch is ignored without a reset. */
  class SwipeTracker {
    var touchStartX: real
    var touchStartY: real

    constructor ()
      ensures touchStartX == 0.0 && touchStartY == 0.0
    {
      touchStartX := 0.0;
      touchStartY := 0.0;
    }

    method TouchStart(x: real, y: real)
      modifies this
      ensures touchStartX == x && touchStartY == y
    {
      touchStartX := x;
      touchStartY := y;
    }

    method TouchEnd(x: real, y: real) returns (action: SwipeAction)
      modifies this
      ensures old(touchStartX) == 0.0 || old(touchStartY) == 0.0 ==>
        action == NoSwipe && touchStartX == old(touchStartX) && touchStartY == old(touchStartY)
      ensures old(touchStartX) != 0.0 && old(touchStartY) != 0.0 ==>
        action == SwipeFor(old(touchStartX) - x, old(touchStartY) - y) &&
        touchStartX == 0.0 && touchStartY == 0.0
    {
      if touchStartX == 0.0 || touchStartY == 0.0 {
        return NoSwipe;
      }
      action := SwipeFor(touchStartX - x, touchStartY - y);
      touchStartX := 0.0;
      touchStartY := 0.0;
    }
  }

  // ---------------------------------------------------------------------
  // The viewer's state and its transitions

  /** Everything the viewer changes: the open project, the position, the zoom and the pan,
      the zoom-mode and scroll-adjustment marks, whether the modal and a picture are on
      screen, and the heights (in vh) of the picture and description areas. */
  datatype Viewer = Viewer(
    currentProject: Option<Project>, currentImageIndex: nat,
    zoomLevel: real, translateX: real, translateY: real,
    isScrollAdjustmentActive: bool, zoomMode: bool,
    modalDisplayed: bool, imagePresent: bool,
    imageHeight: real, infoHeight: real)

  /** The position stays among the pictures and the zoom within its bounds. */
  predicate Consistent(v: Viewer)
  {
    MinZoom <= v.zoomLevel <= MaxZoom &&
    (v.currentProject.Some? ==> v.currentImageIndex < PositionCount(v.currentProject.value)) &&
    (v.currentProject.None? ==> v.currentImageIndex == 0)
  }

  /** `resetZoom`: back to 1x and centred; the zoom-mode marks are not touched. */
  function Reset(v: Viewer): (w: Viewer)
    ensures Consistent(v) ==> Consistent(w)
    ensures w.zoomLevel == 1.0 && w.translateX == 0.0 && w.translateY == 0.0
    ensures w.zoomMode == v.zoomMode && w.isScrollAdjustmentActive == v.isScrollAdjustmentActive
  {
    v.(zoomLevel := 1.0, translateX := 0.0, translateY := 0.0)
  }

  /** `adjustZoom(delta)`: with a picture on screen, zoom mode ends up on exactly when the
      new level is not 1x, and the scroll adjustment exactly when it is. */
  function ZoomAdjusted(v: Viewer, delta: real): (w: Viewer)
    ensures Consistent(v) ==> Consistent(w)
    ensures w.zoomLevel == ClampZoom(v.zoomLevel + delta)
    ensures w.imagePresent ==> (w.zoomMode <==> w.zoomLevel != 1.0)
    ensures w.imagePresent ==> (w.isScrollAdjustmentActive <==> w.zoomLevel == 1.0)
  {
    var z := ClampZoom(v.zoomLevel + delta);
    if !v.imagePresent then v.(zoomLevel := z)
    else if z == 1.0 then
      v.(zoomLevel := z, translateX := 0.0, translateY := 0.0, zoomMode := false, isScrollAdjustmentActive := true)
    else v.(zoomLevel := z, zoomMode := true, isScrollAdjustmentActive := false)
  }

  /** `toggleZoom`: the level alternates between 1x and 2x. */
  function ZoomToggled(v: Viewer): (w: Viewer)
    ensures Consistent(v) ==> Consistent(w)
    ensures Consistent(v) ==> w.zoomLevel == (if v.zoomLevel > 1.0 then 1.0 else 2.0)
  {
    if v.zoomLevel > 1.0 then Reset(v) else ZoomAdjusted(v, 1.0)
  }

  /** The guard of `previousImage`: a gallery and a picture before this one. */
  predicate CanGoBack(v: Viewer)
  {
    v.currentProject.Some? && v.currentProject.value.images.Some? && v.currentImageIndex > 0
  }

  /** The guard of `nextImage`: a gallery and a picture after this one. */
  predicate CanGoForward(v: Viewer)
  {
    v.currentProject.Some? && v.currentProject.value.images.Some? &&
    v.currentImageIndex < |v.currentProject.value.images.value| - 1
  }

  /** `previousImage`: one step back, recentred at 1x; nothing at the first picture. */
  function Previous(v: Viewer): (w: Viewer)
    ensures Consistent(v) ==> Consistent(w)
    ensures w.currentProject == v.currentProject
    ensures w.currentImageIndex == if CanGoBack(v) then v.currentImageIndex - 1 else v.currentImageIndex
  {
    if CanGoBack(v) then Reset(v.(currentImageIndex := v.currentImageIndex - 1)) else v
  }

  /** `nextImage`: one step forward, recentred at 1x; nothing at the last picture. */
  function Next(v: Viewer): (w: Viewer)
    ensures Consistent(v) ==> Consistent(w)
    ensures w.currentProject == v.currentProject
    ensures w.currentImageIndex == if CanGoForward(v) then v.currentImageIndex + 1 else v.currentImageIndex
  {
    if CanGoForward(v) then Reset(v.(currentImageIndex := v.currentImageIndex + 1)) else v
  }

  /** A thumbnail click moves to its picture and nothing else: the zoom is kept. */
  function ThumbnailSelected(v: Viewer, index: nat): (w: Viewer)
    ensures (Consistent(v) && v.currentProject.Some? && HasGallery(v.currentProject.value) &&
             index < |v.currentProject.value.images.value|) ==> Consistent(w)
    ensures w.currentImageIndex == index
  {
    v.(currentImageIndex := index)
  }

  /** `adjustImageHeight`: with both areas on the page, the picture gets the clamped height
      and the description the rest of the viewport. */
  function HeightAdjusted(v: Viewer, newHeight: real, sectionsPresent: bool): (w: Viewer)
    ensures Consistent(v) ==> Consistent(w)
    ensures sectionsPresent ==> MinImageHeight <= w.imageHeight <= OriginalImageHeight
    ensures sectionsPresent ==> w.imageHeight + w.infoHeight == 100.0
  {
    if sectionsPresent then
      v.(imageHeight := ClampHeight(newHeight), infoHeight := InfoHeight(ClampHeight(newHeight)))
    else v
  }

  /** `openProject(id)`: the project and the first position are set and the zoom reset
      whether or not the id is known; only a known one shows the modal, decides whether
      a picture is shown and arms the scroll adjustment. */
  function Opened(v: Viewer, projects: map<string, Project>, id: string, sectionsPresent: bool): (w: Viewer)
    ensures Consistent(w)
    ensures w.currentProject == (if id in projects then Some(projects[id]) else None)
    ensures w.modalDisplayed <==> id in projects || v.modalDisplayed
  {
    var r := Reset(v.(currentProject := if id in projects then Some(projects[id]) else None, currentImageIndex := 0));
    if id !in projects then r
    else r.(modalDisplayed := true, imagePresent := !LayoutFor(projects[id], 0).Placeholder?,
            isScrollAdjustmentActive := sectionsPresent || v.isScrollAdjustmentActive)
  }

  /** `closeModal`: scroll adjustment off, heights restored, modal hidden, zoom reset. */
  function Closed(v: Viewer, sectionsPresent: bool): (w: Viewer)
    ensures Consistent(v) ==> Consistent(w)
    ensures !w.modalDisplayed && !w.isScrollAdjustmentActive && w.zoomLevel == 1.0
    ensures w.currentProject == v.currentProject && w.currentImageIndex == v.currentImageIndex
  {
    var restored := if sectionsPresent then v.(imageHeight := OriginalImageHeight, infoHeight := MinInfoHeight) else v;
    Reset(restored.(isScrollAdjustmentActive := false, modalDisplayed := false))
  }

  /** The keyboard handler: Escape closes, the arrows step, the space bar toggles the zoom;
      other keys, and every key while the modal is hidden, change nothing. */
  function AfterKey(v: Viewer, key: string, sectionsPresent: bool): (w: Viewer)
    ensures Consistent(v) ==> Consistent(w)
    ensures w.currentProject == v.currentProject
  {
    if !v.modalDisplayed then v
    else if key == "Escape" then Closed(v, sectionsPresent)
    else if key == "ArrowLeft" then Previous(v)
    else if key == "ArrowRight" then Next(v)
    else if key == " " then ZoomToggled(v)
    else v
  }

  /** A finished touch: a counted swipe steps through the pictures. */
  function AfterSwipe(v: Viewer, action: SwipeAction): (w: Viewer)
    ensures Consistent(v) ==> Consistent(w)
    ensures w.currentProject == v.currentProject
  {
    match action
    case NoSwipe => v
    case SwipeNext => Next(v)
    case SwipePrevious => Previous(v)
  }

  /** Going forward and then back returns to the same picture, recentred at 1x. */
  lemma NextThenPrevious(v: Viewer)
    requires Consistent(v) && CanGoForward(v)
    ensures Previous(Next(v)) == Reset(v)
  {
  }

  /** Going back and then forward returns to the same picture, recentred at 1x. */
  lemma PreviousThenNext(v: Viewer)
    requires Consistent(v) && CanGoBack(v)
    ensures Next(Previous(v)) == Reset(v)
  {
  }

  /** The viewer does not wrap: at the last picture of a gallery a step forward does
      nothing, and at the first one a step back does nothing. */
  lemma NoWrapAround(v: Viewer)
    requires Consistent(v) && v.currentProject.Some? && HasGallery(v.currentProject.value)
    ensures v.currentImageIndex == |v.currentProject.value.images.value| - 1 ==> Next(v) == v
    ensures v.currentImageIndex == 0 ==> Previous(v) == v
  {
  }

  /** The arrow keys on the shown modal and the swipes have the same effect. */
  lemma ArrowsMatchSwipes(v: Viewer, sectionsPresent: bool)
    requires v.modalDisplayed
    ensures AfterKey(v, "ArrowRight", sectionsPresent) == AfterSwipe(v, SwipeNext)
    ensures AfterKey(v, "ArrowLeft", sectionsPresent) == AfterSwipe(v, SwipePrevious)
  {
  }

  /** While the modal is hidden no key changes anything. */
  lemma KeysIgnoredWhileHidden(v: Viewer, key: string, sectionsPresent: bool)
    requires !v.modalDisplayed
    ensures AfterKey(v, key, sectionsPresent) == v
  {
  }

  /** Escape on the shown modal ends with the modal hidden, the zoom reset and the
      scroll adjustment off, and keeps the project and the position. */
  lemma EscapeCloses(v: Viewer, sectionsPresent: bool)
    requires v.modalDisplayed
    ensures AfterKey(v, "Escape", sectionsPresent) == Closed(v, sectionsPresent)
    ensures !AfterKey(v, "Escape", sectionsPresent).modalDisplayed
  {
  }

  /** Leaving zoom by a reset keeps the zoom-mode marks: from 1x with a picture shown, two
      toggles end at 1x with the modal still in zoom mode and the scroll adjustment off. */
  lemma ResetKeepsZoomMode(v: Viewer)
    requires Consistent(v) && v.imagePresent && v.zoomLevel == 1.0
    ensures ZoomToggled(ZoomToggled(v)).zoomLevel == 1.0
    ensures ZoomToggled(ZoomToggled(v)).zoomMode && !ZoomToggled(ZoomToggled(v)).isScrollAdjustmentActive
  {
  }

  // ---------------------------------------------------------------------
  // The viewer object

  class Gallery {
    const projects: map<string, Project>
    /** Whether the page holds the `.modal-image-section` and `.modal-info-section` blocks.
        The source looks each one up on its own; a page with only one of them is not
        modelled. */
    const sectionsPresent: bool
    var currentProject: Option<Project>
    var currentImageIndex: nat
    var zoomLevel: real
    var translateX: real
    var translateY: real
    var isScrollAdjustmentActive: bool
    var zoomMode: bool
    var modalDisplayed: bool
    /** Whether a `.main-gallery-image` is on screen. */
    var imagePresent: bool
    var imageHeight: real
    var infoHeight: real

    /** The fields as one value. */
    function State(): Viewer
      reads this
    {
      Viewer(currentProject, currentImageIndex, zoomLevel, translateX, translateY,
             isScrollAdjustmentActive, zoomMode, modalDisplayed, imagePresent, imageHeight, infoHeight)
    }

    ghost predicate Valid()
      reads this
    {
      Consistent(State())
    }

    constructor (projects: map<string, Project>, sectionsPresent: bool)
      ensures Valid()
      ensures this.projects == projects && this.sectionsPresent == sectionsPresent
      ensures State() == Viewer(None, 0, 1.0, 0.0, 0.0, false, false, false, false, OriginalImageHeight, MinInfoHeight)
    {
      this.projects := projects;
      this.sectionsPresent := sectionsPresent;
      currentProject := None;
      currentImageIndex := 0;
      zoomLevel := 1.0;
      translateX := 0.0;
      translateY := 0.0;
      isScrollAdjustmentActive := false;
      zoomMode := false;
      modalDisplayed := false;
      imagePresent := false;
      imageHeight := OriginalImageHeight;
      infoHeight := MinInfoHeight;
    }

    /** What the modal currently renders. */
    function CurrentLayout(): Layout
      reads this
      requires Valid() && currentProject.Some?
    {
      LayoutFor(currentProject.value, currentImageIndex)
    }

    /** `resetZoom`: back to 1x and centred. The zoom-mode marks are left as they were. */
    method ResetZoom()
      modifies this
      ensures State() == Reset(old(State()))
      ensures zoomLevel == 1.0 && translateX == 0.0 && translateY == 0.0
      ensures zoomMode == old(zoomMode) && isScrollAdjustmentActive == old(isScrollAdjustmentActive)
      ensures currentProject == old(currentProject) && currentImageIndex == old(currentImageIndex)
      ensures modalDisplayed == old(modalDisplayed) && imagePresent == old(imagePresent)
      ensures imageHeight == old(imageHeight) && infoHeight == old(infoHeight)
    {
      zoomLevel := 1.0;
      translateX := 0.0;
      translateY := 0.0;
    }

    /** `adjustZoom(delta)`: with a picture on screen, landing on 1x recentres it and leaves
        zoom mode (re-enabling the scroll adjustment); any other level enters zoom mode. */
    method AdjustZoom(delta: real)
      modifies this
      requires Valid()
      ensures Valid()
      ensures State() == ZoomAdjusted(old(State()), delta)
      ensures zoomLevel == ClampZoom(old(zoomLevel) + delta)
      ensures imagePresent && zoomLevel == 1.0 ==>
        translateX == 0.0 && translateY == 0.0 && !zoomMode && isScrollAdjustmentActive
      ensures imagePresent && zoomLevel != 1.0 ==>
        translateX == old(translateX) && translateY == old(translateY) && zoomMode && !isScrollAdjustmentActive
      ensures !imagePresent ==>
        translateX == old(translateX) && translateY == old(translateY) &&
        zoomMode == old(zoomMode) && isScrollAdjustmentActive == old(isScrollAdjustmentActive)
      ensures currentProject == old(currentProject) && currentImageIndex == old(currentImageIndex)
      ensures modalDisplayed == old(modalDisplayed) && imagePresent == old(imagePresent)
      ensures imageHeight == old(imageHeight) && infoHeight == old(infoHeight)
    {
      zoomLevel := ClampZoom(zoomLevel + delta);
      if imagePresent {
        if zoomLevel == 1.0 {
          translateX := 0.0;
          translateY := 0.0;
          zoomMode := false;
          isScrollAdjustmentActive := true;
        } else {
          zoomMode := true;
          isScrollAdjustmentActive := false;
        }
      }
    }

    /** `toggleZoom`: zoomed in, reset; at 1x, zoom to 2x. */
    method ToggleZoom()
      modifies this
      requires Valid()
      ensures Valid()
      ensures State() == ZoomToggled(old(State()))
      ensures old(zoomLevel) > 1.0 ==> zoomLevel == 1.0 && translateX == 0.0 && translateY == 0.0
      ensures old(zoomLevel) > 1.0 ==> zoomMode == old(zoomMode) && isScrollAdjustmentActive == old(isScrollAdjustmentActive)
      ensures old(zoomLevel) <= 1.0 ==> zoomLevel == 2.0
      ensures old(zoomLevel) <= 1.0 && imagePresent ==> zoomMode && !isScrollAdjustmentActive
      ensures currentProject == old(currentProject) && currentImageIndex == old(currentImageIndex)
      ensures imagePresent == old(imagePresent) && modalDisplayed == old(modalDisplayed)
      ensures imageHeight == old(imageHeight) && infoHeight == old(infoHeight)
    {
      if zoomLevel > 1.0 {
        ResetZoom();
      } else {
        AdjustZoom(1.0);
      }
    }

    /** `previousImage`: a step back, unless there is no gallery or this is the first picture. */
    method PreviousImage() returns (moved: bool)
      modifies this
      requires Valid()
      ensures Valid()
      ensures State() == Previous(old(State()))
      ensures moved <==> old(currentProject).Some? && old(currentProject).value.images.Some? && old(currentImageIndex) > 0
      ensures moved ==> currentImageIndex == old(currentImageIndex) - 1 && zoomLevel == 1.0
      ensures moved ==> translateX == 0.0 && translateY == 0.0
      ensures !moved ==> State() == old(State())
      ensures currentProject == old(currentProject)
    {
      if currentProject.None? || currentProject.value.images.None? || currentImageIndex <= 0 {
        return false;
      }
      currentImageIndex := currentImageIndex - 1;
      ResetZoom();
      moved := true;
    }

    /** `nextImage`: a step forward, unless there is no gallery or this is the last picture. */
    method NextImage() returns (moved: bool)
      modifies this
      requires Valid()
      ensures Valid()
      ensures State() == Next(old(State()))
      ensures moved <==> (old(currentProject).Some? && old(currentProject).value.images.Some?
        && old(currentImageIndex) < |old(currentProject).value.images.value| - 1)
      ensures moved ==> currentImageIndex == old(currentImageIndex) + 1 && zoomLevel == 1.0
      ensures moved ==> translateX == 0.0 && translateY == 0.0
      ensures !moved ==> State() == old(State())
      ensures currentProject == old(currentProject)
    {
      if currentProject.None? || currentProject.value.images.None?
        || currentImageIndex >= |currentProject.value.images.value| - 1 {
        return false;
      }
      currentImageIndex := currentImageIndex + 1;
      ResetZoom();
      moved := true;
    }

    /** A click on the thumbnail at `index` of the strip. */
    method SelectThumbnail(index: nat)
      modifies this
      requires Valid() && currentProject.Some? && HasGallery(currentProject.value)
      requires index < |currentProject.value.images.value|
      ensures Valid()
      ensures State() == ThumbnailSelected(old(State()), index)
      ensures currentProject == old(currentProject) && zoomLevel == old(zoomLevel)
      ensures currentImageIndex == index && CurrentLayout().thumbnails[index]
    {
      currentImageIndex := index;
    }

    /** `adjustImageHeight`: the picture area within [35, 70] and the description the rest. */
    method AdjustImageHeight(newHeight: real)
      modifies this
      ensures State() == HeightAdjusted(old(State()), newHeight, sectionsPresent)
      ensures sectionsPresent ==> imageHeight == ClampHeight(newHeight) && infoHeight == InfoHeight(imageHeight)
      ensures !sectionsPresent ==> imageHeight == old(imageHeight) && infoHeight == old(infoHeight)
      ensures currentProject == old(currentProject) && currentImageIndex == old(currentImageIndex)
      ensures zoomLevel == old(zoomLevel) && isScrollAdjustmentActive == old(isScrollAdjustmentActive)
    {
      if !sectionsPresent {
        return;
      }
      imageHeight := ClampHeight(newHeight);
      infoHeight := InfoHeight(imageHeight);
    }

    /** `openProject(id)`: an unknown id clears the project and stops; a known one opens the
        modal on its first picture at 1x, with the scroll adjustment armed. */
    method OpenProject(id: string)
      modifies this
      requires Valid()
      ensures Valid()
      ensures State() == Opened(old(State()), projects, id, sectionsPresent)
      ensures currentProject == (if id in projects then Some(projects[id]) else None)
      ensures currentImageIndex == 0 && zoomLevel == 1.0 && translateX == 0.0 && translateY == 0.0
      ensures id !in projects ==> modalDisplayed == old(modalDisplayed) && imagePresent == old(imagePresent)
      ensures id !in projects ==> isScrollAdjustmentActive == old(isScrollAdjustmentActive)
      ensures id in projects ==> modalDisplayed
      ensures id in projects ==> (imagePresent <==> !CurrentLayout().Placeholder?)
      ensures id in projects ==> isScrollAdjustmentActive == (sectionsPresent || old(isScrollAdjustmentActive))
      ensures zoomMode == old(zoomMode) && imageHeight == old(imageHeight) && infoHeight == old(infoHeight)
    {
      if id !in projects {
        currentProject := None;
        currentImageIndex := 0;
        ResetZoom();
        return;
      }
      var project := projects[id];
      currentProject := Some(project);
      currentImageIndex := 0;
      ResetZoom();
      modalDisplayed := true;
      imagePresent := !LayoutFor(project, 0).Placeholder?;
      if sectionsPresent {
        isScrollAdjustmentActive := true;
      }
      assert State() == Opened(old(State()), projects, id, sectionsPresent);
    }

    /** `closeModal`: disarm the scroll adjustment, restore the heights, hide, reset the zoom. */
    method CloseModal()
      modifies this
      requires Valid()
      ensures Valid()
      ensures State() == Closed(old(State()), sectionsPresent)
      ensures !isScrollAdjustmentActive && !modalDisplayed
      ensures zoomLevel == 1.0 && translateX == 0.0 && translateY == 0.0
      ensures sectionsPresent ==> imageHeight == OriginalImageHeight && infoHeight == MinInfoHeight
      ensures !sectionsPresent ==> imageHeight == old(imageHeight) && infoHeight == old(infoHeight)
      ensures currentProject == old(currentProject) && currentImageIndex == old(currentImageIndex)
      ensures zoomMode == old(zoomMode) && imagePresent == old(imagePresent)
    {
      isScrollAdjustmentActive := false;
      if sectionsPresent {
        imageHeight := OriginalImageHeight;
        infoHeight := MinInfoHeight;
      }
      modalDisplayed := false;
      ResetZoom();
    }

    /** The keyboard handler, active only while the modal is displayed. */
    method HandleKey(key: string)
      modifies this
      requires Valid()
      ensures Valid()
      ensures State() == AfterKey(old(State()), key, sectionsPresent)
      ensures !old(modalDisplayed) ==> State() == old(State())
      ensures old(modalDisplayed) && key == "Escape" ==> !modalDisplayed
      ensures currentProject == old(currentProject)
    {
      if !modalDisplayed {
        return;
      }
      if key == "Escape" {
        CloseModal();
      } else if key == "ArrowLeft" {
        var _ := PreviousImage();
      } else if key == "ArrowRight" {
        var _ := NextImage();
      } else if key == " " {
        ToggleZoom();
      }
    }

    /** A finished touch: a counted swipe steps through the pictures. */
    method HandleSwipe(action: SwipeAction)
      modifies this
      requires Valid()
      ensures Valid()
      ensures State() == AfterSwipe(old(State()), action)
      ensures action == NoSwipe ==> State() == old(State())
      ensures action == SwipeNext ==> currentImageIndex >= old(currentImageIndex)
      ensures action == SwipePrevious ==> currentImageIndex <= old(currentImageIndex)
      ensures currentProject == old(currentProject)
    {
      match action {
        case NoSwipe =>
        case SwipeNext => var _ := NextImage();
        case SwipePrevious => var _ := PreviousImage();
      }
    }
  }
}
