/** The lighter page script: the hamburger navigation, the single-image project
    modal, and the preload hints for the critical resources. (Its contact-form
    rules are in `FormValidation`, its header rule in `DynamicHeader`.) */
module ScriptOptimized {
  import opened Strings

  // ---------------------------------------------------------------------
  // Mobile navigation

  /** The navigation's state: the `active` class of the hamburger and of the menu,
      the body's `nav-open` class and the hamburger's `aria-expanded` attribute. */
  class MobileNavigation {
    var hamburgerActive: bool
    var menuActive: bool
    var bodyNavOpen: bool
    var ariaExpanded: bool

    /** The three classes and the attribute all say the same thing. */
    predicate Synced()
      reads this
    {
      menuActive == hamburgerActive && bodyNavOpen == hamburgerActive && ariaExpanded == hamburgerActive
    }

    /** The page as loaded: the markup decides the initial classes and attribute. */
    constructor (hamburgerActive: bool, menuActive: bool, bodyNavOpen: bool, ariaExpanded: bool)
      ensures this.hamburgerActive == hamburgerActive && this.menuActive == menuActive
      ensures this.bodyNavOpen == bodyNavOpen && this.ariaExpanded == ariaExpanded
    {
      this.hamburgerActive := hamburgerActive;
      this.menuActive := menuActive;
      this.bodyNavOpen := bodyNavOpen;
      this.ariaExpanded := ariaExpanded;
    }

    /** `toggle`: each class flips on its own, and the attribute becomes the negation
        of what the hamburger's class said before. */
    method Toggle()
      modifies this
      ensures hamburgerActive == !old(hamburgerActive)
      ensures menuActive == !old(menuActive)
      ensures bodyNavOpen == !old(bodyNavOpen)
      ensures ariaExpanded == !old(hamburgerActive)
      ensures old(Synced()) ==> Synced()
    {
      var isOpen := hamburgerActive;
      hamburgerActive := !hamburgerActive;
      menuActive := !menuActive;
      bodyNavOpen := !bodyNavOpen;
      ariaExpanded := !isOpen;
    }

    /** `close`: everything off, whatever the state was. */
    method Close()
      modifies this
      ensures !hamburgerActive && !menuActive && !bodyNavOpen && !ariaExpanded
      ensures Synced()
    {
      hamburgerActive := false;
      menuActive := false;
      bodyNavOpen := false;
      ariaExpanded := false;
    }

    /** The hamburger's key handler: Enter and Space toggle, other keys do nothing. */
    method OnHamburgerKey(key: string)
      modifies this
      ensures key == "Enter" || key == " " ==>
        hamburgerActive == !old(hamburgerActive) && ariaExpanded == !old(hamburgerActive) &&
        menuActive == !old(menuActive) && bodyNavOpen == !old(bodyNavOpen)
      ensures key != "Enter" && key != " " ==>
        hamburgerActive == old(hamburgerActive) && menuActive == old(menuActive) &&
        bodyNavOpen == old(bodyNavOpen) && ariaExpanded == old(ariaExpanded)
      ensures old(Synced()) ==> Synced()
    {
      if key == "Enter" || key == " " {
        Toggle();
      }
    }

    /** The document's click handler: a click outside both the hamburger and the
        menu closes the navigation. */
    method OnDocumentClick(insideHamburger: bool, insideMenu: bool)
      modifies this
      ensures !insideHamburger && !insideMenu ==> !hamburgerActive && !ariaExpanded && Synced()
      ensures insideHamburger || insideMenu ==>
        hamburgerActive == old(hamburgerActive) && menuActive == old(menuActive) &&
        bodyNavOpen == old(bodyNavOpen) && ariaExpanded == old(ariaExpanded)
    {
      if !insideHamburger && !insideMenu {
        Close();
      }
    }
  }

  /** Two toggles from a synchronised state give the state back, and the
      attribute always tells whether the menu is open. */
  method ToggleTwiceRestores(nav: MobileNavigation)
    requires nav.Synced()
    modifies nav
    ensures nav.Synced()
    ensures nav.hamburgerActive == old(nav.hamburgerActive) && nav.ariaExpanded == old(nav.ariaExpanded)
  {
    nav.Toggle();
    nav.Toggle();
  }

  // ---------------------------------------------------------------------
  // The project modal

  /** The part of a `projectsData` entry the modal's image area reads. */
  datatype SiteProject = SiteProject(title: string, image: Option<string>)

  /** What the modal's image container holds. */
  datatype ImageArea = NotRendered | MainImage(src: string, alt: string) | NoImagePlaceholder

  /** `updateImageDisplay`'s decision: a missing or empty image address is falsy
      and shows the placeholder. */
  function ImageAreaFor(p: SiteProject): (a: ImageArea)
    ensures a.MainImage? <==> p.image.Some? && p.image.value != []
    ensures a.MainImage? ==> a.src == p.image.value && a.alt == p.title
    ensures !a.MainImage? ==> a == NoImagePlaceholder
  {
    match p.image
    case Some(src) => if src != [] then MainImage(src, p.title) else NoImagePlaceholder
    case None => NoImagePlaceholder
  }

  /** `SimpleGallery`: the modal's display, the body's scroll lock, the project shown. */
  class SimpleGallery {
    const projects: map<string, SiteProject>
    var currentProject: Option<SiteProject>
    var modalDisplayed: bool
    var bodyScrollLocked: bool
    var imageArea: ImageArea

    constructor (projects: map<string, SiteProject>)
      ensures this.projects == projects
      ensures currentProject.None? && !modalDisplayed && !bodyScrollLocked && imageArea == NotRendered
    {
      this.projects := projects;
      currentProject := None;
      modalDisplayed := false;
      bodyScrollLocked := false;
      imageArea := NotRendered;
    }

    /** `openProject`: the current project becomes the entry for the id (nothing, for
        an unknown id); only a known id renders it and shows the modal. */
    method OpenProject(id: string)
      modifies this
      ensures id in projects ==> currentProject == Some(projects[id])
      ensures id !in projects ==> currentProject.None?
      ensures id in projects ==>
        modalDisplayed && bodyScrollLocked && imageArea == ImageAreaFor(projects[id])
      ensures id !in projects ==>
        modalDisplayed == old(modalDisplayed) && bodyScrollLocked == old(bodyScrollLocked) &&
        imageArea == old(imageArea)
    {
      if id !in projects {
        currentProject := None;
        return;
      }
      currentProject := Some(projects[id]);
      UpdateImageDisplay();
      modalDisplayed := true;
      bodyScrollLocked := true;
    }

    /** `updateImageDisplay` for the current project. */
    method UpdateImageDisplay()
      requires currentProject.Some?
      modifies this`imageArea
      ensures imageArea == ImageAreaFor(currentProject.value)
    {
      match currentProject.value.image {
        case Some(src) =>
          if src != [] {
            imageArea := MainImage(src, currentProject.value.title);
          } else {
            imageArea := NoImagePlaceholder;
          }
        case None => imageArea := NoImagePlaceholder;
      }
    }

    /** `closeModal`: hide the modal and release the page's scroll. */
    method CloseModal()
      modifies this`modalDisplayed, this`bodyScrollLocked
      ensures !modalDisplayed && !bodyScrollLocked
    {
      modalDisplayed := false;
      bodyScrollLocked := false;
    }

    /** The document's key handler: Escape closes the modal while it is displayed;
        with the modal hidden every key is ignored. */
    method OnKey(key: string)
      modifies this`modalDisplayed, this`bodyScrollLocked
      ensures old(modalDisplayed) && key == "Escape" ==> !modalDisplayed && !bodyScrollLocked
      ensures !(old(modalDisplayed) && key == "Escape") ==>
        modalDisplayed == old(modalDisplayed) && bodyScrollLocked == old(bodyScrollLocked)
    {
      if !modalDisplayed {
        return;
      }
      if key == "Escape" {
        CloseModal();
      }
    }
  }

  // ---------------------------------------------------------------------
  // Preload hints

  /** The `as` attribute of a preload link: absent for a resource of neither kind. */
  datatype PreloadKind = StyleKind | ImageKind

  /** The two resources preloaded on start-up. */
  const CriticalResources: seq<string> := ["/styles-professional.css", "/images/Logo_larq.png"]

  /** `preloadCriticalResources`' choice of `as`. */
  function PreloadAs(resource: string): (k: Option<PreloadKind>)
    ensures k == Some(StyleKind) <==> EndsWith(resource, ".css")
    ensures k == Some(ImageKind) <==> !EndsWith(resource, ".css") && Contains(resource, "/images/")
  {
    if EndsWith(resource, ".css") then Some(StyleKind)
    else if Contains(resource, "/images/") then Some(ImageKind)
    else None
  }

  /** A stylesheet kept under the images folder is still preloaded as a style. */
  lemma CssTakesPrecedence()
    ensures PreloadAs("/images/print.css") == Some(StyleKind)
  {
    var r := "/images/print.css";
    assert r[|r| - 4..] == ".css";
  }

  /** A `<link rel=preload>` in the head. */
  datatype PreloadLink = PreloadLink(href: string, kind: Option<PreloadKind>)

  function PreloadLinks(resources: seq<string>): (links: seq<PreloadLink>)
    ensures |links| == |resources|
    ensures forall i :: 0 <= i < |resources| ==> links[i] == PreloadLink(resources[i], PreloadAs(resources[i]))
  {
    seq(|resources|, i requires 0 <= i < |resources| => PreloadLink(resources[i], PreloadAs(resources[i])))
  }

  /** The head's preload links. */
  class Head {
    var links: seq<PreloadLink>

    constructor ()
      ensures links == []
    {
      links := [];
    }

    /** Append one preload link per resource, in order. */
    method PreloadResources(resources: seq<string>)
      modifies this
      ensures links == old(links) + PreloadLinks(resources)
    {
      var i := 0;
      while i < |resources|
        invariant 0 <= i <= |resources|
        invariant links == old(links) + PreloadLinks(resources[..i])
      {
        assert PreloadLinks(resources[..i + 1]) == PreloadLinks(resources[..i]) + [PreloadLink(resources[i], PreloadAs(resources[i]))];
        links := links + [PreloadLink(resources[i], PreloadAs(resources[i]))];
        i := i + 1;
      }
      assert resources[..i] == resources;
    }

    /** `preloadCriticalResources`: the stylesheet as a style, the logo as an image. */
    method PreloadCriticalResources()
      modifies this
      ensures links == old(links) + PreloadLinks(CriticalResources)
      ensures links[|links| - 2].kind == Some(StyleKind) && links[|links| - 1].kind == Some(ImageKind)
    {
      PreloadResources(CriticalResources);
      CriticalKinds();
    }
  }

  /** The critical stylesheet is preloaded as a style and the logo as an image. */
  lemma CriticalKinds()
    ensures PreloadAs(CriticalResources[0]) == Some(StyleKind)
    ensures PreloadAs(CriticalResources[1]) == Some(ImageKind)
  {
    var css := CriticalResources[0];
    assert css[|css| - 4..] == ".css";
    var logo := CriticalResources[1];
    assert logo[|logo| - 4..] == ".png";
    assert logo[..8] == "/images/";
  }
}
