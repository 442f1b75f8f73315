/** The image optimiser: alt text and placeholders chosen from where an image
    sits, the attribute pass over the page's images, the eager fallback for
    lazy images, the `srcset` string, and the placeholder shown when an image
    fails to load. */
module ImageOptimizer {
  import opened Strings

  /** Which of the blocks the image sits inside (`img.closest(...)` for each). */
  datatype Ancestry = Ancestry(inProject: bool, inMember: bool, inHero: bool, inLogo: bool)

  /** The attributes of an `<img>` the optimiser reads or writes. A missing `alt`
      reads as "" and a missing `src` as "". */
  datatype Img = Img(
    src: string,
    dataSrc: Option<string>,
    alt: string,
    loading: Option<string>,
    decoding: Option<string>,
    ancestry: Ancestry)

  // ---------------------------------------------------------------------
  // Alt text

  const ProjectAltPrefix := "Imagen del proyecto "
  const MemberAlt := "Foto del miembro del equipo"
  const LogoAlt := "Logo de Larq Arquitectura y Construcción"
  const GenericAltPrefix := "Imagen: "

  /** `generateAltText`: by the first block that matches, project, member, logo;
      otherwise the file name. */
  function GenerateAltText(img: Img): (alt: string)
    ensures img.ancestry.inProject ==> alt == ProjectAltPrefix + FileStem(ImageSource(img.src, img.dataSrc))
    ensures !img.ancestry.inProject && img.ancestry.inMember ==> alt == MemberAlt
    ensures !img.ancestry.inProject && !img.ancestry.inMember && img.ancestry.inLogo ==> alt == LogoAlt
    ensures !img.ancestry.inProject && !img.ancestry.inMember && !img.ancestry.inLogo ==>
      alt == GenericAltPrefix + FileStem(ImageSource(img.src, img.dataSrc))
  {
    var filename := FileStem(ImageSource(img.src, img.dataSrc));
    if img.ancestry.inProject then ProjectAltPrefix + filename
    else if img.ancestry.inMember then MemberAlt
    else if img.ancestry.inLogo then LogoAlt
    else GenericAltPrefix + filename
  }

  /** A generated alt text is never blank, whatever the file name. */
  lemma GeneratedAltIsNotBlank(img: Img)
    ensures !Blank(GenerateAltText(img))
  {
    var alt := GenerateAltText(img);
    var filename := FileStem(ImageSource(img.src, img.dataSrc));
    var first := if img.ancestry.inProject then 'I'
      else if img.ancestry.inMember then 'F'
      else if img.ancestry.inLogo then 'L'
      else 'I';
    assert alt[0] == first;
    UpperNotSpace(first);
  }

  // ---------------------------------------------------------------------
  // Placeholders

  datatype Placeholder = Placeholder(icon: string, text: string)

  /** `createPlaceholder`'s icon and text, by the first block that matches. */
  function PlaceholderFor(a: Ancestry): (p: Placeholder)
    ensures a.inProject ==> p == Placeholder("fas fa-building", "Proyecto")
    ensures !a.inProject && a.inMember ==> p == Placeholder("fas fa-user", "Foto del equipo")
    ensures !a.inProject && !a.inMember && a.inHero ==> p == Placeholder("fas fa-user-tie", "Foto del arquitecto")
    ensures !a.inProject && !a.inMember && !a.inHero ==> p == GenericPlaceholder
  {
    if a.inProject then Placeholder("fas fa-building", "Proyecto")
    else if a.inMember then Placeholder("fas fa-user", "Foto del equipo")
    else if a.inHero then Placeholder("fas fa-user-tie", "Foto del arquitecto")
    else GenericPlaceholder
  }

  const GenericPlaceholder := Placeholder("fas fa-image", "Imagen no disponible")

  /** An image has a container for a placeholder exactly when it sits in one of
      the three blocks `handleImageError` looks for. */
  predicate HasContainer(a: Ancestry)
  {
    a.inProject || a.inMember || a.inHero
  }

  /** Placeholders are only created for images with a container, so the generic
      one never appears. */
  lemma CreatedPlaceholderIsSpecific(a: Ancestry)
    requires HasContainer(a)
    ensures PlaceholderFor(a) != GenericPlaceholder
  {
  }

  /** The block an image failed in. */
  class ImageSlot {
    const ancestry: Ancestry
    var imageHidden: bool
    /** The container's `.image-placeholder` elements, each with whether it is shown. */
    var placeholders: seq<(Placeholder, bool)>
    var errorClass: bool

    constructor (ancestry: Ancestry, placeholders: seq<(Placeholder, bool)>)
      ensures this.ancestry == ancestry && this.placeholders == placeholders
      ensures !imageHidden && !errorClass
    {
      this.ancestry := ancestry;
      this.placeholders := placeholders;
      imageHidden := false;
      errorClass := false;
    }

    /** `handleImageError`: inside a container, hide the image, show the first
        placeholder (creating it only when there is none) and mark the error. */
    method HandleImageError()
      modifies this
      ensures !HasContainer(ancestry) ==>
        imageHidden == old(imageHidden) && placeholders == old(placeholders) && errorClass == old(errorClass)
      ensures HasContainer(ancestry) && old(placeholders) == [] ==>
        placeholders == [(PlaceholderFor(ancestry), true)]
      ensures HasContainer(ancestry) && old(placeholders) != [] ==>
        placeholders == old(placeholders)[0 := (old(placeholders)[0].0, true)]
      ensures HasContainer(ancestry) ==> imageHidden && errorClass
    {
      if !HasContainer(ancestry) {
        return;
      }
      imageHidden := true;
      if placeholders == [] {
        placeholders := [(PlaceholderFor(ancestry), true)];
      } else {
        placeholders := placeholders[0 := (placeholders[0].0, true)];
      }
      errorClass := true;
    }
  }

  /** Three failures in a row leave the container with at most one placeholder more than
      it started with, and never a second one it did not have. Each further failure is one
      more `HandleImageError`, whose contract keeps both facts. */
  method RepeatedErrorsReusePlaceholder(slot: ImageSlot)
    modifies slot
    ensures |slot.placeholders| <= Max(1, |old(slot.placeholders)|)
    ensures old(slot.placeholders) != [] ==> |slot.placeholders| == |old(slot.placeholders)|
  {
    slot.HandleImageError();
    slot.HandleImageError();
    slot.HandleImageError();
  }

  // ---------------------------------------------------------------------
  // The attribute pass

  /** `optimizeExistingImages` on one image: native lazy loading unless a `loading`
      attribute is there, a generated alt only when the alt is blank (missing, empty or
      only whitespace), and always asynchronous decoding. */
  function Optimized(img: Img): Img
  {
    img.(
      loading := if img.loading.None? then Some("lazy") else img.loading,
      alt := if !Blank(img.alt) then img.alt else GenerateAltText(img),
      decoding := Some("async"))
  }

  /** The pass keeps an existing `loading` and a non-blank alt, keeps the address,
      and leaves every image decoding asynchronously. */
  lemma OptimizedRules(img: Img)
    ensures var r := Optimized(img);
      r.src == img.src && r.dataSrc == img.dataSrc && r.ancestry == img.ancestry && r.decoding == Some("async")
    ensures img.loading.Some? ==> Optimized(img).loading == img.loading
    ensures img.loading.None? ==> Optimized(img).loading == Some("lazy")
    ensures !Blank(img.alt) ==> Optimized(img).alt == img.alt
    ensures Blank(img.alt) ==> Optimized(img).alt == GenerateAltText(img)
  {
  }

  /** After the pass every image has alt text and a `loading` attribute, and a
      second pass changes nothing. */
  lemma OptimizedIsComplete(img: Img)
    ensures !Blank(Optimized(img).alt) && Optimized(img).loading.Some?
    ensures Optimized(Optimized(img)) == Optimized(img)
  {
    if Blank(img.alt) {
      GeneratedAltIsNotBlank(img);
    }
  }

  /** `optimizeExistingImages` over the page's images. */
  method OptimizeExistingImages(images: array<Img>)
    modifies images
    ensures forall i :: 0 <= i < images.Length ==> images[i] == Optimized(old(images[i]))
  {
    ghost var original := images[..];
    var i := 0;
    while i < images.Length
      invariant 0 <= i <= images.Length
      invariant forall j :: 0 <= j < i ==> images[j] == Optimized(original[j])
      invariant forall j :: i <= j < images.Length ==> images[j] == original[j]
    {
      images[i] := Optimized(images[i]);
      i := i + 1;
    }
  }

  /** `loadAllImages` on one image: a lazy image takes its `data-src` as `src`
      and loses the `data-src`; other images are not selected. */
  function Loaded(img: Img): (r: Img)
    ensures img.dataSrc.Some? ==> r == img.(src := img.dataSrc.value, dataSrc := None)
    ensures img.dataSrc.None? ==> r == img
  {
    match img.dataSrc
    case Some(d) => img.(src := d, dataSrc := None)
    case None => img
  }

  /** After the fallback no image is lazy, and its address is the one the lazy
      image was waiting to load. */
  lemma LoadedIsEager(img: Img)
    ensures Loaded(img).dataSrc.None?
    ensures img.dataSrc.Some? ==> Loaded(img).src == img.dataSrc.value
    ensures Loaded(Loaded(img)) == Loaded(img)
  {
  }

  /** `loadAllImages` over the page's images. */
  method LoadAllImages(images: array<Img>)
    modifies images
    ensures forall i :: 0 <= i < images.Length ==> images[i] == Loaded(old(images[i]))
  {
    var i := 0;
    while i < images.Length
      invariant 0 <= i <= images.Length
      invariant forall j :: 0 <= j < i ==> images[j] == Loaded(old(images[j]))
      invariant forall j :: i <= j < images.Length ==> images[j] == old(images[j])
    {
      if images[i].dataSrc.Some? {
        images[i] := images[i].(src := images[i].dataSrc.value, dataSrc := None);
      }
      i := i + 1;
    }
  }

  // ---------------------------------------------------------------------
  // Responsive images

  /** `generateSrcSet`: the one address at density 1. */
  function GenerateSrcSet(baseSrc: string): (srcset: string)
    ensures baseSrc <= srcset && srcset[|baseSrc|..] == " 1x"
  {
    baseSrc + " 1x"
  }

  /** The result is never empty, so `setupResponsiveImages` always sets `srcset`. */
  lemma SrcSetAlwaysSet(baseSrc: string)
    ensures GenerateSrcSet(baseSrc) != []
    ensures EndsWith(GenerateSrcSet(baseSrc), " 1x")
  {
    var r := GenerateSrcSet(baseSrc);
    assert r[|r| - 3..] == r[|baseSrc|..];
  }
}
