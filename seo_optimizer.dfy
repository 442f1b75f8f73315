/** The SEO optimiser: per-page data chosen by path with a home-page
    fallback, breadcrumb trails and their schema.org list, the visible
    breadcrumb navigation, the page-specific schema, alt text derived from
    an image's context or file name, the sitemap entries, the canonical
    address, and the upsert of `<meta name=...>` tags in the head. */
module SeoOptimizer {
  import opened Strings

  const BaseUrl := "https://larq.net"
  const HomeCrumbName := "Inicio"
  const HomeCrumbUrl := "https://larq.net/"

  // ---------------------------------------------------------------------
  // Page data

  /** The pages `getPageData` knows. Their title, description and keywords are page
      copy and are not part of this model; the choice of entry is. */
  datatype Page = Home | About | Gallery | Team | Contact

  function PageAt(path: string): Option<Page>
  {
    if path == "/index.html" then Some(Home)
    else if path == "/acerca.html" then Some(About)
    else if path == "/galeria.html" then Some(Gallery)
    else if path == "/gente.html" then Some(Team)
    else if path == "/contacto.html" then Some(Contact)
    else None
  }

  /** `getPageData`: the entry for the path, or the home page's. */
  function GetPageData(path: string): (p: Page)
    ensures PageAt(path).Some? ==> p == PageAt(path).value
    ensures PageAt(path).None? ==> p == Home
  {
    match PageAt(path)
    case Some(page) => page
    case None => Home
  }

  /** Only `/index.html` and the unknown paths get the home page's data; every other page
      gets data of its own. */
  lemma PageDataFallback(path: string)
    ensures GetPageData(path) == Home <==> path == "/index.html" || PageAt(path).None?
  {
  }

  // ---------------------------------------------------------------------
  // Breadcrumbs

  datatype Crumb = Crumb(name: string, url: string)

  const HomeCrumb := Crumb(HomeCrumbName, HomeCrumbUrl)

  /** The entry of `breadcrumbMap` for a path, if it has one. */
  function BreadcrumbEntry(path: string): Option<seq<Crumb>>
  {
    if path == "/" || path == "/index.html" then Some([HomeCrumb])
    else if path == "/acerca.html" then Some([HomeCrumb, Crumb("Acerca de", "https://larq.net/acerca.html")])
    else if path == "/proyectos.html" then Some([HomeCrumb, Crumb("Proyectos", "https://larq.net/proyectos.html")])
    else if path == "/gente.html" then Some([HomeCrumb, Crumb("Nuestro Equipo", "https://larq.net/gente.html")])
    else if path == "/contacto.html" then Some([HomeCrumb, Crumb("Contacto", "https://larq.net/contacto.html")])
    else None
  }

  /** `generateBreadcrumbs`: the mapped trail, or the root's. */
  function GenerateBreadcrumbs(path: string): (trail: seq<Crumb>)
    ensures BreadcrumbEntry(path).Some? ==> trail == BreadcrumbEntry(path).value
    ensures BreadcrumbEntry(path).None? ==> trail == [HomeCrumb]
    ensures 1 <= |trail| <= 2 && trail[0] == HomeCrumb
  {
    match BreadcrumbEntry(path)
    case Some(t) => t
    case None => BreadcrumbEntry("/").value
  }

  /** A trail has a second level exactly on the four inner pages of the map; the
      gallery page, which the map does not list, gets the root's single crumb. */
  lemma TrailLength(path: string)
    ensures |GenerateBreadcrumbs(path)| == 2 <==>
      path in {"/acerca.html", "/proyectos.html", "/gente.html", "/contacto.html"}
    ensures GenerateBreadcrumbs("/galeria.html") == [HomeCrumb]
  {
  }

  datatype ListItem = ListItem(position: nat, name: string, item: string)

  /** `getBreadcrumbSchema`'s `itemListElement`. */
  function BreadcrumbSchema(trail: seq<Crumb>): (items: seq<ListItem>)
    ensures |items| == |trail|
    ensures forall i :: 0 <= i < |items| ==>
      items[i].position == i + 1 && items[i].name == trail[i].name && items[i].item == trail[i].url
  {
    seq(|trail|, i requires 0 <= i < |trail| => ListItem(i + 1, trail[i].name, trail[i].url))
  }

  /** Positions are consecutive from 1 and the last one is the trail's length. */
  lemma SchemaPositions(trail: seq<Crumb>)
    requires trail != []
    ensures var items := BreadcrumbSchema(trail);
      items[0].position == 1 && items[|items| - 1].position == |trail| &&
      forall i :: 0 <= i < |items| - 1 ==> items[i + 1].position == items[i].position + 1
  {
  }

  /** An entry of the visible breadcrumb list. */
  datatype NavItem = Link(name: string, href: string) | Current(name: string)

  /** `createBreadcrumbContainer`: nothing for a single crumb; otherwise a link for each
      crumb but the last, which is the current page's plain text. */
  function BreadcrumbNav(trail: seq<Crumb>): (nav: Option<seq<NavItem>>)
    ensures nav.None? <==> |trail| <= 1
    ensures nav.Some? ==> |nav.value| == |trail|
    ensures nav.Some? ==> forall i :: 0 <= i < |trail| ==>
      nav.value[i] == (if i == |trail| - 1 then Current(trail[i].name) else Link(trail[i].name, trail[i].url))
  {
    if |trail| <= 1 then None
    else Some(seq(|trail|, i requires 0 <= i < |trail| =>
      if i == |trail| - 1 then Current(trail[i].name) else Link(trail[i].name, trail[i].url)))
  }

  /** When a navigation is shown, exactly one entry is marked as the current page. */
  lemma OneCurrentEntry(trail: seq<Crumb>)
    requires |trail| > 1
    ensures var nav := BreadcrumbNav(trail).value;
      nav[|nav| - 1].Current? && forall i :: 0 <= i < |nav| && nav[i].Current? ==> i == |nav| - 1
  {
  }

  // ---------------------------------------------------------------------
  // Page-specific schema

  datatype PageSchema = CreativeWork | ContactPage | NoSchema

  /** `getPageSpecificSchema` */
  function PageSpecificSchema(path: string): (s: PageSchema)
    ensures s == CreativeWork <==> Contains(path, "proyectos")
    ensures s == ContactPage <==> !Contains(path, "proyectos") && Contains(path, "contacto")
  {
    if Contains(path, "proyectos") then CreativeWork
    else if Contains(path, "contacto") then ContactPage
    else NoSchema
  }

  // ---------------------------------------------------------------------
  // Alt text

  const ContextSuffix := " - Larq Arquitectura"
  const FileSuffix := " - Larq Arquitectura y Construcción"

  /** `generateSEOAltText`: the text of the first heading in the enclosing project
      card, team member or hero block when there is one; otherwise the image's file
      name without folder or extension. */
  function SeoAltText(src: string, dataSrc: Option<string>, contextHeading: Option<string>): (alt: string)
    ensures contextHeading.Some? ==> alt == contextHeading.value + ContextSuffix
    ensures contextHeading.None? ==>
      (EndsWith(alt, FileSuffix) &&
       var stem := alt[..|alt| - |FileSuffix|];
       '/' !in stem && '.' !in stem && stem <= AfterLast(ImageSource(src, dataSrc), '/'))
    ensures contextHeading.None? ==> alt == FileStem(ImageSource(src, dataSrc)) + FileSuffix
  {
    if contextHeading.Some? then contextHeading.value + ContextSuffix
    else
      var stem := FileStem(ImageSource(src, dataSrc));
      assert (stem + FileSuffix)[..|stem|] == stem;
      stem + FileSuffix
  }

  // ---------------------------------------------------------------------
  // Sitemap and canonical address

  datatype SitemapEntry = SitemapEntry(url: string, priority: string, changefreq: string, lastmod: string)

  /** The five pages of the sitemap: path, priority, change frequency. */
  const SitemapPages: seq<(string, string, string)> := [
    ("/", "1.0", "weekly"),
    ("/acerca.html", "0.8", "monthly"),
    ("/proyectos.html", "0.9", "weekly"),
    ("/gente.html", "0.7", "monthly"),
    ("/contacto.html", "0.8", "monthly")
  ]

  /** `generateSitemap`, dated with the given day. */
  function GenerateSitemap(today: string): (entries: seq<SitemapEntry>)
    ensures |entries| == |SitemapPages| == 5
    ensures forall i :: 0 <= i < |entries| ==>
      entries[i] == SitemapEntry(BaseUrl + SitemapPages[i].0, SitemapPages[i].1, SitemapPages[i].2, today)
  {
    seq(|SitemapPages|, i requires 0 <= i < |SitemapPages| =>
      SitemapEntry(BaseUrl + SitemapPages[i].0, SitemapPages[i].1, SitemapPages[i].2, today))
  }

  /** Every sitemap address is on the site, and the first is its root. */
  lemma SitemapOnSite(today: string)
    ensures forall e :: e in GenerateSitemap(today) ==> BaseUrl <= e.url
    ensures GenerateSitemap(today)[0].url == HomeCrumbUrl
  {
  }

  /** `setupCanonicalUrls`' address. */
  function CanonicalUrl(path: string): (url: string)
    ensures BaseUrl <= url && url[|BaseUrl|..] == path
  {
    BaseUrl + path
  }

  // ---------------------------------------------------------------------
  // The document head

  datatype Meta = Meta(name: string, content: string)

  /** The index of the first tag with the name, as `querySelector` finds it. */
  function FirstNamed(metas: seq<Meta>, name: string): (i: Option<nat>)
    ensures i.Some? ==>
      (i.value < |metas| && metas[i.value].name == name &&
       forall j :: 0 <= j < i.value ==> metas[j].name != name)
    ensures i.None? ==> forall j :: 0 <= j < |metas| ==> metas[j].name != name
  {
    if metas == [] then None
    else if metas[0].name == name then Some(0)
    else match FirstNamed(metas[1..], name)
      case None => None
      case Some(k) => Some(k + 1)
  }

  /** `updateMetaTag`'s effect on the head's tags. */
  function Upsert(metas: seq<Meta>, name: string, content: string): (r: seq<Meta>)
    ensures FirstNamed(metas, name).None? ==> r == metas + [Meta(name, content)]
    ensures FirstNamed(metas, name).Some? ==> r == metas[FirstNamed(metas, name).value := Meta(name, content)]
  {
    match FirstNamed(metas, name)
    case None => metas + [Meta(name, content)]
    case Some(i) => metas[i := Meta(name, content)]
  }

  /** After an upsert the tag with that name reads the new content, and the tags of every
      other name are as they were. */
  lemma UpsertReads(metas: seq<Meta>, name: string, content: string, other: string)
    requires other != name
    ensures var r := Upsert(metas, name, content);
      FirstNamed(r, name).Some? && r[FirstNamed(r, name).value].content == content
    ensures var r := Upsert(metas, name, content);
      forall j :: 0 <= j < |r| && r[j].name == other ==> j < |metas| && r[j] == metas[j]
  {
    var r := Upsert(metas, name, content);
    var k := FirstNamed(metas, name);
    var target := if k.Some? then k.value else |metas|;
    assert r[target] == Meta(name, content);
    FirstNamedAt(r, name, target);
  }

  /** A tag with the name at `i`, none before it: `i` is the first. */
  lemma {:induction false} FirstNamedAt(metas: seq<Meta>, name: string, i: nat)
    requires i < |metas| && metas[i].name == name
    requires forall j :: 0 <= j < i ==> metas[j].name != name
    ensures FirstNamed(metas, name) == Some(i)
    decreases i
  {
    if i > 0 {
      FirstNamedAt(metas[1..], name, i - 1);
    }
  }

  /** Setting a tag twice to the same content is the same as setting it once. */
  lemma UpsertIdempotent(metas: seq<Meta>, name: string, content: string)
    ensures Upsert(Upsert(metas, name, content), name, content) == Upsert(metas, name, content)
  {
    var r := Upsert(metas, name, content);
    UpsertReads(metas, name, content, name + "?");
    var k := FirstNamed(metas, name);
    var target := if k.Some? then k.value else |metas|;
    FirstNamedAt(r, name, target);
  }

  /** The `<head>` as the optimiser sees it: its named meta tags and its canonical link. */
  class DocumentHead {
    var metas: seq<Meta>
    var canonical: Option<string>

    constructor (metas: seq<Meta>, canonical: Option<string>)
      ensures this.metas == metas && this.canonical == canonical
    {
      this.metas := metas;
      this.canonical := canonical;
    }

    /** `document.querySelector('meta[name="..."]')`: a scan for the first tag with the name. */
    method FindMeta(name: string) returns (index: Option<nat>)
      ensures index == FirstNamed(metas, name)
    {
      var i := 0;
      while i < |metas|
        invariant 0 <= i <= |metas|
        invariant forall j :: 0 <= j < i ==> metas[j].name != name
      {
        if metas[i].name == name {
          FirstNamedAt(metas, name, i);
          return Some(i);
        }
        i := i + 1;
      }
      return None;
    }

    /** `updateMetaTag`: set the content of the tag with the name, creating it at the end
        of the head when there is none. */
    method UpdateMetaTag(name: string, content: string)
      modifies this
      ensures metas == Upsert(old(metas), name, content)
      ensures canonical == old(canonical)
    {
      var index := FindMeta(name);
      if index.None? {
        metas := metas + [Meta(name, content)];
      } else {
        metas := metas[index.value := Meta(name, content)];
      }
    }

    /** `setupCanonicalUrls`: create the canonical link if missing, then point it at the
        site address of the current path. */
    method SetupCanonicalUrls(path: string)
      modifies this
      ensures canonical == Some(CanonicalUrl(path))
      ensures metas == old(metas)
    {
      canonical := Some(BaseUrl + path);
    }
  }
}
