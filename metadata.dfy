/**
 * The page-metadata builders: the Open Graph / Twitter / canonical record
 * for a page, its specialisation for blog posts, the JSON-LD `Article`
 * record and the JSON-LD breadcrumb list. The site's base URL is read once
 * from the environment and is a parameter of every builder here.
 */
module Metadata {
  import opened Wrappers
  import opened Text

  const DefaultBaseUrl: string := "https://thefixerflow.com"
  const SiteName: string := "The Fixer Flow"
  const DefaultImage: string := "/og-image.png"
  const DefaultPostImage: string := "/og-image.jpg"
  const DefaultAuthor: string := "The Fixer Flow"

  /** JavaScript's `x || fallback` on a string that may be undefined: `""` and `undefined` fall back. */
  function OrElse(x: Option<string>, fallback: string): (r: string)
    ensures x.Some? && x.value != "" ==> r == x.value
    ensures x.None? || x.value == "" ==> r == fallback
  {
    if x.Some? && x.value != "" then x.value else fallback
  }

  /** A destructuring default: only an absent value is replaced (an empty string is kept). */
  function Default<T>(x: Option<T>, fallback: T): (r: T)
    ensures x.Some? ==> r == x.value
    ensures x.None? ==> r == fallback
  {
    match x
    case Some(v) => v
    case None => fallback
  }

  /** `process.env.NEXT_PUBLIC_BASE_URL || "https://thefixerflow.com"`. */
  function BaseUrl(env: Option<string>): (b: string)
    ensures b != ""
    ensures env.Some? && env.value != "" ==> b == env.value
    ensures b == DefaultBaseUrl <==> env.None? || env.value == "" || env.value == DefaultBaseUrl
  {
    OrElse(env, DefaultBaseUrl)
  }

  /** An image reference made absolute: kept if it starts with "http", else appended to the base URL. */
  function AbsoluteUrl(baseUrl: string, image: string): (r: string)
    ensures StartsWith(image, "http") ==> r == image
    ensures !StartsWith(image, "http") ==> r == baseUrl + image
  {
    if StartsWith(image, "http") then image else baseUrl + image
  }

  /** With an "http" base URL every result is an "http" URL, and making it absolute again changes nothing. */
  lemma AbsoluteUrlIdempotent(baseUrl: string, image: string)
    requires StartsWith(baseUrl, "http")
    ensures StartsWith(AbsoluteUrl(baseUrl, image), "http")
    ensures AbsoluteUrl(baseUrl, AbsoluteUrl(baseUrl, image)) == AbsoluteUrl(baseUrl, image)
  {
    if !StartsWith(image, "http") {
      assert (baseUrl + image)[..4] == baseUrl[..4];
    }
  }

  /** The base URL the site uses is an "http" URL whenever the environment sets one. */
  lemma BaseUrlIsHttp(env: Option<string>)
    requires env.Some? && env.value != "" ==> StartsWith(env.value, "http")
    ensures StartsWith(BaseUrl(env), "http")
  {
  }

  datatype PageType = Website | Article

  /** The input record; `None` stands for a property left undefined. */
  datatype SEOProps = SEOProps(
    title: string,
    description: string,
    path: Option<string>,
    image: Option<string>,
    pageType: Option<PageType>,
    publishedTime: Option<string>,
    modifiedTime: Option<string>,
    author: Option<string>,
    tags: Option<seq<string>>)

  datatype OgImage = OgImage(url: string, width: int, height: int, alt: string)

  /** The fields the conditional spread adds for articles. */
  datatype ArticleFields = ArticleFields(
    publishedTime: Option<string>,
    modifiedTime: Option<string>,
    authors: Option<seq<string>>,
    tags: Option<seq<string>>)

  datatype OpenGraph = OpenGraph(
    title: string,
    description: string,
    url: string,
    siteName: string,
    images: seq<OgImage>,
    locale: string,
    pageType: PageType,
    article: Option<ArticleFields>)

  datatype Twitter = Twitter(card: string, title: string, description: string, images: seq<string>, creator: string)

  datatype GoogleBot = GoogleBot(index: bool, follow: bool, maxVideoPreview: int, maxImagePreview: string, maxSnippet: int)

  datatype Robots = Robots(index: bool, follow: bool, googleBot: GoogleBot)

  datatype PageMetadata = PageMetadata(
    title: string,
    description: string,
    openGraph: OpenGraph,
    twitter: Twitter,
    canonical: string,
    robots: Robots)

  /** `generateSEO`. */
  function GenerateSEO(baseUrl: string, props: SEOProps): (m: PageMetadata)
    ensures m.title == props.title && m.description == props.description
    ensures m.canonical == m.openGraph.url == baseUrl + Default(props.path, "")
    ensures m.openGraph.title == m.twitter.title == props.title + " | " + SiteName
    ensures |m.openGraph.images| == 1 && m.twitter.images == [m.openGraph.images[0].url]
    ensures m.openGraph.images[0].url == AbsoluteUrl(baseUrl, Default(props.image, DefaultImage))
    ensures m.openGraph.images[0].alt == props.title
    ensures m.openGraph.pageType == Default(props.pageType, Website)
    ensures m.openGraph.article.Some? <==> m.openGraph.pageType == Article
    ensures m.openGraph.article.Some? ==>
      var a := m.openGraph.article.value;
      && a.publishedTime == props.publishedTime
      && a.modifiedTime == props.modifiedTime
      && a.tags == props.tags
      && (a.authors.Some? <==> props.author.Some? && props.author.value != "")
      && (a.authors.Some? ==> a.authors.value == [props.author.value])
  {
    var url := baseUrl + Default(props.path, "");
    var fullTitle := props.title + " | " + SiteName;
    var imageUrl := AbsoluteUrl(baseUrl, Default(props.image, DefaultImage));
    var pageType := Default(props.pageType, Website);
    var article :=
      if pageType == Article then
        Some(ArticleFields(
          props.publishedTime,
          props.modifiedTime,
          if props.author.Some? && props.author.value != "" then Some([props.author.value]) else None,
          props.tags))
      else None;
    PageMetadata(
      props.title,
      props.description,
      OpenGraph(fullTitle, props.description, url, SiteName,
        [OgImage(imageUrl, 1200, 630, props.title)], "en_US", pageType, article),
      Twitter("summary_large_image", fullTitle, props.description, [imageUrl], "@thefixerflow"),
      url,
      Robots(true, true, GoogleBot(true, true, -1, "large", -1)))
  }

  /** The properties `generateBlogPostSEO` hands to `generateSEO`. */
  function BlogPostProps(
    title: string, description: string, slug: string, image: Option<string>,
    publishedAt: string, updatedAt: Option<string>, author: Option<string>, category: Option<string>): SEOProps
  {
    SEOProps(
      title,
      description,
      Some("/blog/" + slug),
      Some(OrElse(image, DefaultPostImage)),
      Some(Article),
      Some(publishedAt),
      Some(OrElse(updatedAt, publishedAt)),
      Some(Default(author, DefaultAuthor)),
      if category.Some? && category.value != "" then Some([category.value]) else None)
  }

  /** `generateBlogPostSEO`. */
  function GenerateBlogPostSEO(
    baseUrl: string, title: string, description: string, slug: string, image: Option<string>,
    publishedAt: string, updatedAt: Option<string>, author: Option<string>, category: Option<string>): (m: PageMetadata)
    ensures m.canonical == baseUrl + "/blog/" + slug
    ensures m.openGraph.pageType == Article && m.openGraph.article.Some?
    ensures |m.openGraph.images| == 1 && m.openGraph.images[0].url == AbsoluteUrl(baseUrl, OrElse(image, DefaultPostImage))
    ensures var a := m.openGraph.article.value;
      && a.publishedTime == Some(publishedAt)
      && a.modifiedTime == Some(OrElse(updatedAt, publishedAt))
      && (a.tags.Some? <==> category.Some? && category.value != "")
      && (a.tags.Some? ==> a.tags.value == [category.value])
      && (author.None? ==> a.authors == Some([DefaultAuthor]))
      && (author.Some? ==> a.authors == if author.value == "" then None else Some([author.value]))
  {
    assert baseUrl + ("/blog/" + slug) == baseUrl + "/blog/" + slug;
    GenerateSEO(baseUrl, BlogPostProps(title, description, slug, image, publishedAt, updatedAt, author, category))
  }

  datatype ArticleSchema = ArticleSchema(
    context: string,
    schemaType: string,
    headline: string,
    description: string,
    image: string,
    datePublished: string,
    dateModified: string,
    authorName: string,
    publisherName: string,
    logoUrl: string,
    mainEntityId: string)

  /** `generateArticleSchema`. */
  function GenerateArticleSchema(
    baseUrl: string, title: string, description: string, slug: string, image: string,
    publishedAt: string, updatedAt: Option<string>, author: Option<string>): (s: ArticleSchema)
    ensures s.headline == title && s.datePublished == publishedAt
    ensures s.image == AbsoluteUrl(baseUrl, image)
    ensures updatedAt.Some? && updatedAt.value != "" ==> s.dateModified == updatedAt.value
    ensures updatedAt.None? || updatedAt.value == "" ==> s.dateModified == publishedAt
    ensures s.authorName == Default(author, DefaultAuthor)
    ensures s.mainEntityId == baseUrl + "/blog/" + slug
    ensures s.logoUrl == baseUrl + "/logo.png" && s.publisherName == SiteName
  {
    ArticleSchema(
      "https://schema.org",
      "Article",
      title,
      description,
      AbsoluteUrl(baseUrl, image),
      publishedAt,
      OrElse(updatedAt, publishedAt),
      Default(author, DefaultAuthor),
      SiteName,
      baseUrl + "/logo.png",
      baseUrl + "/blog/" + slug)
  }

  /**
   * For the same post, the JSON-LD record and the page metadata agree: the
   * article's `@id` is the canonical URL, the headline is the bare title,
   * the dates agree, the author is the one listed in Open Graph (unless an
   * empty author was given), and the images agree unless the image is the
   * empty string, which the page metadata replaces by its default.
   */
  lemma ArticleSchemaAgreesWithSEO(
    baseUrl: string, title: string, description: string, slug: string, image: string,
    publishedAt: string, updatedAt: Option<string>, author: Option<string>, category: Option<string>)
    ensures var m := GenerateBlogPostSEO(baseUrl, title, description, slug, Some(image), publishedAt, updatedAt, author, category);
      var s := GenerateArticleSchema(baseUrl, title, description, slug, image, publishedAt, updatedAt, author);
      && s.mainEntityId == m.canonical
      && s.headline == m.title
      && Some(s.datePublished) == m.openGraph.article.value.publishedTime
      && Some(s.dateModified) == m.openGraph.article.value.modifiedTime
      && (author != Some("") ==> m.openGraph.article.value.authors == Some([s.authorName]))
      && (image != "" ==> s.image == m.openGraph.images[0].url == m.twitter.images[0])
  {
  }

  datatype Crumb = Crumb(name: string, url: string)

  datatype ListItem = ListItem(position: int, name: string, item: string)

  /** `items.map((item, index) => ...)` in `generateBreadcrumbSchema`. */
  function BreadcrumbItems(baseUrl: string, items: seq<Crumb>): (r: seq<ListItem>)
    ensures |r| == |items|
    ensures forall i :: 0 <= i < |items| ==>
      r[i].position == i + 1 && r[i].name == items[i].name && r[i].item == baseUrl + items[i].url
  {
    if items == [] then []
    else
      var n := |items| - 1;
      BreadcrumbItems(baseUrl, items[..n]) + [ListItem(n + 1, items[n].name, baseUrl + items[n].url)]
  }

  datatype BreadcrumbList = BreadcrumbList(context: string, schemaType: string, itemListElement: seq<ListItem>)

  /** `generateBreadcrumbSchema`. */
  function GenerateBreadcrumbSchema(baseUrl: string, items: seq<Crumb>): (s: BreadcrumbList)
    ensures |s.itemListElement| == |items|
    ensures forall i :: 0 <= i < |items| ==> s.itemListElement[i].position == i + 1
    ensures s.schemaType == "BreadcrumbList"
  {
    BreadcrumbList("https://schema.org", "BreadcrumbList", BreadcrumbItems(baseUrl, items))
  }
}
