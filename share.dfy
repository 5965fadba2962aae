/**
 * The share links of a post: the category hashtag, the share message, the
 * platform URLs of the share popover and of the floating share bar, which
 * buttons each renders and what a click on each does. `encodeURIComponent`
 * is the parameter `enc`, about which nothing is assumed.
 */
module Share {
  import opened Wrappers
  import opened Text

  /** U+1F4D6 OPEN BOOK, which opens every share text. */
  const Book: string := "\U{1F4D6}"

  datatype Platform = Native | WhatsApp | Telegram | Facebook | X | LinkedIn | Pinterest

  /** JavaScript truthiness of a string that may be undefined. */
  predicate Truthy(s: Option<string>) {
    s.Some? && s.value != ""
  }

  /** `category ? "#" + category.replace(/\s+/g, "") : ""`. */
  function CategoryTag(category: Option<string>): (tag: string)
    ensures tag == "" <==> !Truthy(category)
    ensures tag != "" ==> tag[0] == '#' && tag[1..] == RemoveWhitespace(category.value)
    ensures forall i :: 0 <= i < |tag| ==> !IsWhitespace(tag[i])
  {
    if Truthy(category) then "#" + RemoveWhitespace(category.value) else ""
  }

  /** A hashtag made from a tag's own text is that tag again. */
  lemma CategoryTagStable(category: Option<string>)
    requires CategoryTag(category) != ""
    ensures var tag := CategoryTag(category);
      CategoryTag(Some(tag[1..])) == tag || tag == "#"
  {
    var tag := CategoryTag(category);
    if tag != "#" {
      RemoveWhitespaceNoop(tag[1..]);
      assert "#" + tag[1..] == tag;
    }
  }

  /** A category with a non-space character yields a tag with more than the bare "#". */
  lemma CategoryTagHasText(category: string, i: int)
    requires 0 <= i < |category| && !IsWhitespace(category[i])
    ensures |CategoryTag(Some(category))| > 1
  {
    assert category[i] in category;
  }

  /**
   * `shareMessage`: the book and title, a blank line, the excerpt, a blank
   * line, the hashtag and a space when there is one, then "Read more: " and
   * the URL.
   */
  function ShareMessage(title: string, excerpt: string, tag: string, url: string): (m: string)
    ensures StartsWith(m, Book + " " + title + "\n\n" + excerpt + "\n\n")
    ensures |m| >= |"Read more: " + url| && m[|m| - |"Read more: " + url|..] == "Read more: " + url
    ensures |m| == |Book + " " + title + "\n\n" + excerpt + "\n\n"|
      + (if tag != "" then |tag| + 1 else 0) + |"Read more: " + url|
    ensures m[|Book + " " + title + "\n\n" + excerpt + "\n\n"|..|m| - |"Read more: " + url|]
      == if tag != "" then tag + " " else ""
  {
    var head := Book + " " + title + "\n\n" + excerpt + "\n\n";
    var tail := "Read more: " + url;
    var m := head + (if tag != "" then tag + " " else "") + tail;
    assert m[..|head|] == head;
    assert m[|m| - |tail|..] == tail;
    assert m[|head|..|m| - |tail|] == if tag != "" then tag + " " else "";
    m
  }

  /** The WhatsApp link carries the encoded message as its `text`. */
  function WhatsAppUrl(enc: string -> string, message: string): (u: string)
    ensures StartsWith(u, "https://wa.me/?text=") && u[|"https://wa.me/?text="|..] == enc(message)
  {
    "https://wa.me/?text=" + enc(message)
  }

  /** The Telegram link carries the encoded post URL, then the encoded message. */
  function TelegramUrl(enc: string -> string, url: string, message: string): (u: string)
    ensures StartsWith(u, "https://t.me/share/url?url=")
    ensures u[|"https://t.me/share/url?url="|..] == enc(url) + "&text=" + enc(message)
  {
    "https://t.me/share/url?url=" + enc(url) + "&text=" + enc(message)
  }

  /** The Facebook link carries only the encoded post URL. */
  function FacebookUrl(enc: string -> string, url: string): (u: string)
    ensures StartsWith(u, "https://www.facebook.com/sharer/sharer.php?u=")
    ensures u[|"https://www.facebook.com/sharer/sharer.php?u="|..] == enc(url)
  {
    "https://www.facebook.com/sharer/sharer.php?u=" + enc(url)
  }

  /**
   * The X intent link without the image parameter (the floating bar's): the
   * encoded post URL, then the book, the title and the hashtag, encoded.
   * Unlike the other links it leaves out the excerpt.
   */
  function XUrl(enc: string -> string, url: string, title: string, tag: string): (u: string)
    ensures StartsWith(u, "https://x.com/intent/tweet?url=")
    ensures u[|"https://x.com/intent/tweet?url="|..] == enc(url) + "&text=" + enc(Book + " " + title + "\n\n" + tag)
  {
    "https://x.com/intent/tweet?url=" + enc(url) + "&text=" + enc(Book + " " + title + "\n\n" + tag)
  }

  /** The popover's `&image=` parameter, present only with a truthy image. */
  function ImageParam(enc: string -> string, image: Option<string>): (p: string)
    ensures p == "" <==> !Truthy(image)
    ensures Truthy(image) ==> p == "&image=" + enc(image.value)
  {
    if Truthy(image) then "&image=" + enc(image.value) else ""
  }

  /** The LinkedIn link carries the encoded URL, title and excerpt as `url`, `title` and `summary`. */
  function LinkedInUrl(enc: string -> string, url: string, title: string, excerpt: string): (u: string)
    ensures StartsWith(u, "https://www.linkedin.com/shareArticle?mini=true&url=")
    ensures u[|"https://www.linkedin.com/shareArticle?mini=true&url="|..]
      == enc(url) + "&title=" + enc(title) + "&summary=" + enc(excerpt)
  {
    "https://www.linkedin.com/shareArticle?mini=true&url=" + enc(url)
    + "&title=" + enc(title) + "&summary=" + enc(excerpt)
  }

  /** Pin link, undefined without a truthy image; it carries the encoded URL, image and message. */
  function PinterestUrl(enc: string -> string, url: string, image: Option<string>, message: string): (r: Option<string>)
    ensures r.Some? <==> Truthy(image)
    ensures r.Some? ==> (StartsWith(r.value, "https://pinterest.com/pin/create/button/?url=")
      && r.value[|"https://pinterest.com/pin/create/button/?url="|..]
        == enc(url) + "&media=" + enc(image.value) + "&description=" + enc(message))
  {
    if Truthy(image) then
      Some("https://pinterest.com/pin/create/button/?url=" + enc(url)
        + "&media=" + enc(image.value) + "&description=" + enc(message))
    else None
  }

  /** The links both components build; the X link here is the floating bar's, without the image parameter. */
  datatype Links = Links(
    whatsapp: string, telegram: string, facebook: string, x: string, linkedin: string,
    pinterest: Option<string>)

  function ShareLinks(
    enc: string -> string, url: string, title: string, excerpt: string,
    image: Option<string>, category: Option<string>): (l: Links)
    ensures l.whatsapp != "" && l.telegram != "" && l.facebook != "" && l.x != "" && l.linkedin != ""
    ensures l.pinterest.Some? <==> Truthy(image)
    ensures l.pinterest.Some? ==> l.pinterest.value != ""
  {
    var tag := CategoryTag(category);
    var message := ShareMessage(title, excerpt, tag, url);
    Links(
      WhatsAppUrl(enc, message),
      TelegramUrl(enc, url, message),
      FacebookUrl(enc, url),
      XUrl(enc, url, title, tag),
      LinkedInUrl(enc, url, title, excerpt),
      PinterestUrl(enc, url, image, message))
  }

  /** The two components that build `shareUrls`: the popover adds `imageParam` to its X link. */
  datatype Component = Popover(imageParam: string) | Floating

  /** `shareUrls[platform]` in each component; `None` is `undefined` (including a missing key). */
  function UrlFor(c: Component, l: Links, platform: Platform): (r: Option<string>)
    ensures r.None? <==> (platform == Native && c.Floating?) || (platform == Pinterest && l.pinterest.None?)
    ensures platform == Native && r.Some? ==> r.value == ""
    ensures platform == X ==> r.Some? && StartsWith(r.value, l.x)
  {
    match platform
    case Native => if c.Popover? then Some("") else None
    case WhatsApp => Some(l.whatsapp)
    case Telegram => Some(l.telegram)
    case Facebook => Some(l.facebook)
    case X => if c.Popover? then Some(l.x + c.imageParam) else Some(l.x)
    case LinkedIn => Some(l.linkedin)
    case Pinterest => l.pinterest
  }

  /**
   * The keys of each `shareUrls` object, in the order `Object.entries` lists
   * them: each platform at most once, all seven in the popover and all but
   * the native entry in the floating bar.
   */
  function Keys(c: Component): (k: seq<Platform>)
    ensures |k| == if c.Popover? then 7 else 6
    ensures Native in k <==> c.Popover?
    ensures forall i, j :: 0 <= i < j < |k| ==> k[i] != k[j]
  {
    if c.Popover? then [Native, WhatsApp, Telegram, Facebook, X, LinkedIn, Pinterest]
    else [Facebook, X, LinkedIn, WhatsApp, Telegram, Pinterest]
  }

  /** The `url &&` filter: the keys, in order, whose URL is truthy get a button. */
  function Rendered(c: Component, l: Links, keys: seq<Platform>): (r: seq<Platform>)
    ensures |r| <= |keys|
    ensures forall i :: 0 <= i < |r| ==> Truthy(UrlFor(c, l, r[i]))
  {
    if keys == [] then []
    else (if Truthy(UrlFor(c, l, keys[0])) then [keys[0]] else []) + Rendered(c, l, keys[1..])
  }

  /** A key gets a button exactly when it is listed and its URL is truthy. */
  lemma {:induction false} RenderedIff(c: Component, l: Links, keys: seq<Platform>, platform: Platform)
    ensures platform in Rendered(c, l, keys) <==> platform in keys && Truthy(UrlFor(c, l, platform))
  {
    if keys != [] {
      RenderedIff(c, l, keys[1..], platform);
      assert keys == [keys[0]] + keys[1..];
    }
  }

  /** Every fixed link is a non-empty string, and so is the Pinterest link when there is one. */
  predicate LinksSet(l: Links) {
    l.whatsapp != "" && l.telegram != "" && l.facebook != "" && l.x != "" && l.linkedin != ""
    && (l.pinterest.Some? ==> l.pinterest.value != "")
  }

  /** The popover's buttons: the five fixed platforms in key order, then Pinterest when there is a link. */
  lemma {:induction false} PopoverButtonsFor(l: Links, imageParam: string)
    requires LinksSet(l)
    ensures Rendered(Popover(imageParam), l, Keys(Popover(imageParam)))
      == [WhatsApp, Telegram, Facebook, X, LinkedIn] + (if l.pinterest.Some? then [Pinterest] else [])
  {
    var c := Popover(imageParam);
    var k := Keys(c);
    assert Rendered(c, l, k[6..]) == if l.pinterest.Some? then [Pinterest] else [] by {
      assert k[6..][1..] == [];
    }
    assert Rendered(c, l, k[5..]) == [LinkedIn] + Rendered(c, l, k[6..]);
    assert Rendered(c, l, k[4..]) == [X] + Rendered(c, l, k[5..]);
    assert Rendered(c, l, k[3..]) == [Facebook] + Rendered(c, l, k[4..]);
    assert Rendered(c, l, k[2..]) == [Telegram] + Rendered(c, l, k[3..]);
    assert Rendered(c, l, k[1..]) == [WhatsApp] + Rendered(c, l, k[2..]);
  }

  /** The floating bar's buttons: its five fixed platforms in key order, then Pinterest when there is a link. */
  lemma {:induction false} FloatingButtonsFor(l: Links)
    requires LinksSet(l)
    ensures Rendered(Floating, l, Keys(Floating))
      == [Facebook, X, LinkedIn, WhatsApp, Telegram] + (if l.pinterest.Some? then [Pinterest] else [])
  {
    var k := Keys(Floating);
    assert Rendered(Floating, l, k[5..]) == if l.pinterest.Some? then [Pinterest] else [] by {
      assert k[5..][1..] == [];
    }
    assert Rendered(Floating, l, k[4..]) == [Telegram] + Rendered(Floating, l, k[5..]);
    assert Rendered(Floating, l, k[3..]) == [WhatsApp] + Rendered(Floating, l, k[4..]);
    assert Rendered(Floating, l, k[2..]) == [LinkedIn] + Rendered(Floating, l, k[3..]);
    assert Rendered(Floating, l, k[1..]) == [X] + Rendered(Floating, l, k[2..]);
  }

  /**
   * The buttons each component shows for a post: the fixed platforms in
   * key order, then Pinterest exactly when an image is given. The native
   * entry's empty URL keeps it from ever being shown.
   */
  lemma Buttons(
    enc: string -> string, url: string, title: string, excerpt: string,
    image: Option<string>, category: Option<string>, c: Component)
    ensures var r := Rendered(c, ShareLinks(enc, url, title, excerpt, image, category), Keys(c));
      var pin := if Truthy(image) then [Pinterest] else [];
      && (c.Popover? ==> r == [WhatsApp, Telegram, Facebook, X, LinkedIn] + pin)
      && (c.Floating? ==> r == [Facebook, X, LinkedIn, WhatsApp, Telegram] + pin)
  {
    var l := ShareLinks(enc, url, title, excerpt, image, category);
    if c.Popover? {
      PopoverButtonsFor(l, c.imageParam);
    } else {
      FloatingButtonsFor(l);
    }
  }

  /**
   * The two components build the same links, except that the popover's X
   * link carries the image parameter, and only the popover has a native entry.
   */
  lemma PopoverMatchesFloating(
    enc: string -> string, url: string, title: string, excerpt: string,
    image: Option<string>, category: Option<string>, platform: Platform)
    ensures var l := ShareLinks(enc, url, title, excerpt, image, category);
      var pop := UrlFor(Popover(ImageParam(enc, image)), l, platform);
      var flo := UrlFor(Floating, l, platform);
      && (platform == X ==> pop == Some(flo.value + ImageParam(enc, image)) && (pop == flo <==> !Truthy(image)))
      && (platform == Native ==> pop == Some("") && flo == None)
      && (platform != X && platform != Native ==> pop == flo)
      && (platform == Pinterest ==> (pop.Some? <==> Truthy(image)))
  {
    var l := ShareLinks(enc, url, title, excerpt, image, category);
    if platform == X {
      assert l.x + "" == l.x;
      if Truthy(image) {
        assert |l.x + ImageParam(enc, image)| > |l.x|;
      }
    }
  }

  datatype ShareAction = NativeShare | OpenWindow(url: string) | NoAction

  /** The popover's `handleShare`: the native branch needs `navigator.share`; otherwise a truthy URL opens a window. */
  function PopoverShareAction(l: Links, imageParam: string, platform: Platform, canShareNatively: bool): (a: ShareAction)
    ensures a.NativeShare? <==> platform == Native && canShareNatively
    ensures a.OpenWindow? ==> UrlFor(Popover(imageParam), l, platform) == Some(a.url) && a.url != ""
    ensures a == NoAction <==>
      !(platform == Native && canShareNatively) && !Truthy(UrlFor(Popover(imageParam), l, platform))
  {
    if platform == Native && canShareNatively then NativeShare
    else
      var u := UrlFor(Popover(imageParam), l, platform);
      if Truthy(u) then OpenWindow(u.value) else NoAction
  }

  /** The floating bar's `handleShare`: a truthy URL opens a window, nothing else does anything. */
  function FloatingShareAction(l: Links, platform: Platform): (a: ShareAction)
    ensures !a.NativeShare?
    ensures a.OpenWindow? <==> Truthy(UrlFor(Floating, l, platform))
    ensures a.OpenWindow? ==> UrlFor(Floating, l, platform) == Some(a.url)
  {
    var u := UrlFor(Floating, l, platform);
    if Truthy(u) then OpenWindow(u.value) else NoAction
  }

  /**
   * Every button the popover renders opens its own link, whether or not
   * `navigator.share` exists: the native branch is never reachable from a
   * button, and native without `navigator.share` does nothing.
   */
  lemma PopoverButtonsOpenLinks(
    enc: string -> string, url: string, title: string, excerpt: string,
    image: Option<string>, category: Option<string>, canShareNatively: bool)
    ensures var l := ShareLinks(enc, url, title, excerpt, image, category);
      var c := Popover(ImageParam(enc, image));
      && Native !in Rendered(c, l, Keys(c))
      && PopoverShareAction(l, c.imageParam, Native, false) == NoAction
      && forall p :: p in Rendered(c, l, Keys(c)) ==>
           UrlFor(c, l, p).Some?
           && PopoverShareAction(l, c.imageParam, p, canShareNatively) == OpenWindow(UrlFor(c, l, p).value)
  {
    var l := ShareLinks(enc, url, title, excerpt, image, category);
    var c := Popover(ImageParam(enc, image));
    forall p | p in Rendered(c, l, Keys(c))
      ensures p != Native && Truthy(UrlFor(c, l, p))
    {
      RenderedIff(c, l, Keys(c), p);
    }
  }

  /** The floating bar's icons: facebook, x, linkedin, whatsapp, telegram, then pinterest with an image. */
  method BuildSocialIcons(image: Option<string>) returns (icons: seq<Platform>)
    ensures |icons| == if Truthy(image) then 6 else 5
    ensures icons[..5] == [Facebook, X, LinkedIn, WhatsApp, Telegram]
    ensures |icons| == 5 || icons[5] == Pinterest
  {
    icons := [Facebook, X, LinkedIn, WhatsApp, Telegram];
    if Truthy(image) {
      icons := icons + [Pinterest];
    }
  }

  /**
   * The icons `BuildSocialIcons` promises are exactly the buttons the
   * floating bar's links allow, in the same order, and each opens a window.
   */
  lemma FloatingIconsOpenLinks(
    enc: string -> string, url: string, title: string, excerpt: string,
    image: Option<string>, category: Option<string>, icons: seq<Platform>)
    requires |icons| == if Truthy(image) then 6 else 5
    requires icons[..5] == [Facebook, X, LinkedIn, WhatsApp, Telegram]
    requires |icons| == 5 || icons[5] == Pinterest
    ensures var l := ShareLinks(enc, url, title, excerpt, image, category);
      && icons == Rendered(Floating, l, Keys(Floating))
      && forall i :: 0 <= i < |icons| ==> FloatingShareAction(l, icons[i]).OpenWindow?
  {
    var l := ShareLinks(enc, url, title, excerpt, image, category);
    Buttons(enc, url, title, excerpt, image, category, Floating);
    if |icons| == 5 {
      assert icons == icons[..5];
    } else {
      assert icons == icons[..5] + [icons[5]];
    }
    forall i | 0 <= i < |icons| ensures FloatingShareAction(l, icons[i]).OpenWindow? {
      RenderedIff(Floating, l, Keys(Floating), icons[i]);
    }
  }
}
