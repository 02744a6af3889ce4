/**
 * The page head builder (src/lib/utils/seo.ts). `generateMetaTags`
 * resolves the defaults of a page description and emits the primary,
 * Open Graph, Twitter and crawler tags; the head is modelled as the list
 * of tags in emission order rather than as the indented text.
 */
module Seo {
  import opened Wrappers
  import opened JsString

  datatype PageType = Website | Article

  /** `SEOConfig`; the optional fields are `None` when left out. */
  datatype SeoConfig = SeoConfig(title: string, description: string, image: Option<string>, url: Option<string>,
                                 pageType: Option<PageType>, author: Option<string>, keywords: Option<seq<string>>)

  const BaseUrl := "https://map.monsan.duckdns.org"
  const DefaultImage := BaseUrl + "/og-image.png"
  const DefaultTitle := "LocaList - Mapeamento Colaborativo"
  const DefaultDescription :=
    "Descubra, avalie e compartilhe lugares incríveis. Sistema de mapeamento colaborativo com reviews, fotos e favoritos."

  /** The meta tags `generateMetaTags` can emit. */
  datatype Key =
    | TitleKey | DescriptionKey | KeywordsKey | AuthorKey
    | OgType | OgUrl | OgTitle | OgDescription | OgImage | OgSiteName | OgLocale
    | TwitterCard | TwitterUrl | TwitterTitle | TwitterDescription | TwitterImage
    | Robots | Googlebot

  datatype Tag = TitleTag(text: string) | Meta(key: Key, content: string) | Canonical(href: string)

  /** `s || fallback` on a string: the empty string is falsy. */
  function OrElse(s: string, fallback: string): string {
    if s == "" then fallback else s
  }

  /** `o || fallback` on an optional string. */
  function OptOrElse(o: Option<string>, fallback: string): string {
    if o.Some? then OrElse(o.value, fallback) else fallback
  }

  function PageTypeName(t: PageType): string {
    match t
    case Website => "website"
    case Article => "article"
  }

  /** The five resolved values of `generateMetaTags`. */
  function ResolvedTitle(c: SeoConfig): string { OrElse(c.title, DefaultTitle) }
  function ResolvedDescription(c: SeoConfig): string { OrElse(c.description, DefaultDescription) }
  function ResolvedImage(c: SeoConfig): string { OptOrElse(c.image, DefaultImage) }
  function ResolvedUrl(c: SeoConfig): string { OptOrElse(c.url, BaseUrl) }
  function ResolvedType(c: SeoConfig): string { PageTypeName(c.pageType.GetOr(Website)) }

  /** The meta tags of the template, in emission order. */
  const KeyOrder: seq<Key> :=
    [TitleKey, DescriptionKey, KeywordsKey, AuthorKey,
     OgType, OgUrl, OgTitle, OgDescription, OgImage, OgSiteName, OgLocale,
     TwitterCard, TwitterUrl, TwitterTitle, TwitterDescription, TwitterImage,
     Robots, Googlebot]

  /**
   * The `content` of the tag with key `k`, or `None` when the template
   * leaves it out: keywords are emitted for any array (even an empty one
   * is truthy), the author only when non-empty.
   */
  function TagContent(c: SeoConfig, k: Key): Option<string> {
    match k
    case TitleKey => Some(ResolvedTitle(c))
    case DescriptionKey => Some(ResolvedDescription(c))
    case KeywordsKey => if c.keywords.Some? then Some(Join(c.keywords.value, ", ")) else None
    case AuthorKey => if c.author.Some? && c.author.value != "" then Some(c.author.value) else None
    case OgType => Some(ResolvedType(c))
    case OgUrl => Some(ResolvedUrl(c))
    case OgTitle => Some(ResolvedTitle(c))
    case OgDescription => Some(ResolvedDescription(c))
    case OgImage => Some(ResolvedImage(c))
    case OgSiteName => Some("LocaList")
    case OgLocale => Some("pt_BR")
    case TwitterCard => Some("summary_large_image")
    case TwitterUrl => Some(ResolvedUrl(c))
    case TwitterTitle => Some(ResolvedTitle(c))
    case TwitterDescription => Some(ResolvedDescription(c))
    case TwitterImage => Some(ResolvedImage(c))
    case Robots => Some("index, follow")
    case Googlebot => Some("index, follow")
  }

  /** The meta tags for `keys`, in that order, skipping the ones left out. */
  function MetaTagsFor(c: SeoConfig, keys: seq<Key>): seq<Tag> {
    if keys == [] then []
    else
      var rest := MetaTagsFor(c, keys[1..]);
      match TagContent(c, keys[0])
      case Some(v) => [Meta(keys[0], v)] + rest
      case None => rest
  }

  /** `generateMetaTags(config)`, tag by tag: the title, the meta tags, the canonical link. */
  function MetaTags(c: SeoConfig): seq<Tag> {
    [TitleTag(ResolvedTitle(c))] + MetaTagsFor(c, KeyOrder) + [Canonical(ResolvedUrl(c))]
  }

  /** The contents the meta tags with key `k` carry. */
  function Values(tags: seq<Tag>, k: Key): (r: set<string>)
    ensures forall v :: v in r <==> Meta(k, v) in tags
  {
    set t | t in tags && t.Meta? && t.key == k :: t.content
  }

  lemma {:induction false} ValuesOfMetaTagsFor(c: SeoConfig, keys: seq<Key>, k: Key)
    ensures Values(MetaTagsFor(c, keys), k) == if k in keys && TagContent(c, k).Some? then {TagContent(c, k).value} else {}
  {
    if keys != [] {
      ValuesOfMetaTagsFor(c, keys[1..], k);
      var rest := MetaTagsFor(c, keys[1..]);
      assert k in keys <==> k == keys[0] || k in keys[1..];
      match TagContent(c, keys[0])
      case Some(v) =>
        assert MetaTagsFor(c, keys) == [Meta(keys[0], v)] + rest;
        assert forall w :: Meta(k, w) in MetaTagsFor(c, keys) <==> Meta(k, w) == Meta(keys[0], v) || Meta(k, w) in rest;
      case None =>
    }
  }

  /** An emitted key carries its content and nothing else; a key left out carries nothing. */
  lemma ValuesOfMetaTags(c: SeoConfig, k: Key)
    ensures Values(MetaTags(c), k) == if TagContent(c, k).Some? then {TagContent(c, k).value} else {}
  {
    ValuesOfMetaTagsFor(c, KeyOrder, k);
    KeyInOrder(k);
    ValuesAppend([TitleTag(ResolvedTitle(c))] + MetaTagsFor(c, KeyOrder), [Canonical(ResolvedUrl(c))], k);
    ValuesAppend([TitleTag(ResolvedTitle(c))], MetaTagsFor(c, KeyOrder), k);
  }

  /** Every key is in the template. */
  lemma KeyInOrder(k: Key)
    ensures k in KeyOrder
  {
    var i := match k
      case TitleKey => 0 case DescriptionKey => 1 case KeywordsKey => 2 case AuthorKey => 3
      case OgType => 4 case OgUrl => 5 case OgTitle => 6 case OgDescription => 7 case OgImage => 8
      case OgSiteName => 9 case OgLocale => 10 case TwitterCard => 11 case TwitterUrl => 12
      case TwitterTitle => 13 case TwitterDescription => 14 case TwitterImage => 15
      case Robots => 16 case Googlebot => 17;
    assert KeyOrder[i] == k;
  }

  lemma ValuesAppend(a: seq<Tag>, b: seq<Tag>, k: Key)
    ensures Values(a + b, k) == Values(a, k) + Values(b, k)
  {
    assert forall t :: t in a + b <==> t in a || t in b;
  }

  /** The page title: the given one unless empty, in the title tag and in all three title meta tags; likewise the description. */
  lemma TitleAndDescription(c: SeoConfig)
    ensures var tags := MetaTags(c); var t := if c.title == "" then DefaultTitle else c.title;
      && tags[0] == TitleTag(t)
      && Values(tags, TitleKey) == {t}
      && Values(tags, OgTitle) == {t}
      && Values(tags, TwitterTitle) == {t}
    ensures var tags := MetaTags(c); var d := if c.description == "" then DefaultDescription else c.description;
      && Values(tags, DescriptionKey) == {d}
      && Values(tags, OgDescription) == {d}
      && Values(tags, TwitterDescription) == {d}
  {
    ValuesOfMetaTags(c, TitleKey);
    ValuesOfMetaTags(c, OgTitle);
    ValuesOfMetaTags(c, TwitterTitle);
    ValuesOfMetaTags(c, DescriptionKey);
    ValuesOfMetaTags(c, OgDescription);
    ValuesOfMetaTags(c, TwitterDescription);
  }

  /** `og:image` and `twitter:image` carry the same image, which falls back to `/og-image.png` on the site. */
  lemma ImageTags(c: SeoConfig)
    ensures Values(MetaTags(c), OgImage) == {ResolvedImage(c)}
    ensures Values(MetaTags(c), TwitterImage) == {ResolvedImage(c)}
    ensures ResolvedImage(c) == if c.image.Some? && c.image.value != "" then c.image.value else BaseUrl + "/og-image.png"
  {
    ValuesOfMetaTags(c, OgImage);
    ValuesOfMetaTags(c, TwitterImage);
  }

  /** `og:type` carries the page type, `website` when none is given. */
  lemma TypeTag(c: SeoConfig)
    ensures Values(MetaTags(c), OgType) == {ResolvedType(c)}
    ensures ResolvedType(c) == PageTypeName(if c.pageType.Some? then c.pageType.value else Website)
  {
    ValuesOfMetaTags(c, OgType);
  }

  /** The canonical link, `og:url` and `twitter:url` all carry the resolved url, which falls back to the site. */
  lemma UrlEverywhere(c: SeoConfig)
    ensures var tags := MetaTags(c); var u := if c.url.Some? && c.url.value != "" then c.url.value else BaseUrl;
      && Values(tags, OgUrl) == {u}
      && Values(tags, TwitterUrl) == {u}
      && tags[|tags| - 1] == Canonical(u)
      && (forall t :: t in tags && t.Canonical? ==> t.href == u)
  {
    var tags := MetaTags(c);
    ValuesOfMetaTags(c, OgUrl);
    ValuesOfMetaTags(c, TwitterUrl);
    NoCanonicalAmongMeta(c, KeyOrder);
    forall t | t in tags && t.Canonical?
      ensures t.href == ResolvedUrl(c)
    {
      var i :| 0 <= i < |tags| && tags[i] == t;
      assert i == |tags| - 1;
    }
  }

  lemma {:induction false} NoCanonicalAmongMeta(c: SeoConfig, keys: seq<Key>)
    ensures forall t :: t in MetaTagsFor(c, keys) ==> t.Meta?
  {
    if keys != [] {
      NoCanonicalAmongMeta(c, keys[1..]);
    }
  }

  /** The keywords tag exists exactly when keywords are given, joined by `, `; the author tag exactly when the author is non-empty. */
  lemma OptionalTags(c: SeoConfig)
    ensures Values(MetaTags(c), KeywordsKey) == if c.keywords.Some? then {Join(c.keywords.value, ", ")} else {}
    ensures Values(MetaTags(c), AuthorKey) == if c.author.Some? && c.author.value != "" then {c.author.value} else {}
  {
    ValuesOfMetaTags(c, KeywordsKey);
    ValuesOfMetaTags(c, AuthorKey);
  }

  /** `getSEOForPin` */
  function SeoForPin(pinName: string, pinDescription: Option<string>, pinImage: Option<string>): SeoConfig {
    SeoConfig(pinName + " - LocaList",
              OptOrElse(pinDescription, "Veja avaliações, fotos e informações sobre " + pinName + " no LocaList"),
              pinImage, None, Some(Article), None, None)
  }

  /**
   * A pin page is an article titled `<name> - LocaList` (never the default
   * title), described by the given description or by one naming the pin.
   */
  lemma PinPage(pinName: string, pinDescription: Option<string>, pinImage: Option<string>)
    ensures var tags := MetaTags(SeoForPin(pinName, pinDescription, pinImage));
      && tags[0] == TitleTag(pinName + " - LocaList")
      && Values(tags, OgType) == {"article"}
      && Values(tags, KeywordsKey) == {} && Values(tags, AuthorKey) == {}
    ensures var tags := MetaTags(SeoForPin(pinName, pinDescription, pinImage));
      Values(tags, DescriptionKey) ==
        if pinDescription.Some? && pinDescription.value != "" then {pinDescription.value}
        else {"Veja avaliações, fotos e informações sobre " + pinName + " no LocaList"}
  {
    var c := SeoForPin(pinName, pinDescription, pinImage);
    assert c.title != "";
    assert c.description != "";
    TitleAndDescription(c);
    TypeTag(c);
    OptionalTags(c);
  }

  /** `getSEOForFavorites` */
  function SeoForFavorites(userName: Option<string>): SeoConfig {
    var owner := if userName.Some? && userName.value != "" then " de " + userName.value else "";
    SeoConfig("Favoritos" + owner + " - LocaList", "Meus lugares favoritos salvos no LocaList",
              None, None, Some(Website), None, None)
  }

  /** The favourites title names the user exactly when a non-empty name is given. */
  lemma FavoritesPage(userName: Option<string>)
    ensures var t := SeoForFavorites(userName).title;
      && StartsWith(t, "Favoritos") && t[|t| - |" - LocaList"|..] == " - LocaList"
      && (userName.Some? && userName.value != "" ==> Contains(t, " de " + userName.value))
      && (userName.None? || userName.value == "" ==> t == "Favoritos" + " - LocaList")
    ensures Values(MetaTags(SeoForFavorites(userName)), OgType) == {"website"}
  {
    var t := SeoForFavorites(userName).title;
    if userName.Some? && userName.value != "" {
      var s := " de " + userName.value;
      assert t == "Favoritos" + s + " - LocaList";
      ContainsAfter(t, s, |"Favoritos"|);
    }
    TypeTag(SeoForFavorites(userName));
  }

  /** A string that holds `sub` at position `k` contains it. */
  lemma {:induction false} ContainsAfter(s: string, sub: string, k: nat)
    requires k + |sub| <= |s| && s[k..k + |sub|] == sub
    ensures Contains(s, sub)
    decreases k
  {
    if k > 0 {
      assert s[1..][k - 1..k - 1 + |sub|] == sub;
      ContainsAfter(s[1..], sub, k - 1);
    }
  }

  /** `defaultSEO` */
  const DefaultSeo := SeoConfig(DefaultTitle, DefaultDescription, None, None, Some(Website), None,
                                Some(["mapa", "colaborativo", "reviews", "avaliações", "lugares", "localização",
                                      "GPS", "favoritos", "fotos"]))
}
