/** The card image of an article (shared/components/articles/utils/articleImageUtils.ts):
    the first medium image, else the first small image, with a relative URL
    resolved against the assets host. */
module ArticleImage {
  import opened Wrappers
  import opened Strings
  import opened IdeasTypes

  const DEFAULT_ASSETS_BASE := "https://assets.suitdev.com"

  /** `NEXT_PUBLIC_ASSETS_BASE_URL || "https://assets.suitdev.com"` */
  function AssetsBase(env: Option<string>): (base: string)
    ensures base != ""
    ensures env.Some? && env.value != "" ==> base == env.value
    ensures env.None? || env.value == "" ==> base == DEFAULT_ASSETS_BASE
  {
    if env.Some? && env.value != "" then env.value else DEFAULT_ASSETS_BASE
  }

  predicate IsAbsolute(url: string) {
    StartsWith(url, "http://") || StartsWith(url, "https://")
  }

  /** One image URL as the card uses it: trimmed, kept when absolute, joined to
      the assets host otherwise; `None` when nothing is left after trimming. */
  function ResolveUrl(base: string, raw: string): (r: Option<string>)
    ensures r.None? <==> Trim(raw) == ""
    ensures r.Some? && IsAbsolute(Trim(raw)) ==> r.value == Trim(raw)
    ensures r.Some? && !IsAbsolute(Trim(raw)) ==>
      r.value == base + (if StartsWith(Trim(raw), "/") then "" else "/") + Trim(raw)
  {
    var url := Trim(raw);
    if |url| == 0 then None
    else if StartsWith(url, "http://") || StartsWith(url, "https://") then Some(url)
    else if StartsWith(url, "/") then Some(base + url)
    else Some(base + "/" + url)
  }

  /** `getUrlFromImageArray(images)`: only the first image counts; a missing
      or empty list, or a first image without a URL, gives `None`. */
  function UrlFromImages(base: string, images: Option<seq<ArticleImage>>): (r: Option<string>)
    ensures r.Some? ==> r.value != ""
    ensures images.None? || images.value == [] ==> r.None?
    ensures images.Some? && images.value != [] && images.value[0].url.Some? ==>
      r == ResolveUrl(base, images.value[0].url.value)
    ensures images.Some? && images.value != [] && images.value[0].url.None? ==> r.None?
  {
    if images.None? || |images.value| == 0 then None
    else
      var firstImage := images.value[0];
      if firstImage.url.None? || firstImage.url.value == "" then None
      else ResolveUrl(base, firstImage.url.value)
  }

  /** `getArticleImageUrl(article)`: the medium image's URL, else the small
      image's, else `None`. */
  function ArticleImageUrl(env: Option<string>, article: Article): (r: Option<string>)
    ensures var medium := UrlFromImages(AssetsBase(env), article.mediumImage);
      medium.Some? ==> r == medium
    ensures var medium := UrlFromImages(AssetsBase(env), article.mediumImage);
      medium.None? ==> r == UrlFromImages(AssetsBase(env), article.smallImage)
    ensures r.None? <==> UrlFromImages(AssetsBase(env), article.mediumImage).None?
                         && UrlFromImages(AssetsBase(env), article.smallImage).None?
  {
    var base := AssetsBase(env);
    var mediumUrl := UrlFromImages(base, article.mediumImage);
    if mediumUrl.Some? then mediumUrl
    else
      var smallUrl := UrlFromImages(base, article.smallImage);
      if smallUrl.Some? then smallUrl else None
  }

  /** An absolute base keeps every resolved URL absolute. */
  lemma ResolvedIsAbsolute(base: string, raw: string)
    requires IsAbsolute(base)
    requires ResolveUrl(base, raw).Some?
    ensures IsAbsolute(ResolveUrl(base, raw).value)
  {
    var url := Trim(raw);
    var r := ResolveUrl(base, raw).value;
    if !IsAbsolute(url) {
      assert r[..|base|] == base;
      if StartsWith(base, "http://") {
        assert r[..7] == base[..7];
      } else {
        assert r[..8] == base[..8];
      }
    }
  }

  /** Resolving is idempotent for an absolute base: a resolved URL resolves
      to itself. */
  lemma ResolveIdempotent(base: string, raw: string)
    requires IsAbsolute(base)
    requires ResolveUrl(base, raw).Some?
    ensures ResolveUrl(base, ResolveUrl(base, raw).value) == ResolveUrl(base, raw)
  {
    var url := Trim(raw);
    var r := ResolveUrl(base, raw).value;
    ResolvedIsAbsolute(base, raw);
    LastCharKept(base, raw);
    AbsoluteStartsClean(r);
    TrimFixed(r);
    AbsoluteResolvesToItself(base, r);
  }

  /** An absolute URL starts with 'h', which is not whitespace. */
  lemma AbsoluteStartsClean(u: string)
    requires IsAbsolute(u)
    ensures u != [] && !IsJsWhitespace(u[0])
  {
    assert u[..4] == "http"[..4];
  }

  /** An absolute URL with nothing to trim resolves to itself. */
  lemma AbsoluteResolvesToItself(base: string, u: string)
    requires IsAbsolute(u) && Trim(u) == u
    ensures ResolveUrl(base, u) == Some(u)
  {
  }

  /** A resolved URL ends where the trimmed raw URL ends. */
  lemma LastCharKept(base: string, raw: string)
    requires ResolveUrl(base, raw).Some?
    ensures var r := ResolveUrl(base, raw).value;
      r != [] && !IsJsWhitespace(r[|r| - 1])
  {
    var url := Trim(raw);
    var r := ResolveUrl(base, raw).value;
    if IsAbsolute(url) {
      assert r == url;
    } else {
      var sep := if StartsWith(url, "/") then "" else "/";
      assert r == (base + sep) + url;
      assert r[|r| - 1] == url[|url| - 1];
    }
  }
}
