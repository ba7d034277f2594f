/** The banner's helpers (shared/components/banner/utils/bannerUtils.ts) and
    the conversion of CMS data to banner properties
    (shared/components/banner/types.ts). */
module Banner {
  import opened Wrappers

  datatype BannerHeight = Small | Medium | Large

  /** The key of a height in `HEIGHT_CLASSES`. */
  function HeightKey(h: BannerHeight): (key: string)
    ensures key in HEIGHT_CLASSES
  {
    match h
    case Small => "small"
    case Medium => "medium"
    case Large => "large"
  }

  const HEIGHT_CLASSES: map<string, string> := map[
    "small" := "h-[40vh] md:h-[30vh]",
    "medium" := "h-[50vh] md:h-[40vh]",
    "large" := "h-[60vh] md:h-[50vh] lg:h-[60vh]"]

  /** The height classes are keyed by exactly the three heights, one key each. */
  lemma HeightClassKeys()
    ensures HEIGHT_CLASSES.Keys == set h: BannerHeight | true :: HeightKey(h)
    ensures forall a: BannerHeight, b: BannerHeight :: HeightKey(a) == HeightKey(b) ==> a == b
  {
    assert HeightKey(Small) == "small" && HeightKey(Medium) == "medium" && HeightKey(Large) == "large";
    assert "small"[1] != "medium"[1] && "small"[0] != "large"[0] && "medium"[0] != "large"[0];
  }

  /** A banner image: a bare URL or an object with its own alt text. */
  datatype BannerImage = Url(url: string) | Described(src: string, alt: string)

  /** `getImageSource(image)` */
  function ImageSource(image: BannerImage): (src: string)
    ensures image.Url? ==> src == image.url
    ensures image.Described? ==> src == image.src
  {
    match image
    case Url(url) => url
    case Described(src, _) => src
  }

  /** `getImageAlt(image, imageAlt)`: a non-empty `imageAlt` wins; otherwise
      the object's own alt, which may be empty, or "Banner image" for a bare URL. */
  function ImageAlt(image: BannerImage, imageAlt: Option<string>): (alt: string)
    ensures imageAlt.Some? && imageAlt.value != "" ==> alt == imageAlt.value
    ensures (imageAlt.None? || imageAlt.value == "") && image.Described? ==> alt == image.alt
    ensures (imageAlt.None? || imageAlt.value == "") && image.Url? ==> alt == "Banner image"
  {
    if imageAlt.Some? && imageAlt.value != "" then imageAlt.value
    else if image.Described? then image.alt
    else "Banner image"
  }

  /** An empty `imageAlt` is the same as none. */
  lemma EmptyImageAltIgnored(image: BannerImage)
    ensures ImageAlt(image, Some("")) == ImageAlt(image, None)
  {
  }

  datatype CmsImage = CmsImage(url: string, alt: Option<string>, width: Option<int>, height: Option<int>)

  datatype BannerCmsData = BannerCmsData(
    image: CmsImage,
    title: Option<string>,
    subtitle: Option<string>,
    height: Option<BannerHeight>)

  datatype BannerProps = BannerProps(
    image: BannerImage,
    title: Option<string>,
    subtitle: Option<string>,
    height: Option<BannerHeight>,
    imageAlt: Option<string>)

  /** `convertCMSDataToBannerProps(cmsData)` */
  function ConvertCmsData(cms: BannerCmsData): (props: BannerProps)
    ensures props.image.Described? && props.image.src == cms.image.url
    ensures cms.image.alt.Some? && cms.image.alt.value != "" ==> props.image.alt == cms.image.alt.value
    ensures cms.image.alt.None? || cms.image.alt.value == "" ==> props.image.alt == "Banner image"
    ensures props.title == cms.title && props.subtitle == cms.subtitle
    ensures props.height == Some(if cms.height.Some? then cms.height.value else Large)
    ensures props.imageAlt == cms.image.alt
  {
    BannerProps(
      Described(cms.image.url, if cms.image.alt.Some? && cms.image.alt.value != "" then cms.image.alt.value else "Banner image"),
      cms.title,
      cms.subtitle,
      Some(if cms.height.Some? then cms.height.value else Large),
      cms.image.alt)
  }

  /** A banner built from CMS data shows the CMS URL, with the CMS alt text
      when there is one and "Banner image" otherwise; its alt is never empty. */
  lemma ConvertedBannerRenders(cms: BannerCmsData)
    ensures var props := ConvertCmsData(cms);
      ImageSource(props.image) == cms.image.url
      && ImageAlt(props.image, props.imageAlt)
         == (if cms.image.alt.Some? && cms.image.alt.value != "" then cms.image.alt.value else "Banner image")
      && ImageAlt(props.image, props.imageAlt) != ""
  {
  }
}
