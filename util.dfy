/** `src/util.rs`: helpers turning an optional server URL into what an image
    widget needs, and markdown into Pango markup. */
module Util {
  import opened Wrappers
  import opened LemmyTypes

  /** `WebImageMsg` of the image widget: load an image from a URL, or show none. */
  datatype WebImageMsg = LoadImage(url: string) | Unload

  /** `get_web_image_msg`: load the image when there is a URL, unload otherwise. */
  function GetWebImageMsg(url: Option<DbUrl>): (r: WebImageMsg)
    ensures r.Unload? <==> url.None?
    ensures r.LoadImage? ==> r.url == url.value.serialization
  {
    if url.Some? then LoadImage(url.value.serialization) else Unload
  }

  /** `get_web_image_url`: the URL's serialisation, or the empty string. */
  function GetWebImageUrl(url: Option<DbUrl>): (r: string)
    ensures r == "" <==> url.None?
    ensures url.Some? ==> r == url.value.serialization
  {
    if url.Some? then url.value.serialization else ""
  }

  /** Both helpers agree: the image message carries exactly the string
      `get_web_image_url` gives for the same URL, and the empty string means Unload. */
  lemma WebImageMsgCarriesUrl(url: Option<DbUrl>)
    ensures url.Some? ==> GetWebImageMsg(url) == LoadImage(GetWebImageUrl(url))
    ensures GetWebImageMsg(url) == Unload <==> GetWebImageUrl(url) == ""
  {
  }

  /** `markdown_to_pango_markup`. The markdown-to-HTML converter and the
      HTML-to-Pango converter are foreign code and are passed in; the second
      one may fail, in which case the original text is shown as it is. */
  function MarkdownToPangoMarkup(text: string, toHtml: string -> string,
                                 markupHtml: string -> Option<string>): (r: string)
    ensures markupHtml(toHtml(text)).Some? ==> r == markupHtml(toHtml(text)).value
    ensures markupHtml(toHtml(text)).None? ==> r == text
  {
    match markupHtml(toHtml(text))
    case Some(markup) => markup
    case None => text
  }
}
