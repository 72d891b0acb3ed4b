/**
 * The content-precedence rule of `updateHtmlAndTextWithRenderedTemplates`, as a function of the
 * message's state. An explicitly set body wins while the context was never customised; otherwise a
 * template render wins; the plain part falls back to the text of the HTML render; and each body
 * is kept as the last resort. A body is only ever replaced by a truthy string.
 */
module Resolver {
  import opened Wrappers
  import opened Php
  import opened ViewData

  /** The foreign calls the resolver makes, as uninterpreted total functions. */
  datatype Renderer = Renderer(
    /** `$data->renderWith($template, $data)`, read as its HTML text */
    render: (string, Context) -> string,
    /** `->Plain()` of an HTML fragment: its text with the markup stripped */
    plain: string -> string,
    /** `html_entity_decode` */
    decodeEntities: string -> string)

  /** What the resolver reads from the message before it renders anything. */
  datatype Inputs = Inputs(
    htmlBody: Option<string>,
    textBody: Option<string>,
    /** `getHTMLTemplate()`: the configured name or the theme's default */
    htmlTemplate: string,
    /** `getPlainTemplate()` */
    plainTemplate: string,
    /** `getData()`: the context with the email defaults filled in */
    context: Context,
    dataHasBeenSet: bool)

  /** The two bodies of a message. */
  datatype Bodies = Bodies(html: Option<string>, text: Option<string>)

  /** A body is a candidate render of its own only while the context has not been customised. */
  function Explicit(i: Inputs, body: Option<string>): Option<string> {
    if i.dataHasBeenSet then None else body
  }

  /** The HTML template rendered against the context, when an HTML template is named. */
  function HtmlTemplateRender(i: Inputs, r: Renderer): Option<string> {
    if Truthy(i.htmlTemplate) then Some(r.render(i.htmlTemplate, i.context)) else None
  }

  /** The plain template rendered against the context and reduced to text, when one is named. */
  function PlainTemplateRender(i: Inputs, r: Renderer): Option<string> {
    if Truthy(i.plainTemplate) then Some(r.plain(r.render(i.plainTemplate, i.context))) else None
  }

  /** The HTML obtained from the explicit body or the HTML template (before the last resort). */
  function HtmlRender(i: Inputs, r: Renderer): Option<string> {
    Either(Explicit(i, i.htmlBody), HtmlTemplateRender(i, r))
  }

  /** The text of an HTML render: entities decoded, then markup stripped. */
  function TextOfHtml(html: Option<string>, r: Renderer): Option<string> {
    if Present(html) then Some(r.plain(r.decodeEntities(html.value))) else None
  }

  /** The text obtained from the explicit body, the plain template, or the HTML render. */
  function PlainRender(i: Inputs, r: Renderer): Option<string> {
    Either(Either(Explicit(i, i.textBody), PlainTemplateRender(i, r)), TextOfHtml(HtmlRender(i, r), r))
  }

  /** The bodies the message carries after resolution; `plainOnly` suppresses the HTML write. */
  function Resolve(i: Inputs, r: Renderer, plainOnly: bool): (out: Bodies)
    // nothing to render: both bodies stay as they were
    ensures !Truthy(i.htmlTemplate) && !Truthy(i.plainTemplate) && !Present(i.htmlBody) && !Present(i.textBody)
      ==> out == Bodies(i.htmlBody, i.textBody)
    // without customised data, a set body is kept
    ensures !i.dataHasBeenSet && Present(i.htmlBody) ==> out.html == i.htmlBody
    ensures !i.dataHasBeenSet && Present(i.textBody) ==> out.text == i.textBody
    // when no body counts as explicit (none set, or the data was customised), a truthy template
    // render replaces whatever body was set
    ensures !plainOnly && !Present(Explicit(i, i.htmlBody)) && Truthy(i.htmlTemplate) && Truthy(r.render(i.htmlTemplate, i.context))
      ==> out.html == Some(r.render(i.htmlTemplate, i.context))
    ensures !Present(Explicit(i, i.textBody)) && Truthy(i.plainTemplate) && Truthy(r.plain(r.render(i.plainTemplate, i.context)))
      ==> out.text == Some(r.plain(r.render(i.plainTemplate, i.context)))
    // whatever render is obtained is written (the HTML one unless plain-only)
    ensures !plainOnly && Present(HtmlRender(i, r)) ==> out.html == HtmlRender(i, r)
    ensures Present(PlainRender(i, r)) ==> out.text == PlainRender(i, r)
    // with customised data and no template named, both set bodies survive
    ensures i.dataHasBeenSet && !Truthy(i.htmlTemplate) && !Truthy(i.plainTemplate)
      ==> out == Bodies(i.htmlBody, i.textBody)
    // no plain render of its own: the text is derived from the HTML render when that gives text
    ensures !Present(Explicit(i, i.textBody)) && !Present(PlainTemplateRender(i, r)) && Present(HtmlRender(i, r))
      ==> out.text == Either(Some(r.plain(r.decodeEntities(HtmlRender(i, r).value))), i.textBody)
    // no render at all: the set body is the last resort
    ensures !Present(HtmlRender(i, r)) ==> out.html == i.htmlBody
    ensures !Present(PlainRender(i, r)) ==> out.text == i.textBody
    // a plain-only resolution never writes the HTML body
    ensures plainOnly ==> out.html == i.htmlBody
    // a body is either left alone or replaced by a truthy string
    ensures out.html == i.htmlBody || Present(out.html)
    ensures out.text == i.textBody || Present(out.text)
  {
    Bodies(
      if plainOnly then i.htmlBody else Either(HtmlRender(i, r), i.htmlBody),
      Either(PlainRender(i, r), i.textBody))
  }

  /** Resolving twice, with nothing changed in between but the bodies the first pass wrote, changes nothing more. */
  lemma ResolveIdempotent(i: Inputs, r: Renderer, plainOnly: bool)
    ensures var once := Resolve(i, r, plainOnly);
            Resolve(i.(htmlBody := once.html, textBody := once.text), r, plainOnly) == once
  {
  }

  /** A plain-only resolution yields the same text as a full one and leaves the HTML body alone. */
  lemma PlainOnlyKeepsText(i: Inputs, r: Renderer)
    ensures Resolve(i, r, true) == Bodies(i.htmlBody, Resolve(i, r, false).text)
  {
  }
}
