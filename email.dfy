/**
 * The `TwigEmail` message: its bodies, its template names, its template context and the flag that
 * records whether the context was customised, with the operations that change them and the two
 * send operations, which resolve the bodies and hand the message to the transport.
 */
module Email {
  import opened Wrappers
  import opened Php
  import opened ViewData
  import opened Templates
  import opened Sender
  import opened Resolver

  /** The framework collaborators the class consults. */
  datatype Environment = Environment(
    renderer: Renderer,
    /** the theme's template for this class, as `ThemeResourceLoader` finds it */
    themeTemplate: string,
    /** `Director::absoluteBaseURL()` */
    baseURL: string,
    /** `Director::host()` */
    siteHost: string,
    /** the `admin_email` configuration */
    adminEmail: AdminEmail)

  /** The fields `getData` fills in where the context reads null. */
  function EmailDefaults(baseURL: string): (d: seq<(string, Value)>)
    ensures DistinctNames(d)
  {
    [("IsEmail", Bool(true)), ("BaseURL", Str(baseURL))]
  }

  /**
   * The context `getData` returns: a copy of `c` where "IsEmail" reads true and "BaseURL" reads the
   * base URL if they read null in `c`, and every other name reads as in `c`.
   */
  function WithEmailDefaults(c: Context, baseURL: string): (r: Context)
    ensures Lookup(r, "IsEmail") == if Lookup(c, "IsEmail").Null? then Bool(true) else Lookup(c, "IsEmail")
    ensures Lookup(r, "BaseURL") == if Lookup(c, "BaseURL").Null? then Str(baseURL) else Lookup(c, "BaseURL")
    ensures forall n :: n != "IsEmail" && n != "BaseURL" ==> Lookup(r, n) == Lookup(c, n)
    ensures r.failover == c.failover
  {
    var defaults := EmailDefaults(baseURL);
    FillDefaultsAt(c, defaults, 0);
    FillDefaultsAt(c, defaults, 1);
    forall n | n != "IsEmail" && n != "BaseURL" ensures Lookup(FillDefaults(c, defaults), n) == Lookup(c, n) {
      FillDefaultsElsewhere(c, defaults, n);
    }
    FillDefaults(c, defaults)
  }

  /** The argument of `addData`: one name (with a separate value) or an array of name => value. */
  datatype DataArgument = Name(name: string) | Entries(entries: seq<(string, Value)>)

  class TwigEmail {
    const env: Environment
    var from: From
    var htmlBody: Option<string>
    var textBody: Option<string>
    var HTMLTemplate: string
    var plainTemplate: string
    var data: Context
    var dataHasBeenSet: bool
    /** The messages handed to the transport so far, as the bodies they carried. */
    ghost var Sent: seq<Bodies>

    /** The constructor with the sender already chosen; see `Create` for the choice. */
    constructor (from: From, body: string, env: Environment)
      ensures this.env == env && this.from == from
      ensures htmlBody == (if Truthy(body) then Some(body) else None) && textBody == None
      ensures HTMLTemplate == "" && plainTemplate == ""
      ensures data == Blank && !dataHasBeenSet && Sent == []
    {
      this.env := env;
      this.from := from;
      htmlBody := if Truthy(body) then Some(body) else None;
      textBody := None;
      HTMLTemplate, plainTemplate := "", "";
      data := Blank;
      dataHasBeenSet := false;
      Sent := [];
    }

    /** `setBody` with a string or null: sets the HTML body directly. */
    method SetBody(body: Option<string>)
      modifies this`htmlBody
      ensures htmlBody == body
    {
      htmlBody := body;
    }

    /** The inherited `text()` setter of the plain body. */
    method Text(body: Option<string>)
      modifies this`textBody
      ensures textBody == body
    {
      textBody := body;
    }

    /** `getData`: the context with the email defaults, leaving the stored context as it is. */
    method GetData() returns (d: Context)
      ensures d == WithEmailDefaults(data, env.baseURL)
    {
      var extraData := EmailDefaults(env.baseURL);
      d := data;
      var i := 0;
      while i < |extraData|
        invariant 0 <= i <= |extraData|
        invariant d == FillDefaults(data, extraData[..i])
      {
        var (key, value) := extraData[i];
        if Lookup(d, key).Null? {
          d := SetField(d, key, value);
        }
        assert extraData[..i + 1][..i] == extraData[..i];
        i := i + 1;
      }
      assert extraData[..i] == extraData;
    }

    /** `setData`: installs `newData` as the context's failover and marks the context customised. */
    method SetData(newData: Fields)
      modifies this`data, this`dataHasBeenSet
      ensures data == old(data).(failover := Some(newData))
      ensures dataHasBeenSet
    {
      data := data.(failover := Some(newData));
      dataHasBeenSet := true;
    }

    /** `addData`: assigns one name, or every entry of an array in order, and marks the context customised. */
    method AddData(nameOrData: DataArgument, value: Value)
      modifies this`data, this`dataHasBeenSet
      ensures nameOrData.Name? ==> data == SetField(old(data), nameOrData.name, value)
      ensures nameOrData.Entries? ==> data == old(data).(fields := AssignAll(old(data).fields, nameOrData.entries))
      ensures dataHasBeenSet
    {
      match nameOrData {
        case Entries(entries) =>
          var i := 0;
          while i < |entries|
            invariant 0 <= i <= |entries|
            invariant data == old(data).(fields := AssignAll(old(data).fields, entries[..i]))
          {
            var (key, val) := entries[i];
            data := SetField(data, key, val);
            assert entries[..i + 1][..i] == entries[..i];
            i := i + 1;
          }
          assert entries[..i] == entries;
        case Name(name) =>
          data := SetField(data, name, value);
      }
      dataHasBeenSet := true;
    }

    /** `removeData`: the name reads null from now on; no other name and not the flag change. */
    method RemoveData(name: string)
      modifies this`data
      ensures data == SetField(old(data), name, Null)
      ensures Lookup(data, name) == Null
      ensures forall n :: n != name ==> Lookup(data, n) == Lookup(old(data), n)
      ensures dataHasBeenSet == old(dataHasBeenSet)
    {
      data := SetField(data, name, Null);
    }

    /** `getHTMLTemplate`: the configured name when it is truthy, else the theme's template. */
    function GetHTMLTemplate(): (r: string)
      reads this
      ensures r == StoredOrThemeTemplate(HTMLTemplate, env.themeTemplate)
    {
      StoredOrThemeTemplate(HTMLTemplate, env.themeTemplate)
    }

    /** `setHTMLTemplate`: stores the name without one trailing ".ss". */
    method SetHTMLTemplate(template: string)
      modifies this`HTMLTemplate
      ensures HTMLTemplate == NormalizeTemplateName(template)
    {
      HTMLTemplate := NormalizeTemplateName(template);
    }

    /** `getPlainTemplate`: the configured name, with no default. */
    function GetPlainTemplate(): (r: string)
      reads this
      ensures r == plainTemplate
    {
      plainTemplate
    }

    /** `setPlainTemplate`: stores the name without one trailing ".ss". */
    method SetPlainTemplate(template: string)
      modifies this`plainTemplate
      ensures plainTemplate == NormalizeTemplateName(template)
    {
      plainTemplate := NormalizeTemplateName(template);
    }

    /** The resolver's view of the message. */
    ghost function ResolverInputs(): Inputs
      reads this
    {
      Inputs(htmlBody, textBody, GetHTMLTemplate(), GetPlainTemplate(),
             WithEmailDefaults(data, env.baseURL), dataHasBeenSet)
    }

    /** `updateHtmlAndTextWithRenderedTemplates`: writes the resolved bodies into the message. */
    method UpdateHtmlAndTextWithRenderedTemplates(plainOnly: bool)
      modifies this`htmlBody, this`textBody
      ensures Bodies(htmlBody, textBody) == Resolve(old(ResolverInputs()), env.renderer, plainOnly)
    {
      ghost var i := ResolverInputs();
      var r := env.renderer;
      var htmlBody := this.htmlBody;
      var plainBody := textBody;

      var htmlTemplate := GetHTMLTemplate();
      var plainTemplate := GetPlainTemplate();
      if !Truthy(htmlTemplate) && !Truthy(plainTemplate) && !Present(plainBody) && !Present(htmlBody) {
        return;
      }

      var htmlRender: Option<string> := None;
      var plainRender: Option<string> := None;

      if Present(htmlBody) && !dataHasBeenSet {
        htmlRender := htmlBody;
      }
      if Present(plainBody) && !dataHasBeenSet {
        plainRender := plainBody;
      }

      if !Present(plainRender) && Truthy(plainTemplate) {
        var context := GetData();
        plainRender := Some(r.plain(r.render(plainTemplate, context)));
      }
      if !Present(htmlRender) && Truthy(htmlTemplate) {
        var context := GetData();
        htmlRender := Some(r.render(htmlTemplate, context));
      }
      assert htmlRender == HtmlRender(i, r) || (!Present(htmlRender) && !Present(HtmlRender(i, r)));

      if !Present(plainRender) && Present(htmlRender) {
        plainRender := Some(r.plain(r.decodeEntities(htmlRender.value)));
      }

      if !Present(htmlRender) && Present(htmlBody) {
        htmlRender := htmlBody;
      }
      if !Present(plainRender) && Present(plainBody) {
        plainRender := plainBody;
      }

      if Present(plainRender) {
        textBody := plainRender;
      }
      if Present(htmlRender) && !plainOnly {
        this.htmlBody := htmlRender;
      }
    }

    /** `send`: resolves both bodies, then hands the message to the transport. */
    method Send()
      modifies this`htmlBody, this`textBody, this`Sent
      ensures Bodies(htmlBody, textBody) == Resolve(old(ResolverInputs()), env.renderer, false)
      ensures Sent == old(Sent) + [Bodies(htmlBody, textBody)]
    {
      UpdateHtmlAndTextWithRenderedTemplates(false);
      Sent := Sent + [Bodies(htmlBody, textBody)];
    }

    /**
     * `sendPlain`: resolves the plain body only, hands the transport the message with no HTML body,
     * then puts back the HTML body the message had on entry.
     */
    method SendPlain()
      modifies this`htmlBody, this`textBody, this`Sent
      ensures textBody == Resolve(old(ResolverInputs()), env.renderer, true).text
      ensures htmlBody == old(htmlBody)
      ensures Sent == old(Sent) + [Bodies(None, textBody)]
    {
      var html := htmlBody;
      UpdateHtmlAndTextWithRenderedTemplates(true);
      SetBody(None);
      Sent := Sent + [Bodies(htmlBody, textBody)];
      SetBody(html);
    }
  }

  /**
   * `new TwigEmail($from, ..., $body)`: uses `from` when it is truthy and `getDefaultFrom` otherwise,
   * failing as `getDefaultFrom` does; a truthy `body` becomes the HTML body.
   */
  method Create(from: From, body: string, env: Environment) returns (r: Result<TwigEmail, ConfigError>)
    ensures r.Err? <==> ConstructorFrom(from, env.adminEmail, env.siteHost).Err?
    ensures r.Ok? ==> fresh(r.value) && r.value.env == env
    ensures r.Ok? ==> r.value.from == ConstructorFrom(from, env.adminEmail, env.siteHost).value
    ensures r.Ok? ==> FromTruthy(r.value.from)
    ensures r.Ok? ==> r.value.htmlBody == (if Truthy(body) then Some(body) else None) && r.value.textBody == None
    ensures r.Ok? ==> r.value.HTMLTemplate == "" && r.value.plainTemplate == ""
    ensures r.Ok? ==> r.value.data == Blank && !r.value.dataHasBeenSet && r.value.Sent == []
  {
    var sender: From;
    if FromTruthy(from) {
      sender := from;
    } else {
      var default := DefaultFrom(env.adminEmail, env.siteHost);
      if default.Err? {
        return Err(default.error);
      }
      sender := default.value;
    }
    var email := new TwigEmail(sender, body, env);
    return Ok(email);
  }
}
