# TwigEmail message state, modelled in Dafny

This project models the `TwigEmail` class of the silverstripe-twig adapter. It is an email message
whose HTML and plain-text bodies are finally chosen, when the message is sent, from four sources:

- the bodies set explicitly;
- an HTML template and a plain template, rendered against a template context;
- the text of the HTML render;
- the old bodies, as the last resort.

Which source wins depends on one flag. It records whether the context was ever customised through
`setData` or `addData`.

Modules, one per concern:

- `Wrappers`: `Option` (PHP's `null`) and `Result` (a value or a thrown exception).
- `Php`: PHP string truthiness. `Truthy(s)` is `s != "" && s != "0"`. `Present` is truthiness of a
  nullable string. `Either(a, b)` is `$a ?: $b`. `Value` is a context value.
- `ViewData`: the template context. It has the own dynamic fields that `addData`/`removeData`
  assign, plus at most one failover object installed by `setData`. Also the two loops over entries:
  assigning an array of entries (`AssignAll`) and filling defaults where a field reads null
  (`FillDefaults`), with lemmas on what each name reads afterwards.
- `Templates`: the `.ss` suffix strip and the HTML-template getter's fallback to the theme template.
- `Sender`: `getDefaultFrom` and the constructor's choice of sender.
- `Resolver`: the precedence rule of `updateHtmlAndTextWithRenderedTemplates`, as the pure function
  `Resolve`. Its postconditions state which source wins in each case.
- `Email`: the class `TwigEmail`, with fields `htmlBody`, `textBody`, `HTMLTemplate`,
  `plainTemplate`, `data` and `dataHasBeenSet`. Its setters (`SetBody`, `SetData`, `AddData`,
  `RemoveData`, `SetHTMLTemplate`, `SetPlainTemplate`) state the whole new state through field
  frames. `GetData` and `AddData` keep the source's loops. `UpdateHtmlAndTextWithRenderedTemplates`
  follows the code step by step, with the locals `htmlRender`/`plainRender`, and is proved equal to
  `Resolve`. `Send`/`SendPlain` resolve the bodies and append what the transport receives to the
  ghost log `Sent`. `Create` models the constructor, which may throw while choosing the sender.
  `GetPlainTemplate` is a plain read of the stored name. `Text` stands for the inherited `text()`
  setter, so that a plain body can be set.

Foreign calls are parameters. The class holds a constant `env: Environment`, which bundles:

- a `Renderer`: `render` for `renderWith`, `plain` for `->Plain()`, `decodeEntities` for
  `html_entity_decode`;
- the theme template that `ThemeResourceLoader` finds;
- `Director::absoluteBaseURL()` and `Director::host()`;
- the `admin_email` configuration.

The flag `dataHasBeenSet` never returns to false. Only `SetData` and `AddData` have it in their
`modifies` frame, and both end with it true. `RemoveData` states that it keeps the flag.

Four points of the code are easy to misread. The model follows the code as written:

- The code tests PHP truthiness, not presence. A set body, a template name, or a plain render of ""
  or "0" counts as missing.
- "Nothing to resolve" leaves both bodies as they were. They are falsy then, but not necessarily null.
- `setData` installs a failover object; it does not replace the context.
- The code does not restore the rendering requirements when rendering throws (there is no
  try/finally).

The model assumes one thing about the framework's `ViewableData`: that a field read returns the
assigned own field (even a null one), else the failover's field, else null. So fields assigned by
`addData` take precedence over the failover, and a removed field reads null rather than the
failover's. The framework is not part of this model.

## Model

| member | source | states |
|---|---|---|
| `ViewData.Lookup` | src/TwigEmail.php:135 | a field read gives the own field whenever one was assigned (even null), else the failover's field, else null |
| `ViewData.SetField` | src/TwigEmail.php:183 | assigning a field makes that name read the new value; every other name and the failover are unchanged |
| `ViewData.AssignAllLastWins` | src/TwigEmail.php:167-170 | after assigning an array of entries, a name they assign reads the value of its last occurrence |
| `ViewData.AssignAllElsewhere` | src/TwigEmail.php:167-170 | after assigning an array of entries, a name they do not mention is present and valued exactly as before |
| `ViewData.FillDefaults` | src/TwigEmail.php:133-138 | filling defaults into the cloned context never touches its failover |
| `ViewData.FillDefaultsAt` | src/TwigEmail.php:134-138 | a defaulted name takes its default exactly when it read null, and otherwise keeps its value |
| `ViewData.FillDefaultsElsewhere` | src/TwigEmail.php:134-138 | a name that is not defaulted reads as before |
| `Templates.NormalizeTemplateName` | src/TwigEmail.php:204-207 | the stored name plus ".ss" is the input when the input ends in ".ss"; otherwise the input is stored unchanged |
| `Templates.NormalizeStripsOneExtension` | src/TwigEmail.php:224-227 | normalising `name + ".ss"` gives `name` back, so only one suffix goes ("a.ss.ss" becomes "a.ss") |
| `Templates.StoredOrThemeTemplate` | src/TwigEmail.php:189-196 | the stored HTML template name wins whenever it is truthy; otherwise the theme's template is used |
| `Templates.ConfiguredTemplateIsReturned` | src/TwigEmail.php:187-207 | after configuring "foo.ss", the HTML template getter answers "foo" for every truthy "foo" |
| `Sender.DefaultFrom` | src/TwigEmail.php:80-104 | the choice is: the first pair of a non-empty admin array, else a truthy admin string, else "no-reply@" + host; it fails exactly when all three are unavailable, and a result is always a truthy sender |
| `Sender.ConstructorFrom` | src/TwigEmail.php:54-58 | a truthy `from` is used as given; otherwise the default sender, with its failure; the chosen sender is truthy |
| `Resolver.Resolve` | src/TwigEmail.php:258-320 | nothing to render leaves both bodies; an uncustomised set body is kept; when no body counts as explicit (none set, or customised data) a truthy template render wins; whatever render is obtained is written; with no template named, both bodies survive customisation; text falls back to the stripped, decoded HTML render, then to the old body; plain-only never writes HTML; a body is only ever replaced by a truthy string (under the string reading of renders that "## Left out" qualifies) |
| `Resolver.ResolveIdempotent` | src/TwigEmail.php:258-320 | resolving again after a resolution, with nothing else changed, leaves the bodies as the first resolution left them |
| `Resolver.PlainOnlyKeepsText` | src/TwigEmail.php:314-319 | a plain-only resolution produces the same text as a full one and leaves the HTML body as it was |
| `Email.EmailDefaults` | src/TwigEmail.php:129-132 | the defaults are IsEmail = true and BaseURL = the base URL, two distinct names |
| `Email.WithEmailDefaults` | src/TwigEmail.php:129-138 | the context given to templates reads IsEmail = true and BaseURL = the base URL where they read null; every other name and the failover are unchanged |
| `Email.TwigEmail.constructor` | src/TwigEmail.php:44-78 | a new message has the chosen sender, an HTML body only for a truthy `body`, no templates, an empty context, the flag false, and nothing sent |
| `Email.Create` | src/TwigEmail.php:54-58 | construction fails exactly when `from` is falsy and no default sender exists; otherwise the message's sender is the constructor's choice, which is truthy |
| `Email.TwigEmail.SetBody` | src/TwigEmail.php:109-117 | a string or null body becomes the HTML body; nothing else changes |
| `Email.TwigEmail.GetData` | src/TwigEmail.php:127-141 | returns the stored context with the email defaults filled in, leaving the stored context unmodified |
| `Email.TwigEmail.SetData` | src/TwigEmail.php:148-156 | the given data becomes the context's failover and the flag is raised; the own fields are kept |
| `Email.TwigEmail.AddData` | src/TwigEmail.php:165-176 | one name, or every entry of an array in order, is assigned, and the flag is raised |
| `Email.TwigEmail.RemoveData` | src/TwigEmail.php:181-185 | the name reads null afterwards, every other name reads as before, and the flag is unchanged |
| `Email.TwigEmail.GetHTMLTemplate` | src/TwigEmail.php:187-197 | the stored-or-theme choice applied to the stored name and the environment's theme template |
| `Email.TwigEmail.GetPlainTemplate` | src/TwigEmail.php:214-217 | the stored plain template name, with no theme default |
| `Email.TwigEmail.Text` | src/TwigEmail.php:315 | the inherited text() setter the resolver calls: the given string or null becomes the plain body; nothing else changes |
| `Email.TwigEmail.SetHTMLTemplate` | src/TwigEmail.php:202-209 | stores the normalised name; nothing else changes |
| `Email.TwigEmail.SetPlainTemplate` | src/TwigEmail.php:222-229 | stores the normalised name; nothing else changes |
| `Email.TwigEmail.UpdateHtmlAndTextWithRenderedTemplates` | src/TwigEmail.php:258-320 | the step-by-step resolution leaves exactly the bodies `Resolve` gives for the message's state on entry |
| `Email.TwigEmail.Send` | src/TwigEmail.php:234-238 | resolves both bodies and hands the transport the message with exactly those bodies |
| `Email.TwigEmail.SendPlain` | src/TwigEmail.php:243-250 | resolves the text body only; the transport receives no HTML body; the HTML body the message had on entry is restored |

## Left out

- The mailer transport is external I/O. It appears only as the ghost log `Sent` of the bodies each send hands over.
- `Requirements::clear()`/`restore()` is process-wide framework state. The resolver's result does not depend on it.
- The template engine, `->Plain()` and `html_entity_decode` are foreign library calls. They are total, uninterpreted functions of `Renderer`. A render that throws (missing template) is not modelled.
- A render's result is treated as its text, and tested with string truthiness. The renderer's actual return type comes from a `TwigRenderer` trait that is not part of this model.
- `Resolver.Resolve`: an HTML template render that is "" or "0" counts as missing in the model. In the code, `renderWith` returns an object (line 287 calls `->Plain()` on it), and PHP treats every object as truthy. So there, such a render still passes lines 299 and 317: it overwrites the HTML body, and the body fallback at line 306 is skipped. The model instead keeps the old body.
- `Email.TwigEmail.GetHTMLTemplate`: the theme lookup is a constant string. A lookup that finds nothing (null) is not modelled.
- `Director::host()` and `Director::absoluteBaseURL()` are constants of `Environment`.
- The `updateDefaultFrom` and `updateGetData` extension hooks call arbitrary external code and are left out.
- The `AbstractPart` branch of `setBody` defers to the MIME library's internals and is left out.
- The to/cc/bcc/subject/return-path arguments and setters are parent-class passthroughs and are left out.
- `ArrayData`'s conversion of nested arrays on read is left out: context values are opaque `Value`s.
- `Sender.DefaultFrom`: integer keys of a list-shaped `admin_email` array are modelled as strings.
- src/TwigViewableData.php is a one-line wrapper around `Director::absoluteBaseURL()` and is not part of this model.
