/** Template names as `setHTMLTemplate`, `setPlainTemplate` and `getHTMLTemplate` treat them. */
module Templates {
  import opened Php

  /** The file extension of a template, which a configured name may carry. */
  const Extension := ".ss"

  /** `substr($name, -3) == '.ss'`; a name shorter than three characters never matches. */
  predicate HasExtension(name: string) {
    |name| >= |Extension| && name[|name| - |Extension|..] == Extension
  }

  /** The name stored by the template setters: one trailing ".ss" removed, if there is one. */
  function NormalizeTemplateName(name: string): (r: string)
    ensures HasExtension(name) ==> r + Extension == name
    ensures !HasExtension(name) ==> r == name
    ensures |r| <= |name|
  {
    if HasExtension(name) then name[..|name| - |Extension|] else name
  }

  /** Appending the extension and normalising gives the name back, and only one extension goes. */
  lemma NormalizeStripsOneExtension(name: string)
    ensures NormalizeTemplateName(name + Extension) == name
  {
  }

  /** The name `getHTMLTemplate` returns: the stored one when it is truthy, else the theme's. */
  function StoredOrThemeTemplate(stored: string, themeTemplate: string): (r: string)
    ensures Truthy(stored) ==> r == stored
    ensures !Truthy(stored) ==> r == themeTemplate
  {
    if Truthy(stored) then stored else themeTemplate
  }

  /** Configuring "name.ss" makes the HTML template getter answer "name" whenever "name" is truthy. */
  lemma ConfiguredTemplateIsReturned(name: string, themeTemplate: string)
    requires Truthy(name)
    ensures StoredOrThemeTemplate(NormalizeTemplateName(name + Extension), themeTemplate) == name
  {
  }
}
