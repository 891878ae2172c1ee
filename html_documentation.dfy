/**
 * The HTML help page that a CLIJ macro plugin shows: its source and
 * documentation links, its description with author and license lines,
 * and the HTML text with or without the link header and footer.
 */
module HtmlDocumentation {
  import opened Wrappers
  import opened JavaStrings

  /** The root URLs kept in DocumentationUtilities; they are inputs of this model. */
  datatype UrlRoots = UrlRoots(
    rootSourceUrl: string,
    clij2rootSourceUrl: string,
    docsSourceUrl: string,
    clij2docsSourceUrl: string,
    clijRootUrl: string)

  /**
   * What an optional plugin interface reports: the plugin does not
   * implement it, or its getter returns a string or null (`None`).
   */
  datatype Provided = NotImplemented | Provides(value: Option<string>)

  /** The facts about a macro plugin that the template reads. */
  datatype MacroPlugin = MacroPlugin(
    className: string,          // getClass().getName()
    packageString: string,      // getClass().getPackage().toString()
    name: string,               // CLIJUtilities.classToName(getClass()), taken as given
    parameterHelpText: string,  // getParameterHelpText()
    authorName: Provided,       // HasAuthor.getAuthorName()
    license: Provided)          // HasLicense.getLicense()

  /** The only failure of the constructor: a short license asked of a null license. */
  datatype TemplateError = NullPointer

  /** Plugins of the clij2 and clijx families are documented under the clij2 roots. */
  predicate IsClij2Package(packageString: string)
  {
    Contains(packageString, ".clij2.") || Contains(packageString, ".clijx.")
  }

  /** The link to the plugin's Java source. */
  function SourceUrl(roots: UrlRoots, plugin: MacroPlugin): string
  {
    var path := Replace(plugin.className, ".", "/") + ".java";
    if IsClij2Package(plugin.packageString) then roots.clij2rootSourceUrl + path
    else roots.rootSourceUrl + path
  }

  /** The link to the plugin's reference documentation. */
  function DocsUrl(roots: UrlRoots, plugin: MacroPlugin): string
  {
    if IsClij2Package(plugin.packageString) then
      roots.clij2docsSourceUrl + "reference_" + Replace(Replace(plugin.name, "CLIJ2_", ""), "CLIJx_", "")
    else
      roots.docsSourceUrl + "reference#" + plugin.name
  }

  /** A license cut down to its first five lines, when it has more than five. */
  function ShortenLicense(license: string): string
  {
    var temp := JavaSplit(license, '\n');
    if |temp| > 5 then
      temp[0] + "\n" + temp[1] + "\n" + temp[2] + "\n" + temp[3] + "\n" + temp[4] + "..."
    else license
  }

  /** `k` is the index of the fifth line break of `s`. */
  ghost predicate FifthLineBreak(s: string, k: int)
  {
    0 <= k < |s| && s[k] == '\n' && CountChar(s[..k], '\n') == 4
  }

  /** The author prefix the constructor prepends is `AuthorLine`. */
  lemma AuthorLineCovers(author: Option<string>, description0: string, text: string)
    requires author.Some? ==> text == "Author: " + author.value + "\n\n" + description0
    requires author.None? ==> text == description0
    ensures text == AuthorLine(author) + description0
  {
    if author.None? {
      assert AuthorLine(author) + description0 == description0;
    }
  }

  /** The license suffix the constructor appends is `LicenseLine`. */
  lemma LicenseLineCovers(license: Option<string>, authored: string, text: string)
    requires license.Some? ==> text == authored + "License: " + license.value + "\n\n"
    requires license.None? ==> text == authored
    ensures text == authored + LicenseLine(license)
  {
    if license.None? {
      assert authored + LicenseLine(license) == authored;
    }
  }

  /** The page text added for an author (`None` is Java's null). */
  function AuthorLine(author: Option<string>): string
  {
    if author.Some? then "Author: " + author.value + "\n\n" else ""
  }

  /** The page text added for a license. */
  function LicenseLine(license: Option<string>): string
  {
    if license.Some? then "License: " + license.value + "\n\n" else ""
  }

  /** The constructor throws exactly when a short license is asked of a plugin whose license is null. */
  predicate LicenseThrows(plugin: MacroPlugin, shortLicense: bool)
  {
    shortLicense && plugin.license == Provides(None)
  }

  /** The author the template records. */
  function AuthorOf(plugin: MacroPlugin): Option<string>
  {
    if plugin.authorName.Provides? then plugin.authorName.value else None
  }

  /** The license the template records, shortened on request. */
  function LicenseOf(plugin: MacroPlugin, shortLicense: bool): Option<string>
    requires !LicenseThrows(plugin, shortLicense)
  {
    match plugin.license
    case NotImplemented => None
    case Provides(l) =>
      if l.Some? && shortLicense then Some(ShortenLicense(l.value)) else l
  }

  class HtmlDocumentationTemplate {
    var description: string
    var availableForDimensions: string
    var sourceUrl: string
    var headline: string
    var parameterHelpText: string
    var docsUrl: string
    var clijUrl: string
    var license: Option<string>
    var author: Option<string>

    /** Every field is what the constructor derives from its arguments. */
    ghost predicate Describes(description0: string, dimensions: string, source: MacroPlugin,
                              roots: UrlRoots, shortLicense: bool)
      reads this
    {
      && !LicenseThrows(source, shortLicense)
      && availableForDimensions == dimensions
      && headline == source.name
      && parameterHelpText == source.parameterHelpText
      && sourceUrl == SourceUrl(roots, source)
      && docsUrl == DocsUrl(roots, source)
      && clijUrl == roots.clijRootUrl
      && author == AuthorOf(source)
      && license == LicenseOf(source, shortLicense)
      && description == AuthorLine(author) + description0 + LicenseLine(license)
    }

    /** The four-argument constructor on the path where it does not throw. */
    constructor (description0: string, dimensions: string, source: MacroPlugin,
                 roots: UrlRoots, shortLicense: bool)
      requires !LicenseThrows(source, shortLicense)
      ensures Describes(description0, dimensions, source, roots, shortLicense)
    {
      var text := description0;
      var authorName: Option<string> := None;
      var licenseText: Option<string> := None;
      if source.authorName.Provides? {
        authorName := source.authorName.value;
        if authorName.Some? {
          text := "Author: " + authorName.value + "\n\n" + text;
        }
      }
      assert authorName == AuthorOf(source);
      AuthorLineCovers(authorName, description0, text);
      ghost var authored := text;
      if source.license.Provides? {
        licenseText := source.license.value;
        if shortLicense {
          licenseText := Some(ShortenLicense(licenseText.value));
        }
        if licenseText.Some? {
          text := text + "License: " + licenseText.value + "\n\n";
        }
      }
      assert licenseText == LicenseOf(source, shortLicense);
      LicenseLineCovers(licenseText, authored, text);
      description := text;
      availableForDimensions := dimensions;
      headline := source.name;
      parameterHelpText := source.parameterHelpText;
      sourceUrl := SourceUrl(roots, source);
      docsUrl := DocsUrl(roots, source);
      clijUrl := roots.clijRootUrl;
      license := licenseText;
      author := authorName;
    }

    /** The four-argument constructor, including the null pointer it throws. */
    static method Create(description0: string, dimensions: string, source: MacroPlugin,
                         roots: UrlRoots, shortLicense: bool)
      returns (r: Result<HtmlDocumentationTemplate, TemplateError>)
      ensures r.Failure? <==> LicenseThrows(source, shortLicense)
      ensures r.Success? ==>
        fresh(r.value) && r.value.Describes(description0, dimensions, source, roots, shortLicense)
    {
      if LicenseThrows(source, shortLicense) {
        return Failure(NullPointer);
      }
      var t := new HtmlDocumentationTemplate(description0, dimensions, source, roots, shortLicense);
      return Success(t);
    }

    /** The three-argument constructor: the full license, never throwing. */
    static method CreateWithFullLicense(description0: string, dimensions: string,
                                        source: MacroPlugin, roots: UrlRoots)
      returns (t: HtmlDocumentationTemplate)
      ensures fresh(t) && t.Describes(description0, dimensions, source, roots, false)
    {
      t := new HtmlDocumentationTemplate(description0, dimensions, source, roots, false);
    }

    /** The headline link shown above the text when links are included. */
    function LinkHeader(): string
      reads this
    {
      "<b><a href=\"" + docsUrl + "\">" + headline + "</a></b><br/><br/>"
    }

    /** The three links shown below the text when links are included. */
    function LinkFooter(): string
      reads this
    {
      "<a href=\"" + docsUrl + "\">Documentation</a><br/>"
        + "<a href=\"" + sourceUrl + "\">Source</a><br/>"
        + "<a href=\"" + clijUrl + "\">clij on the web</a><br/>"
    }

    /** The description with `<br/>` line breaks, then the parameter and dimension lines. */
    function Body(): string
      reads this
    {
      Replace(description, "\n", "<br/>") + "<br/><br/>"
        + "Parameters: " + parameterHelpText + "<br/>"
        + "Available for: " + availableForDimensions + "<br/><br/>"
    }

    /** toString(boolean): the page text, built up in one accumulator. */
    function ToHtml(includeLinks: bool): string
      reads this
    {
      var output := "";
      var output := if includeLinks then output + LinkHeader() else output;
      var output := output + Body();
      if includeLinks then output + LinkFooter() else output
    }

    /**
     * toString(): the page text without links, which is the description's
     * lines joined by `<br/>`, then the parameter and dimension lines.
     */
    function ToDefaultHtml(): (r: string)
      reads this
      ensures r == Join(SplitAll(description, '\n'), "<br/>")
        + "<br/><br/>" + "Parameters: " + parameterHelpText + "<br/>"
        + "Available for: " + availableForDimensions + "<br/><br/>"
    {
      PlainHtmlLayout(this);
      ToHtml(false)
    }
  }

  /**
   * Without links the page is the description, its line breaks turned into
   * `<br/>` and none left, followed by the parameter and dimension lines.
   */
  lemma PlainHtmlLayout(t: HtmlDocumentationTemplate)
    ensures t.ToHtml(false) ==
      Join(SplitAll(t.description, '\n'), "<br/>")
        + "<br/><br/>" + "Parameters: " + t.parameterHelpText + "<br/>"
        + "Available for: " + t.availableForDimensions + "<br/><br/>"
    ensures '\n' !in Replace(t.description, "\n", "<br/>")
  {
    ReplaceCharAsJoin(t.description, '\n', "<br/>");
    ReplaceCharRemovesAll(t.description, '\n', "<br/>");
    assert "" + t.Body() == t.Body();
  }

  /** With links the page is the header, the page without links, and the footer. */
  lemma LinkedHtmlWrapsPlain(t: HtmlDocumentationTemplate)
    ensures t.ToHtml(true) == t.LinkHeader() + t.ToHtml(false) + t.LinkFooter()
  {
    AccumulatorGrouping(t.LinkHeader(), t.Body(), t.LinkFooter());
  }

  /** Starting the accumulator from "" and appending piece by piece gives the plain concatenation. */
  lemma AccumulatorGrouping(header: string, body: string, footer: string)
    ensures "" + header + body + footer == header + ("" + body) + footer
  {
    assert "" + header == header;
    assert "" + body == body;
  }

  /**
   * The source link is the family's root, the class name with its dots
   * turned into slashes, and ".java"; the clij2 root is chosen exactly for
   * clij2 and clijx packages.
   */
  lemma SourceUrlShape(roots: UrlRoots, plugin: MacroPlugin)
    ensures var root := if Contains(plugin.packageString, ".clij2.") || Contains(plugin.packageString, ".clijx.")
                        then roots.clij2rootSourceUrl else roots.rootSourceUrl;
      exists path ::
        && SourceUrl(roots, plugin) == root + path + ".java"
        && |path| == |plugin.className|
        && (forall i :: 0 <= i < |path| ==>
              path[i] == if plugin.className[i] == '.' then '/' else plugin.className[i])
  {
    ReplaceCharPointwise(plugin.className, '.', '/');
    var path := Replace(plugin.className, ".", "/");
    assert SourceUrl(roots, plugin) == (if IsClij2Package(plugin.packageString)
      then roots.clij2rootSourceUrl else roots.rootSourceUrl) + path + ".java";
  }

  /** Outside the clij2 family the documentation link is the reference page's anchor for the headline. */
  lemma DocsUrlClassic(roots: UrlRoots, plugin: MacroPlugin)
    requires !Contains(plugin.packageString, ".clij2.") && !Contains(plugin.packageString, ".clijx.")
    ensures DocsUrl(roots, plugin) == roots.docsSourceUrl + "reference#" + plugin.name
  {
  }

  /** In the clij2 family a headline without either family prefix is used as it is. */
  lemma DocsUrlClij2Plain(roots: UrlRoots, plugin: MacroPlugin)
    requires IsClij2Package(plugin.packageString)
    requires !Contains(plugin.name, "CLIJ2_") && !Contains(plugin.name, "CLIJx_")
    ensures DocsUrl(roots, plugin) == roots.clij2docsSourceUrl + "reference_" + plugin.name
  {
    ReplaceAbsent(plugin.name, "CLIJ2_", "");
    ReplaceAbsent(plugin.name, "CLIJx_", "");
  }

  /** In the clij2 family the "CLIJ2_" prefix of a headline is dropped from the documentation link. */
  lemma DocsUrlClij2StripsPrefix(roots: UrlRoots, plugin: MacroPlugin, rest: string)
    requires IsClij2Package(plugin.packageString)
    requires plugin.name == "CLIJ2_" + rest
    requires !Contains(rest, "CLIJ2_") && !Contains(rest, "CLIJx_")
    ensures DocsUrl(roots, plugin) == roots.clij2docsSourceUrl + "reference_" + rest
  {
    assert "CLIJ2_" <= plugin.name;
    assert plugin.name[|"CLIJ2_"|..] == rest;
    assert Replace(plugin.name, "CLIJ2_", "") == "" + Replace(rest, "CLIJ2_", "");
    assert "" + rest == rest;
    ReplaceAbsent(rest, "CLIJ2_", "");
    ReplaceAbsent(rest, "CLIJx_", "");
  }

  /** In the clij2 family the "CLIJx_" prefix of a headline is dropped from the documentation link. */
  lemma DocsUrlClij2StripsClijxPrefix(roots: UrlRoots, plugin: MacroPlugin, rest: string)
    requires IsClij2Package(plugin.packageString)
    requires plugin.name == "CLIJx_" + rest
    requires !Contains(rest, "CLIJ2_") && !Contains(rest, "CLIJx_")
    ensures DocsUrl(roots, plugin) == roots.clij2docsSourceUrl + "reference_" + rest
  {
    ClijxHeadlineLacksClij2(rest);
    ReplaceAbsent(plugin.name, "CLIJ2_", "");
    assert "CLIJx_" <= plugin.name;
    assert plugin.name[|"CLIJx_"|..] == rest;
    assert Replace(plugin.name, "CLIJx_", "") == "" + Replace(rest, "CLIJx_", "");
    assert "" + rest == rest;
    ReplaceAbsent(rest, "CLIJx_", "");
  }

  /** A "CLIJx_" headline contains "CLIJ2_" only if the rest of it does. */
  lemma ClijxHeadlineLacksClij2(rest: string)
    requires !Contains(rest, "CLIJ2_")
    ensures !Contains("CLIJx_" + rest, "CLIJ2_")
  {
    var t := "CLIJ2_";
    var s := "CLIJx_" + rest;
    assert s[6..] == rest;
    assert !Contains(s[5..], t) by { assert s[5..][1..] == s[6..] && s[5..][0] == '_'; }
    assert !Contains(s[4..], t) by { assert s[4..][1..] == s[5..] && s[4..][0] == 'x'; }
    assert !Contains(s[3..], t) by { assert s[3..][1..] == s[4..] && s[3..][0] == 'J'; }
    assert !Contains(s[2..], t) by { assert s[2..][1..] == s[3..] && s[2..][0] == 'I'; }
    assert !Contains(s[1..], t) by { assert s[1..][1..] == s[2..] && s[1..][0] == 'L'; }
    assert !(t <= s) by { assert s[4] == 'x'; }
  }

  /**
   * A license of more than five (Java-split) lines is shortened to the text
   * before its fifth line break, followed by "...".
   */
  lemma ShortenLicenseKeepsFiveLines(license: string)
    requires |JavaSplit(license, '\n')| > 5
    ensures exists k :: FifthLineBreak(license, k) && ShortenLicense(license) == license[..k] + "..."
  {
    var parts := SplitAll(license, '\n');
    var temp := JavaSplit(license, '\n');
    assert temp <= parts;
    var head, tail := parts[..5], parts[5..];
    assert parts == head + tail;
    JoinAppend(head, tail, "\n");
    JoinSplitAll(license, '\n');
    SplitAllPartsFree(license, '\n');
    var a := Join(head, "\n");
    JoinFive(head, "\n");
    assert a == temp[0] + "\n" + temp[1] + "\n" + temp[2] + "\n" + temp[3] + "\n" + temp[4];
    CountCharJoin(head, '\n');
    var k := |a|;
    assert license == a + "\n" + Join(tail, "\n");
    assert license[..k] == a;
    assert FifthLineBreak(license, k);
  }

  /** Joining five parts, written out. */
  lemma JoinFive(ps: seq<string>, sep: string)
    requires |ps| == 5
    ensures Join(ps, sep) == ps[0] + sep + ps[1] + sep + ps[2] + sep + ps[3] + sep + ps[4]
  {
    assert ps[1..][1..][1..][1..] == [ps[4]];
    assert Join(ps[4..], sep) == ps[4];
    assert Join(ps[3..], sep) == ps[3] + sep + ps[4] by { assert ps[3..][1..] == ps[4..]; }
    assert Join(ps[2..], sep) == ps[2] + sep + Join(ps[3..], sep) by { assert ps[2..][1..] == ps[3..]; }
    assert Join(ps[1..], sep) == ps[1] + sep + Join(ps[2..], sep) by { assert ps[1..][1..] == ps[2..]; }
  }

  /** A license without a line break is never shortened. */
  lemma ShortenLicenseSingleLine(license: string)
    requires '\n' !in license
    ensures ShortenLicense(license) == license
  {
  }
}
