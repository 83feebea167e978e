/**
 * The SEO helpers of the web app: locale-prefixed paths, hreflang
 * alternates, the URL, image, keyword and robots parts of the page
 * metadata, and the breadcrumb list schema.  The site's base URL is a parameter.
 */
module Seo {
  import opened Common

  /** The configured locales, in declaration order, and the default one. */
  const Locales: seq<string> := ["en", "de", "zh"]
  const DefaultLocale: string := "en"
  const AppName: string := "Pixelto"
  const DefaultOgImage: string := "/images/og-default.png"

  // ---------------------------------------------------------------------
  // Locale paths.

  /** `getLocalePath`: the default locale gets no prefix (and "/" for the empty path); any other is prefixed. */
  function GetLocalePath(path: string, locale: string): (r: string)
    ensures locale == DefaultLocale ==> r == (if path == "" then "/" else path)
    ensures locale != DefaultLocale ==> r == "/" + locale + path
  {
    if locale == DefaultLocale then (if path == "" then "/" else path) else "/" + locale + path
  }

  /** A prefixed path gives back its locale and its original path. */
  lemma LocalePathInverse(path: string, locale: string)
    requires locale != DefaultLocale
    ensures var r := GetLocalePath(path, locale);
      |r| == |locale| + 1 + |path| && r[0] == '/' && r[1..|locale| + 1] == locale && r[|locale| + 1..] == path
  {
  }

  /** For one path, the configured locales all get different locale paths. */
  lemma ConfiguredLocalePathsDiffer(path: string, a: string, b: string)
    requires a in Locales && b in Locales && a != b
    ensures GetLocalePath(path, a) != GetLocalePath(path, b)
  {
    if a != DefaultLocale && b != DefaultLocale {
      assert GetLocalePath(path, a)[1..3] == a;
      assert GetLocalePath(path, b)[1..3] == b;
    }
  }

  // ---------------------------------------------------------------------
  // hreflang maps.

  /** Every locale in `locs` mapped to its absolute URL. */
  function LanguageUrls(baseUrl: string, path: string, locs: set<string>): map<string, string> {
    map loc | loc in locs :: baseUrl + GetLocalePath(path, loc)
  }

  /** The loop `for (const loc of locs) languages[loc] = baseUrl + getLocalePath(path, loc)`. */
  method LocaleUrls(baseUrl: string, path: string, locs: seq<string>) returns (languages: map<string, string>)
    ensures languages.Keys == set i | 0 <= i < |locs| :: locs[i]
    ensures forall loc :: loc in languages ==> languages[loc] == baseUrl + GetLocalePath(path, loc)
  {
    languages := map[];
    for i := 0 to |locs|
      invariant languages.Keys == set j | 0 <= j < i :: locs[j]
      invariant forall loc :: loc in languages ==> languages[loc] == baseUrl + GetLocalePath(path, loc)
    {
      languages := languages[locs[i] := baseUrl + GetLocalePath(path, locs[i])];
    }
  }

  /** The locales the alternates list: `availableLocales || locales` (an empty list is kept, as it is truthy). */
  function TargetLocales(availableLocales: Option<seq<string>>): seq<string> {
    availableLocales.GetOr(Locales)
  }

  /** The x-default target: the default locale when listed, else the first target, else none. */
  function DefaultTarget(targets: seq<string>): (r: Option<string>)
    ensures DefaultLocale in targets ==> r == Some(DefaultLocale)
    ensures DefaultLocale !in targets && targets != [] ==> r == Some(targets[0])
    ensures r.None? <==> targets == []
    ensures r.Some? ==> r.value in targets
  {
    if DefaultLocale in targets then Some(DefaultLocale)
    else if targets == [] then None
    else Some(targets[0])
  }

  datatype Alternates = Alternates(canonical: string, languages: map<string, string>)

  /** `generateAlternates`. */
  method GenerateAlternates(baseUrl: string, path: string, locale: string, availableLocales: Option<seq<string>>)
    returns (r: Alternates)
    ensures r.canonical == baseUrl + GetLocalePath(path, locale)
    ensures var targets := TargetLocales(availableLocales);
      var xDefault := DefaultTarget(targets);
      && (forall loc :: loc in targets && loc != "x-default" ==>
            loc in r.languages && r.languages[loc] == baseUrl + GetLocalePath(path, loc))
      && (forall key :: key in r.languages ==> key in targets || key == "x-default")
      && (Truthy(xDefault) ==>
            "x-default" in r.languages && r.languages["x-default"] == baseUrl + GetLocalePath(path, xDefault.value))
      && (!Truthy(xDefault) ==> ("x-default" in r.languages <==> "x-default" in targets))
  {
    var url := baseUrl + GetLocalePath(path, locale);
    var targets := TargetLocales(availableLocales);
    var languages := LocaleUrls(baseUrl, path, targets);
    var defaultLoc := DefaultTarget(targets);
    if Truthy(defaultLoc) {
      languages := languages["x-default" := baseUrl + GetLocalePath(path, defaultLoc.value)];
    }
    r := Alternates(url, languages);
  }

  /** The configured locales, one by one. */
  lemma ConfiguredLocales()
    ensures TargetLocales(None) == Locales && |Locales| == 3
    ensures Locales[0] == "en" && Locales[1] == "de" && Locales[2] == "zh"
    ensures forall loc :: loc in Locales <==> loc == "en" || loc == "de" || loc == "zh"
  {
  }

  // ---------------------------------------------------------------------
  // Strings.

  predicate StartsWith(s: string, prefix: string) {
    |prefix| <= |s| && s[..|prefix|] == prefix
  }

  /** The characters `String.prototype.trim` removes: white space and line terminators. */
  predicate IsJsWhitespace(c: char) {
    || c == '\t' || c == '\n' || c == '\U{B}' || c == '\U{C}' || c == '\r' || c == ' '
    || c == '\U{A0}' || c == '\U{1680}' || ('\U{2000}' <= c <= '\U{200A}')
    || c == '\U{2028}' || c == '\U{2029}' || c == '\U{202F}' || c == '\U{205F}'
    || c == '\U{3000}' || c == '\U{FEFF}'
  }

  function TrimStart(s: string): (r: string)
    ensures |r| <= |s| && r == s[|s| - |r|..]
    ensures forall k :: 0 <= k < |s| - |r| ==> IsJsWhitespace(s[k])
    ensures r != [] ==> !IsJsWhitespace(r[0])
  {
    if s != [] && IsJsWhitespace(s[0]) then
      var r := TrimStart(s[1..]);
      assert forall k :: 1 <= k < |s| ==> s[k] == s[1..][k - 1];
      r
    else s
  }

  function TrimEnd(s: string): (r: string)
    ensures |r| <= |s| && r == s[..|r|]
    ensures forall k :: |r| <= k < |s| ==> IsJsWhitespace(s[k])
    ensures r != [] ==> !IsJsWhitespace(r[|r| - 1])
  {
    if s != [] && IsJsWhitespace(s[|s| - 1]) then TrimEnd(s[..|s| - 1]) else s
  }

  /** `r` is `s[i..j]`, and everything of `s` outside that range is white space. */
  predicate CutFrom(s: string, r: string, i: int, j: int) {
    && 0 <= i <= j <= |s| && r == s[i..j]
    && (forall k :: 0 <= k < i ==> IsJsWhitespace(s[k]))
    && (forall k :: j <= k < |s| ==> IsJsWhitespace(s[k]))
  }

  /** `trim`: `trimEnd` after `trimStart`. */
  function Trim(s: string): string {
    TrimEnd(TrimStart(s))
  }

  /** Dropping a white-space prefix and then a white-space suffix leaves a cut of the original. */
  lemma CutOfCuts(s: string, t: string, r: string)
    requires |t| <= |s| && t == s[|s| - |t|..] && forall k :: 0 <= k < |s| - |t| ==> IsJsWhitespace(s[k])
    requires |r| <= |t| && r == t[..|r|] && forall k :: |r| <= k < |t| ==> IsJsWhitespace(t[k])
    ensures CutFrom(s, r, |s| - |t|, |s| - |t| + |r|)
  {
    var i := |s| - |t|;
    forall k | i + |r| <= k < |s| ensures IsJsWhitespace(s[k]) {
      assert s[k] == t[k - i];
    }
  }

  /** `trim` keeps a substring, with only white space cut from either end, that neither starts nor ends with white space. */
  lemma TrimIsCut(s: string)
    ensures exists i, j :: CutFrom(s, Trim(s), i, j)
    ensures Trim(s) != [] ==> !IsJsWhitespace(Trim(s)[0]) && !IsJsWhitespace(Trim(s)[|Trim(s)| - 1])
  {
    var t := TrimStart(s);
    var r := TrimEnd(t);
    CutOfCuts(s, t, r);
    assert Trim(s) == r;
    assert CutFrom(s, Trim(s), |s| - |t|, |s| - |t| + |r|);
    if r != [] {
      assert r[0] == t[0];
    }
  }

  /** The position of the first `c` in `s`. */
  function IndexOf(s: string, c: char): (i: nat)
    requires c in s
    ensures i < |s| && s[i] == c && c !in s[..i]
  {
    if s[0] == c then 0 else 1 + IndexOf(s[1..], c)
  }

  lemma Around(a: string, c: char, b: string)
    ensures var s := a + [c] + b;
      s[|a|] == c && s[..|a|] == a && s[|a| + 1..] == b
  {
  }

  /** A position holding `c` with no `c` before it is where `IndexOf` stops. */
  lemma {:induction false} IndexOfFirst(s: string, c: char, n: int)
    requires 0 <= n < |s| && s[n] == c && c !in s[..n]
    ensures IndexOf(s, c) == n
  {
    if n > 0 {
      assert s[0] == s[..n][0];
      assert s[1..][..n - 1] == s[..n][1..];
      IndexOfFirst(s[1..], c, n - 1);
    }
  }

  /** `split(sep)` on a one-character separator. */
  function Split(s: string, sep: char): (parts: seq<string>)
    ensures |parts| >= 1
    ensures forall i :: 0 <= i < |parts| ==> sep !in parts[i]
    decreases |s|
  {
    if sep !in s then [s]
    else
      var i := IndexOf(s, sep);
      [s[..i]] + Split(s[i + 1..], sep)
  }

  /** A separator-free piece, the separator, then the rest: the split is the piece, then the split of the rest. */
  lemma SplitCons(a: string, sep: char, t: string)
    requires sep !in a
    ensures Split(a + [sep] + t, sep) == [a] + Split(t, sep)
  {
    var s := a + [sep] + t;
    Around(a, sep, t);
    IndexOfFirst(s, sep, |a|);
  }

  function Join(parts: seq<string>, sep: char): string
    requires |parts| >= 1
  {
    if |parts| == 1 then parts[0] else parts[0] + [sep] + Join(parts[1..], sep)
  }

  /** Joining the pieces with the separator gives the string back. */
  lemma {:induction false} JoinSplit(s: string, sep: char)
    ensures Join(Split(s, sep), sep) == s
    decreases |s|
  {
    if sep in s {
      var i := IndexOf(s, sep);
      var rest := Split(s[i + 1..], sep);
      JoinSplit(s[i + 1..], sep);
      var parts := [s[..i]] + rest;
      assert Split(s, sep) == parts;
      assert |parts| > 1 && parts[0] == s[..i] && parts[1..] == rest;
      assert Join(parts, sep) == s[..i] + [sep] + s[i + 1..];
      assert s == s[..i] + [sep] + s[i + 1..];
    }
  }

  /** Splitting a join of separator-free pieces gives the pieces back. */
  lemma {:induction false} SplitJoin(parts: seq<string>, sep: char)
    requires |parts| >= 1
    requires forall i :: 0 <= i < |parts| ==> sep !in parts[i]
    ensures Split(Join(parts, sep), sep) == parts
    decreases |parts|
  {
    if |parts| > 1 {
      var rest := parts[1..];
      SplitJoin(rest, sep);
      SplitCons(parts[0], sep, Join(rest, sep));
      assert parts == [parts[0]] + rest;
    }
  }

  /** The keywords: the comma-separated pieces, each trimmed. */
  function Keywords(keywords: string): (r: seq<string>)
    ensures |r| == |Split(keywords, ',')|
    ensures forall i :: 0 <= i < |r| ==> r[i] == Trim(Split(keywords, ',')[i])
  {
    var pieces := Split(keywords, ',');
    seq(|pieces|, i requires 0 <= i < |pieces| => Trim(pieces[i]))
  }

  lemma SplitExample()
    ensures Split("ai, photo ", ',') == ["ai", " photo "]
  {
    var s := "ai, photo ";
    assert s[2] == ',' && ',' !in s[..2];
    assert IndexOf(s, ',') == 2;
    assert s[..2] == "ai" && s[3..] == " photo ";
    assert ',' !in " photo " by {
      forall k | 0 <= k < |" photo "| ensures " photo "[k] != ',' { }
    }
  }

  /** The keywords of comma-joined, comma-free pieces are those pieces, each trimmed. */
  lemma KeywordsOfJoin(parts: seq<string>)
    requires |parts| >= 1
    requires forall i :: 0 <= i < |parts| ==> ',' !in parts[i]
    ensures |Keywords(Join(parts, ','))| == |parts|
    ensures forall i :: 0 <= i < |parts| ==> Keywords(Join(parts, ','))[i] == Trim(parts[i])
  {
    SplitJoin(parts, ',');
  }

  /** The Open Graph image: an `http...` image verbatim, otherwise the image (or the default one) under the base URL. */
  function ImageUrl(baseUrl: string, image: Option<string>): (r: string)
    ensures image.Some? && StartsWith(image.value, "http") ==> r == image.value
    ensures !(image.Some? && StartsWith(image.value, "http")) ==>
              r == baseUrl + (if Truthy(image) then image.value else DefaultOgImage)
  {
    if image.Some? && StartsWith(image.value, "http") then image.value
    else baseUrl + (if Truthy(image) then image.value else DefaultOgImage)
  }

  // ---------------------------------------------------------------------
  // Page metadata.

  datatype PageType = Website | Article

  datatype SeoOptions = SeoOptions(
    title: string, description: string, path: string, locale: string,
    image: Option<string>, keywords: Option<string>, pageType: Option<PageType>,
    publishedTime: Option<string>, modifiedTime: Option<string>, authors: Option<seq<string>>,
    noIndex: Option<bool>)

  datatype OgImage = OgImage(url: string, width: int, height: int, alt: string)

  datatype OpenGraph = OpenGraph(
    title: string, description: string, url: string, pageType: PageType, locale: string,
    siteName: string, images: seq<OgImage>,
    publishedTime: Option<string>, modifiedTime: Option<string>, authors: Option<seq<string>>)

  datatype Twitter = Twitter(card: string, title: string, description: string, images: seq<string>)

  datatype Robots = Robots(index: bool, follow: bool)

  datatype SeoMetadata = SeoMetadata(
    title: string, description: string, keywords: Option<seq<string>>,
    alternates: Alternates, openGraph: OpenGraph, twitter: Twitter, robots: Option<Robots>)

  /** The languages map of the page metadata: every configured locale and x-default, which is the default locale's URL. */
  method SiteLanguages(baseUrl: string, path: string) returns (languages: map<string, string>)
    ensures languages.Keys == {"en", "de", "zh", "x-default"}
    ensures forall loc :: loc in Locales ==> languages[loc] == baseUrl + GetLocalePath(path, loc)
    ensures languages["x-default"] == baseUrl + GetLocalePath(path, DefaultLocale)
  {
    languages := LocaleUrls(baseUrl, path, Locales);
    ConfiguredLocales();
    languages := languages["x-default" := baseUrl + GetLocalePath(path, DefaultLocale)];
  }

  /** The article-only Open Graph fields: each is set only for an article and only from a truthy (non-empty) value. */
  method AddArticleFields(og: OpenGraph, pageType: PageType, options: SeoOptions) returns (r: OpenGraph)
    ensures r.(publishedTime := og.publishedTime, modifiedTime := og.modifiedTime, authors := og.authors) == og
    ensures r.publishedTime == if pageType == Article && Truthy(options.publishedTime) then options.publishedTime else og.publishedTime
    ensures r.modifiedTime == if pageType == Article && Truthy(options.modifiedTime) then options.modifiedTime else og.modifiedTime
    ensures r.authors == if pageType == Article && options.authors.Some? && |options.authors.value| > 0 then options.authors else og.authors
  {
    r := og;
    if pageType == Article {
      if Truthy(options.publishedTime) {
        r := r.(publishedTime := options.publishedTime);
      }
      if Truthy(options.modifiedTime) {
        r := r.(modifiedTime := options.modifiedTime);
      }
      if options.authors.Some? && |options.authors.value| > 0 {
        r := r.(authors := options.authors);
      }
    }
  }

  /** `generateSeoMetadata`. */
  method GenerateSeoMetadata(baseUrl: string, options: SeoOptions) returns (m: SeoMetadata)
    ensures var url := baseUrl + GetLocalePath(options.path, options.locale);
      && m.alternates.canonical == url && m.openGraph.url == url
    ensures m.alternates.languages.Keys == {"en", "de", "zh", "x-default"}
    ensures forall loc :: loc in Locales ==> m.alternates.languages[loc] == baseUrl + GetLocalePath(options.path, loc)
    ensures m.alternates.languages["x-default"] == baseUrl + GetLocalePath(options.path, DefaultLocale)
    ensures m.keywords == (if Truthy(options.keywords) then Some(Keywords(options.keywords.value)) else None)
    ensures var imageUrl := ImageUrl(baseUrl, options.image);
      && m.openGraph.images == [OgImage(imageUrl, 1200, 630, options.title)]
      && m.twitter == Twitter("summary_large_image", options.title, options.description, [imageUrl])
    ensures m.openGraph.siteName == AppName && m.openGraph.pageType == options.pageType.GetOr(Website)
    ensures m.openGraph.locale == options.locale
    ensures m.title == m.openGraph.title == options.title
    ensures m.description == m.openGraph.description == options.description
    ensures var article := options.pageType.GetOr(Website) == Article;
      && (m.openGraph.publishedTime.Some? <==> article && Truthy(options.publishedTime))
      && (m.openGraph.publishedTime.Some? ==> m.openGraph.publishedTime == options.publishedTime)
      && (m.openGraph.modifiedTime.Some? <==> article && Truthy(options.modifiedTime))
      && (m.openGraph.modifiedTime.Some? ==> m.openGraph.modifiedTime == options.modifiedTime)
      && (m.openGraph.authors.Some? <==> article && options.authors.Some? && |options.authors.value| > 0)
      && (m.openGraph.authors.Some? ==> m.openGraph.authors == options.authors)
    ensures m.robots.Some? <==> options.noIndex == Some(true)
    ensures m.robots.Some? ==> m.robots.value == Robots(false, false)
  {
    var pageType := options.pageType.GetOr(Website);
    var noIndex := options.noIndex.GetOr(false);
    var url := baseUrl + GetLocalePath(options.path, options.locale);
    var imageUrl := ImageUrl(baseUrl, options.image);
    var languages := SiteLanguages(baseUrl, options.path);
    var keywords := if Truthy(options.keywords) then Some(Keywords(options.keywords.value)) else None;
    var og := OpenGraph(options.title, options.description, url, pageType, options.locale, AppName,
                        [OgImage(imageUrl, 1200, 630, options.title)], None, None, None);
    og := AddArticleFields(og, pageType, options);
    var robots := if noIndex then Some(Robots(false, false)) else None;
    m := SeoMetadata(options.title, options.description, keywords, Alternates(url, languages), og,
                     Twitter("summary_large_image", options.title, options.description, [imageUrl]), robots);
  }

  // ---------------------------------------------------------------------
  // Breadcrumbs.

  datatype Breadcrumb = Breadcrumb(name: string, url: string)

  datatype ListItem = ListItem(position: int, name: string, item: string)

  datatype BreadcrumbList = BreadcrumbList(context: string, schemaType: string, itemListElement: seq<ListItem>)

  /** `generateBreadcrumbSchema`: one list item per breadcrumb, in order, numbered from 1. */
  function GenerateBreadcrumbSchema(breadcrumbs: seq<Breadcrumb>): (r: BreadcrumbList)
    ensures r.context == "https://schema.org" && r.schemaType == "BreadcrumbList"
    ensures |r.itemListElement| == |breadcrumbs|
    ensures forall i :: 0 <= i < |breadcrumbs| ==> r.itemListElement[i].position == i + 1
  {
    BreadcrumbList("https://schema.org", "BreadcrumbList",
      seq(|breadcrumbs|, i requires 0 <= i < |breadcrumbs| =>
        ListItem(i + 1, breadcrumbs[i].name, breadcrumbs[i].url)))
  }

  /** The breadcrumbs a list names, read back from its items. */
  function CrumbsOf(items: seq<ListItem>): (r: seq<Breadcrumb>)
    ensures |r| == |items|
  {
    seq(|items|, i requires 0 <= i < |items| => Breadcrumb(items[i].name, items[i].item))
  }

  /** Numbered 1..n in order. */
  ghost predicate NumberedFromOne(items: seq<ListItem>) {
    forall i :: 0 <= i < |items| ==> items[i].position == i + 1
  }

  /** The schema keeps the breadcrumbs in order, and a list numbered 1..n is the schema of the breadcrumbs it names. */
  lemma BreadcrumbRoundTrip(breadcrumbs: seq<Breadcrumb>, items: seq<ListItem>)
    ensures CrumbsOf(GenerateBreadcrumbSchema(breadcrumbs).itemListElement) == breadcrumbs
    ensures NumberedFromOne(items) ==> GenerateBreadcrumbSchema(CrumbsOf(items)).itemListElement == items
  {
  }
}
