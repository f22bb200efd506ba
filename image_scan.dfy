/** Hand-written matchers for the regular expressions of the image
    rewriter, with the semantics Python's `re` gives them when `re.sub`
    tries a match at one position:

      markdown data URI   !\[(.*?)\]\((data:image\/([^;]+);base64,([^)]+))\)
      markdown relative   !\[(.*?)\]\((?!data:|https?:|/)([^)]+?)\)
      HTML data URI       <img(?:[^>]*?)src="(data:image\/([^;]+);base64,([^"]+))"(?:[^>]*?)alt="([^"]*)"(?:[^>]*?)>
      ... without alt     <img(?:[^>]*?)src="(data:image\/([^;]+);base64,([^"]+))"(?:[^>]*?)>
      HTML relative       <img(?:[^>]*?)src="(?!data:|https?:|/)([^"]+)"(?:[^>]*?)alt="([^"]*)"(?:[^>]*?)>
      ... without alt     <img(?:[^>]*?)src="(?!data:|https?:|/)([^"]+)"(?:[^>]*?)>
      marker              <!-- image -->

    A lazy group (`.*?`, `[^>]*?`) is tried at its shortest first and
    grows one character at a time (never over '\n', resp. '>') until the
    rest of the pattern matches; every greedy class here stops at the
    first character it excludes, and the character after it is the one
    the pattern needs, so no other backtracking can succeed. */
module ImageScan {
  import opened Wrappers
  import opened Strings

  datatype Pattern =
    | MdDataUri | MdRelative
    | HtmlDataUriAlt | HtmlDataUriNoAlt | HtmlRelativeAlt | HtmlRelativeNoAlt
    | Marker

  /** A match that starts at the position it was tried at and ends before
      `end`; `alt` is "" for the patterns without an alt group, `src` is the
      data URI or the relative path, `imgType` and `data` are the data URI's
      parts. */
  datatype Hit = Hit(end: nat, alt: string, src: string, imgType: string, data: string)

  const MarkerText: string := "<!-- image -->"

  /** `s[k..]` starts with `t`. */
  predicate At(s: string, k: nat, t: string)
  {
    k + |t| <= |s| && s[k..k + |t|] == t
  }

  /** The negative lookahead `(?!data:|https?:|/)`. */
  predicate ExcludedSource(s: string, k: nat)
  {
    At(s, k, "data:") || At(s, k, "http:") || At(s, k, "https:") || At(s, k, "/")
  }

  /** A source the relative-path patterns accept: non-empty and not
      starting with `data:`, `http:`, `https:` or `/`. */
  predicate SafeSource(src: string)
  {
    src != [] && !StartsWith(src, "data:") && !StartsWith(src, "http:") && !StartsWith(src, "https:") && !StartsWith(src, "/")
  }

  predicate IsRelative(pat: Pattern)
  {
    pat == MdRelative || pat == HtmlRelativeAlt || pat == HtmlRelativeNoAlt
  }

  lemma PrefixAt(s: string, k: nat, e: nat, t: string)
    requires k <= e <= |s|
    requires StartsWith(s[k..e], t)
    ensures At(s, k, t)
  {
    assert s[k..e][..|t|] == s[k..k + |t|];
  }

  /** A non-empty slice starting where the lookahead passes is a safe source. */
  lemma SafeSlice(s: string, k: nat, e: nat)
    requires k < e <= |s|
    requires !ExcludedSource(s, k)
    ensures SafeSource(s[k..e])
  {
    var src := s[k..e];
    if StartsWith(src, "data:") { PrefixAt(s, k, e, "data:"); }
    if StartsWith(src, "http:") { PrefixAt(s, k, e, "http:"); }
    if StartsWith(src, "https:") { PrefixAt(s, k, e, "https:"); }
    if StartsWith(src, "/") { PrefixAt(s, k, e, "/"); }
  }

  /** `data:image/<type>;base64,<data>` followed by `close`, starting at `k`
      (just after the opening `(` or `"`): returns the position of `close`,
      the type and the data. */
  function DataUriAt(s: string, k: nat, close: char): (r: Option<(nat, string, string)>)
    ensures r.Some? ==> k < r.value.0 < |s| && s[r.value.0] == close
    ensures r.Some? ==> r.value.1 != [] && r.value.2 != [] && close !in r.value.2 && ';' !in r.value.1
  {
    if !At(s, k, "data:image/") then None
    else
      var q := k + 11;
      var t := FirstWhere(s, q, c => c == ';');
      if t == q || !At(s, t, ";base64,") then None
      else
        var d := t + 8;
        var e := FirstWhere(s, d, c => c == close);
        if e == d || e == |s| then None
        else
          assert forall i :: 0 <= i < |s[d..e]| ==> s[d..e][i] == s[d + i];
          assert forall i :: 0 <= i < |s[q..t]| ==> s[q..t][i] == s[q + i];
          Some((e, s[q..t], s[d..e]))
  }

  /** A relative source up to `close` at `k`: non-empty, not excluded by
      the lookahead; returns the position of `close` and the source. */
  function RelativeAt(s: string, k: nat, close: char): (r: Option<(nat, string)>)
    ensures r.Some? ==> k < r.value.0 < |s| && s[r.value.0] == close && r.value.1 == s[k..r.value.0]
    ensures r.Some? ==> !ExcludedSource(s, k) && SafeSource(r.value.1)
  {
    if k > |s| || ExcludedSource(s, k) then None
    else
      var e := FirstWhere(s, k, c => c == close);
      if e == k || e == |s| then None
      else
        SafeSlice(s, k, e);
        Some((e, s[k..e]))
  }

  // ------------------------------------------------------------ markdown

  /** What follows the alt text of a markdown image, from the `]` at `k`. */
  function MdTail(s: string, k: nat, pat: Pattern): (r: Option<Hit>)
    requires pat == MdDataUri || pat == MdRelative
    ensures r.Some? ==> k < r.value.end <= |s|
    ensures r.Some? && pat == MdRelative ==> SafeSource(r.value.src)
  {
    if !At(s, k, "](") then None
    else if pat == MdDataUri then
      match DataUriAt(s, k + 2, ')')
      case None => None
      case Some((e, t, d)) => Some(Hit(e + 1, "", s[k + 2..e], t, d))
    else
      match RelativeAt(s, k + 2, ')')
      case None => None
      case Some((e, src)) => Some(Hit(e + 1, "", src, "", ""))
  }

  /** The lazy `(.*?)`: the alt text ends at the first `k` from which the
      rest of the pattern matches, never running over a newline. */
  function MdLazyAlt(s: string, altStart: nat, k: nat, pat: Pattern): (r: Option<Hit>)
    requires pat == MdDataUri || pat == MdRelative
    requires altStart <= k <= |s|
    ensures r.Some? ==> k < r.value.end <= |s|
    ensures r.Some? && pat == MdRelative ==> SafeSource(r.value.src)
    decreases |s| - k
  {
    match MdTail(s, k, pat)
    case Some(h) => Some(h.(alt := s[altStart..k]))
    case None =>
      if k < |s| && s[k] != '\n' then MdLazyAlt(s, altStart, k + 1, pat) else None
  }

  // ------------------------------------------------------------ HTML

  /** The lazy `(?:[^>]*?)alt="([^"]*)"(?:[^>]*?)>` after the source's
      closing quote: the first `alt="` before any '>' and then the first '>'
      after the alt value's closing quote. Returns the end and the alt. */
  function AltAttrFrom(s: string, j: nat): (r: Option<(nat, string)>)
    requires j <= |s|
    ensures r.Some? ==> j < r.value.0 <= |s|
    decreases |s| - j
  {
    if At(s, j, "alt=\"") then
      var a := j + 5;
      var b := FirstWhere(s, a, c => c == '"');
      if b == |s| then None
      else
        var g := FirstWhere(s, b + 1, c => c == '>');
        if g == |s| then None else Some((g + 1, s[a..b]))
    else if j < |s| && s[j] != '>' then AltAttrFrom(s, j + 1)
    else None
  }

  /** The lazy `(?:[^>]*?)>` after the source's closing quote. */
  function TagEndFrom(s: string, j: nat): (r: Option<nat>)
    requires j <= |s|
    ensures r.Some? ==> j < r.value <= |s|
  {
    var g := FirstWhere(s, j, c => c == '>');
    if g == |s| then None else Some(g + 1)
  }

  predicate IsHtml(pat: Pattern)
  {
    pat == HtmlDataUriAlt || pat == HtmlDataUriNoAlt || pat == HtmlRelativeAlt || pat == HtmlRelativeNoAlt
  }

  predicate WithAlt(pat: Pattern)
  {
    pat == HtmlDataUriAlt || pat == HtmlRelativeAlt
  }

  /** Everything from `src="` at `k` to the end of the tag. */
  function HtmlTail(s: string, k: nat, pat: Pattern): (r: Option<Hit>)
    requires IsHtml(pat)
    ensures r.Some? ==> k < r.value.end <= |s|
    ensures r.Some? && IsRelative(pat) ==> SafeSource(r.value.src)
  {
    if !At(s, k, "src=\"") then None
    else
      var src: Option<(nat, string, string, string)> :=
        if pat == HtmlDataUriAlt || pat == HtmlDataUriNoAlt then
          match DataUriAt(s, k + 5, '"')
          case None => None
          case Some((e, t, d)) => Some((e, s[k + 5..e], t, d))
        else
          match RelativeAt(s, k + 5, '"')
          case None => None
          case Some((e, p)) => Some((e, p, "", ""));
      match src
      case None => None
      case Some((e, url, t, d)) =>
        if WithAlt(pat) then
          match AltAttrFrom(s, e + 1)
          case None => None
          case Some((end, alt)) => Some(Hit(end, alt, url, t, d))
        else
          match TagEndFrom(s, e + 1)
          case None => None
          case Some(end) => Some(Hit(end, "", url, t, d))
  }

  /** The lazy `(?:[^>]*?)` between `<img` and `src="`. */
  function HtmlLazyAttrs(s: string, k: nat, pat: Pattern): (r: Option<Hit>)
    requires IsHtml(pat)
    requires k <= |s|
    ensures r.Some? ==> k < r.value.end <= |s|
    ensures r.Some? && IsRelative(pat) ==> SafeSource(r.value.src)
    decreases |s| - k
  {
    match HtmlTail(s, k, pat)
    case Some(h) => Some(h)
    case None =>
      if k < |s| && s[k] != '>' then HtmlLazyAttrs(s, k + 1, pat) else None
  }

  // ------------------------------------------------------------ all patterns

  /** The match `re.sub` finds when it tries `pat` at position `p`. */
  function MatchAt(pat: Pattern, s: string, p: nat): (r: Option<Hit>)
    requires p <= |s|
    ensures r.Some? ==> p < r.value.end <= |s|
    ensures r.Some? && IsRelative(pat) ==> SafeSource(r.value.src)
  {
    match pat
    case MdDataUri => if At(s, p, "![") then MdLazyAlt(s, p + 2, p + 2, pat) else None
    case MdRelative => if At(s, p, "![") then MdLazyAlt(s, p + 2, p + 2, pat) else None
    case Marker => if At(s, p, MarkerText) then Some(Hit(p + |MarkerText|, "", "", "", "")) else None
    case _ => if At(s, p, "<img") then HtmlLazyAttrs(s, p + 4, pat) else None
  }
}
