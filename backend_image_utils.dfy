/**
 * The server's `sanitizeImageUrl`: a missing or empty URL becomes "", any other is trimmed
 * and stripped of carriage returns and line feeds.
 */
module BackendImageUtils {
  import opened Common
  import opened Text

  const LineBreaks: set<char> := {'\n', '\r'}

  /** Trimming and then removing line breaks: the clean-up both `sanitizeImageUrl`s share. */
  function Clean(u: string): (r: string)
    ensures |r| <= |u|
  {
    Remove(Trim(u), LineBreaks)
  }

  /** A cleaned URL has no line break and no whitespace at either end. */
  lemma CleanIsClean(u: string)
    ensures var r := Clean(u);
      NoOuterWhitespace(r) && forall i :: 0 <= i < |r| ==> r[i] != '\n' && r[i] != '\r'
  {
    var t := Trim(u);
    LineBreaksAreWhitespace();
    RemoveKeepsEdges(t, LineBreaks);
    var r := Remove(t, LineBreaks);
    forall i | 0 <= i < |r|
      ensures r[i] != '\n' && r[i] != '\r'
    {
      assert r[i] !in LineBreaks;
    }
  }

  lemma LineBreaksAreWhitespace()
    ensures forall c :: c in LineBreaks ==> IsJsWhitespace(c)
  {
    forall c | c in LineBreaks
      ensures IsJsWhitespace(c)
    {
      assert c == '\n' || c == '\r';
    }
  }

  /** A URL with no line break and no outer whitespace is already clean. */
  lemma CleanOfClean(u: string)
    requires NoOuterWhitespace(u)
    requires forall i :: 0 <= i < |u| ==> u[i] != '\n' && u[i] != '\r'
    ensures Clean(u) == u
  {
    TrimOfTrimmed(u);
    RemoveAbsent(u, LineBreaks);
  }

  /** Cleaning a clean URL changes nothing. */
  lemma CleanIdempotent(u: string)
    ensures Clean(Clean(u)) == Clean(u)
  {
    CleanIsClean(u);
    CleanOfClean(Clean(u));
  }

  /** `sanitizeImageUrl`: a missing or empty URL becomes "", any other is cleaned and never grows. */
  function SanitizeImageUrl(url: Option<string>): (r: string)
    ensures !TruthyString(url) ==> r == ""
    ensures TruthyString(url) ==> |r| <= |url.value|
  {
    if !TruthyString(url) then "" else Clean(url.value)
  }

  /** A sanitized URL has no line break and no whitespace at either end. */
  lemma SanitizedIsClean(url: Option<string>)
    ensures var r := SanitizeImageUrl(url);
      NoOuterWhitespace(r) && forall i :: 0 <= i < |r| ==> r[i] != '\n' && r[i] != '\r'
  {
    if TruthyString(url) {
      CleanIsClean(url.value);
    }
  }

  /** Sanitizing twice is sanitizing once. */
  lemma SanitizeIdempotent(url: Option<string>)
    ensures SanitizeImageUrl(Some(SanitizeImageUrl(url))) == SanitizeImageUrl(url)
  {
    if TruthyString(url) {
      CleanIdempotent(url.value);
    }
  }
}
