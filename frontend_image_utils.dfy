/**
 * The browser's `sanitizeImageUrl`: a missing URL becomes the placeholder image; otherwise
 * the URL is cleaned as on the server, and a cleaned URL starting with "http" that the
 * `URL` constructor rejects also becomes the placeholder. The constructor is the
 * parameter `parses`.
 */
module FrontendImageUtils {
  import opened Common
  import opened Text
  import BackendImageUtils

  const Placeholder := "/placeholder-smoothie.jpg"

  /**
   * `sanitizeImageUrl` on the client, with `parses` for `new URL` succeeding: a missing or empty
   * URL, or an "http" URL that does not parse, becomes the placeholder; any other is cleaned.
   */
  function SanitizeImageUrl(url: Option<string>, parses: string -> bool): (r: string)
    ensures !TruthyString(url) ==> r == Placeholder
    ensures r != Placeholder ==> TruthyString(url) && |r| <= |url.value|
    ensures r != Placeholder && StartsWith(r, "http") ==> parses(r)
  {
    if !TruthyString(url) then Placeholder
    else
      var s := BackendImageUtils.Clean(url.value);
      if StartsWith(s, "http") && !parses(s) then Placeholder else s
  }

  /** The result is the placeholder or a URL without line breaks; one starting with "http" parses. */
  lemma SanitizedIsPlaceholderOrClean(url: Option<string>, parses: string -> bool)
    ensures var r := SanitizeImageUrl(url, parses);
      r == Placeholder
      || (&& (forall i :: 0 <= i < |r| ==> r[i] != '\n' && r[i] != '\r')
          && NoOuterWhitespace(r)
          && (StartsWith(r, "http") ==> parses(r)))
  {
    if TruthyString(url) {
      BackendImageUtils.CleanIsClean(url.value);
    }
  }

  /** The placeholder has no line break, no outer whitespace, and does not start with "http". */
  lemma PlaceholderIsClean()
    ensures NoOuterWhitespace(Placeholder) && !StartsWith(Placeholder, "http")
    ensures forall i :: 0 <= i < |Placeholder| ==> Placeholder[i] != '\n' && Placeholder[i] != '\r'
  {
    var p := Placeholder;
    assert p[0] == '/' && p[|p| - 1] == 'g';
  }

  /** A non-empty clean URL that parses whenever it starts with "http" is returned as it is. */
  lemma CleanUrlIsFixed(u: string, parses: string -> bool)
    requires u != [] && NoOuterWhitespace(u)
    requires forall i :: 0 <= i < |u| ==> u[i] != '\n' && u[i] != '\r'
    requires StartsWith(u, "http") ==> parses(u)
    ensures SanitizeImageUrl(Some(u), parses) == u
  {
    BackendImageUtils.CleanOfClean(u);
  }

  /**
   * Sanitizing a non-empty result again gives it back. (An empty result, from a URL of
   * blanks, turns into the placeholder on the second pass.)
   */
  lemma SanitizeIdempotent(url: Option<string>, parses: string -> bool)
    requires SanitizeImageUrl(url, parses) != ""
    ensures var r := SanitizeImageUrl(url, parses);
      SanitizeImageUrl(Some(r), parses) == r
  {
    var r := SanitizeImageUrl(url, parses);
    if r == Placeholder {
      PlaceholderIsClean();
      CleanUrlIsFixed(r, parses);
    } else {
      BackendImageUtils.CleanIdempotent(url.value);
    }
  }

  /** The empty result is where idempotence stops: sanitizing "" gives the placeholder. */
  lemma EmptyResultNotFixed(parses: string -> bool)
    ensures SanitizeImageUrl(Some(""), parses) == Placeholder
  {
  }

  /** A URL of blanks is not missing, so it comes back as the empty string rather than the placeholder. */
  lemma BlankUrlGivesEmpty(parses: string -> bool)
    ensures SanitizeImageUrl(Some("  "), parses) == ""
  {
    assert TrimStart("  ") == [];
  }
}
