/** The URL of a server-sent event stream (front/src/hooks/useEventSource.ts):
    a secure stream carries the stored token as a query parameter. Opening
    and closing the `EventSource` is left out. */
module EventSourceUrl {
  import opened Wrappers
  import opened Text

  /** How the stored token prints in a template literal: a missing token
      prints as `null`. */
  function TokenText(token: Option<string>): string {
    token.GetOr("null")
  }

  /** The URL the stream is opened with. */
  function StreamUrl(url: string, isSecure: bool, token: Option<string>): (r: string)
    ensures !isSecure ==> r == url
    ensures isSecure && Contains(url, "?") ==> r == url + "&token=" + TokenText(token)
    ensures isSecure && !Contains(url, "?") ==> r == url + "?token=" + TokenText(token)
  {
    if isSecure then url + (if Contains(url, "?") then "&" else "?") + "token=" + TokenText(token) else url
  }

  /** `url.includes('?')` for a single character. */
  lemma ContainsChar(s: string, c: char)
    ensures Contains(s, [c]) <==> c in s
  {
    if c in s {
      var i :| 0 <= i < |s| && s[i] == c;
      assert s[i..i + 1] == [c];
      assert OccursAt(s, [c], i);
    }
    if Contains(s, [c]) {
      var i: nat :| i <= |s| && OccursAt(s, [c], i);
      assert s[i..i + 1][0] == s[i];
    }
  }

  /** The result always starts with the given URL and, when secure, has a
      query string whose last parameter is the token, added exactly once:
      one separator and one `token=` follow the original URL. */
  lemma StreamUrlShape(url: string, isSecure: bool, token: Option<string>)
    ensures |StreamUrl(url, isSecure, token)| >= |url| && StreamUrl(url, isSecure, token)[..|url|] == url
    ensures isSecure ==> '?' in StreamUrl(url, isSecure, token)
    ensures isSecure ==> StreamUrl(url, isSecure, token)[|url|] in "?&"
    ensures isSecure ==> StreamUrl(url, isSecure, token)[|url| + 1..] == "token=" + TokenText(token)
  {
    var r := StreamUrl(url, isSecure, token);
    if isSecure {
      ContainsChar(url, '?');
      if '?' in url {
        var i :| 0 <= i < |url| && url[i] == '?';
        assert r[i] == '?';
      } else {
        assert r[|url|] == '?';
      }
    }
  }
}
