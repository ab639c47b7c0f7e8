/** The base-URL normalisation `getURL` of `libs/helpers.ts`. The two
    environment variables are parameters (`undefined` is `None`). */
module SiteUrl {

  import opened Wrappers

  /** The built-in fallback. */
  const LocalUrl := "http://localhost:3000/"

  /** `a ?? b` on strings: only an absent value falls through, so an empty
      string is kept. */
  function Coalesce(a: Option<string>, b: string): (r: string)
    ensures a.Some? ==> r == a.value
    ensures a.None? ==> r == b
  {
    if a.Some? then a.value else b
  }

  /** `sub` occurs in `s` starting at index `i`. */
  predicate OccursAt(s: string, sub: string, i: int)
  {
    0 <= i && i + |sub| <= |s| && s[i..i + |sub|] == sub
  }

  /** `s.includes(sub)`, scanning from the left. */
  function Contains(s: string, sub: string): bool
    decreases |s|
  {
    if |s| < |sub| then false
    else if s[..|sub|] == sub then true
    else Contains(s[1..], sub)
  }

  /** `Contains` holds exactly when the substring occurs somewhere. */
  lemma {:induction false} ContainsIff(s: string, sub: string)
    ensures Contains(s, sub) <==> exists i :: OccursAt(s, sub, i)
    decreases |s|
  {
    if |s| < |sub| {
    } else if s[..|sub|] == sub {
      assert OccursAt(s, sub, 0);
    } else {
      ContainsIff(s[1..], sub);
      if Contains(s[1..], sub) {
        var i :| OccursAt(s[1..], sub, i);
        assert s[1..][i..i + |sub|] == s[i + 1..i + 1 + |sub|];
        assert OccursAt(s, sub, i + 1);
      } else {
        forall i | OccursAt(s, sub, i) ensures false {
          assert i != 0;
          assert s[1..][i - 1..i - 1 + |sub|] == s[i..i + |sub|];
          assert OccursAt(s[1..], sub, i - 1);
        }
      }
    }
  }

  /** An occurrence inside a prefix is an occurrence in the whole. */
  lemma ContainsPrefix(s: string, t: string, sub: string)
    requires Contains(s, sub) && |s| <= |t| && t[..|s|] == s
    ensures Contains(t, sub)
  {
    ContainsIff(s, sub);
    var i :| OccursAt(s, sub, i);
    assert t[i..i + |sub|] == s[i..i + |sub|];
    assert OccursAt(t, sub, i);
    ContainsIff(t, sub);
  }

  /** `url.charAt(url.length - 1) === '/'`; `charAt` of an empty string's
      index -1 is `""`, which is not a slash. */
  predicate EndsWithSlash(url: string)
  {
    |url| > 0 && url[|url| - 1] == '/'
  }

  /** The two rewrites: prefix `https://` unless `http` occurs anywhere, then
      append `/` unless it is already the last character. */
  function Normalise(url: string): (r: string)
    ensures EndsWithSlash(r)
    ensures Contains(r, "http")
    ensures Contains(url, "http") ==> r == (if EndsWithSlash(url) then url else url + "/")
    ensures !Contains(url, "http") ==>
      r == (if EndsWithSlash("https://" + url) then "https://" + url else "https://" + url + "/")
  {
    var prefixed := if Contains(url, "http") then url else "https://" + url;
    assert Contains(prefixed, "http") by {
      if !Contains(url, "http") {
        assert prefixed[..4] == "http";
      }
    }
    var r := if EndsWithSlash(prefixed) then prefixed else prefixed + "/";
    assert Contains(r, "http") by {
      assert r[..|prefixed|] == prefixed;
      ContainsPrefix(prefixed, r, "http");
    }
    r
  }

  /** `getURL()`. */
  function GetURL(siteUrl: Option<string>, vercelUrl: Option<string>): (r: string)
    ensures EndsWithSlash(r) && Contains(r, "http")
  {
    Normalise(Coalesce(siteUrl, Coalesce(vercelUrl, LocalUrl)))
  }

  /** Normalising a normalised URL changes nothing. */
  lemma NormaliseIdempotent(url: string)
    ensures Normalise(Normalise(url)) == Normalise(url)
  {
  }

  /** A URL already naming a scheme and ending in `/` comes back as given,
      so `getURL` is the identity on its own results. */
  lemma GetURLFixpoint(siteUrl: Option<string>, vercelUrl: Option<string>)
    ensures GetURL(Some(GetURL(siteUrl, vercelUrl)), vercelUrl) == GetURL(siteUrl, vercelUrl)
  {
  }

  /** With neither variable set the result is the localhost fallback. */
  lemma DefaultURL()
    ensures GetURL(None, None) == "http://localhost:3000/"
  {
    assert LocalUrl[0..4] == "http";
  }

  /** A set but empty site URL is kept by `??` and becomes `https://`, even
      when the platform URL is set. */
  lemma EmptySiteUrlKept(vercelUrl: Option<string>)
    ensures GetURL(Some(""), vercelUrl) == "https://"
  {
    assert !Contains("", "http");
    assert ("https://" + "")[0..4] == "http";
  }
}
