/**
 * String helpers of the product-page scraper (scrapper/extractor.py): URL
 * prefixing, pulling an image URL out of a CSS `url(...)` value, rewriting
 * thumbnail URLs to the large size, and stripping commas from a price.
 */
module Extractor {
  import opened Wrappers

  const HOST: string := "https://www.flipkart.com"

  predicate StartsWith(s: string, prefix: string) {
    |prefix| <= |s| && s[..|prefix|] == prefix
  }

  /** `pat` occurs in `s` at position `k`. */
  predicate Occurs(s: string, pat: string, k: int) {
    0 <= k && k + |pat| <= |s| && s[k..k + |pat|] == pat
  }

  // ---------------------------------------------------------------------------
  // `FlipkartPLPExtractor._add_scheme`

  /** `_add_scheme` as written: the guard is `not startswith('http:') or not startswith('https:')`. */
  function AddScheme(url: string): string {
    if !StartsWith(url, "http:") || !StartsWith(url, "https:") then HOST + url else url
  }

  /** No string starts with both `http:` and `https:`, so the host is always put in front, even of an absolute URL. */
  lemma AddSchemeAlwaysPrefixes(url: string)
    ensures AddScheme(url) == HOST + url
    ensures StartsWith(AddScheme(url), HOST) && AddScheme(url)[|HOST|..] == url
  {
    if StartsWith(url, "http:") {
      // The fifth character is then `:`, where `https:` has `s`.
      assert url[4] == "http:"[4] != "https:"[4];
      assert !StartsWith(url, "https:");
    }
    assert (HOST + url)[..|HOST|] == HOST;
  }

  // ---------------------------------------------------------------------------
  // `_extract_img_url`

  /** `str.index(pat, from)`: the first position at or after `from` where `pat` occurs; None where `index` raises. */
  function IndexOf(s: string, pat: string, from: nat): (r: Option<nat>)
    ensures r.Some? ==> from <= r.value && Occurs(s, pat, r.value)
    ensures r.Some? ==> forall k :: from <= k < r.value ==> !Occurs(s, pat, k)
    ensures r.None? ==> forall k :: from <= k ==> !Occurs(s, pat, k)
    decreases |s| - from
  {
    if from + |pat| > |s| then None
    else if s[from..from + |pat|] == pat then Some(from)
    else IndexOf(s, pat, from + 1)
  }

  /** Python's `s[lo:hi]` for `0 <= lo` and `0 <= hi <= |s|`: empty when `lo >= hi`. */
  function Slice(s: string, lo: nat, hi: nat): (r: string)
    requires hi <= |s|
    ensures |r| == if lo < hi then hi - lo else 0
  {
    if lo < hi then s[lo..hi] else []
  }

  /** `_extract_img_url`: the text from 4 characters after the first `url(` up to, not including, the last
      character; None where `style.index('url(')` raises. */
  function ExtractImgUrl(style: string): (r: Option<string>)
    ensures r.None? <==> forall k :: !Occurs(style, "url(", k)
    ensures r.Some? ==> |r.value| < |style|
  {
    match IndexOf(style, "url(", 0)
    case None => None
    case Some(i) => Some(Slice(style, i + 4, |style| - 1))
  }

  /** With the first `url(` at `i`, the result is what follows it up to the last character, empty if nothing does. */
  lemma ExtractImgUrlAt(style: string, i: nat)
    requires Occurs(style, "url(", i)
    requires forall k :: 0 <= k < i ==> !Occurs(style, "url(", k)
    ensures ExtractImgUrl(style).Some?
    ensures i + 5 <= |style| ==> ExtractImgUrl(style).value == style[i + 4..|style| - 1]
    ensures i + 5 > |style| ==> ExtractImgUrl(style).value == []
  {
  }

  /** A style `pre + "url(" + body + ")"` gives back `body` when `url(` does not occur in `pre`. */
  lemma ExtractImgUrlOf(pre: string, body: string)
    requires forall k :: !Occurs(pre, "url(", k)
    ensures ExtractImgUrl(pre + "url(" + body + ")") == Some(body)
  {
    var style := pre + "url(" + body + ")";
    var n := |pre|;
    assert Occurs(style, "url(", n) by {
      assert style[n..n + 4] == "url(";
    }
    forall k | 0 <= k < n
      ensures !Occurs(style, "url(", k)
    {
      if k + 4 <= n {
        assert style[k..k + 4] == pre[k..k + 4];
        assert !Occurs(pre, "url(", k);
      } else {
        // The window at k would have to hold the `u` of the marker at a later position.
        assert style[k..k + 4][n - k] == style[n] == 'u';
        assert "url("[n - k] != 'u';
      }
    }
    var i := IndexOf(style, "url(", 0);
    assert i == Some(n);
    assert style[n + 4..|style| - 1] == body;
  }

  // ---------------------------------------------------------------------------
  // `str.replace` and `_transform_image_url`

  /** `s.replace(pat, rep)`: every non-overlapping occurrence of `pat`, from the left, becomes `rep`. */
  function Replace(s: string, pat: string, rep: string): (r: string)
    requires |pat| > 0
    ensures |pat| == |rep| ==> |r| == |s|
    decreases |s|
  {
    if |s| < |pat| then s
    else if s[..|pat|] == pat then rep + Replace(s[|pat|..], pat, rep)
    else [s[0]] + Replace(s[1..], pat, rep)
  }

  /** Without an occurrence of `pat`, replacing changes nothing. */
  lemma {:induction false} ReplaceAbsent(s: string, pat: string, rep: string)
    requires |pat| > 0
    requires forall k :: !Occurs(s, pat, k)
    ensures Replace(s, pat, rep) == s
    decreases |s|
  {
    if |s| >= |pat| {
      assert !Occurs(s, pat, 0);
      forall k
        ensures !Occurs(s[1..], pat, k)
      {
        if Occurs(s[1..], pat, k) {
          assert s[1..][k..k + |pat|] == s[k + 1..k + 1 + |pat|];
          assert Occurs(s, pat, k + 1);
        }
      }
      ReplaceAbsent(s[1..], pat, rep);
      assert s == [s[0]] + s[1..];
    }
  }

  /** `_transform_image_url`: `/128/` becomes `/832/`, applied twice. */
  function TransformImageUrl(url: string): (r: string) {
    Replace(Replace(url, "/128/", "/832/"), "/128/", "/832/")
  }

  /** The rewrite keeps the length of the URL, and a URL without `/128/` is left as it is. */
  lemma TransformImageUrlProperties(url: string)
    ensures |TransformImageUrl(url)| == |url|
    ensures (forall k :: !Occurs(url, "/128/", k)) ==> TransformImageUrl(url) == url
  {
    if forall k :: !Occurs(url, "/128/", k) {
      ReplaceAbsent(url, "/128/", "/832/");
      ReplaceAbsent(url, "/128/", "/832/");
    }
  }

  /** The first pass over `/128/128/`: the second occurrence shares its leading slash with the first and is missed. */
  lemma ReplaceFirstPass()
    ensures Replace("/128/128/", "/128/", "/832/") == "/832/128/"
  {
    var s := "/128/128/";
    assert s[..5] == "/128/" && s[5..] == "128/";
    assert Replace("128/", "/128/", "/832/") == "128/";
  }

  /** The second pass over `/832/128/` rewrites the occurrence the first pass missed. */
  lemma ReplaceSecondPass()
    ensures Replace("/832/128/", "/128/", "/832/") == "/832/832/"
  {
    var s := "/832/128/";
    assert s[..5] != "/128/" by { assert s[1] == '8'; }
    assert s[1..][..5] != "/128/" by { assert s[1..][0] == '8'; }
    assert s[2..][..5] != "/128/" by { assert s[2..][0] == '3'; }
    assert s[3..][..5] != "/128/" by { assert s[3..][0] == '2'; }
    assert s[1..][1..] == s[2..] && s[2..][1..] == s[3..] && s[3..][1..] == s[4..];
    assert s[4..] == "/128/";
    assert Replace(s[4..], "/128/", "/832/") == "/832/";
    assert Replace(s[3..], "/128/", "/832/") == [s[3]] + "/832/";
    assert Replace(s[2..], "/128/", "/832/") == [s[2], s[3]] + "/832/";
    assert Replace(s[1..], "/128/", "/832/") == [s[1], s[2], s[3]] + "/832/";
    assert Replace(s, "/128/", "/832/") == [s[0], s[1], s[2], s[3]] + "/832/";
  }

  /** Occurrences that share a slash are not all caught by one pass; the second pass catches them. */
  lemma TransformImageUrlOverlap()
    ensures Replace("/128/128/", "/128/", "/832/") == "/832/128/"
    ensures TransformImageUrl("/128/128/") == "/832/832/"
  {
    ReplaceFirstPass();
    ReplaceSecondPass();
  }

  // ---------------------------------------------------------------------------
  // The comma stripping of `extract_price`

  /** The characters of `s` other than commas, in order. */
  function WithoutCommas(s: string): (r: string) {
    if s == [] then [] else (if s[0] == ',' then [] else [s[0]]) + WithoutCommas(s[1..])
  }

  /** `price.replace(',', '') if price else None`. */
  function StripPriceCommas(price: string): Option<string> {
    if price == [] then None else Some(Replace(price, ",", ""))
  }

  /** Removing commas with `replace` drops exactly the commas and keeps every other character in order. */
  lemma {:induction false} ReplaceCommaIsWithoutCommas(s: string)
    ensures Replace(s, ",", "") == WithoutCommas(s)
    decreases |s|
  {
    if s != [] {
      ReplaceCommaIsWithoutCommas(s[1..]);
      if s[0] == ',' {
        assert s[..1] == ",";
      } else {
        assert s[..1] != ",";
      }
    }
  }

  lemma {:induction false} WithoutCommasHasNone(s: string)
    ensures forall i :: 0 <= i < |WithoutCommas(s)| ==> WithoutCommas(s)[i] != ','
    decreases |s|
  {
    if s != [] {
      WithoutCommasHasNone(s[1..]);
    }
  }

  /** Empty text gives None; any other text gives its characters without commas, in order, and no comma. */
  lemma StripPriceCommasProperties(price: string)
    ensures StripPriceCommas(price).None? <==> price == []
    ensures StripPriceCommas(price).Some? ==> StripPriceCommas(price).value == WithoutCommas(price)
    ensures StripPriceCommas(price).Some? ==> forall i :: 0 <= i < |StripPriceCommas(price).value| ==>
                                                 StripPriceCommas(price).value[i] != ','
  {
    ReplaceCommaIsWithoutCommas(price);
    WithoutCommasHasNone(price);
  }
}
