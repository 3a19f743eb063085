/** Cache busting of asset URLs: a version string and a load time, fixed
    when the helper is made, appended to a URL as a query parameter. The
    version and the time are given, not generated. */
module CacheBusting {
  import opened Wrappers
  import opened Text

  /** The helper's two fields, set once. */
  datatype CacheBuster = CacheBuster(version: string, timestamp: nat) {

    /** `getCacheBuster()`: `v=<version>&t=<timestamp>`. */
    function GetCacheBuster(): (param: string)
      ensures |param| > 5 + |version|
      ensures param[..2] == "v=" && param[2..2 + |version|] == version
      ensures param[2 + |version|..5 + |version|] == "&t="
      ensures AllDigits(param[5 + |version|..]) && DecimalValue(param[5 + |version|..]) == timestamp
    {
      var digits := NatToDecimal(timestamp);
      var param := "v=" + version + "&t=" + digits;
      assert param[5 + |version|..] == digits;
      DecimalRoundTrip(timestamp);
      param
    }

    /** `getVersion()`. */
    function GetVersion(): (v: string)
      ensures v == version
    {
      version
    }

    /** `bustCache(url)`: the parameter joins an existing query with `&`,
        or starts one with `?`. */
    function BustCache(url: string): (busted: string)
      ensures |busted| == |url| + 1 + |GetCacheBuster()|
      ensures busted[..|url|] == url
      ensures '?' in busted
    {
      var b := url + [Separator(url)] + GetCacheBuster();
      assert b[..|url|] == url;
      assert '?' in b by {
        if '?' in url {
          var i :| 0 <= i < |url| && url[i] == '?';
          assert b[i] == '?';
        } else {
          assert b[|url|] == '?';
        }
      }
      b
    }

    /** `hasVersionChanged(stored)`: whether a stored version differs from this one. */
    predicate HasVersionChanged(stored: string) {
      stored != version
    }
  }

  /** `&` when the URL already has a `?`, else `?`. */
  function Separator(url: string): (c: char)
    ensures c == '&' <==> '?' in url
    ensures c == '?' <==> '?' !in url
  {
    if '?' in url then '&' else '?'
  }

  /** The busted URL begins with the URL, always has a query, and after the
      URL holds the separator and the parameter. */
  lemma BustCacheSpec(cb: CacheBuster, url: string)
    ensures var b := cb.BustCache(url);
      && b[..|url|] == url
      && '?' in b
      && b[|url|] == Separator(url)
      && b[|url| + 1..] == cb.GetCacheBuster()
  {
    var b := cb.BustCache(url);
    assert b[..|url|] == url;
    if '?' in url {
      var i :| 0 <= i < |url| && url[i] == '?';
      assert b[i] == '?';
    } else {
      assert b[|url|] == '?';
    }
    assert b[|url| + 1..] == cb.GetCacheBuster();
  }

  /** A busted URL has a query, so busting it again appends with `&`. */
  lemma BustTwice(cb: CacheBuster, url: string)
    ensures cb.BustCache(cb.BustCache(url)) == cb.BustCache(url) + "&" + cb.GetCacheBuster()
  {
    BustCacheSpec(cb, url);
  }

  /** Reads a parameter `v=<version>&t=<digits>` back, the version ending at the first `&`. */
  function ParseCacheBuster(param: string): Option<(string, nat)> {
    if |param| < 2 || param[..2] != "v=" then None
    else
      var rest := param[2..];
      var i := FirstAmp(rest);
      if i < 0 || |rest| - i < 3 || rest[i..i + 3] != "&t=" then None
      else
        var digits := rest[i + 3..];
        if digits == [] || !AllDigits(digits) then None
        else Some((rest[..i], DecimalValue(digits)))
  }

  /** The position of the first `&`, or -1. */
  function FirstAmp(s: string): (i: int)
    ensures -1 <= i < |s|
    ensures i == -1 <==> '&' !in s
    ensures i >= 0 ==> s[i] == '&' && '&' !in s[..i]
  {
    if s == [] then -1
    else if s[0] == '&' then 0
    else
      var j := FirstAmp(s[1..]);
      if j == -1 then -1
      else
        assert s[..j + 1] == [s[0]] + s[1..][..j];
        j + 1
  }

  /** The parameter carries the version and the time recoverably, for any
      version without an `&`. */
  lemma ParseRoundTrip(cb: CacheBuster)
    requires '&' !in cb.version
    ensures ParseCacheBuster(cb.GetCacheBuster()) == Some((cb.version, cb.timestamp))
  {
    var param := cb.GetCacheBuster();
    var digits := NatToDecimal(cb.timestamp);
    var rest := param[2..];
    assert rest == cb.version + "&t=" + digits;
    assert rest[|cb.version|] == '&';
    assert rest[..|cb.version|] == cb.version;
    var i := FirstAmp(rest);
    assert i == |cb.version|;
    assert rest[i..i + 3] == "&t=";
    assert rest[i + 3..] == digits;
    DecimalRoundTrip(cb.timestamp);
  }

  /** Different versions or times give different parameters, so a changed
      build is never served a cached URL of the old one. */
  lemma ParamInjective(a: CacheBuster, b: CacheBuster)
    requires '&' !in a.version && '&' !in b.version
    requires a.GetCacheBuster() == b.GetCacheBuster()
    ensures a == b
  {
    ParseRoundTrip(a);
    ParseRoundTrip(b);
  }

  /** A version is changed with respect to every stored value but itself. */
  lemma VersionChange(cb: CacheBuster, stored: string)
    ensures cb.HasVersionChanged(stored) <==> stored != cb.GetVersion()
    ensures !cb.HasVersionChanged(cb.GetVersion())
  {
  }
}
