/**
 * ymt/js/tvDetection.js: `isSmartTV`, a test of the user-agent string, lower-cased, for
 * a handful of television markers.
 */
module TvDetection {
  import opened JsBuiltins

  /** The markers in the order the source tests them. */
  const Markers: seq<string> := ["smart-tv", "tv", "android tv", "hbbtv", "netcast", "viera", "webos", "tizen"]

  /** `isSmartTV()` for the given `navigator.userAgent`. */
  predicate IsSmartTV(userAgent: string)
    ensures var ua := AsciiLower(userAgent);
      IsSmartTV(userAgent) <==>
        Includes(ua, "tv") || Includes(ua, "netcast") || Includes(ua, "viera") ||
        Includes(ua, "webos") || Includes(ua, "tizen")
  {
    TvMarkersSubsumed(AsciiLower(userAgent));
    HasMarker(AsciiLower(userAgent))
  }

  /** "smart-tv", "android tv" and "hbbtv" all contain "tv", so their tests never decide
      the outcome. */
  lemma TvMarkersSubsumed(ua: string)
    ensures Includes(ua, "smart-tv") || Includes(ua, "android tv") || Includes(ua, "hbbtv") ==> Includes(ua, "tv")
  {
    var smart, android, hbb := "smart-tv", "android tv", "hbbtv";
    if Includes(ua, smart) {
      assert smart[6..8] == "tv";
      IncludesInner(ua, smart, 6, "tv");
    } else if Includes(ua, android) {
      assert android[8..10] == "tv";
      IncludesInner(ua, android, 8, "tv");
    } else if Includes(ua, hbb) {
      assert hbb[3..5] == "tv";
      IncludesInner(ua, hbb, 3, "tv");
    }
  }

  /** The marker tests on the lower-cased agent, in the source's order. */
  predicate HasMarker(ua: string)
  {
    Includes(ua, "smart-tv") || Includes(ua, "tv") || Includes(ua, "android tv") ||
    Includes(ua, "hbbtv") || Includes(ua, "netcast") || Includes(ua, "viera") ||
    Includes(ua, "webos") || Includes(ua, "tizen")
  }

  /** The test is one of containment of some marker in the lower-cased agent. */
  lemma SmartTVIsSomeMarker(userAgent: string)
    ensures IsSmartTV(userAgent) <==> exists m :: m in Markers && Includes(AsciiLower(userAgent), m)
  {
    MarkerListed(AsciiLower(userAgent));
  }

  lemma MarkerListed(ua: string)
    ensures HasMarker(ua) <==> exists m :: m in Markers && Includes(ua, m)
  {
    if exists m :: m in Markers && Includes(ua, m) {
      var m :| m in Markers && Includes(ua, m);
      var i :| 0 <= i < |Markers| && Markers[i] == m;
    }
    if HasMarker(ua) {
      var m :| m in Markers && Includes(ua, m) by {
        if Includes(ua, "smart-tv") { assert Markers[0] == "smart-tv"; }
        else if Includes(ua, "tv") { assert Markers[1] == "tv"; }
        else if Includes(ua, "android tv") { assert Markers[2] == "android tv"; }
        else if Includes(ua, "hbbtv") { assert Markers[3] == "hbbtv"; }
        else if Includes(ua, "netcast") { assert Markers[4] == "netcast"; }
        else if Includes(ua, "viera") { assert Markers[5] == "viera"; }
        else if Includes(ua, "webos") { assert Markers[6] == "webos"; }
        else { assert Markers[7] == "tizen"; }
      }
    }
  }

  /** Case does not matter: an agent and its lower-cased form are judged alike. */
  lemma CaseInsensitive(userAgent: string)
    ensures IsSmartTV(AsciiLower(userAgent)) == IsSmartTV(userAgent)
  {
    assert AsciiLower(AsciiLower(userAgent)) == AsciiLower(userAgent);
  }
}
