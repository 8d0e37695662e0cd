/** The directions URL builder of Frontend/src/utils/maptiler.js: each
    coordinate becomes a `lng,lat` segment, the segments are joined by `;`
    and placed in the routing URL template. Coordinates arrive already
    rendered as text. */
module MapTiler {
  import opened Basics

  /** The account's API key; its value does not matter to any property. */
  const MAPTILER_KEY: string
  const DEFAULT_PROFILE := "driving"
  const URL_PREFIX := "https://api.maptiler.com/routing/v1/"
  const URL_SUFFIX := ".geojson?key=" + MAPTILER_KEY + "&overview=full&geometries=geojson"

  datatype Coord = Coord(lat: string, lng: string)

  /** `${c.lng},${c.lat}`: longitude first. */
  function Segment(c: Coord): string
  {
    c.lng + "," + c.lat
  }

  function Segments(coords: seq<Coord>): (r: seq<string>)
    ensures |r| == |coords| && forall i :: 0 <= i < |coords| ==> r[i] == Segment(coords[i])
  {
    seq(|coords|, i requires 0 <= i < |coords| => Segment(coords[i]))
  }

  /** `Array.prototype.join(sep)`: separators only between parts. */
  function Join(parts: seq<string>, sep: char): string
    decreases |parts|
  {
    if |parts| == 0 then ""
    else if |parts| == 1 then parts[0]
    else parts[0] + [sep] + Join(parts[1..], sep)
  }

  /** `coords.map(...).join(';')`. */
  function Pairs(coords: seq<Coord>): string
  {
    Join(Segments(coords), ';')
  }

  function ResolvedProfile(profile: Option<string>): string
  {
    if profile.Some? then profile.value else DEFAULT_PROFILE
  }

  /** `getMapTilerDirectionsUrl(coords, profile)`; an absent profile takes the
      default. */
  function DirectionsUrl(coords: seq<Coord>, profile: Option<string>): (url: string)
    ensures |url| == |URL_PREFIX| + |ResolvedProfile(profile)| + 1 + |Pairs(coords)| + |URL_SUFFIX|
    ensures url[..|URL_PREFIX|] == URL_PREFIX && url[|url| - |URL_SUFFIX|..] == URL_SUFFIX
  {
    URL_PREFIX + ResolvedProfile(profile) + "/" + Pairs(coords) + URL_SUFFIX
  }

  // ---------------------------------------------------------------------
  // Reading a URL back
  // ---------------------------------------------------------------------

  /** The first position of `c` in `s`. */
  function IndexOf(s: string, c: char): (i: nat)
    requires c in s
    ensures i < |s| && s[i] == c && c !in s[..i]
  {
    if s[0] == c then 0
    else
      assert c in s[1..] by { var k :| 0 <= k < |s| && s[k] == c; assert s[1..][k - 1] == c; }
      var j := IndexOf(s[1..], c);
      assert s[..j + 1] == [s[0]] + s[1..][..j];
      1 + j
  }

  /** `String.prototype.split(sep)` on a one-character separator. */
  function Split(s: string, sep: char): (parts: seq<string>)
    ensures |parts| >= 1
    decreases |s|
  {
    if sep !in s then [s]
    else
      var i := IndexOf(s, sep);
      [s[..i]] + Split(s[i + 1..], sep)
  }

  /** How often `c` occurs in `s`. */
  function Count(s: string, c: char): nat
  {
    if s == [] then 0
    else (if s[0] == c then 1 else 0) + Count(s[1..], c)
  }

  /** The part of a directions URL between the profile and the suffix. */
  function PairsOf(url: string, profile: string): string
  {
    var start := |URL_PREFIX| + |profile| + 1;
    if start <= |url| - |URL_SUFFIX| then url[start..|url| - |URL_SUFFIX|] else ""
  }

  /** Coordinates as rendered numbers contain neither separator. */
  predicate Clean(coords: seq<Coord>)
  {
    forall i :: 0 <= i < |coords| ==>
      ';' !in coords[i].lat && ';' !in coords[i].lng && ',' !in coords[i].lat && ',' !in coords[i].lng
  }

  lemma {:induction false} IndexOfJoined(a: string, c: char, b: string)
    requires c !in a
    ensures c in a + [c] + b && IndexOf(a + [c] + b, c) == |a|
    decreases |a|
  {
    var s := a + [c] + b;
    assert s[|a|] == c;
    if a != [] {
      assert s[1..] == a[1..] + [c] + b;
      IndexOfJoined(a[1..], c, b);
    }
  }

  /** Splitting stops at the first separator. */
  lemma SplitStep(a: string, sep: char, b: string)
    requires sep !in a
    ensures Split(a + [sep] + b, sep) == [a] + Split(b, sep)
  {
    var s := a + [sep] + b;
    IndexOfJoined(a, sep, b);
    assert s[..|a|] == a;
    assert s[|a| + 1..] == b;
  }

  /** Splitting undoes joining when no part holds the separator. */
  lemma {:induction false} SplitJoin(parts: seq<string>, sep: char)
    requires |parts| >= 1
    requires forall i :: 0 <= i < |parts| ==> sep !in parts[i]
    ensures Split(Join(parts, sep), sep) == parts
    decreases |parts|
  {
    if |parts| > 1 {
      SplitStep(parts[0], sep, Join(parts[1..], sep));
      SplitJoin(parts[1..], sep);
      assert parts == [parts[0]] + parts[1..];
    }
  }

  lemma {:induction false} CountAppend(a: string, b: string, c: char)
    ensures Count(a + b, c) == Count(a, c) + Count(b, c)
    decreases |a|
  {
    if a == [] {
      assert a + b == b;
    } else {
      assert (a + b)[0] == a[0];
      assert (a + b)[1..] == a[1..] + b;
      CountAppend(a[1..], b, c);
    }
  }

  lemma CountAbsent(s: string, c: char)
    requires c !in s
    ensures Count(s, c) == 0
    decreases |s|
  {
    if s != [] {
      assert c !in s[1..] by {
        forall k | 0 <= k < |s[1..]| ensures s[1..][k] != c { assert s[1..][k] == s[k + 1]; }
      }
      CountAbsent(s[1..], c);
    }
  }

  /** n parts without the separator give n - 1 separators. */
  lemma {:induction false} CountJoin(parts: seq<string>, sep: char)
    requires |parts| >= 1
    requires forall i :: 0 <= i < |parts| ==> sep !in parts[i]
    ensures Count(Join(parts, sep), sep) == |parts| - 1
    decreases |parts|
  {
    CountAbsent(parts[0], sep);
    if |parts| > 1 {
      CountJoin(parts[1..], sep);
      CountAppend(parts[0] + [sep], Join(parts[1..], sep), sep);
      CountAppend(parts[0], [sep], sep);
    }
  }

  lemma SegmentClean(c: Coord)
    requires ';' !in c.lat && ';' !in c.lng
    ensures ';' !in Segment(c)
  {
  }

  /** One segment per coordinate, in input order, each reading back as
      longitude then latitude; n coordinates give n - 1 separators. */
  lemma PairsRoundTrip(coords: seq<Coord>)
    requires |coords| >= 1 && Clean(coords)
    ensures Split(Pairs(coords), ';') == Segments(coords)
    ensures forall i :: 0 <= i < |coords| ==>
      Split(Split(Pairs(coords), ';')[i], ',') == [coords[i].lng, coords[i].lat]
    ensures Count(Pairs(coords), ';') == |coords| - 1
  {
    var segs := Segments(coords);
    forall i | 0 <= i < |segs|
      ensures ';' !in segs[i]
    {
      SegmentClean(coords[i]);
    }
    SplitJoin(segs, ';');
    CountJoin(segs, ';');
    forall i | 0 <= i < |coords|
      ensures Split(segs[i], ',') == [coords[i].lng, coords[i].lat]
    {
      var parts := [coords[i].lng, coords[i].lat];
      assert Join(parts, ',') == segs[i] by {
        assert parts[1..] == [coords[i].lat];
      }
      SplitJoin(parts, ',');
    }
  }

  /** The URL starts with the routing prefix and the profile, defaulting to
      `driving`, ends with the key and options, and holds the pairs in
      between. */
  lemma UrlLayout(coords: seq<Coord>, profile: Option<string>)
    ensures var url := DirectionsUrl(coords, profile);
      && |url| >= |URL_PREFIX| + |ResolvedProfile(profile)| + 1 + |URL_SUFFIX|
      && url[..|URL_PREFIX|] == URL_PREFIX
      && url[|URL_PREFIX|..|URL_PREFIX| + |ResolvedProfile(profile)|] == ResolvedProfile(profile)
      && url[|url| - |URL_SUFFIX|..] == URL_SUFFIX
      && PairsOf(url, ResolvedProfile(profile)) == Pairs(coords)
    ensures profile.None? ==> DirectionsUrl(coords, profile) == DirectionsUrl(coords, Some(DEFAULT_PROFILE))
  {
    var p := ResolvedProfile(profile);
    var url := DirectionsUrl(coords, profile);
    assert url == URL_PREFIX + (p + ("/" + (Pairs(coords) + URL_SUFFIX)));
    assert url[|URL_PREFIX| + |p| + 1..|url| - |URL_SUFFIX|] == Pairs(coords);
  }
}
