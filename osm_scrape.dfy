/** The element loop of `scrape_osm_data` (app.py): Overpass elements
    normalised into map rows, all or nothing. */
module OsmScrape {
  import opened Wrappers
  import opened Sieve
  import opened Records

  /** A JSON value as the element loop can meet it. Arrays and objects
      matter only through their truthiness, so only their size is kept. */
  datatype Json = JNull | JBool(b: bool) | JNum(x: real) | JStr(s: string) | JContainer(size: nat)

  /** Python truthiness: `None`, `False`, `0`, `""` and empty containers
      are false. A missing key reads as `JNull` (`dict.get` gives None). */
  predicate Truthy(v: Json)
  {
    match v
    case JNull => false
    case JBool(b) => b
    case JNum(x) => x != 0.0
    case JStr(s) => s != ""
    case JContainer(n) => n != 0
  }

  /** Python's `float(v)`; `None` when it raises. The conversion of text
      is Python's number parser, a parameter of the model. */
  function FloatOf(v: Json, parse: string -> Option<real>): Option<real>
  {
    match v
    case JNull => None
    case JBool(b) => Some(if b then 1.0 else 0.0)
    case JNum(x) => Some(x)
    case JStr(s) => parse(s)
    case JContainer(_) => None
  }

  /** An element of the response's `elements` array. A missing `tags`
      key is the empty map. */
  datatype Element = Element(lat: Json, lon: Json, tags: map<string, string>)

  /** The Overpass response: a transport error, a timeout, a body that is
      not JSON or a JSON body that is not an object is `FetchFailed`; an
      object without `elements` is `Fetched([])`. */
  datatype Fetch = FetchFailed | Fetched(elements: seq<Element>)

  const OsmPlaceholder: string := "WiFi Publik OSM"
  const DefaultAccess: string := "public"

  /** `tags.get('name', tags.get('operator', 'WiFi Publik OSM'))`. */
  function OsmLabel(tags: map<string, string>): string
  {
    if "name" in tags then tags["name"]
    else if "operator" in tags then tags["operator"]
    else OsmPlaceholder
  }

  /** `tags.get('access', 'public')`. */
  function OsmAccess(tags: map<string, string>): string
  {
    if "access" in tags then tags["access"] else DefaultAccess
  }

  /** The loop's guard `if lat and lon`. */
  predicate HasPosition(e: Element)
  {
    Truthy(e.lat) && Truthy(e.lon)
  }

  /** A kept element whose `float(lat)` or `float(lon)` raises. */
  predicate Unconvertible(e: Element, parse: string -> Option<real>)
  {
    HasPosition(e) && (FloatOf(e.lat, parse).None? || FloatOf(e.lon, parse).None?)
  }

  /** The record appended for a kept element whose coordinates convert. */
  function OsmPoint(e: Element, parse: string -> Option<real>): WifiPoint
    requires HasPosition(e) && !Unconvertible(e, parse)
  {
    WifiPoint(OsmLabel(e.tags), FloatOf(e.lat, parse).value, FloatOf(e.lon, parse).value,
              Some(OsmAccess(e.tags)), LiveSource)
  }

  /** The list the loop builds over `es`, or `None` when it raises. */
  function ElementPoints(es: seq<Element>, parse: string -> Option<real>): Option<seq<WifiPoint>>
  {
    if es == [] then Some([])
    else
      var e := es[|es| - 1];
      match ElementPoints(es[..|es| - 1], parse)
      case None => None
      case Some(ps) =>
        if !HasPosition(e) then Some(ps)
        else if Unconvertible(e, parse) then None
        else Some(ps + [OsmPoint(e, parse)])
  }

  /** What `scrape_osm_data()` returns: any exception inside its `try`
      yields the empty frame. */
  function ScrapedPoints(fetch: Fetch, parse: string -> Option<real>): (df: seq<WifiPoint>)
    ensures fetch.FetchFailed? ==> df == []
  {
    match fetch
    case FetchFailed => []
    case Fetched(es) => ElementPoints(es, parse).GetOr([])
  }

  /** Once the loop has raised on a prefix, it has raised on the whole. */
  lemma {:induction false} RaisedStaysRaised(es: seq<Element>, n: nat, parse: string -> Option<real>)
    requires n <= |es|
    requires ElementPoints(es[..n], parse).None?
    ensures ElementPoints(es, parse).None?
    decreases |es| - n
  {
    if n < |es| {
      assert es[..n + 1][..n] == es[..n];
      RaisedStaysRaised(es, n + 1, parse);
    } else {
      assert es[..n] == es;
    }
  }

  /** The element loop itself: appends one record per kept element and
      returns the empty frame as soon as a conversion raises. */
  method ScrapeOsmData(fetch: Fetch, parse: string -> Option<real>) returns (df: seq<WifiPoint>)
    ensures df == ScrapedPoints(fetch, parse)
  {
    if fetch.FetchFailed? {
      return [];
    }
    var es := fetch.elements;
    var osmData: seq<WifiPoint> := [];
    var i := 0;
    while i < |es|
      invariant 0 <= i <= |es|
      invariant ElementPoints(es[..i], parse) == Some(osmData)
    {
      var e := es[i];
      assert es[..i + 1][..i] == es[..i];
      var name := OsmLabel(e.tags);
      var access := OsmAccess(e.tags);
      if Truthy(e.lat) && Truthy(e.lon) {
        var lat := FloatOf(e.lat, parse);
        var lon := FloatOf(e.lon, parse);
        if lat.None? || lon.None? {
          RaisedStaysRaised(es, i + 1, parse);
          return [];
        }
        osmData := osmData + [WifiPoint(name, lat.value, lon.value, Some(access), LiveSource)];
      }
      i := i + 1;
    }
    assert es[..i] == es;
    df := osmData;
  }

  /** The loop raises exactly when some kept element does not convert. */
  lemma {:induction false} ElementPointsRaises(es: seq<Element>, parse: string -> Option<real>)
    ensures ElementPoints(es, parse).None? <==>
              exists i :: 0 <= i < |es| && Unconvertible(es[i], parse)
  {
    if es != [] {
      var n := |es| - 1;
      ElementPointsRaises(es[..n], parse);
      if exists i :: 0 <= i < n && Unconvertible(es[..n][i], parse) {
        var i :| 0 <= i < n && Unconvertible(es[..n][i], parse);
        assert es[i] == es[..n][i];
      }
      if exists i :: 0 <= i < |es| && Unconvertible(es[i], parse) {
        var i :| 0 <= i < |es| && Unconvertible(es[i], parse);
        if i < n {
          assert es[..n][i] == es[i];
        }
      }
    }
  }

  /** When nothing raises, the list is `Filter` over the kept elements,
      mapped to records. */
  lemma {:induction false} ElementPointsMaps(es: seq<Element>, parse: string -> Option<real>)
    requires ElementPoints(es, parse).Some?
    ensures var kept := Filter(es, HasPosition);
            var ps := ElementPoints(es, parse).value;
            && (forall k :: 0 <= k < |kept| ==> !Unconvertible(kept[k], parse))
            && |ps| == |kept|
            && forall k :: 0 <= k < |ps| ==> ps[k] == OsmPoint(kept[k], parse)
  {
    if es != [] {
      var n := |es| - 1;
      assert ElementPoints(es[..n], parse).Some?;
      ElementPointsMaps(es[..n], parse);
    }
  }

  /** The scrape is all or nothing: when the fetch fails or some kept
      element's coordinates do not convert the frame is empty; otherwise it
      holds one record per element with truthy `lat` and `lon`, in element
      order, labelled name, else operator, else the placeholder, with
      access defaulting to 'public' and tagged 'Scraping Live (OSM)'. */
  lemma ScrapeSpec(fetch: Fetch, parse: string -> Option<real>)
    ensures (fetch.Fetched? && exists i :: 0 <= i < |fetch.elements| && Unconvertible(fetch.elements[i], parse)) ==>
              ScrapedPoints(fetch, parse) == []
    ensures (fetch.Fetched? && forall i :: 0 <= i < |fetch.elements| ==> !Unconvertible(fetch.elements[i], parse)) ==>
              var es := fetch.elements;
              var idx := KeptIndices(es, HasPosition);
              var df := ScrapedPoints(fetch, parse);
              && Selects(es, HasPosition, idx)
              && |df| == |idx|
              && forall k :: 0 <= k < |df| ==>
                   && df[k].lokasi == OsmLabel(es[idx[k]].tags)
                   && df[k].latitude == FloatOf(es[idx[k]].lat, parse).value
                   && df[k].longitude == FloatOf(es[idx[k]].lon, parse).value
                   && df[k].akses == Some(OsmAccess(es[idx[k]].tags))
                   && df[k].sumber == LiveSource
  {
    if fetch.Fetched? {
      var es := fetch.elements;
      ElementPointsRaises(es, parse);
      if ElementPoints(es, parse).Some? {
        ElementPointsMaps(es, parse);
        FilterSelects(es, HasPosition);
      }
    }
  }
}
