/** The radar view (app.py, menu "peta"): the combined frame, the `jarak`
    column, the 3 km filter, the sort and the "Terdekat" list. */
module Radar {
  import opened Wrappers
  import opened Sieve
  import opened Records
  import opened Distance
  import opened LocalData
  import opened OsmScrape

  /** The radius of the near list, in kilometres. */
  const Radius: real := 3.0
  /** How many rows `df_near.head(5)` lists. */
  const NearestCount: nat := 5

  /** A row of `df_map` once the `jarak` column has been added. */
  datatype Ranked = Ranked(point: WifiPoint, jarak: real)

  /** `get_combined_map_data()`: the local frame, then the scraped frame.
      The two loaders' inputs (file reads, HTTP response) are parameters. */
  method GetCombinedMapData(xlsx: Option<seq<LocalRow>>, csv: Option<seq<LocalRow>>,
                            fetch: Fetch, parse: string -> Option<real>)
    returns (df: seq<WifiPoint>)
    ensures df == LoadLocalData(xlsx, csv) + ScrapedPoints(fetch, parse)
    ensures forall k :: 0 <= k < |LoadLocalData(xlsx, csv)| ==> df[k].sumber == InternalSource
    ensures forall k :: |LoadLocalData(xlsx, csv)| <= k < |df| ==> df[k].sumber == LiveSource
    ensures fetch.FetchFailed? ==> df == LoadLocalData(xlsx, csv)
  {
    var dfLocal := LoadLocalData(xlsx, csv);
    var dfOsm := ScrapeOsmData(fetch, parse);
    LoadLocalDataSpec(xlsx, csv);
    ScrapeSourceTag(fetch, parse);
    df := dfLocal + dfOsm;
  }

  /** Every scraped row is tagged 'Scraping Live (OSM)'. */
  lemma ScrapeSourceTag(fetch: Fetch, parse: string -> Option<real>)
    ensures forall k :: 0 <= k < |ScrapedPoints(fetch, parse)| ==>
              ScrapedPoints(fetch, parse)[k].sumber == LiveSource
  {
    ScrapeSpec(fetch, parse);
    if fetch.Fetched? {
      ElementPointsRaises(fetch.elements, parse);
    }
  }

  /** `df_map['jarak'] = df_map.apply(lambda x: haversine(current_lat,
      current_lon, x['latitude'], x['longitude']), axis=1)`. */
  function WithJarak(df: seq<WifiPoint>, centre: LatLon, gc: GreatCircle): (ranked: seq<Ranked>)
    ensures |ranked| == |df|
    ensures forall k :: 0 <= k < |df| ==> ranked[k].point == df[k]
    ensures forall k :: 0 <= k < |df| ==>
              ranked[k].jarak ==
                if centre.lat.Some? && centre.lon.Some?
                then gc(centre.lat.value, centre.lon.value, df[k].latitude, df[k].longitude)
                else Sentinel
  {
    seq(|df|, k requires 0 <= k < |df| =>
      Ranked(df[k], Haversine(centre.lat, centre.lon, Some(df[k].latitude), Some(df[k].longitude), gc)))
  }

  /** The mask `df_map['jarak'] <= 3.0`. */
  predicate WithinRadius(r: Ranked)
  {
    r.jarak <= Radius
  }

  ghost predicate SortedByJarak(s: seq<Ranked>)
  {
    forall i, j :: 0 <= i < j < |s| ==> s[i].jarak <= s[j].jarak
  }

  function InsertByJarak(x: Ranked, s: seq<Ranked>): (r: seq<Ranked>)
    requires SortedByJarak(s)
    ensures SortedByJarak(r)
    ensures multiset(r) == multiset(s) + multiset{x}
    ensures |r| == |s| + 1 && r[0] == (if s == [] || x.jarak <= s[0].jarak then x else s[0])
  {
    if s == [] then [x]
    else if x.jarak <= s[0].jarak then [x] + s
    else
      assert s == [s[0]] + s[1..];
      [s[0]] + InsertByJarak(x, s[1..])
  }

  /** `sort_values('jarak')`: ascending by distance. The order among equal
      distances is one of those pandas' unstable sort may produce. */
  function SortByJarak(s: seq<Ranked>): (r: seq<Ranked>)
    ensures SortedByJarak(r)
    ensures multiset(r) == multiset(s)
  {
    if s == [] then []
    else
      assert s == [s[0]] + s[1..];
      InsertByJarak(s[0], SortByJarak(s[1..]))
  }

  /** `df_near = df_map[df_map['jarak'] <= 3.0].sort_values('jarak')`:
      sorted by ascending distance, and a permutation of the rows within
      the radius with their multiplicities. */
  function NearRows(ranked: seq<Ranked>): (near: seq<Ranked>)
    ensures SortedByJarak(near)
    ensures multiset(near) == multiset(Filter(ranked, WithinRadius))
  {
    SortByJarak(Filter(ranked, WithinRadius))
  }

  /** `df_near.head(5)`: the rows of the "Terdekat" list, the first
      min(5, n) rows of the near frame; none of the near rows it leaves out
      is closer than a listed one. */
  function Nearest(ranked: seq<Ranked>): (top: seq<Ranked>)
    ensures |top| == if |NearRows(ranked)| < 5 then |NearRows(ranked)| else 5
    ensures top == NearRows(ranked)[..|top|]
    ensures forall i, j :: 0 <= i < |top| <= j < |NearRows(ranked)| ==>
              top[i].jarak <= NearRows(ranked)[j].jarak
  {
    var near := NearRows(ranked);
    near[..if |near| < NearestCount then |near| else NearestCount]
  }

  /** A row is in the near frame iff it is in the frame and within 3 km,
      the bound included. */
  lemma NearRowsMembers(ranked: seq<Ranked>, x: Ranked)
    ensures x in NearRows(ranked) <==> x in ranked && x.jarak <= 3.0
  {
    FilterMembers(ranked, WithinRadius, x);
    assert x in NearRows(ranked) <==> x in multiset(Filter(ranked, WithinRadius));
  }

  /** With a reference point whose coordinates do not convert, every
      distance is the sentinel 999, so the near frame is empty. */
  lemma UnconvertibleCentreFindsNothing(df: seq<WifiPoint>, centre: LatLon, gc: GreatCircle)
    requires centre.lat.None? || centre.lon.None?
    ensures NearRows(WithJarak(df, centre, gc)) == []
  {
    FilterSelects(WithJarak(df, centre, gc), WithinRadius);
  }

  /** A row whose coordinates convert is near iff the formula puts it
      within 3 km of a convertible reference point. */
  lemma NearIffWithinRadius(df: seq<WifiPoint>, centre: LatLon, gc: GreatCircle, k: nat)
    requires k < |df|
    requires centre.lat.Some? && centre.lon.Some?
    ensures var ranked := WithJarak(df, centre, gc);
            ranked[k] in NearRows(ranked) <==>
              gc(centre.lat.value, centre.lon.value, df[k].latitude, df[k].longitude) <= 3.0
  {
    var ranked := WithJarak(df, centre, gc);
    NearRowsMembers(ranked, ranked[k]);
  }
}
