/** `load_local_data` (app.py): the curated dataset normalised into map
    rows. */
module LocalData {
  import opened Wrappers
  import opened Sieve
  import opened PyText
  import opened Records

  /** The label given to a local row whose `lokasi` is missing. */
  const LocalPlaceholder: string := "WiFi Point (Local)"

  /** A row of the dataset file as read: `lokasi` is `None` when missing,
      each coordinate is its `to_numeric(errors='coerce')` result. */
  datatype LocalRow = LocalRow(lokasi: Option<string>, latitude: Coord, longitude: Coord)

  /** Survives `dropna(subset=['latitude', 'longitude'])`. */
  predicate HasCoords(r: LocalRow)
  {
    r.latitude.Some? && r.longitude.Some?
  }

  /** `fillna('WiFi Point (Local)')` and then `.str.strip()`. */
  function LocalLabel(lokasi: Option<string>): string
  {
    Strip(lokasi.GetOr(LocalPlaceholder))
  }

  function LocalPoint(r: LocalRow): WifiPoint
    requires HasCoords(r)
  {
    WifiPoint(LocalLabel(r.lokasi), r.latitude.value, r.longitude.value, None, InternalSource)
  }

  /** The table `load_local_data` works on: the xlsx file when it reads,
      else the csv file when it reads, else an empty frame. */
  function SourceTable(xlsx: Option<seq<LocalRow>>, csv: Option<seq<LocalRow>>): seq<LocalRow>
  {
    if xlsx.Some? then xlsx.value else if csv.Some? then csv.value else []
  }

  /** `load_local_data()`, with the two file reads as parameters (`None`
      when the read raises). */
  function LoadLocalData(xlsx: Option<seq<LocalRow>>, csv: Option<seq<LocalRow>>): seq<WifiPoint>
  {
    var kept := Filter(SourceTable(xlsx, csv), HasCoords);
    seq(|kept|, k requires 0 <= k < |kept| => LocalPoint(kept[k]))
  }

  /** The loaded frame is exactly the rows of the table read whose two
      coordinates both convert, in their original order, each normalised
      and tagged 'Dataset Internal'; when neither file reads it is empty. */
  lemma LoadLocalDataSpec(xlsx: Option<seq<LocalRow>>, csv: Option<seq<LocalRow>>)
    ensures xlsx.None? && csv.None? ==> LoadLocalData(xlsx, csv) == []
    ensures var table := SourceTable(xlsx, csv);
            var idx := KeptIndices(table, HasCoords);
            var df := LoadLocalData(xlsx, csv);
            && Selects(table, HasCoords, idx)
            && |df| == |idx|
            && forall k :: 0 <= k < |df| ==>
                 && df[k] == LocalPoint(table[idx[k]])
                 && df[k].latitude == table[idx[k]].latitude.value
                 && df[k].longitude == table[idx[k]].longitude.value
                 && df[k].sumber == InternalSource
  {
    FilterSelects(SourceTable(xlsx, csv), HasCoords);
  }

  /** A missing label becomes the placeholder; a present one is stripped,
      so one made only of whitespace becomes "" (the fill comes before the
      strip), never the placeholder. */
  lemma LocalLabelCases(lokasi: Option<string>)
    ensures lokasi.None? ==> LocalLabel(lokasi) == LocalPlaceholder
    ensures lokasi.Some? ==> LocalLabel(lokasi) == Strip(lokasi.value)
    ensures lokasi.Some? && (forall k :: 0 <= k < |lokasi.value| ==> IsSpace(lokasi.value[k])) ==>
              LocalLabel(lokasi) == ""
    ensures exists i, j :: IsStripOf(lokasi.GetOr(LocalPlaceholder), LocalLabel(lokasi), i, j)
  {
    StripKeepsTrimmed(LocalPlaceholder);
    StripSpec(lokasi.GetOr(LocalPlaceholder));
    if lokasi.Some? && (forall k :: 0 <= k < |lokasi.value| ==> IsSpace(lokasi.value[k])) {
      BlankStripsToEmpty(lokasi.value);
    }
  }
}
