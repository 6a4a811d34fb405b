/** `proses_data` (cleaning_data.py): the offline step that cleans the raw
    survey table and pre-aggregates one map row per location. The file
    reads and writes are parameters and results. */
module Cleaning {
  import opened Wrappers
  import opened Sieve
  import opened PyText

  /** A row of the raw table. `None` is a missing value (NaN). `metrics`
      holds the other numeric columns in column order. */
  datatype RawRow = RawRow(
    lokasi: Option<string>,
    alamat: Option<string>,
    latitude: Option<real>,
    longitude: Option<real>,
    metrics: seq<Option<real>>)

  /** Survives `dropna(subset=['lokasi', 'latitude', 'longitude'])` and the
      mask `(latitude != 0) & (longitude != 0)`. */
  predicate Keeps(r: RawRow)
  {
    && r.lokasi.Some? && r.latitude.Some? && r.longitude.Some?
    && r.latitude.value != 0.0 && r.longitude.value != 0.0
  }

  /** `df_bersih`, the cleaned table. */
  function CleanRows(rows: seq<RawRow>): seq<RawRow>
  {
    Filter(rows, Keeps)
  }

  /** Cleaning is a pure filter: the cleaned rows are, in order and
      unaltered, exactly the input rows with `lokasi`, `latitude` and
      `longitude` present and both coordinates non-zero. */
  lemma {:induction false} CleanRowsSpec(rows: seq<RawRow>)
    ensures var cleaned := CleanRows(rows);
            var idx := KeptIndices(rows, Keeps);
            && Selects(rows, Keeps, idx)
            && |cleaned| == |idx|
            && (forall k :: 0 <= k < |cleaned| ==> cleaned[k] == rows[idx[k]])
            && forall k :: 0 <= k < |cleaned| ==>
                 && cleaned[k].lokasi.Some? && cleaned[k].latitude.Some? && cleaned[k].longitude.Some?
                 && cleaned[k].latitude.value != 0.0 && cleaned[k].longitude.value != 0.0
  {
    FilterSelects(rows, Keeps);
  }

  /** The group-by key `['lokasi', 'alamat', 'latitude', 'longitude']`. */
  datatype Key = Key(lokasi: string, alamat: string, latitude: real, longitude: real)

  /** The order pandas sorts group keys in: lexicographic over the four
      columns, strings by Python's `<`. */
  predicate KeyLt(a: Key, b: Key)
  {
    if a.lokasi != b.lokasi then StrLt(a.lokasi, b.lokasi)
    else if a.alamat != b.alamat then StrLt(a.alamat, b.alamat)
    else if a.latitude != b.latitude then a.latitude < b.latitude
    else a.longitude < b.longitude
  }

  lemma KeyLtIrreflexive(a: Key)
    ensures !KeyLt(a, a)
  {
    StrLtIrreflexive(a.lokasi);
  }

  lemma KeyLtTransitive(a: Key, b: Key, c: Key)
    requires KeyLt(a, b) && KeyLt(b, c)
    ensures KeyLt(a, c)
  {
    if a.lokasi != b.lokasi && b.lokasi != c.lokasi {
      StrLtTransitive(a.lokasi, b.lokasi, c.lokasi);
      if a.lokasi == c.lokasi {
        StrLtIrreflexive(a.lokasi);
      }
    } else if a.lokasi == b.lokasi && b.lokasi == c.lokasi
           && a.alamat != b.alamat && b.alamat != c.alamat {
      StrLtTransitive(a.alamat, b.alamat, c.alamat);
      if a.alamat == c.alamat {
        StrLtIrreflexive(a.alamat);
      }
    }
  }

  lemma KeyLtTotal(a: Key, b: Key)
    requires a != b
    ensures KeyLt(a, b) || KeyLt(b, a)
  {
    if a.lokasi != b.lokasi {
      StrLtTotal(a.lokasi, b.lokasi);
    } else if a.alamat != b.alamat {
      StrLtTotal(a.alamat, b.alamat);
    }
  }

  /** A key below the head of an ascending list is below all of it. */
  lemma KeyLtTransitiveFrom(k: Key, ks: seq<Key>)
    requires StrictlyAscending(ks) && ks != [] && KeyLt(k, ks[0])
    ensures StrictlyAscending([k] + ks)
  {
    forall j | 0 < j < |ks| ensures KeyLt(k, ks[j]) {
      KeyLtTransitive(k, ks[0], ks[j]);
    }
  }

  /** Rows that `groupby` places in a group: no key column is missing
      (`dropna=True`). On cleaned rows this means `alamat` is present. */
  predicate Grouped(r: RawRow)
  {
    r.lokasi.Some? && r.alamat.Some? && r.latitude.Some? && r.longitude.Some?
  }

  function KeyOf(r: RawRow): Key
    requires Grouped(r)
  {
    Key(r.lokasi.value, r.alamat.value, r.latitude.value, r.longitude.value)
  }

  ghost predicate StrictlyAscending(ks: seq<Key>)
  {
    forall i, j :: 0 <= i < j < |ks| ==> KeyLt(ks[i], ks[j])
  }

  /** `k` added to an ascending list of distinct keys, unless present. */
  function InsertKey(k: Key, ks: seq<Key>): (r: seq<Key>)
    requires StrictlyAscending(ks)
    ensures StrictlyAscending(r)
    ensures forall y :: y in r <==> y == k || y in ks
    ensures |r| <= |ks| + 1
  {
    if ks == [] then [k]
    else if k == ks[0] then ks
    else if KeyLt(k, ks[0]) then
      KeyLtTransitiveFrom(k, ks);
      [k] + ks
    else
      KeyLtTotal(k, ks[0]);
      var rest := InsertKey(k, ks[1..]);
      assert forall y :: y in rest ==> KeyLt(ks[0], y);
      [ks[0]] + rest
  }

  /** The group keys of `rows`, ascending and each once (`sort=True`). */
  function GroupKeys(rows: seq<RawRow>): (ks: seq<Key>)
    ensures StrictlyAscending(ks)
    ensures forall k :: k in ks <==> exists i :: 0 <= i < |rows| && Grouped(rows[i]) && KeyOf(rows[i]) == k
    ensures |ks| <= |Filter(rows, Grouped)|
  {
    if rows == [] then []
    else
      var n := |rows| - 1;
      var front := GroupKeys(rows[..n]);
      assert forall i :: 0 <= i < n ==> rows[..n][i] == rows[i];
      if Grouped(rows[n]) then InsertKey(KeyOf(rows[n]), front) else front
  }

  /** The rows of group `k`, in their original order. */
  function GroupRows(rows: seq<RawRow>, k: Key): seq<RawRow>
  {
    Filter(rows, r => Grouped(r) && KeyOf(r) == k)
  }

  /** The values of numeric column `c` in `rows`, NaN skipped. */
  function ColumnValues(rows: seq<RawRow>, c: nat): seq<real>
  {
    if rows == [] then []
    else
      var r := rows[|rows| - 1];
      var front := ColumnValues(rows[..|rows| - 1], c);
      if c < |r.metrics| && r.metrics[c].Some? then front + [r.metrics[c].value] else front
  }

  function Sum(vs: seq<real>): real
  {
    if vs == [] then 0.0 else Sum(vs[..|vs| - 1]) + vs[|vs| - 1]
  }

  /** pandas' `mean()` with `skipna=True`: the unweighted arithmetic mean,
      NaN for a column with no values. */
  function Mean(vs: seq<real>): Option<real>
  {
    if vs == [] then None else Some(Sum(vs) / (|vs| as real))
  }

  function Min(vs: seq<real>): (m: real)
    requires vs != []
    ensures exists k :: 0 <= k < |vs| && vs[k] == m
    ensures forall k :: 0 <= k < |vs| ==> m <= vs[k]
  {
    if |vs| == 1 then vs[0]
    else
      var n := |vs| - 1;
      var front := Min(vs[..n]);
      assert forall k :: 0 <= k < n ==> vs[..n][k] == vs[k];
      if vs[n] < front then vs[n] else front
  }

  function Max(vs: seq<real>): (m: real)
    requires vs != []
    ensures exists k :: 0 <= k < |vs| && vs[k] == m
    ensures forall k :: 0 <= k < |vs| ==> vs[k] <= m
  {
    if |vs| == 1 then vs[0]
    else
      var n := |vs| - 1;
      var front := Max(vs[..n]);
      assert forall k :: 0 <= k < n ==> vs[..n][k] == vs[k];
      if vs[n] > front then vs[n] else front
  }

  lemma {:induction false} SumBounds(vs: seq<real>, lo: real, hi: real)
    requires forall k :: 0 <= k < |vs| ==> lo <= vs[k] <= hi
    ensures (|vs| as real) * lo <= Sum(vs) <= (|vs| as real) * hi
  {
    if vs != [] {
      var n := |vs| - 1;
      assert forall k :: 0 <= k < n ==> vs[..n][k] == vs[k];
      SumBounds(vs[..n], lo, hi);
      assert Sum(vs) == Sum(vs[..n]) + vs[n];
      assert (|vs| as real) * lo == (n as real) * lo + lo;
      assert (|vs| as real) * hi == (n as real) * hi + hi;
    }
  }

  lemma QuotientBounds(s: real, n: real, lo: real, hi: real)
    requires n > 0.0 && n * lo <= s <= n * hi
    ensures lo <= s / n <= hi
  {
    assert s / n - lo == (s - n * lo) / n;
    assert hi - s / n == (n * hi - s) / n;
  }

  /** The mean of a non-empty column lies between its least and its
      greatest value. */
  lemma MeanBetweenMinMax(vs: seq<real>)
    requires vs != []
    ensures Min(vs) <= Mean(vs).value <= Max(vs)
  {
    SumBounds(vs, Min(vs), Max(vs));
    QuotientBounds(Sum(vs), |vs| as real, Min(vs), Max(vs));
  }

  /** `.round(1)`, NaN staying NaN. */
  function RoundOpt(m: Option<real>, round: real -> real): Option<real>
  {
    match m
    case None => None
    case Some(x) => Some(round(x))
  }

  /** A row of `df_map`. */
  datatype MapRow = MapRow(
    lokasi: string,
    alamat: string,
    latitude: real,
    longitude: real,
    metrics: seq<Option<real>>)

  /** The row for group `k` after `.mean(numeric_only=True)`,
      `.reset_index()` and `.round(1)`: every numeric column, the key's
      coordinates included, goes through `round`. */
  function GroupRow(cleaned: seq<RawRow>, k: Key, width: nat, round: real -> real): MapRow
  {
    var group := GroupRows(cleaned, k);
    MapRow(k.lokasi, k.alamat, round(k.latitude), round(k.longitude),
           seq(width, c requires 0 <= c => RoundOpt(Mean(ColumnValues(group, c)), round)))
  }

  /** `df_bersih.groupby(kunci).mean(numeric_only=True).reset_index().round(1)`
      over a table with `width` other numeric columns; `round` is pandas'
      rounding to one decimal. */
  function MapData(cleaned: seq<RawRow>, width: nat, round: real -> real): (m: seq<MapRow>)
    ensures |m| == |GroupKeys(cleaned)| <= |Filter(cleaned, Grouped)| <= |cleaned|
  {
    var ks := GroupKeys(cleaned);
    seq(|ks|, i requires 0 <= i < |ks| => GroupRow(cleaned, ks[i], width, round))
  }

  /** Map row `i` carries its key's strings, its key's coordinates
      rounded, and for every numeric column the rounded mean over the
      rows of its group, which is never empty. */
  lemma MapRowSpec(cleaned: seq<RawRow>, width: nat, round: real -> real, i: nat)
    requires i < |GroupKeys(cleaned)|
    ensures var k := GroupKeys(cleaned)[i];
            var row := MapData(cleaned, width, round)[i];
            && row.lokasi == k.lokasi && row.alamat == k.alamat
            && row.latitude == round(k.latitude)
            && row.longitude == round(k.longitude)
            && |GroupRows(cleaned, k)| > 0
            && |row.metrics| == width
            && forall c :: 0 <= c < width ==>
                 row.metrics[c] == RoundOpt(Mean(ColumnValues(GroupRows(cleaned, k), c)), round)
  {
    var k := GroupKeys(cleaned)[i];
    assert k in GroupKeys(cleaned);
    var j :| 0 <= j < |cleaned| && Grouped(cleaned[j]) && KeyOf(cleaned[j]) == k;
    GroupMembers(cleaned, k, cleaned[j]);
  }

  /** A row is in group `k` iff it is in the table with that key. */
  lemma GroupMembers(rows: seq<RawRow>, k: Key, r: RawRow)
    ensures r in GroupRows(rows, k) <==> r in rows && Grouped(r) && KeyOf(r) == k
  {
    FilterMembers(rows, r => Grouped(r) && KeyOf(r) == k, r);
  }

  /** Before rounding, each group's mean of a column with values lies
      between that column's least and greatest value within the group. */
  lemma GroupMeanBounds(cleaned: seq<RawRow>, k: Key, c: nat)
    requires ColumnValues(GroupRows(cleaned, k), c) != []
    ensures var vs := ColumnValues(GroupRows(cleaned, k), c);
            Min(vs) <= Mean(vs).value <= Max(vs)
  {
    MeanBetweenMinMax(ColumnValues(GroupRows(cleaned, k), c));
  }

  /** What `proses_data` writes: the cleaned table (`bandung_wifi_raw`) and
      the map table (`bandung_wifi_map`). */
  datatype Outputs = Outputs(raw: seq<RawRow>, mapRows: seq<MapRow>)

  /** `proses_data()`. `source` is the input csv, `None` when the file does
      not exist; then nothing is written. */
  function ProsesData(source: Option<seq<RawRow>>, width: nat, round: real -> real): (out: Option<Outputs>)
    ensures out.None? <==> source.None?
    ensures out.Some? ==> |out.value.mapRows| <= |out.value.raw| <= |source.value|
    ensures out.Some? ==> out.value.raw == CleanRows(source.value)
    ensures out.Some? ==> out.value.mapRows == MapData(CleanRows(source.value), width, round)
  {
    match source
    case None => None
    case Some(rows) =>
      var cleaned := CleanRows(rows);
      Some(Outputs(cleaned, MapData(cleaned, width, round)))
  }
}
