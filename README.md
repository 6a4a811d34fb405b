# Bandung WiFi Connect — a verified model of its data core

Bandung WiFi Connect is a Streamlit dashboard that maps public WiFi points in
Bandung. It merges a curated local dataset with points scraped live from
OpenStreetMap's Overpass API. It ranks the points by distance from a reference
point: the city centre, a search result or the browser's GPS fix. An offline
script prepares the local dataset. It cleans a raw survey table and averages
it per location.

This project models that core in Dafny and proves what it promises:

- `LocalData`: `load_local_data`. It picks the xlsx or csv table, drops rows
  whose coordinates do not convert, fills then strips the label, and tags the
  source.
- `OsmScrape`: the element loop of `scrape_osm_data`. The loop is a method. It
  is proved equal to an all-or-nothing specification: one element with truthy
  `lat` and `lon` whose coordinates fail `float()` empties the whole result.
  Other elements are skipped and never converted.
- `Distance`: the fail-open path of `haversine` (sentinel 999.0).
- `Radar`: `get_combined_map_data`, the `jarak` column, the 3 km filter, the
  sort and the five-row "Terdekat" list.
- `Session`: `st.session_state` as a class. It covers search, the one-time GPS
  recentring latch, reset and the menu.
- `Cleaning`: `proses_data`. It is a pure row filter, then a group-by-mean in
  pandas' key order, then `.round(1)`.
- `Sieve`, `PyText`, `Records`, `Wrappers`: order-preserving selection,
  Python's `str.strip` and `str` ordering, the unified record, `Option`.

Things outside the program's own code are parameters of the model:

- the great-circle formula (`GreatCircle`);
- Python's text-to-float parser (`parse`);
- pandas' one-decimal rounding (`round`);
- the file reads, the HTTP responses and the geocoder's answer.

Behaviour of the code that a reader might not expect, which the model follows:

- A local label made only of whitespace becomes `""`, not the placeholder.
  `fillna` runs before `.str.strip()` (app.py:80).
- `sort_values('jarak')` uses pandas' default sort, which is not stable. The
  model promises sortedness and a permutation, not an order among ties.
- Coordinates are not range-checked anywhere. Any number that converts is
  accepted.
- The per-location mean in cleaning is the plain unweighted mean
  (cleaning_data.py:20).

Worth knowing: `.round(1)` in cleaning_data.py:20 also rounds the latitude
and longitude key columns to one decimal, about 11 km. `Cleaning.MapRowSpec`
states this.

## Model

| member | source | states |
|---|---|---|
| `Distance.Haversine` | app.py:22-34 | never fails; if any of the four coordinates does not convert it returns exactly 999.0, otherwise the formula's value on the converted numbers |
| `Sieve.FilterSelects` | app.py:79 | a row mask keeps exactly the accepted rows, unaltered, at strictly ascending positions of the input, and no accepted row is lost |
| `PyText.StripSpec` | app.py:80 | the stripped label is the slice of the input between its leading and trailing whitespace; everything cut off is whitespace and the result neither starts nor ends with whitespace |
| `PyText.BlankStripsToEmpty` | app.py:80 | a label made only of whitespace strips to the empty string |
| `LocalData.LoadLocalDataSpec` | app.py:68-82 | the loaded frame is exactly the rows of the table read (xlsx, else csv) whose latitude and longitude both convert, in original order, with their coordinates and the tag 'Dataset Internal'; when neither file reads it is empty |
| `LocalData.LocalLabelCases` | app.py:80 | a missing label becomes 'WiFi Point (Local)'; a present one is stripped; one made only of whitespace becomes "" and not the placeholder |
| `OsmScrape.ScrapedPoints` | app.py:92-119 | a failed request or an unreadable response gives the empty frame |
| `OsmScrape.ScrapeOsmData` | app.py:97-115 | the loop appends one record per element with truthy lat and lon and returns the empty frame as soon as a float() conversion raises; its result equals the all-or-nothing specification |
| `OsmScrape.RaisedStaysRaised` | app.py:92-117 | once a conversion has raised on a prefix of the elements, the whole scrape has raised |
| `OsmScrape.ElementPointsRaises` | app.py:107-111 | the scrape raises if and only if some element with truthy lat and lon has a coordinate that float() rejects |
| `OsmScrape.ElementPointsMaps` | app.py:98-114 | when nothing raises, the records are the kept elements in order, each mapped to its record |
| `OsmScrape.ScrapeSpec` | app.py:92-119 | all or nothing: one unconvertible kept element empties the result; otherwise there is one record per element with truthy lat and lon (missing, null and 0 are skipped), in element order, with label name-if-present (even ""), else operator, else 'WiFi Publik OSM', access defaulting to 'public', the converted coordinates, and tag 'Scraping Live (OSM)' |
| `Radar.GetCombinedMapData` | app.py:121-124 | the combined frame is the local rows followed by the scraped rows; the first part is tagged internal and the rest live; when the scrape fails it is just the local rows |
| `Radar.ScrapeSourceTag` | app.py:108-114 | every scraped row carries the tag 'Scraping Live (OSM)' |
| `Radar.WithJarak` | app.py:210-213 | adding the `jarak` column keeps every row and its position; each row's `jarak` is the formula's distance from the centre, or the 999.0 sentinel when the centre does not convert |
| `Radar.SortByJarak` | app.py:215 | the sorted frame is non-decreasing by distance and a permutation of its input |
| `Radar.NearRows` | app.py:215 | `df_near` is sorted by non-decreasing distance and is a permutation of the rows with distance <= 3.0, with their multiplicities |
| `Radar.NearRowsMembers` | app.py:215 | a row is in `df_near` if and only if it is in the frame and its distance is <= 3.0, the bound included |
| `Radar.Nearest` | app.py:266 | the "Terdekat" list is the first min(5, n) rows of `df_near`, and no near row it leaves out is closer than a listed one |
| `Radar.UnconvertibleCentreFindsNothing` | app.py:209-215 | if the reference point has a coordinate that does not convert, every distance is the 999.0 sentinel and the near list is empty |
| `Radar.NearIffWithinRadius` | app.py:210-215 | with a convertible reference point, a row is in the near list if and only if the formula puts it within 3 km |
| `Session.SessionState.constructor` | app.py:136-143 | a fresh session has centre (-6.9175, 107.6191), zoom 14, menu "peta", the GPS latch off and an empty search box |
| `Session.SessionState.TypeSearch` | app.py:200-205 | on the radar page, where the box is shown, typing sets the search box and changes nothing else |
| `Session.SessionState.HandleSearch` | app.py:51-61 | called from the radar page's search box, a non-empty query that geocodes sets the centre to the result and zoom to 16; otherwise centre and zoom are unchanged; the box is empty afterwards; menu and latch are untouched |
| `Session.SessionState.LocateUser` | app.py:176-193 | on the radar page only, a GPS fix recentres (zoom 16) only while the latch is off; the latch is then on; without a fix nothing changes |
| `Session.SessionState.Reset` | app.py:164-169 | reset restores the default centre, zoom 14 and the latch off, and keeps the menu and the search box |
| `Session.SessionState.SelectMenu` | app.py:152-160 | a sidebar button sets the menu and nothing else |
| `Session.FirstFixWins` | app.py:183-193 | of two GPS fixes in one session the map stays on the first, at zoom 16 |
| `Session.ResetRearmsFix` | app.py:164-193 | after a reset the next GPS fix recentres again |
| `Session.SearchAfterFix` | app.py:51-61 | a found search moves the map even after a GPS fix, a later fix does not undo it, and a search that finds nothing keeps the view |
| `Cleaning.CleanRowsSpec` | cleaning_data.py:15-16 | the cleaned rows are, unaltered and in order, exactly the input rows with lokasi, latitude and longitude present and both coordinates non-zero |
| `Cleaning.GroupKeys` | cleaning_data.py:19-20 | the group keys are strictly ascending in pandas' key order, are exactly the keys of rows with no key column missing, and are no more than those rows |
| `Cleaning.MapData` | cleaning_data.py:20 | the map table has one row per group key, so it is no longer than the rows with an address, which are no more than the cleaned rows |
| `Cleaning.MapRowSpec` | cleaning_data.py:20 | map row i carries its key's lokasi and alamat, its key's latitude and longitude rounded, and per numeric column the rounded mean over its group, which is never empty |
| `Cleaning.GroupMembers` | cleaning_data.py:19-20 | a row belongs to a group if and only if it is in the table, has no key column missing and has that key |
| `Cleaning.MeanBetweenMinMax` | cleaning_data.py:20 | the mean of a non-empty column lies between its least and greatest value |
| `Cleaning.GroupMeanBounds` | cleaning_data.py:20 | before rounding, a group's mean of a column lies between that column's least and greatest value within the group |
| `Cleaning.ProsesData` | cleaning_data.py:4-30 | nothing is produced if and only if the input file is missing; otherwise the cleaned table written is `CleanRows` of the input (described by `CleanRowsSpec`) and the map table is `MapData` of that cleaned table (described by `GroupKeys` and `MapRowSpec`), so map rows <= cleaned rows <= input rows |

## Left out

- The haversine trigonometry (app.py:30-32) is floating-point library code. It is the `GreatCircle` parameter. So zero distance, symmetry and the triangle inequality are not stated. A `math domain error` that rounding could raise for near-antipodal points is folded into that parameter.
- Floats are modelled as reals. NaN and infinity are not modelled, nor `float('nan')` converting successfully.
- Python's `float()` on text and `to_numeric`'s parser are not modelled. They are the `parse` parameter, or are already applied in a `Coord`.
- `geocode_place` and the Overpass request (app.py:39-49, 90-95) are network calls. Their results are inputs: `Option<(real, real)>` and `Fetch`.
- JSON decoding is not modelled. A `tags` value that is null or not an object, and non-string tag values, are not modelled either.
- File I/O is left out: `read_excel`, `read_csv`, `to_csv`, `to_excel` and `os.path.exists`. Reads are inputs and written frames are results. The CSV export round-trip (app.py:318, 328) is pandas' serialiser, whose code is not visible.
- `Cleaning.RawRow` takes the raw table's `latitude` and `longitude` as already parsed to numbers. cleaning_data.py has no `to_numeric`, so one non-numeric cell (a decimal comma such as "-6,91") makes pandas read the whole column as text. The source then behaves differently, and the model does not capture it: the mask at cleaning_data.py:16 compares text with 0 and keeps every row, zero coordinates included; the group keys at line 19 are ordered as strings; and `.round(1)` at line 20 leaves those columns unrounded.
- A table lacking the `latitude`, `longitude` or `lokasi` column is not modelled. pandas raises an uncaught `KeyError` there.
- Extra columns of the local dataset are not modelled. They are carried along unchanged by `load_local_data`.
- Non-string `lokasi` values are not modelled. In a column that mixes text and numbers, `.str.strip()` turns the numbers into NaN. A column pandas reads as numeric (all numbers, or an empty float64 column after `dropna`) makes `.str` raise `AttributeError` at app.py:80. That line is outside any `try`, so the error is not caught.
- A GPS answer without `coords` is not modelled (an uncaught `KeyError`).
- `st.cache_data(ttl=3600)` and its clearing on reset are time-based library behaviour.
- The toasts, `st.rerun()`, and all rendering are left out: the map, markers, popups, metre display, `int(...)` truncation and the Altair chart.
- The statistics aggregation (app.py:280-284) is left out. It feeds the bar chart and the "Top Lokasi" metric (app.py:295), which are both display.
- Pandas' `round(1)` (round half to even on binary floats) is not modelled. It is the `round` parameter.
- `Radar.SortByJarak` is an insertion sort, so it fixes one order among equal distances where pandas' unstable sort may give another. Only sortedness and permutation are promised.
- `Radar.WithJarak` and `LocalData.LoadLocalData` are functions. Their sources are whole-column assignments on a frame local to one run of the script, so no state is shared.
