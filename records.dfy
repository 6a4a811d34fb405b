/** The unified WiFi point record that both sources are normalised into,
    and the shape of a coordinate before normalisation. */
module Records {
  import opened Wrappers

  /** A raw coordinate as Python's `float()` (or pandas' `to_numeric` with
      `errors='coerce'`) sees it: `Some(x)` when it converts to the number
      `x`, `None` when it is missing, NaN or not numeric. */
  type Coord = Option<real>

  /** A reference point such as `st.session_state.center`: a pair
      `[lat, lon]`, each coordinate as `float()` sees it. */
  datatype LatLon = LatLon(lat: Coord, lon: Coord)

  /** The two values of the `sumber` (source) column. */
  const InternalSource: string := "Dataset Internal"
  const LiveSource: string := "Scraping Live (OSM)"

  /** One row of the combined map frame. `akses` exists only for scraped
      rows; a local row has NaN there after the concatenation. */
  datatype WifiPoint = WifiPoint(
    lokasi: string,
    latitude: real,
    longitude: real,
    akses: Option<string>,
    sumber: string)
}
