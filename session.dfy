/** The Streamlit session state of app.py (`st.session_state`) and the
    handlers that change it: search, the one-time GPS recentring, reset
    and the sidebar menu. The toasts, reruns and cache clearing are
    rendering and library behaviour and are not part of the model. */
module Session {
  import opened Wrappers
  import opened Records

  /** The sidebar menus "peta", "stats" and "data". */
  datatype Menu = Peta | Stats | Data

  /** Bandung's city centre, the default `center`. */
  const DefaultCenter: LatLon := LatLon(Some(-6.9175), Some(107.6191))
  const DefaultZoom: int := 14
  /** The zoom used after flying to a search result or a GPS fix. */
  const FocusZoom: int := 16

  class SessionState {
    var center: LatLon
    var zoom: int
    var menu: Menu
    var userLocatedOnce: bool
    /** The text of the search box (widget key `search_input`). */
    var searchInput: string

    /** A fresh session: every key takes its default. */
    constructor ()
      ensures center == DefaultCenter && zoom == DefaultZoom && menu == Peta
      ensures !userLocatedOnce && searchInput == ""
    {
      center := DefaultCenter;
      zoom := DefaultZoom;
      menu := Peta;
      userLocatedOnce := false;
      searchInput := "";
    }

    /** The user types into the search box, which only the radar page
        shows. */
    method TypeSearch(text: string)
      requires menu == Peta
      modifies this
      ensures searchInput == text
      ensures center == old(center) && zoom == old(zoom) && menu == old(menu)
      ensures userLocatedOnce == old(userLocatedOnce)
    {
      searchInput := text;
    }

    /** `handle_search()`. `geocoded` is what `geocode_place` returns for the
        current query: the first match, or `None` when there is none or the
        request fails. A non-empty query that geocodes flies there at zoom
        16; a failed one leaves the view; the box is cleared either way.
        The search box, and so this callback, exists only on the radar
        page. */
    method HandleSearch(geocoded: Option<(real, real)>)
      requires menu == Peta
      modifies this
      ensures old(searchInput) != "" && geocoded.Some? ==>
                center == LatLon(Some(geocoded.value.0), Some(geocoded.value.1)) && zoom == FocusZoom
      ensures old(searchInput) == "" || geocoded.None? ==>
                center == old(center) && zoom == old(zoom)
      ensures searchInput == ""
      ensures menu == old(menu) && userLocatedOnce == old(userLocatedOnce)
    {
      var query := searchInput;
      if query != "" {
        if geocoded.Some? {
          center := LatLon(Some(geocoded.value.0), Some(geocoded.value.1));
          zoom := FocusZoom;
        }
        searchInput := "";
      }
    }

    /** The GPS block of the radar page. `fix` is the browser's position
        (`None` when `get_geolocation()` gives nothing). The map recentres on
        the first fix only; the latch then stays set. The block runs only on
        the radar page. */
    method LocateUser(fix: Option<LatLon>)
      requires menu == Peta
      modifies this
      ensures fix.Some? && !old(userLocatedOnce) ==> center == fix.value && zoom == FocusZoom
      ensures fix.None? || old(userLocatedOnce) ==> center == old(center) && zoom == old(zoom)
      ensures userLocatedOnce == (old(userLocatedOnce) || fix.Some?)
      ensures menu == old(menu) && searchInput == old(searchInput)
    {
      if fix.Some? {
        if !userLocatedOnce {
          center := fix.value;
          zoom := FocusZoom;
          userLocatedOnce := true;
        }
      }
    }

    /** The "Reset & Refresh" button: back to the default view, and the next
        GPS fix recentres again. */
    method Reset()
      modifies this
      ensures center == DefaultCenter && zoom == DefaultZoom && !userLocatedOnce
      ensures menu == old(menu) && searchInput == old(searchInput)
    {
      center := DefaultCenter;
      zoom := DefaultZoom;
      userLocatedOnce := false;
    }

    /** One of the three sidebar buttons. */
    method SelectMenu(m: Menu)
      modifies this
      ensures menu == m
      ensures center == old(center) && zoom == old(zoom)
      ensures userLocatedOnce == old(userLocatedOnce) && searchInput == old(searchInput)
    {
      menu := m;
    }
  }

  /** Two GPS fixes in one session: the map stays on the first. */
  method FirstFixWins(first: LatLon, second: LatLon) returns (center: LatLon, zoom: int)
    ensures center == first && zoom == FocusZoom
  {
    var s := new SessionState();
    s.LocateUser(Some(first));
    s.LocateUser(Some(second));
    center, zoom := s.center, s.zoom;
  }

  /** A reset between two GPS fixes re-arms the latch: the map moves to the
      second fix. */
  method ResetRearmsFix(first: LatLon, second: LatLon) returns (center: LatLon)
    ensures center == second
  {
    var s := new SessionState();
    s.LocateUser(Some(first));
    s.Reset();
    s.LocateUser(Some(second));
    center := s.center;
  }

  /** A search after a GPS fix moves the map, and a later fix does not
      undo it; a search that finds nothing keeps the view. */
  method SearchAfterFix(fix: LatLon, query: string, found: (real, real))
    returns (afterHit: LatLon, afterMiss: LatLon)
    requires query != ""
    ensures afterHit == LatLon(Some(found.0), Some(found.1))
    ensures afterMiss == afterHit
  {
    var s := new SessionState();
    s.LocateUser(Some(fix));
    s.TypeSearch(query);
    s.HandleSearch(Some(found));
    s.LocateUser(Some(fix));
    afterHit := s.center;
    s.TypeSearch(query);
    s.HandleSearch(None);
    afterMiss := s.center;
  }
}
