/**
  The derived views of app.py: the Venue, Artist and Show models with their
  past / upcoming / detail / search views, the area grouping of the `/venues`
  page and the responses of the two search routes.

  `datetime.today()` is read inside each of `get_past_shows` and
  `get_upcoming_shows`; here every reading is a parameter.
 */
module App {
  import opened Shows
  import opened Views

  /** A Venue row with its `shows` relationship loaded. */
  datatype Venue = Venue(
    id: int,
    name: string,
    city: string,
    state: string,
    address: string,
    phone: string,
    websiteLink: Option<string>,
    facebookLink: Option<string>,
    imageLink: Option<string>,
    seekingTalent: Option<bool>,
    seekingDescription: Option<string>,
    genres: seq<string>,
    shows: seq<Show>)
  {
    /** `get_past_shows`: the artist-side record of every show with `start_time <= now`, in order. */
    method GetPastShows(now: Timestamp) returns (past: seq<ShowRecord>)
      ensures past == Records(PastShows(shows, now), ArtistImage)
    {
      past := CollectPast(shows, now, ArtistImage);
    }

    /** `get_upcoming_shows`: the artist-side record of every show with `start_time > now`, in order. */
    method GetUpcomingShows(now: Timestamp) returns (upcoming: seq<ShowRecord>)
      ensures upcoming == Records(UpcomingShows(shows, now), ArtistImage)
    {
      upcoming := CollectUpcoming(shows, now, ArtistImage);
    }

    /** `venue_data`, as written: the upcoming list is built first, under one
        reading of the clock, and the past list afterwards, under another. */
    function VenueData(upcomingNow: Timestamp, pastNow: Timestamp): (d: VenueDetail)
      ensures d.pastShows == Records(PastShows(shows, pastNow), ArtistImage)
      ensures d.upcomingShows == Records(UpcomingShows(shows, upcomingNow), ArtistImage)
      ensures d.pastShowsCount == |d.pastShows| == |PastIndices(shows, pastNow)|
      ensures d.upcomingShowsCount == |d.upcomingShows| == |UpcomingIndices(shows, upcomingNow)|
      ensures upcomingNow == pastNow ==> d.pastShowsCount + d.upcomingShowsCount == |shows|
      ensures d.id == id && d.name == name && d.genres == genres && d.address == address
      ensures d.city == city && d.state == state && d.phone == phone && d.website == websiteLink
      ensures d.facebookLink == facebookLink && d.imageLink == imageLink
      ensures d.seekingTalent == seekingTalent && d.seekingDescription == seekingDescription
    {
      var upcoming := Records(UpcomingShows(shows, upcomingNow), ArtistImage);
      var past := Records(PastShows(shows, pastNow), ArtistImage);
      RecordsLength(UpcomingShows(shows, upcomingNow), ArtistImage);
      RecordsLength(PastShows(shows, pastNow), ArtistImage);
      UpcomingCount(shows, upcomingNow);
      PastCount(shows, pastNow);
      Partition(shows, pastNow);
      VenueDetail(id, name, genres, address, city, state, phone, websiteLink, facebookLink,
                  seekingTalent, seekingDescription, imageLink, past, upcoming, |past|, |upcoming|)
    }

    /** The detail view under a single reading of the clock: every show is listed
        exactly once, and a show starting at `now` is listed as past. */
    function VenueDataAt(now: Timestamp): (d: VenueDetail)
      ensures d.pastShowsCount + d.upcomingShowsCount == |shows|
      ensures d.pastShows == Records(PastShows(shows, now), ArtistImage)
      ensures d.upcomingShows == Records(UpcomingShows(shows, now), ArtistImage)
      ensures forall x :: x in shows && x.startTime == now ==>
                Summarize(x, ArtistImage) in d.pastShows && Summarize(x, ArtistImage) !in d.upcomingShows
    {
      forall x | x in shows && x.startTime == now
        ensures Summarize(x, ArtistImage) in Records(PastShows(shows, now), ArtistImage)
        ensures Summarize(x, ArtistImage) !in Records(UpcomingShows(shows, now), ArtistImage)
      {
        BoundaryRecordIsPast(shows, now, ArtistImage, x);
      }
      VenueData(now, now)
    }

    /** `search_result`: id, name and the number of shows strictly after `now`. */
    function SearchResult(now: Timestamp): (r: SearchHit)
      ensures r.id == id && r.name == name
      ensures r.numUpcomingShows == |UpcomingIndices(shows, now)|
    {
      var upcoming := Records(UpcomingShows(shows, now), ArtistImage);
      RecordsLength(UpcomingShows(shows, now), ArtistImage);
      UpcomingCount(shows, now);
      SearchHit(id, name, |upcoming|)
    }
  }

  /** An Artist row with its `shows` relationship loaded. */
  datatype Artist = Artist(
    id: int,
    name: string,
    city: string,
    state: string,
    phone: Option<string>,
    websiteLink: Option<string>,
    facebookLink: Option<string>,
    imageLink: Option<string>,
    seekingVenue: Option<bool>,
    seekingDescription: Option<string>,
    genres: seq<string>,
    shows: seq<Show>)
  {
    /** `get_past_shows`: the artist-side record of every show with `start_time <= now`, in order. */
    method GetPastShows(now: Timestamp) returns (past: seq<ShowRecord>)
      ensures past == Records(PastShows(shows, now), ArtistImage)
    {
      past := CollectPast(shows, now, ArtistImage);
    }

    /** `get_upcoming_shows`: the artist-side record of every show with `start_time > now`, in order. */
    method GetUpcomingShows(now: Timestamp) returns (upcoming: seq<ShowRecord>)
      ensures upcoming == Records(UpcomingShows(shows, now), ArtistImage)
    {
      upcoming := CollectUpcoming(shows, now, ArtistImage);
    }

    /** `artist_data`, as written: upcoming list first, past list second, each
        under its own reading of the clock. */
    function ArtistData(upcomingNow: Timestamp, pastNow: Timestamp): (d: ArtistDetail)
      ensures d.pastShows == Records(PastShows(shows, pastNow), ArtistImage)
      ensures d.upcomingShows == Records(UpcomingShows(shows, upcomingNow), ArtistImage)
      ensures d.pastShowsCount == |d.pastShows| == |PastIndices(shows, pastNow)|
      ensures d.upcomingShowsCount == |d.upcomingShows| == |UpcomingIndices(shows, upcomingNow)|
      ensures upcomingNow == pastNow ==> d.pastShowsCount + d.upcomingShowsCount == |shows|
      ensures d.id == id && d.name == name && d.genres == genres
      ensures d.city == city && d.state == state && d.phone == phone && d.website == websiteLink
      ensures d.facebookLink == facebookLink && d.imageLink == imageLink
      ensures d.seekingVenue == seekingVenue && d.seekingDescription == seekingDescription
    {
      var upcoming := Records(UpcomingShows(shows, upcomingNow), ArtistImage);
      var past := Records(PastShows(shows, pastNow), ArtistImage);
      RecordsLength(UpcomingShows(shows, upcomingNow), ArtistImage);
      RecordsLength(PastShows(shows, pastNow), ArtistImage);
      UpcomingCount(shows, upcomingNow);
      PastCount(shows, pastNow);
      Partition(shows, pastNow);
      ArtistDetail(id, name, genres, city, state, phone, websiteLink, facebookLink,
                   seekingVenue, seekingDescription, imageLink, past, upcoming, |past|, |upcoming|)
    }

    /** The detail view under a single reading of the clock: every show is listed
        exactly once, and a show starting at `now` is listed as past. */
    function ArtistDataAt(now: Timestamp): (d: ArtistDetail)
      ensures d.pastShowsCount + d.upcomingShowsCount == |shows|
      ensures d.pastShows == Records(PastShows(shows, now), ArtistImage)
      ensures d.upcomingShows == Records(UpcomingShows(shows, now), ArtistImage)
      ensures forall x :: x in shows && x.startTime == now ==>
                Summarize(x, ArtistImage) in d.pastShows && Summarize(x, ArtistImage) !in d.upcomingShows
    {
      forall x | x in shows && x.startTime == now
        ensures Summarize(x, ArtistImage) in Records(PastShows(shows, now), ArtistImage)
        ensures Summarize(x, ArtistImage) !in Records(UpcomingShows(shows, now), ArtistImage)
      {
        BoundaryRecordIsPast(shows, now, ArtistImage, x);
      }
      ArtistData(now, now)
    }

    /** `search_result`: id, name and the number of shows strictly after `now`. */
    function SearchResult(now: Timestamp): (r: SearchHit)
      ensures r.id == id && r.name == name
      ensures r.numUpcomingShows == |UpcomingIndices(shows, now)|
    {
      var upcoming := Records(UpcomingShows(shows, now), ArtistImage);
      RecordsLength(UpcomingShows(shows, now), ArtistImage);
      UpcomingCount(shows, now);
      SearchHit(id, name, |upcoming|)
    }
  }

  /** `Show.show_data`: the `/shows` listing entry of one show. */
  function ShowData(s: Show): (d: ShowDetails)
    ensures d.venueId == s.venueId && d.artistId == s.artistId && d.startTime == Str(s.startTime)
    ensures d.venueName == s.venue.name
    ensures d.artistName == s.artist.name && d.artistImageLink == s.artist.imageLink
  {
    ShowDetails(s.venueId, s.venue.name, s.artistId, s.artist.name, s.artist.imageLink, Str(s.startTime))
  }

  /** The `/shows` entry of a show and the record a venue or artist page lists for
      it, in its past list or its upcoming list alike, name the same artist, the
      same image and the same start time. */
  lemma ShowDataMatchesRecord(rows: seq<Show>, k: int)
    requires 0 <= k < |rows|
    ensures |Records(rows, ArtistImage)| == |rows|
    ensures var d := ShowData(rows[k]);
            Records(rows, ArtistImage)[k] == ArtistImageRecord(d.artistId, d.artistName, d.artistImageLink, d.startTime)
  {
    RecordsAt(rows, ArtistImage, k);
  }

  // ---------------------------------------------------------------------------
  // The search routes.
  // ---------------------------------------------------------------------------

  /** The `response` of `search_venues` for the rows the name filter matched. */
  function SearchVenues(result: seq<Venue>, now: Timestamp): (r: SearchResponse)
    ensures r.count == |r.data| == |result|
    ensures forall i :: 0 <= i < |result| ==>
              r.data[i].id == result[i].id && r.data[i].name == result[i].name &&
              r.data[i].numUpcomingShows == |UpcomingIndices(result[i].shows, now)|
  {
    var data := seq(|result|, i requires 0 <= i < |result| => result[i].SearchResult(now));
    SearchResponse(|result|, data)
  }

  /** The `response` of `search_artists` for the rows the name filter matched. */
  function SearchArtists(result: seq<Artist>, now: Timestamp): (r: SearchResponse)
    ensures r.count == |r.data| == |result|
    ensures forall i :: 0 <= i < |result| ==>
              r.data[i].id == result[i].id && r.data[i].name == result[i].name &&
              r.data[i].numUpcomingShows == |UpcomingIndices(result[i].shows, now)|
  {
    var data := seq(|result|, i requires 0 <= i < |result| => result[i].SearchResult(now));
    SearchResponse(|result|, data)
  }

  // ---------------------------------------------------------------------------
  // The `/venues` page: venues grouped by (city, state).
  // ---------------------------------------------------------------------------

  /** One row of the `distinct(Venue.city, Venue.state)` query. */
  datatype Area = Area(city: string, state: string)

  /** A venue as listed under its area. */
  datatype VenueListing = VenueListing(id: int, name: string, numUpcomingShows: int)

  /** One entry of `data`: an area and the venues listed under it. */
  datatype AreaGroup = AreaGroup(city: string, state: string, venues: seq<VenueListing>)

  /** The page shows the fixed placeholder 5 as every venue's number of upcoming shows. */
  const ListedUpcomingShows := 5

  predicate InArea(v: Venue, a: Area) {
    v.state == a.state && v.city == a.city
  }

  function Listing(v: Venue): VenueListing {
    VenueListing(v.id, v.name, ListedUpcomingShows)
  }

  /** The listings the inner loop builds for area `a`, in the order of `all`. */
  function AreaListings(all: seq<Venue>, a: Area): seq<VenueListing> {
    if all == [] then []
    else
      var last := all[|all| - 1];
      AreaListings(all[..|all| - 1], a) + (if InArea(last, a) then [Listing(last)] else [])
  }

  /** The nested loops of `venues()`: one group per area, in the order of `areas`,
      each listing the venues of `all` located exactly in that area. */
  method GroupVenuesByArea(areas: seq<Area>, all: seq<Venue>) returns (data: seq<AreaGroup>)
    ensures |data| == |areas|
    ensures forall i :: 0 <= i < |areas| ==>
              data[i] == AreaGroup(areas[i].city, areas[i].state, AreaListings(all, areas[i]))
  {
    data := [];
    for i := 0 to |areas|
      invariant |data| == i
      invariant forall j :: 0 <= j < i ==>
                  data[j] == AreaGroup(areas[j].city, areas[j].state, AreaListings(all, areas[j]))
    {
      var area := areas[i];
      var venues := [];
      for k := 0 to |all|
        invariant venues == AreaListings(all[..k], area)
      {
        var venue := all[k];
        assert all[..k + 1] == all[..k] + [venue];
        if venue.state == area.state && venue.city == area.city {
          venues := venues + [VenueListing(venue.id, venue.name, 5)];
        }
      }
      assert all[..|all|] == all;
      data := data + [AreaGroup(area.city, area.state, venues)];
    }
  }

  /** A listing appears under area `a` exactly when some venue of `all` lies in
      that exact city and state; it carries that venue's id and name and the
      placeholder count 5. */
  lemma {:induction false} AreaListingsMembers(all: seq<Venue>, a: Area, e: VenueListing)
    ensures e in AreaListings(all, a) <==>
            exists v :: v in all && InArea(v, a) && e == VenueListing(v.id, v.name, 5)
  {
    if all != [] {
      var init := all[..|all| - 1];
      var last := all[|all| - 1];
      AreaListingsMembers(init, a, e);
      assert all == init + [last];
      if e in AreaListings(all, a) && e !in AreaListings(init, a) {
        assert InArea(last, a) && e == Listing(last);
      }
    }
  }

  /** How many of `areas` the venue lies in. */
  function AreasOf(areas: seq<Area>, v: Venue): nat {
    if areas == [] then 0
    else (if InArea(v, areas[0]) then 1 else 0) + AreasOf(areas[1..], v)
  }

  /** The number of listings on the page. */
  function TotalListed(areas: seq<Area>, all: seq<Venue>): nat {
    if areas == [] then 0
    else |AreaListings(all, areas[0])| + TotalListed(areas[1..], all)
  }

  lemma {:induction false} TotalListedSnoc(areas: seq<Area>, all: seq<Venue>, v: Venue)
    ensures TotalListed(areas, all + [v]) == TotalListed(areas, all) + AreasOf(areas, v)
  {
    if areas != [] {
      assert (all + [v])[..|all|] == all;
      TotalListedSnoc(areas[1..], all, v);
    }
  }

  lemma {:induction false} AreasOfAbsent(areas: seq<Area>, v: Venue)
    requires Area(v.city, v.state) !in areas
    ensures AreasOf(areas, v) == 0
  {
    if areas != [] {
      assert areas[0] != Area(v.city, v.state);
      assert Area(v.city, v.state) !in areas[1..];
      AreasOfAbsent(areas[1..], v);
    }
  }

  lemma {:induction false} AreasOfDistinct(areas: seq<Area>, v: Venue)
    requires forall i, j :: 0 <= i < j < |areas| ==> areas[i] != areas[j]
    requires Area(v.city, v.state) in areas
    ensures AreasOf(areas, v) == 1
  {
    var here := Area(v.city, v.state);
    if areas[0] == here {
      assert here !in areas[1..] by {
        forall j | 0 <= j < |areas[1..]| ensures areas[1..][j] != here {
          assert areas[1..][j] == areas[j + 1];
        }
      }
      AreasOfAbsent(areas[1..], v);
    } else {
      assert here in areas[1..];
      AreasOfDistinct(areas[1..], v);
    }
  }

  /** When `areas` holds each (city, state) of the venues exactly once, as the
      `distinct` query returns them, every venue lies in exactly one listed area
      and the page lists every venue exactly once. */
  lemma {:induction false} GroupingListsEveryVenueOnce(areas: seq<Area>, all: seq<Venue>)
    requires forall i, j :: 0 <= i < j < |areas| ==> areas[i] != areas[j]
    requires forall v :: v in all ==> Area(v.city, v.state) in areas
    ensures forall v :: v in all ==> AreasOf(areas, v) == 1
    ensures TotalListed(areas, all) == |all|
  {
    forall v | v in all
      ensures AreasOf(areas, v) == 1
    {
      AreasOfDistinct(areas, v);
    }
    if all == [] {
      TotalListedEmpty(areas);
    } else {
      var init := all[..|all| - 1];
      var last := all[|all| - 1];
      assert all == init + [last];
      GroupingListsEveryVenueOnce(areas, init);
      TotalListedSnoc(areas, init, last);
      AreasOfDistinct(areas, last);
    }
  }

  lemma {:induction false} TotalListedEmpty(areas: seq<Area>)
    ensures TotalListed(areas, []) == 0
  {
    if areas != [] {
      TotalListedEmpty(areas[1..]);
    }
  }

  // ---------------------------------------------------------------------------
  // Two readings of the clock in one detail view.
  // ---------------------------------------------------------------------------

  /** `venue_data` as written lists a show twice when the clock passes its start
      time between the two readings: the counts then add up to more than the
      number of shows. */
  lemma VenueDataCountsStraddlingShowTwice(v: Venue, upcomingNow: Timestamp, pastNow: Timestamp, i: int)
    requires 0 <= i < |v.shows| && upcomingNow < v.shows[i].startTime <= pastNow
    ensures v.VenueData(upcomingNow, pastNow).pastShowsCount
          + v.VenueData(upcomingNow, pastNow).upcomingShowsCount > |v.shows|
  {
    StraddlingShowCountedTwice(v.shows, upcomingNow, pastNow, i);
    PastCount(v.shows, pastNow);
    UpcomingCount(v.shows, upcomingNow);
  }

  /** `artist_data` as written has the same double count. */
  lemma ArtistDataCountsStraddlingShowTwice(a: Artist, upcomingNow: Timestamp, pastNow: Timestamp, i: int)
    requires 0 <= i < |a.shows| && upcomingNow < a.shows[i].startTime <= pastNow
    ensures a.ArtistData(upcomingNow, pastNow).pastShowsCount
          + a.ArtistData(upcomingNow, pastNow).upcomingShowsCount > |a.shows|
  {
    StraddlingShowCountedTwice(a.shows, upcomingNow, pastNow, i);
    PastCount(a.shows, pastNow);
    UpcomingCount(a.shows, upcomingNow);
  }
}
