/**
  The dictionaries the derived views return, as records. Venue and Artist build
  them the same way in app.py and in models.py.
 */
module Views {
  import opened Shows

  /** The dictionary of `Venue.venue_data`. */
  datatype VenueDetail = VenueDetail(
    id: int,
    name: string,
    genres: seq<string>,
    address: string,
    city: string,
    state: string,
    phone: string,
    website: Option<string>,
    facebookLink: Option<string>,
    seekingTalent: Option<bool>,
    seekingDescription: Option<string>,
    imageLink: Option<string>,
    pastShows: seq<ShowRecord>,
    upcomingShows: seq<ShowRecord>,
    pastShowsCount: int,
    upcomingShowsCount: int)

  /** The dictionary of `Artist.artist_data`: no address, a nullable phone, and
      `seeking_venue` where a venue has `seeking_talent`. */
  datatype ArtistDetail = ArtistDetail(
    id: int,
    name: string,
    genres: seq<string>,
    city: string,
    state: string,
    phone: Option<string>,
    website: Option<string>,
    facebookLink: Option<string>,
    seekingVenue: Option<bool>,
    seekingDescription: Option<string>,
    imageLink: Option<string>,
    pastShows: seq<ShowRecord>,
    upcomingShows: seq<ShowRecord>,
    pastShowsCount: int,
    upcomingShowsCount: int)

  /** The dictionary of `search_result`: only the number of upcoming shows. */
  datatype SearchHit = SearchHit(id: int, name: string, numUpcomingShows: int)

  /** The `response` of a search route: `count` and one `SearchHit` per matched row. */
  datatype SearchResponse = SearchResponse(count: int, data: seq<SearchHit>)

  /** The dictionary of `Show.show_data`. */
  datatype ShowDetails = ShowDetails(
    venueId: int,
    venueName: string,
    artistId: int,
    artistName: string,
    artistImageLink: Option<string>,
    startTime: TimeText)
}
