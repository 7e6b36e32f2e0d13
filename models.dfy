/**
  The derived views of models.py. Its Venue, Artist and Show repeat those of
  app.py, except that `Artist.get_past_shows` puts the image of the show's venue
  under the key `venue_image_link` where every other loop puts the artist's image
  under `artist_image_link`. That difference is kept here as it is.
 */
module Models {
  import opened Shows
  import opened Views

  /** A Venue row with its `shows` relationship loaded. */
  datatype Venue = Venue(
    id: int,
    name: string,
    city: string,
    state: string,
    address: string,
    phone: string,
    websiteLink: Option<string>,
    facebookLink: Option<string>,
    imageLink: Option<string>,
    seekingTalent: Option<bool>,
    seekingDescription: Option<string>,
    genres: seq<string>,
    shows: seq<Show>)
  {
    /** `get_past_shows`: the artist-side record of every show with `start_time <= now`, in order. */
    method GetPastShows(now: Timestamp) returns (past: seq<ShowRecord>)
      ensures past == Records(PastShows(shows, now), ArtistImage)
    {
      past := CollectPast(shows, now, ArtistImage);
    }

    /** `get_upcoming_shows`: the artist-side record of every show with `start_time > now`, in order. */
    method GetUpcomingShows(now: Timestamp) returns (upcoming: seq<ShowRecord>)
      ensures upcoming == Records(UpcomingShows(shows, now), ArtistImage)
    {
      upcoming := CollectUpcoming(shows, now, ArtistImage);
    }

    /** `venue_data`, as written: the upcoming list is built first, under one
        reading of the clock, and the past list afterwards, under another. */
    function VenueData(upcomingNow: Timestamp, pastNow: Timestamp): (d: VenueDetail)
      ensures d.pastShows == Records(PastShows(shows, pastNow), ArtistImage)
      ensures d.upcomingShows == Records(UpcomingShows(shows, upcomingNow), ArtistImage)
      ensures d.pastShowsCount == |d.pastShows| == |PastIndices(shows, pastNow)|
      ensures d.upcomingShowsCount == |d.upcomingShows| == |UpcomingIndices(shows, upcomingNow)|
      ensures upcomingNow == pastNow ==> d.pastShowsCount + d.upcomingShowsCount == |shows|
      ensures d.id == id && d.name == name && d.genres == genres && d.address == address
      ensures d.city == city && d.state == state && d.phone == phone && d.website == websiteLink
      ensures d.facebookLink == facebookLink && d.imageLink == imageLink
      ensures d.seekingTalent == seekingTalent && d.seekingDescription == seekingDescription
    {
      var upcoming := Records(UpcomingShows(shows, upcomingNow), ArtistImage);
      var past := Records(PastShows(shows, pastNow), ArtistImage);
      RecordsLength(UpcomingShows(shows, upcomingNow), ArtistImage);
      RecordsLength(PastShows(shows, pastNow), ArtistImage);
      UpcomingCount(shows, upcomingNow);
      PastCount(shows, pastNow);
      Partition(shows, pastNow);
      VenueDetail(id, name, genres, address, city, state, phone, websiteLink, facebookLink,
                  seekingTalent, seekingDescription, imageLink, past, upcoming, |past|, |upcoming|)
    }

    /** `search_result`: id, name and the number of shows strictly after `now`. */
    function SearchResult(now: Timestamp): (r: SearchHit)
      ensures r.id == id && r.name == name
      ensures r.numUpcomingShows == |UpcomingIndices(shows, now)|
    {
      var upcoming := Records(UpcomingShows(shows, now), ArtistImage);
      RecordsLength(UpcomingShows(shows, now), ArtistImage);
      UpcomingCount(shows, now);
      SearchHit(id, name, |upcoming|)
    }
  }

  /** An Artist row with its `shows` relationship loaded. */
  datatype Artist = Artist(
    id: int,
    name: string,
    city: string,
    state: string,
    phone: Option<string>,
    websiteLink: Option<string>,
    facebookLink: Option<string>,
    imageLink: Option<string>,
    seekingVenue: Option<bool>,
    seekingDescription: Option<string>,
    genres: seq<string>,
    shows: seq<Show>)
  {
    /** `get_past_shows` of models.py: the record of every show with `start_time <= now`,
        in order, carrying the image of the show's VENUE under `venue_image_link`
        and no `artist_image_link` key. */
    method GetPastShows(now: Timestamp) returns (past: seq<ShowRecord>)
      ensures past == Records(PastShows(shows, now), VenueImage)
      ensures |past| == |PastShows(shows, now)|
      ensures forall k :: 0 <= k < |past| ==>
                past[k].VenueImageRecord? && past[k].venueImageLink == PastShows(shows, now)[k].venue.imageLink
    {
      past := CollectPast(shows, now, VenueImage);
      RecordsLength(PastShows(shows, now), VenueImage);
      forall k | 0 <= k < |past|
        ensures past[k].VenueImageRecord? && past[k].venueImageLink == PastShows(shows, now)[k].venue.imageLink
      {
        RecordFields(PastShows(shows, now), VenueImage, k);
      }
    }

    /** `get_upcoming_shows`: the artist-side record of every show with `start_time > now`, in order. */
    method GetUpcomingShows(now: Timestamp) returns (upcoming: seq<ShowRecord>)
      ensures upcoming == Records(UpcomingShows(shows, now), ArtistImage)
      ensures |upcoming| == |UpcomingShows(shows, now)|
      ensures forall k :: 0 <= k < |upcoming| ==>
                upcoming[k].ArtistImageRecord? && upcoming[k].artistImageLink == UpcomingShows(shows, now)[k].artist.imageLink
    {
      upcoming := CollectUpcoming(shows, now, ArtistImage);
      RecordsLength(UpcomingShows(shows, now), ArtistImage);
      forall k | 0 <= k < |upcoming|
        ensures upcoming[k].ArtistImageRecord? && upcoming[k].artistImageLink == UpcomingShows(shows, now)[k].artist.imageLink
      {
        RecordFields(UpcomingShows(shows, now), ArtistImage, k);
      }
    }

    /** `artist_data`, as written: upcoming list first, past list second, each
        under its own reading of the clock; the past records carry the venue image. */
    function ArtistData(upcomingNow: Timestamp, pastNow: Timestamp): (d: ArtistDetail)
      ensures d.pastShows == Records(PastShows(shows, pastNow), VenueImage)
      ensures d.upcomingShows == Records(UpcomingShows(shows, upcomingNow), ArtistImage)
      ensures d.pastShowsCount == |d.pastShows| == |PastIndices(shows, pastNow)|
      ensures d.upcomingShowsCount == |d.upcomingShows| == |UpcomingIndices(shows, upcomingNow)|
      ensures upcomingNow == pastNow ==> d.pastShowsCount + d.upcomingShowsCount == |shows|
      ensures d.id == id && d.name == name && d.genres == genres
      ensures d.city == city && d.state == state && d.phone == phone && d.website == websiteLink
      ensures d.facebookLink == facebookLink && d.imageLink == imageLink
      ensures d.seekingVenue == seekingVenue && d.seekingDescription == seekingDescription
    {
      var upcoming := Records(UpcomingShows(shows, upcomingNow), ArtistImage);
      var past := Records(PastShows(shows, pastNow), VenueImage);
      RecordsLength(UpcomingShows(shows, upcomingNow), ArtistImage);
      RecordsLength(PastShows(shows, pastNow), VenueImage);
      UpcomingCount(shows, upcomingNow);
      PastCount(shows, pastNow);
      Partition(shows, pastNow);
      ArtistDetail(id, name, genres, city, state, phone, websiteLink, facebookLink,
                   seekingVenue, seekingDescription, imageLink, past, upcoming, |past|, |upcoming|)
    }

    /** `search_result`: id, name and the number of shows strictly after `now`. */
    function SearchResult(now: Timestamp): (r: SearchHit)
      ensures r.id == id && r.name == name
      ensures r.numUpcomingShows == |UpcomingIndices(shows, now)|
    {
      var upcoming := Records(UpcomingShows(shows, now), ArtistImage);
      RecordsLength(UpcomingShows(shows, now), ArtistImage);
      UpcomingCount(shows, now);
      SearchHit(id, name, |upcoming|)
    }
  }

  /** `Show.show_data`: the `/shows` listing entry of one show. */
  function ShowData(s: Show): (d: ShowDetails)
    ensures d.venueId == s.venueId && d.artistId == s.artistId && d.startTime == Str(s.startTime)
    ensures d.venueName == s.venue.name
    ensures d.artistName == s.artist.name && d.artistImageLink == s.artist.imageLink
  {
    ShowDetails(s.venueId, s.venue.name, s.artistId, s.artist.name, s.artist.imageLink, Str(s.startTime))
  }

  /** For the same shows and the same `now`, the k-th past record of models.py's
      Artist and the k-th past record of every other loop agree on the artist id,
      artist name and start time, and differ only in the image: the venue's image
      under `venue_image_link` here, the artist's under `artist_image_link` there. */
  lemma ArtistPastRecordDiffersFromApp(shows: seq<Show>, now: Timestamp, k: int)
    requires 0 <= k < |PastShows(shows, now)|
    ensures |Records(PastShows(shows, now), VenueImage)| == |PastShows(shows, now)|
    ensures |Records(PastShows(shows, now), ArtistImage)| == |PastShows(shows, now)|
    ensures var here := Records(PastShows(shows, now), VenueImage)[k];
            var there := Records(PastShows(shows, now), ArtistImage)[k];
            && here.VenueImageRecord? && there.ArtistImageRecord?
            && here.artistId == there.artistId
            && here.artistName == there.artistName
            && here.startTime == there.startTime
            && here.venueImageLink == PastShows(shows, now)[k].venue.imageLink
            && there.artistImageLink == PastShows(shows, now)[k].artist.imageLink
  {
    RecordFields(PastShows(shows, now), VenueImage, k);
    RecordFields(PastShows(shows, now), ArtistImage, k);
  }
}
