/**
  Shows of a venue or an artist, and the "past" / "upcoming" views derived from them.

  Both Venue and Artist (in app.py and again in models.py) walk their `shows`
  relationship with the same loop: start from an empty list, visit the shows in
  order, and append a small record for each show whose start time falls on the
  wanted side of "now". This module holds that loop once, the specification
  functions it is proved against, and the partition properties of the two views.
 */
module Shows {

  /** A `DateTime` column, as an instant on an integer time line. */
  type Timestamp = int

  /** A nullable column. */
  datatype Option<T> = None | Some(value: T)

  /** `str(start_time)`: the text of a timestamp. Its characters are not modelled;
      the term only records which timestamp it is the text of. */
  datatype TimeText = Str(t: Timestamp)

  /** The `name` and `image_link` of the Artist or Venue row that a show's
      `artist` / `venue` relationship resolves to. */
  datatype Profile = Profile(name: string, imageLink: Option<string>)

  /** A Show row with its two relationships resolved. */
  datatype Show = Show(
    id: int,
    startTime: Timestamp,
    artistId: int,
    venueId: int,
    artist: Profile,
    venue: Profile)

  /** The dictionary appended for one show by `get_past_shows` / `get_upcoming_shows`.
      Every such record has `artist_id`, `artist_name` and `start_time`; the image
      travels under `artist_image_link` everywhere except in `Artist.get_past_shows`
      of models.py, which uses the key `venue_image_link` instead. */
  datatype ShowRecord =
    | ArtistImageRecord(artistId: int, artistName: string, artistImageLink: Option<string>, startTime: TimeText)
    | VenueImageRecord(artistId: int, artistName: string, venueImageLink: Option<string>, startTime: TimeText)

  /** Which of the two record shapes a loop builds. */
  datatype Shape = ArtistImage | VenueImage

  /** A show is past when it starts no later than `now`: the boundary instant is past. */
  predicate IsPast(s: Show, now: Timestamp) {
    s.startTime <= now
  }

  /** A show is upcoming when it starts strictly after `now`. */
  predicate IsUpcoming(s: Show, now: Timestamp) {
    s.startTime > now
  }

  /** The record one loop iteration appends for `s`. */
  function Summarize(s: Show, shape: Shape): ShowRecord {
    match shape
    case ArtistImage => ArtistImageRecord(s.artistId, s.artist.name, s.artist.imageLink, Str(s.startTime))
    case VenueImage => VenueImageRecord(s.artistId, s.artist.name, s.venue.imageLink, Str(s.startTime))
  }

  // ---------------------------------------------------------------------------
  // Specification functions: which shows a loop keeps, and the records it builds.
  // They are defined from the back so that they follow a loop that appends.
  // ---------------------------------------------------------------------------

  /** The past shows of `shows`, in their original order. */
  function PastShows(shows: seq<Show>, now: Timestamp): seq<Show> {
    if shows == [] then []
    else
      var last := shows[|shows| - 1];
      PastShows(shows[..|shows| - 1], now) + (if IsPast(last, now) then [last] else [])
  }

  /** The upcoming shows of `shows`, in their original order. */
  function UpcomingShows(shows: seq<Show>, now: Timestamp): seq<Show> {
    if shows == [] then []
    else
      var last := shows[|shows| - 1];
      UpcomingShows(shows[..|shows| - 1], now) + (if IsUpcoming(last, now) then [last] else [])
  }

  /** One record per row, in order. */
  function Records(rows: seq<Show>, shape: Shape): seq<ShowRecord> {
    if rows == [] then []
    else Records(rows[..|rows| - 1], shape) + [Summarize(rows[|rows| - 1], shape)]
  }

  /** Positions of the past shows: an independent reference for the counts. */
  ghost function PastIndices(shows: seq<Show>, now: Timestamp): set<int> {
    set i | 0 <= i < |shows| && IsPast(shows[i], now)
  }

  /** Positions of the upcoming shows. */
  ghost function UpcomingIndices(shows: seq<Show>, now: Timestamp): set<int> {
    set i | 0 <= i < |shows| && IsUpcoming(shows[i], now)
  }

  // ---------------------------------------------------------------------------
  // The accumulate-by-append loops.
  // ---------------------------------------------------------------------------

  /** `get_past_shows`: append a record for each show with `start_time <= now`. */
  method CollectPast(shows: seq<Show>, now: Timestamp, shape: Shape) returns (past: seq<ShowRecord>)
    ensures past == Records(PastShows(shows, now), shape)
  {
    past := [];
    for i := 0 to |shows|
      invariant past == Records(PastShows(shows[..i], now), shape)
    {
      var show := shows[i];
      assert shows[..i + 1] == shows[..i] + [show];
      if show.startTime <= now {
        assert PastShows(shows[..i + 1], now) == PastShows(shows[..i], now) + [show];
        RecordsSnoc(PastShows(shows[..i], now), show, shape);
        past := past + [Summarize(show, shape)];
      } else {
        assert PastShows(shows[..i + 1], now) == PastShows(shows[..i], now);
      }
    }
    assert shows[..|shows|] == shows;
  }

  /** `get_upcoming_shows`: append a record for each show with `start_time > now`. */
  method CollectUpcoming(shows: seq<Show>, now: Timestamp, shape: Shape) returns (upcoming: seq<ShowRecord>)
    ensures upcoming == Records(UpcomingShows(shows, now), shape)
  {
    upcoming := [];
    for i := 0 to |shows|
      invariant upcoming == Records(UpcomingShows(shows[..i], now), shape)
    {
      var show := shows[i];
      assert shows[..i + 1] == shows[..i] + [show];
      if show.startTime > now {
        assert UpcomingShows(shows[..i + 1], now) == UpcomingShows(shows[..i], now) + [show];
        RecordsSnoc(UpcomingShows(shows[..i], now), show, shape);
        upcoming := upcoming + [Summarize(show, shape)];
      } else {
        assert UpcomingShows(shows[..i + 1], now) == UpcomingShows(shows[..i], now);
      }
    }
    assert shows[..|shows|] == shows;
  }

  // ---------------------------------------------------------------------------
  // What the views mean.
  // ---------------------------------------------------------------------------

  lemma RecordsSnoc(rows: seq<Show>, s: Show, shape: Shape)
    ensures Records(rows + [s], shape) == Records(rows, shape) + [Summarize(s, shape)]
  {
    assert (rows + [s])[..|rows|] == rows;
  }

  /** The k-th record is built from the k-th row, and there is one record per row. */
  lemma {:induction false} RecordsAt(rows: seq<Show>, shape: Shape, k: int)
    requires 0 <= k < |rows|
    ensures |Records(rows, shape)| == |rows|
    ensures Records(rows, shape)[k] == Summarize(rows[k], shape)
  {
    RecordsLength(rows[..|rows| - 1], shape);
    if k < |rows| - 1 {
      RecordsAt(rows[..|rows| - 1], shape, k);
    }
  }

  lemma {:induction false} RecordsLength(rows: seq<Show>, shape: Shape)
    ensures |Records(rows, shape)| == |rows|
  {
    if rows != [] {
      RecordsLength(rows[..|rows| - 1], shape);
    }
  }

  /** Every record carries its show's artist id, artist name and start time, and
      the image under the key its shape names: a record never has both keys. */
  lemma RecordFields(rows: seq<Show>, shape: Shape, k: int)
    requires 0 <= k < |rows|
    ensures |Records(rows, shape)| == |rows|
    ensures Records(rows, shape)[k].artistId == rows[k].artistId
    ensures Records(rows, shape)[k].artistName == rows[k].artist.name
    ensures Records(rows, shape)[k].startTime == Str(rows[k].startTime)
    ensures shape == ArtistImage ==>
              Records(rows, shape)[k].ArtistImageRecord? && Records(rows, shape)[k].artistImageLink == rows[k].artist.imageLink
    ensures shape == VenueImage ==>
              Records(rows, shape)[k].VenueImageRecord? && Records(rows, shape)[k].venueImageLink == rows[k].venue.imageLink
  {
    RecordsAt(rows, shape, k);
  }

  /** A record is listed exactly when it summarizes one of the rows. */
  lemma {:induction false} RecordsMembers(rows: seq<Show>, shape: Shape, r: ShowRecord)
    ensures r in Records(rows, shape) <==> exists y :: y in rows && Summarize(y, shape) == r
  {
    if rows != [] {
      var init := rows[..|rows| - 1];
      RecordsMembers(init, shape, r);
      assert rows == init + [rows[|rows| - 1]];
    }
  }

  /** The record of a show starting exactly at `now` is in the past list, and no
      record in the upcoming list equals it. */
  lemma BoundaryRecordIsPast(shows: seq<Show>, now: Timestamp, shape: Shape, x: Show)
    requires x in shows && x.startTime == now
    ensures Summarize(x, shape) in Records(PastShows(shows, now), shape)
    ensures Summarize(x, shape) !in Records(UpcomingShows(shows, now), shape)
  {
    BoundaryIsPast(shows, now, x);
    RecordsMembers(PastShows(shows, now), shape, Summarize(x, shape));
    RecordsMembers(UpcomingShows(shows, now), shape, Summarize(x, shape));
    if Summarize(x, shape) in Records(UpcomingShows(shows, now), shape) {
      var y :| y in UpcomingShows(shows, now) && Summarize(y, shape) == Summarize(x, shape);
      UpcomingShowsMembers(shows, now, y);
      assert false;
    }
  }

  /** A show is in the past view exactly when it is one of the shows and starts at or before `now`. */
  lemma {:induction false} PastShowsMembers(shows: seq<Show>, now: Timestamp, x: Show)
    ensures x in PastShows(shows, now) <==> x in shows && x.startTime <= now
  {
    if shows != [] {
      var init := shows[..|shows| - 1];
      PastShowsMembers(init, now, x);
      assert shows == init + [shows[|shows| - 1]];
    }
  }

  /** A show is in the upcoming view exactly when it is one of the shows and starts after `now`. */
  lemma {:induction false} UpcomingShowsMembers(shows: seq<Show>, now: Timestamp, x: Show)
    ensures x in UpcomingShows(shows, now) <==> x in shows && x.startTime > now
  {
    if shows != [] {
      var init := shows[..|shows| - 1];
      UpcomingShowsMembers(init, now, x);
      assert shows == init + [shows[|shows| - 1]];
    }
  }

  /** Filtering keeps the original order: the views of a concatenation are the
      concatenations of the views. With the one-show case this pins each view down
      as the order-preserving selection of its shows. */
  lemma {:induction false} PastShowsConcat(a: seq<Show>, b: seq<Show>, now: Timestamp)
    ensures PastShows(a + b, now) == PastShows(a, now) + PastShows(b, now)
  {
    if b == [] {
      assert a + b == a;
    } else {
      var init := b[..|b| - 1];
      PastShowsConcat(a, init, now);
      assert (a + b)[..|a + b| - 1] == a + init;
    }
  }

  lemma {:induction false} UpcomingShowsConcat(a: seq<Show>, b: seq<Show>, now: Timestamp)
    ensures UpcomingShows(a + b, now) == UpcomingShows(a, now) + UpcomingShows(b, now)
  {
    if b == [] {
      assert a + b == a;
    } else {
      var init := b[..|b| - 1];
      UpcomingShowsConcat(a, init, now);
      assert (a + b)[..|a + b| - 1] == a + init;
    }
  }

  /** For one reading of the clock, every show lands in exactly one of the two
      views (counted with multiplicity), so their lengths add up to the number of shows. */
  lemma {:induction false} Partition(shows: seq<Show>, now: Timestamp)
    ensures multiset(PastShows(shows, now)) + multiset(UpcomingShows(shows, now)) == multiset(shows)
    ensures |PastShows(shows, now)| + |UpcomingShows(shows, now)| == |shows|
  {
    if shows != [] {
      var init := shows[..|shows| - 1];
      var last := shows[|shows| - 1];
      Partition(init, now);
      assert shows == init + [last];
      assert multiset(shows) == multiset(init) + multiset{last};
      if IsPast(last, now) {
        assert PastShows(shows, now) == PastShows(init, now) + [last];
        assert UpcomingShows(shows, now) == UpcomingShows(init, now);
      } else {
        assert PastShows(shows, now) == PastShows(init, now);
        assert UpcomingShows(shows, now) == UpcomingShows(init, now) + [last];
      }
    }
  }

  /** A show that starts exactly at `now` is past and never upcoming. */
  lemma {:induction false} BoundaryIsPast(shows: seq<Show>, now: Timestamp, x: Show)
    requires x in shows && x.startTime == now
    ensures x in PastShows(shows, now)
    ensures x !in UpcomingShows(shows, now)
  {
    PastShowsMembers(shows, now, x);
    UpcomingShowsMembers(shows, now, x);
  }

  /** The length of the past view is the number of positions holding a past show. */
  lemma {:induction false} PastCount(shows: seq<Show>, now: Timestamp)
    ensures |PastShows(shows, now)| == |PastIndices(shows, now)|
  {
    if shows != [] {
      var n := |shows| - 1;
      var init := shows[..n];
      PastCount(init, now);
      var tail := if IsPast(shows[n], now) then {n} else {};
      assert PastIndices(shows, now) == PastIndices(init, now) + tail;
      assert n !in PastIndices(init, now);
    }
  }

  /** The length of the upcoming view is the number of positions holding an upcoming show. */
  lemma {:induction false} UpcomingCount(shows: seq<Show>, now: Timestamp)
    ensures |UpcomingShows(shows, now)| == |UpcomingIndices(shows, now)|
  {
    if shows != [] {
      var n := |shows| - 1;
      var init := shows[..n];
      UpcomingCount(init, now);
      var tail := if IsUpcoming(shows[n], now) then {n} else {};
      assert UpcomingIndices(shows, now) == UpcomingIndices(init, now) + tail;
      assert n !in UpcomingIndices(init, now);
    }
  }

  /** With the upcoming reading taken no later than the past reading, a show that
      starts after the first and no later than the second is counted twice: the
      two counts add up to more than the number of shows. */
  lemma {:induction false} StraddlingShowCountedTwice(shows: seq<Show>, upcomingNow: Timestamp, pastNow: Timestamp, i: int)
    requires 0 <= i < |shows| && upcomingNow < shows[i].startTime <= pastNow
    ensures |PastShows(shows, pastNow)| + |UpcomingShows(shows, upcomingNow)| > |shows|
  {
    Partition(shows, pastNow);
    UpcomingCount(shows, pastNow);
    UpcomingCount(shows, upcomingNow);
    var later := UpcomingIndices(shows, pastNow);
    var earlier := UpcomingIndices(shows, upcomingNow);
    assert later <= earlier;
    assert i in earlier - later;
    assert earlier == later + (earlier - later);
  }

  /** Two readings of the clock, the upcoming one taken first: a show starting after
      the first reading and no later than the second is in BOTH views. */
  lemma StraddlingShowInBoth(shows: seq<Show>, upcomingNow: Timestamp, pastNow: Timestamp, x: Show)
    requires x in shows && upcomingNow < x.startTime <= pastNow
    ensures x in PastShows(shows, pastNow) && x in UpcomingShows(shows, upcomingNow)
  {
    PastShowsMembers(shows, pastNow, x);
    UpcomingShowsMembers(shows, upcomingNow, x);
  }
}
