# Fyyur: past and upcoming shows of venues and artists

Fyyur is a booking directory of venues, artists and the shows that link them.
Its only logic beyond storing and fetching rows is a set of derived views
computed on each read:

- the *past* shows of a venue or an artist: its shows whose start time is at or
  before "now", each turned into a small record (artist id, artist name, an
  image link, the start time as text), in the order of the `shows` relationship;
- the *upcoming* shows: its shows that start strictly after "now", same shape;
- the detail view (`venue_data`, `artist_data`): the row's own fields plus both
  lists and their counts;
- the search view (`search_result`): id, name and the number of upcoming shows,
  and the search response (`count` and one search view per matched row);
- `show_data`: the `/shows` listing entry of one show;
- the `/venues` page, which groups the venues by (city, state) area with two
  nested loops.

app.py and models.py each define Venue, Artist and Show with these views. The
derived views of the two copies are the same except at models.py:135: models.py's
`Artist.get_past_shows` puts the image of the show's *venue* under the key
`venue_image_link`, where every other loop puts the artist's image under
`artist_image_link`. The model keeps that difference. (The two `Show` classes
also differ in where they place the delete cascade; see "## Left out".)

Layout:

- `shows.dfy`, module `Shows`: a show with its artist and venue resolved, the
  show record, the two filter conditions (`IsPast`: `start_time <= now`,
  `IsUpcoming`: `start_time > now`), the specification functions `PastShows`,
  `UpcomingShows` and `Records`, the accumulate-by-append loops `CollectPast` and
  `CollectUpcoming` (written once and used by every `get_*_shows`), and the
  lemmas on what the two views mean.
- `views.dfy`, module `Views`: the dictionaries the views return, as records.
- `app.dfy`, module `App`: app.py's Venue and Artist (as datatypes whose members
  are the views), `show_data`, the search responses and the `/venues` grouping.
- `models.dfy`, module `Models`: models.py's Venue and Artist, with the divergent
  past-show record, and `show_data`.

Modelling choices:

- Timestamps are integers. `datetime.today()` is never called: every reading of
  the clock is a parameter. `get_past_shows` and `get_upcoming_shows` each read
  the clock themselves, so `venue_data` / `artist_data`, which call both, take
  two readings (`upcomingNow`, taken first, and `pastNow`).
- `str(start_time)` is the symbolic term `Str(t)`; the characters of the text
  are not modelled.
- A Venue or Artist is a value (a datatype) carrying its loaded `shows`. The
  views only read the row; the in-place edits happen in the Flask handlers,
  which are not modelled.
- A show's `show.artist` / `show.venue` relationships are resolved into the
  `name` and `image_link` the views read (`Profile`).
- Nullable columns are `Option`; `NOT NULL` columns are plain values.
- The `/venues` page's `distinct(city, state)` query is an input sequence of
  areas; the lemma about covering every venue states the `distinct` guarantee
  as its precondition.

## Model

| member | source | states |
|---|---|---|
| `Shows.CollectPast` | app.py:73-84 | the loop returns exactly one record per show with `start_time <= now`, in the order of the shows (`Records(PastShows(shows, now), shape)`) |
| `Shows.CollectUpcoming` | app.py:86-97 | the loop returns exactly one record per show with `start_time > now`, in order (`Records(UpcomingShows(shows, now), shape)`) |
| `Shows.PastShowsMembers` | app.py:76-77 | a show is in the past view if and only if it is one of the shows and starts at or before `now` |
| `Shows.UpcomingShowsMembers` | app.py:89-90 | a show is in the upcoming view if and only if it is one of the shows and starts strictly after `now` |
| `Shows.PastShowsConcat` | app.py:76-83 | the past view keeps the original order: the view of a concatenation is the concatenation of the views |
| `Shows.UpcomingShowsConcat` | app.py:89-96 | the upcoming view keeps the original order in the same sense |
| `Shows.Partition` | app.py:73-97 | under one reading of the clock every show is in exactly one of the two views (as multisets, past + upcoming = shows), so the lengths add up to the number of shows |
| `Shows.BoundaryIsPast` | app.py:77 | a show starting exactly at `now` is in the past view and not in the upcoming view |
| `Shows.BoundaryRecordIsPast` | app.py:90 | the record of a show starting exactly at `now` is in the past list, and no record of the upcoming list equals it |
| `Shows.PastCount` | app.py:69 | the number of past records is the number of positions whose show starts at or before `now` |
| `Shows.UpcomingCount` | app.py:103 | the number of upcoming records is the number of positions whose show starts after `now` |
| `Shows.RecordsLength` | app.py:78-83 | one record is appended per kept show |
| `Shows.RecordsAt` | app.py:78-83 | the k-th record is built from the k-th kept show |
| `Shows.RecordsMembers` | app.py:78-83 | a record is listed if and only if it summarizes one of the kept shows |
| `Shows.RecordFields` | models.py:130-150 | every record carries its show's artist id, artist name and start time; under the artist-image shape it holds the artist's image under `artist_image_link`, under the venue-image shape the venue's image under `venue_image_link`, never both keys |
| `Shows.StraddlingShowInBoth` | app.py:73-97 | with the upcoming reading taken before the past reading, a show starting between the two readings is in both views |
| `Shows.StraddlingShowCountedTwice` | app.py:51-71 | with such a show, the two counts add up to more than the number of shows |
| `App.Venue.GetPastShows` | app.py:73-84 | returns the artist-side records of the venue's shows with `start_time <= now`, in order |
| `App.Venue.GetUpcomingShows` | app.py:86-97 | returns the artist-side records of the venue's shows with `start_time > now`, in order |
| `App.Venue.VenueData` | app.py:51-71 | the detail view copies the row's fields, lists past shows under the past reading and upcoming shows under the upcoming reading, each count equals its list's length and the number of matching positions, and with equal readings the counts add up to the number of shows |
| `App.Venue.VenueDataAt` | app.py:51-71 | the detail view under one reading: counts add up to the number of shows, and a show starting at `now` is listed as past and not as upcoming |
| `App.Venue.SearchResult` | app.py:99-104 | id and name of the venue, and `num_upcoming_shows` equal to the number of its shows starting strictly after `now` |
| `App.Artist.GetPastShows` | app.py:143-154 | returns the artist-side records of the artist's shows with `start_time <= now`, in order |
| `App.Artist.GetUpcomingShows` | app.py:156-167 | returns the artist-side records of the artist's shows with `start_time > now`, in order |
| `App.Artist.ArtistData` | app.py:122-141 | as `VenueData`, for the artist's fields (no address, nullable phone, `seeking_venue`) |
| `App.Artist.ArtistDataAt` | app.py:122-141 | the artist detail view under one reading: counts add up to the number of shows, a show at `now` is past |
| `App.Artist.SearchResult` | app.py:169-174 | id and name of the artist, and `num_upcoming_shows` equal to the number of its shows starting strictly after `now` |
| `App.ShowData` | app.py:191-199 | the `/shows` entry copies the show's venue id, artist id and start time unchanged, with the venue's name and the artist's name and image |
| `App.ShowDataMatchesRecord` | app.py:191-199 | for any list of shows (the past list or the upcoming list of a venue or artist page), the k-th artist-image record names the same artist, image and start time as the `/shows` entry of the k-th show |
| `App.SearchVenues` | app.py:262-265 | `count` equals the length of `data`, which holds one search view per matched venue, in order, each with the venue's id, name and upcoming count |
| `App.SearchArtists` | app.py:361-364 | `count` equals the length of `data`, one search view per matched artist, in order |
| `App.GroupVenuesByArea` | app.py:239-253 | one group per area in order, each carrying the area's city and state and listing exactly the venues located in that city and state, in order |
| `App.AreaListingsMembers` | app.py:242-248 | a listing appears under an area if and only if some venue has that exact city and state; it carries that venue's id and name and `num_upcoming_shows` = 5 |
| `App.GroupingListsEveryVenueOnce` | app.py:235-253 | when the areas are the distinct (city, state) pairs of the venues, every venue lies in exactly one listed area and the page lists every venue exactly once |
| `App.VenueDataCountsStraddlingShowTwice` | app.py:51-71 | `venue_data` as written: a show starting between the two clock readings makes the counts add up to more than the number of shows |
| `App.ArtistDataCountsStraddlingShowTwice` | app.py:122-141 | the same for `artist_data` |
| `Models.Venue.GetPastShows` | models.py:57-68 | returns the artist-side records of the venue's shows with `start_time <= now`, in order |
| `Models.Venue.GetUpcomingShows` | models.py:70-81 | returns the artist-side records of the venue's shows with `start_time > now`, in order |
| `Models.Venue.VenueData` | models.py:35-55 | the detail view copies the row's fields, each count equals its list's length and the number of matching positions, and with equal readings the counts add up to the number of shows |
| `Models.Venue.SearchResult` | models.py:83-88 | `num_upcoming_shows` equals the number of the venue's shows starting strictly after `now` |
| `Models.Artist.GetPastShows` | models.py:127-138 | returns one record per show with `start_time <= now`, in order, each carrying the show's venue image under `venue_image_link` and no `artist_image_link` key |
| `Models.Artist.GetUpcomingShows` | models.py:140-151 | returns one record per show with `start_time > now`, in order, each carrying the artist's image under `artist_image_link` |
| `Models.Artist.ArtistData` | models.py:106-125 | the detail view with venue-image past records, counts equal to list lengths and to the numbers of matching positions, and a partition under equal readings |
| `Models.Artist.SearchResult` | models.py:153-158 | `num_upcoming_shows` equals the number of the artist's shows starting strictly after `now` |
| `Models.ShowData` | models.py:175-183 | the `/shows` entry copies the show's venue id, artist id and start time unchanged |
| `Models.ArtistPastRecordDiffersFromApp` | models.py:132-137 | models.py's past record for an artist agrees with every other loop's record on artist id, name and start time and differs only in carrying the venue image under `venue_image_link` |

## Left out

- Flask routing, template rendering, `flash`, `redirect`, `abort(404)`, CSRF and
  form validation: presentation and I/O. The search routes are modelled only
  from the rows their query returned.
- The SQLAlchemy queries: the case-insensitive `ilike` name search and the
  `distinct(city, state)` area query run in the database; their results are
  inputs here.
- The create, edit and delete handlers with their add / commit / rollback /
  close pattern: calls into the persistence layer.
- Cascade delete: ORM configuration with no code of its own, and different in
  the two files. models.py:165-168 puts `cascade="all, delete"` on the `shows`
  backref, so deleting a venue or an artist deletes its shows. app.py:181-184
  puts it on `Show.artist` and `Show.venue` themselves, so deleting a show
  cascades to its artist and its venue. Neither direction is modelled.
- `format_datetime`: a wrapper over dateutil and babel.
- Logging setup and `db_init`: plumbing.
- The Alembic migration: schema operations only.
- The clock: every `datetime.today()` reading is a parameter.
- The text of `str(start_time)`: kept as the symbolic term `Str(t)`.
- Column length limits (`String(120)`, `String(500)`, `String(255)`) and the
  database defaults of `seeking_talent` / `seeking_description`: enforced or
  applied by the database when a row is written.
- App.SearchVenues: every `search_result` reads the clock itself; the model
  gives all results of one response the same reading.
- App.SearchArtists: the same single reading for all results of one response.
- forms.py is not part of this model (app.py uses `datetime` through its
  `from forms import *`).

## Findings

| source | as written | input that shows it | evidently intended | confidence | as-written member | corrected member |
|---|---|---|---|---|---|---|
| app.py:51-71 | `venue_data` builds the upcoming list under one `datetime.today()` reading and the past list under a later one | a venue with one show starting at t, the clock read at t - 1 for the upcoming list and at t for the past list: the show is in both lists and the counts are 1 and 1 for one show | one reading for the whole view, so each show is listed exactly once | low (a narrow timing window), not executed | `App.Venue.VenueData`, shown by `App.VenueDataCountsStraddlingShowTwice` | `App.Venue.VenueDataAt` |
| app.py:122-141 | `artist_data` reads the clock twice in the same way (models.py:35-55 and models.py:106-125 repeat both) | an artist with one show starting at t, readings t - 1 then t | one reading for the whole view | low (a narrow timing window), not executed | `App.Artist.ArtistData`, shown by `App.ArtistDataCountsStraddlingShowTwice` | `App.Artist.ArtistDataAt` |
