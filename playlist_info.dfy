/**
 * The playlist aggregation of `MainCanvas`: page through a playlist's tracks
 * counting artists (`get_artist_counts`), look the distinct artists up in
 * batches and fold their genres into play-count-weighted genre counts
 * (`get_genre_counts`), combine the two with the track total
 * (`get_combined_genres`), and order the result for the report
 * (`retrieve_playlist_data`).
 *
 * The Spotify client is an oracle: `SpotifyApi` holds the two calls the code
 * makes as functions, so every page and every artist lookup is whatever the
 * service answers.
 */
module PlaylistInfo {
  import opened Common
  import opened Counters

  type ArtistId = string
  type Genre = string

  /** One playlist item: the ids of `item['track']['artists']`, in order. */
  type Track = seq<ArtistId>

  /** One answer of `playlist_tracks`: its `items`, whether `next` is set, and `total`. */
  datatype Page = Page(items: seq<Track>, next: bool, total: nat)

  /** One element of `artists(batch)['artists']`: its `id`, and its `genres` list if the key is present. */
  datatype Artist = Artist(id: ArtistId, genres: Option<seq<Genre>>)

  /** The two calls of the Spotify client: `playlist_tracks(playlist_id, offset, limit)` and `artists(ids)`. */
  datatype SpotifyApi = SpotifyApi(
    playlistTracks: (string, nat, nat) -> Page,
    artists: seq<ArtistId> -> seq<Artist>)

  const PAGE_LIMIT: nat := 100
  const BATCH_SIZE: nat := 50

  // ---------------------------------------------------------------------------
  // Paging through the playlist (get_artist_counts)
  // ---------------------------------------------------------------------------

  /** The `k`-th listing request: offset `100 * k`, limit 100. */
  function Request(api: SpotifyApi, playlistId: string, k: nat): Page
  {
    api.playlistTracks(playlistId, 100 * k, PAGE_LIMIT)
  }

  /** The service eventually answers a page without `next`; otherwise the loop never ends. */
  ghost predicate Terminates(api: SpotifyApi, playlistId: string)
  {
    exists k: nat :: !Request(api, playlistId, k).next
  }

  /** Exactly `n` requests are made: pages `0 .. n - 2` have `next`, page `n - 1` has not. */
  ghost predicate StopsAfter(api: SpotifyApi, playlistId: string, n: nat)
  {
    && n >= 1
    && !Request(api, playlistId, n - 1).next
    && forall k: nat :: k < n - 1 ==> Request(api, playlistId, k).next
  }

  /** The answers to the first `n` requests. */
  function Fetched(api: SpotifyApi, playlistId: string, n: nat): (pages: seq<Page>)
    ensures |pages| == n
    ensures forall k :: 0 <= k < n ==> pages[k] == Request(api, playlistId, k)
  {
    if n == 0 then [] else Fetched(api, playlistId, n - 1) + [Request(api, playlistId, n - 1)]
  }

  /** Every (track, artist) entry of `pages`, in order. */
  function ArtistEntries(pages: seq<Page>): seq<ArtistId>
  {
    if pages == [] then [] else ArtistEntries(pages[..|pages| - 1]) + Flatten(pages[|pages| - 1].items)
  }

  /** The counter `get_artist_counts` builds from the first `n` pages. */
  function ArtistCounts(api: SpotifyApi, playlistId: string, n: nat): Counter
  {
    Tally(Ones(ArtistEntries(Fetched(api, playlistId, n))))
  }

  /**
   * `get_artist_counts`: request pages at offsets 0, 100, 200, ... until one
   * comes back without `next`, adding 1 to the artist's count for every
   * (track, artist) entry. `requests` is the number of listing calls made.
   */
  method GetArtistCounts(api: SpotifyApi, playlistId: string) returns (artists: Counter, ghost requests: nat)
    requires Terminates(api, playlistId)
    ensures StopsAfter(api, playlistId, requests)
    ensures artists == ArtistCounts(api, playlistId, requests)
  {
    artists := Empty();
    var offset := 0;
    var limit := PAGE_LIMIT;
    ghost var k: nat := 0;
    ghost var stop: nat :| !Request(api, playlistId, stop).next;
    while true
      invariant offset == 100 * k && limit == PAGE_LIMIT
      invariant k <= stop
      invariant forall j: nat :: j < k ==> Request(api, playlistId, j).next
      invariant artists == ArtistCounts(api, playlistId, k)
      decreases stop - k
    {
      var results := api.playlistTracks(playlistId, offset, limit);
      assert results == Request(api, playlistId, k);
      FetchedOneMore(api, playlistId, k);
      artists := CountItems(artists, results.items, ArtistEntries(Fetched(api, playlistId, k)));
      assert artists == ArtistCounts(api, playlistId, k + 1);
      if !results.next {
        requests := k + 1;
        break;
      }
      offset := offset + limit;
      k := k + 1;
    }
  }

  /** The entries of `k + 1` pages are those of `k` pages followed by those of page `k`. */
  lemma FetchedOneMore(api: SpotifyApi, playlistId: string, k: nat)
    ensures ArtistEntries(Fetched(api, playlistId, k + 1))
         == ArtistEntries(Fetched(api, playlistId, k)) + Flatten(Request(api, playlistId, k).items)
  {
    assert Fetched(api, playlistId, k + 1)[..k] == Fetched(api, playlistId, k);
  }

  /** The `for track in results['items']` loop: count the artists of every item. */
  method CountItems(artists: Counter, items: seq<Track>, ghost seen: seq<ArtistId>) returns (counted: Counter)
    requires artists == Tally(Ones(seen))
    ensures counted == Tally(Ones(seen + Flatten(items)))
  {
    counted := artists;
    var i := 0;
    assert seen + Flatten(items[..0]) == seen by {
      assert items[..0] == [];
    }
    while i < |items|
      invariant 0 <= i <= |items|
      invariant counted == Tally(Ones(seen + Flatten(items[..i])))
    {
      EntriesOneMore(seen, items, i);
      counted := CountArtists(counted, items[i], seen + Flatten(items[..i]));
      i := i + 1;
    }
    assert items[..i] == items;
  }

  /** The `for artist in track['track']['artists']` loop: `artists[artist['id']] += 1` for each. */
  method CountArtists(artists: Counter, track: Track, ghost seen: seq<ArtistId>) returns (counted: Counter)
    requires artists == Tally(Ones(seen))
    ensures counted == Tally(Ones(seen + track))
  {
    counted := artists;
    var j := 0;
    assert seen + track[..0] == seen;
    while j < |track|
      invariant 0 <= j <= |track|
      invariant counted == Tally(Ones(seen + track[..j]))
    {
      CountOneMore(seen, track, j);
      counted := counted.Add(track[j], 1);
      j := j + 1;
    }
    assert track[..j] == track;
  }

  /** One more `c[x] += 1` extends the tally of ones by the next artist `x` of the track. */
  lemma CountOneMore(seen: seq<ArtistId>, track: Track, j: nat)
    requires j < |track|
    ensures Tally(Ones(seen + track[..j + 1])) == Tally(Ones(seen + track[..j])).Add(track[j], 1)
  {
    var s := seen + track[..j];
    assert seen + track[..j + 1] == s + [track[j]];
    assert (s + [track[j]])[..|s|] == s;
    assert Ones(s + [track[j]])[..|s|] == Ones(s);
  }

  /** The entries of the first `i + 1` items are those of the first `i` followed by item `i`. */
  lemma EntriesOneMore(seen: seq<ArtistId>, items: seq<Track>, i: nat)
    requires i < |items|
    ensures seen + Flatten(items[..i]) + items[i] == seen + Flatten(items[..i + 1])
  {
    assert items[..i + 1][..i] == items[..i];
  }

  /**
   * The count of every artist id is the number of (track, artist) entries
   * with that id over all fetched pages; ids never seen are absent and read
   * as 0; the key order is the order of first appearance.
   */
  lemma ArtistCountIsOccurrences(api: SpotifyApi, playlistId: string, n: nat, a: ArtistId)
    ensures ArtistCounts(api, playlistId, n).Get(a) == multiset(ArtistEntries(Fetched(api, playlistId, n)))[a]
    ensures a in ArtistCounts(api, playlistId, n).counts <==> a in ArtistEntries(Fetched(api, playlistId, n))
    ensures ArtistCounts(api, playlistId, n).keys == Distinct(ArtistEntries(Fetched(api, playlistId, n)))
  {
    var entries := ArtistEntries(Fetched(api, playlistId, n));
    TallyValid(Ones(entries));
    TallyMeaning(Ones(entries));
    CountOnes(entries, a);
    OnesKeys(entries);
  }

  /** A playlist whose service pages are consecutive slices of one track list, as Spotify serves them. */
  function SlicePage(tracks: seq<Track>, offset: nat, limit: nat): Page
  {
    Page(tracks[Min(offset, |tracks|)..Min(offset + limit, |tracks|)], offset + limit < |tracks|, |tracks|)
  }

  /** Every listing request the loop can make is answered with the slice at its offset. */
  ghost predicate ServesSlices(api: SpotifyApi, playlistId: string, tracks: seq<Track>)
  {
    forall k: nat :: Request(api, playlistId, k) == SlicePage(tracks, 100 * k, 100)
  }

  /** ceil(n / 100) listing calls, and one for an empty playlist. */
  function PageCount(n: nat): nat
  {
    if n == 0 then 1 else (n + 99) / 100
  }

  lemma {:induction false} FetchedSlices(api: SpotifyApi, playlistId: string, tracks: seq<Track>, k: nat)
    requires ServesSlices(api, playlistId, tracks)
    ensures ArtistEntries(Fetched(api, playlistId, k)) == Flatten(tracks[..Min(100 * k, |tracks|)])
  {
    if k > 0 {
      var m := k - 1;
      FetchedSlices(api, playlistId, tracks, m);
      FetchedOneMore(api, playlistId, m);
      assert Request(api, playlistId, m) == SlicePage(tracks, 100 * m, 100);
      NextSlice(tracks, m);
      FlattenSplit(tracks, Min(100 * m, |tracks|), Min(100 * k, |tracks|));
    } else {
      assert tracks[..0] == [];
    }
  }

  /** The slice served for request `m` runs from the end of the first `m` pages to the end of the first `m + 1`. */
  lemma NextSlice(tracks: seq<Track>, m: nat)
    ensures 100 * m + 100 == 100 * (m + 1)
    ensures SlicePage(tracks, 100 * m, 100).items == tracks[Min(100 * m, |tracks|)..Min(100 * (m + 1), |tracks|)]
  {
  }

  /**
   * Against a service that serves slices of `tracks`, the loop stops after
   * exactly ceil(|tracks| / 100) requests (one for an empty playlist), and
   * the entries it counts are those of the whole playlist.
   */
  lemma PagingCoversPlaylist(api: SpotifyApi, playlistId: string, tracks: seq<Track>)
    requires ServesSlices(api, playlistId, tracks)
    ensures Terminates(api, playlistId)
    ensures StopsAfter(api, playlistId, PageCount(|tracks|))
    ensures ArtistEntries(Fetched(api, playlistId, PageCount(|tracks|))) == Flatten(tracks)
  {
    var n := |tracks|;
    var p := PageCount(n);
    assert 100 * p >= n;
    assert n > 0 ==> 100 * (p - 1) < n;
    assert Request(api, playlistId, p - 1) == SlicePage(tracks, 100 * (p - 1), 100);
    forall k: nat | k < p - 1
      ensures Request(api, playlistId, k).next
    {
      assert Request(api, playlistId, k) == SlicePage(tracks, 100 * k, 100);
    }
    FetchedSlices(api, playlistId, tracks, p);
    assert tracks[..Min(100 * p, n)] == tracks;
  }

  // ---------------------------------------------------------------------------
  // Batched artist lookup and genre weighting (get_genre_counts)
  // ---------------------------------------------------------------------------

  /** `artist.get('genres', [])` */
  function GenresOf(a: Artist): seq<Genre>
  {
    match a.genres
    case Some(gs) => gs
    case None => []
  }

  /** `(g, w)` for every genre `g` of `gs`, in order. */
  function Weighted(gs: seq<Genre>, w: int): (r: seq<(Genre, int)>)
    ensures |r| == |gs| && forall i :: 0 <= i < |gs| ==> r[i] == (gs[i], w)
  {
    if gs == [] then [] else Weighted(gs[..|gs| - 1], w) + [(gs[|gs| - 1], w)]
  }

  /** What one returned artist adds: `genres[g] += artists[artist['id']]` for each of its genres. */
  function Credits(a: Artist, artists: Counter): seq<(Genre, int)>
  {
    Weighted(GenresOf(a), artists.Get(a.id))
  }

  /** Everything the returned artists `rs` add, in order. */
  function Contributions(rs: seq<Artist>, artists: Counter): seq<(Genre, int)>
  {
    if rs == [] then [] else Contributions(rs[..|rs| - 1], artists) + Credits(rs[|rs| - 1], artists)
  }

  /** The artists the service returns for `batches`, in order. */
  function Returned(api: SpotifyApi, batches: seq<seq<ArtistId>>): seq<Artist>
  {
    if batches == [] then [] else Returned(api, batches[..|batches| - 1]) + api.artists(batches[|batches| - 1])
  }

  /** `ids[i:i + 50]` for `i` in `range(start, len(ids), 50)`. */
  function BatchesFrom(ids: seq<ArtistId>, start: nat): seq<seq<ArtistId>>
    decreases |ids| - start
  {
    if start >= |ids| then []
    else [ids[start..Min(start + BATCH_SIZE, |ids|)]] + BatchesFrom(ids, start + BATCH_SIZE)
  }

  function Batches(ids: seq<ArtistId>): seq<seq<ArtistId>>
  {
    BatchesFrom(ids, 0)
  }

  /** The counter `get_genre_counts` builds from the artist counter `artists`. */
  function GenreCounts(api: SpotifyApi, artists: Counter): Counter
  {
    Tally(Contributions(Returned(api, Batches(artists.keys)), artists))
  }

  /**
   * `get_genre_counts`: walk the artist ids in key order in batches of 50,
   * and for every artist the service returns add its play count to each of
   * its genres.
   */
  method GetGenreCounts(api: SpotifyApi, artists: Counter) returns (genres: Counter)
    ensures genres == GenreCounts(api, artists)
  {
    genres := Empty();
    var artistIds := artists.keys;
    var batchSize := BATCH_SIZE;
    ghost var done: seq<seq<ArtistId>> := [];
    var i := 0;
    while i < |artistIds|
      invariant batchSize == BATCH_SIZE
      invariant done + BatchesFrom(artistIds, i) == Batches(artistIds)
      invariant genres == Tally(Contributions(Returned(api, done), artists))
      decreases |artistIds| - i
    {
      var batch := artistIds[i..Min(i + batchSize, |artistIds|)];
      var artistsData := api.artists(batch);
      genres := CreditArtists(genres, artistsData, artists, Returned(api, done));
      ReturnedOneMore(api, done, batch);
      BatchesOneMore(artistIds, done, i);
      done := done + [batch];
      i := i + batchSize;
    }
    assert BatchesFrom(artistIds, i) == [] && done + [] == done;
  }

  /** Taking the batch at `i` moves it from the batches still to come to those done. */
  lemma BatchesOneMore(ids: seq<ArtistId>, done: seq<seq<ArtistId>>, i: nat)
    requires i < |ids|
    requires done + BatchesFrom(ids, i) == Batches(ids)
    ensures (done + [ids[i..Min(i + BATCH_SIZE, |ids|)]]) + BatchesFrom(ids, i + BATCH_SIZE) == Batches(ids)
  {
    var batch := ids[i..Min(i + BATCH_SIZE, |ids|)];
    assert BatchesFrom(ids, i) == [batch] + BatchesFrom(ids, i + BATCH_SIZE);
    assert done + ([batch] + BatchesFrom(ids, i + BATCH_SIZE)) == (done + [batch]) + BatchesFrom(ids, i + BATCH_SIZE);
  }

  /** The artists returned for one more batch follow those returned before. */
  lemma ReturnedOneMore(api: SpotifyApi, done: seq<seq<ArtistId>>, batch: seq<ArtistId>)
    ensures Returned(api, done + [batch]) == Returned(api, done) + api.artists(batch)
  {
    assert (done + [batch])[..|done|] == done;
  }

  /** The `for artist in artists_data` loop: `genres[genre] += artists[artist['id']]` for each genre of each artist. */
  method CreditArtists(genres: Counter, artistsData: seq<Artist>, artists: Counter, ghost prior: seq<Artist>)
    returns (credited: Counter)
    requires genres == Tally(Contributions(prior, artists))
    ensures credited == Tally(Contributions(prior + artistsData, artists))
  {
    credited := genres;
    var a := 0;
    ghost var done := prior;
    assert done == prior + artistsData[..0];
    while a < |artistsData|
      invariant 0 <= a <= |artistsData|
      invariant done == prior + artistsData[..a]
      invariant credited == Tally(Contributions(done, artists))
    {
      var artist := artistsData[a];
      credited := CreditGenres(credited, Contributions(done, artists), GenresOf(artist), artists.Get(artist.id));
      ContributionsOneMore(prior, artistsData, a, artists);
      done := done + [artist];
      a := a + 1;
    }
    assert artistsData[..a] == artistsData;
  }

  /** One more artist appends its credits. */
  lemma ContributionsOneMore(prior: seq<Artist>, rs: seq<Artist>, a: nat, artists: Counter)
    requires a < |rs|
    ensures prior + rs[..a + 1] == (prior + rs[..a]) + [rs[a]]
    ensures Contributions((prior + rs[..a]) + [rs[a]], artists) == Contributions(prior + rs[..a], artists) + Credits(rs[a], artists)
  {
    var done := prior + rs[..a];
    assert (done + [rs[a]])[..|done|] == done;
  }

  /** The `for genre in artist_genres` loop: `genres[genre] += w` for each genre. */
  method CreditGenres(genres: Counter, ghost base: seq<(Genre, int)>, gs: seq<Genre>, w: int) returns (credited: Counter)
    requires genres == Tally(base)
    ensures credited == Tally(base + Weighted(gs, w))
  {
    credited := genres;
    var g := 0;
    ghost var entries := base;
    assert entries == base + Weighted(gs[..0], w) by {
      assert gs[..0] == [];
    }
    while g < |gs|
      invariant 0 <= g <= |gs|
      invariant entries == base + Weighted(gs[..g], w)
      invariant credited == Tally(entries)
    {
      CreditOneMore(base, gs, w, g);
      credited := credited.Add(gs[g], w);
      entries := base + Weighted(gs[..g + 1], w);
      g := g + 1;
    }
    assert gs[..g] == gs;
  }

  /** One more `genres[genre] += w` extends the tally by the next genre of the list. */
  lemma CreditOneMore(base: seq<(Genre, int)>, gs: seq<Genre>, w: int, g: nat)
    requires g < |gs|
    ensures Tally(base + Weighted(gs[..g + 1], w)) == Tally(base + Weighted(gs[..g], w)).Add(gs[g], w)
  {
    var s := base + Weighted(gs[..g], w);
    assert gs[..g + 1][..g] == gs[..g];
    assert base + Weighted(gs[..g + 1], w) == s + [(gs[g], w)];
    assert (s + [(gs[g], w)])[..|s|] == s;
  }

  lemma {:induction false} BatchesFromConcatenate(ids: seq<ArtistId>, start: nat)
    requires start <= |ids|
    ensures Flatten(BatchesFrom(ids, start)) == ids[start..]
    decreases |ids| - start
  {
    if start < |ids| {
      var next := Min(start + BATCH_SIZE, |ids|);
      var first := ids[start..next];
      BatchesFromConcatenate(ids, next);
      assert BatchesFrom(ids, start) == [first] + BatchesFrom(ids, next);
      FlattenAppend([first], BatchesFrom(ids, next));
      assert Flatten([first]) == first by {
        assert [first][..0] == [];
      }
      assert ids[start..] == first + ids[next..];
    }
  }

  lemma {:induction false} BatchesFromShape(ids: seq<ArtistId>, start: nat)
    requires start <= |ids|
    ensures |BatchesFrom(ids, start)| == (|ids| - start + 49) / 50
    ensures forall b :: b in BatchesFrom(ids, start) ==> 0 < |b| <= BATCH_SIZE
    decreases |ids| - start
  {
    if start < |ids| {
      var next := Min(start + BATCH_SIZE, |ids|);
      BatchesFromShape(ids, next);
      assert BatchesFrom(ids, start) == [ids[start..next]] + BatchesFrom(ids, next);
    }
  }

  /**
   * The batches of `get_genre_counts` partition the key list: they are
   * consecutive, concatenate back to it in order, each holds 1 to 50 ids, and
   * there are ceil(n / 50) of them (none when there are no artists).
   */
  lemma BatchesPartitionKeys(ids: seq<ArtistId>)
    ensures Flatten(Batches(ids)) == ids
    ensures |Batches(ids)| == (|ids| + 49) / 50
    ensures forall b :: b in Batches(ids) ==> 0 < |b| <= BATCH_SIZE
  {
    BatchesFromConcatenate(ids, 0);
    BatchesFromShape(ids, 0);
  }

  /** Every genre listed by the returned artists, in order, repetitions included. */
  function ListedGenres(rs: seq<Artist>): seq<Genre>
  {
    if rs == [] then [] else ListedGenres(rs[..|rs| - 1]) + GenresOf(rs[|rs| - 1])
  }

  /** The sum, over the returned artists, of the artist's count times the occurrences of `g` in its genres. */
  function WeightedOccurrences(rs: seq<Artist>, artists: Counter, g: Genre): int
  {
    if rs == [] then 0
    else
      var a := rs[|rs| - 1];
      WeightedOccurrences(rs[..|rs| - 1], artists, g) + artists.Get(a.id) * multiset(GenresOf(a))[g]
  }

  lemma {:induction false} WeightOfWeighted(gs: seq<Genre>, w: int, g: Genre)
    ensures WeightOf(Weighted(gs, w), g) == w * multiset(gs)[g]
  {
    if gs != [] {
      var init := gs[..|gs| - 1];
      var last := gs[|gs| - 1];
      WeightOfWeighted(init, w, g);
      assert gs == init + [last];
      assert Weighted(gs, w) == Weighted(init, w) + [(last, w)];
      var m := multiset(init)[g];
      if last == g {
        assert multiset(gs)[g] == m + 1;
        MulSucc(w, m);
      } else {
        assert multiset(gs)[g] == m;
      }
    }
  }

  lemma MulSucc(w: int, m: int)
    ensures w * (m + 1) == w * m + w
  {
  }

  lemma KeysOfAppend(a: seq<(Genre, int)>, b: seq<(Genre, int)>)
    ensures KeysOf(a + b) == KeysOf(a) + KeysOf(b)
  {
  }

  lemma {:induction false} ContributionWeights(rs: seq<Artist>, artists: Counter, g: Genre)
    ensures WeightOf(Contributions(rs, artists), g) == WeightedOccurrences(rs, artists, g)
  {
    if rs != [] {
      var init := rs[..|rs| - 1];
      var a := rs[|rs| - 1];
      ContributionWeights(init, artists, g);
      WeightOfAppend(Contributions(init, artists), Credits(a, artists), g);
      WeightOfWeighted(GenresOf(a), artists.Get(a.id), g);
    }
  }

  lemma {:induction false} ContributionKeys(rs: seq<Artist>, artists: Counter)
    ensures KeysOf(Contributions(rs, artists)) == ListedGenres(rs)
  {
    if rs != [] {
      var init := rs[..|rs| - 1];
      var a := rs[|rs| - 1];
      ContributionKeys(init, artists);
      KeysOfAppend(Contributions(init, artists), Credits(a, artists));
      assert KeysOf(Credits(a, artists)) == GenresOf(a);
    }
  }

  /**
   * Genre weighting: the count of genre `g` is the sum, over every artist the
   * service returned, of that artist's play count times the number of times
   * `g` appears in its genre list (an artist without genres adds nothing);
   * the genres are the keys in the order first listed.
   */
  lemma GenreCountIsWeightedSum(rs: seq<Artist>, artists: Counter, g: Genre)
    ensures Tally(Contributions(rs, artists)).Get(g) == WeightedOccurrences(rs, artists, g)
    ensures Tally(Contributions(rs, artists)).keys == Distinct(ListedGenres(rs))
  {
    TallyMeaning(Contributions(rs, artists));
    ContributionWeights(rs, artists, g);
    ContributionKeys(rs, artists);
  }

  /** The service answers every batch with the artists of its ids, one per id, in order. */
  ghost predicate AnswersPerArtist(api: SpotifyApi, info: ArtistId -> Artist)
  {
    forall batch :: api.artists(batch) == LookUp(info, batch)
  }

  function LookUp(info: ArtistId -> Artist, ids: seq<ArtistId>): (r: seq<Artist>)
    ensures |r| == |ids| && forall i :: 0 <= i < |ids| ==> r[i] == info(ids[i])
  {
    if ids == [] then [] else LookUp(info, ids[..|ids| - 1]) + [info(ids[|ids| - 1])]
  }

  lemma {:induction false} ReturnedLooksUpFlattened(api: SpotifyApi, info: ArtistId -> Artist, bs: seq<seq<ArtistId>>)
    requires AnswersPerArtist(api, info)
    ensures Returned(api, bs) == LookUp(info, Flatten(bs))
  {
    if bs != [] {
      ReturnedLooksUpFlattened(api, info, bs[..|bs| - 1]);
      assert LookUp(info, Flatten(bs)) == LookUp(info, Flatten(bs[..|bs| - 1])) + LookUp(info, bs[|bs| - 1]);
    }
  }

  /**
   * Batching does not change what is looked up: against a service that
   * answers each id with its artist, the artists returned over all batches
   * are exactly the artists of the key list, each once, in key order.
   */
  lemma BatchedLookupIsPerKey(api: SpotifyApi, info: ArtistId -> Artist, artists: Counter)
    requires AnswersPerArtist(api, info)
    ensures Returned(api, Batches(artists.keys)) == LookUp(info, artists.keys)
  {
    BatchesPartitionKeys(artists.keys);
    ReturnedLooksUpFlattened(api, info, Batches(artists.keys));
  }

  // ---------------------------------------------------------------------------
  // get_combined_genres
  // ---------------------------------------------------------------------------

  /**
   * `get_combined_genres`: the genre counts weighted by the artist counts of
   * the whole paged listing, and the `total` of the playlist's first page
   * (the client's default offset 0 and limit 100).
   */
  method GetCombinedGenres(api: SpotifyApi, playlistId: string)
    returns (genres: Counter, trackTotal: nat, ghost requests: nat)
    requires Terminates(api, playlistId)
    ensures StopsAfter(api, playlistId, requests)
    ensures genres == GenreCounts(api, ArtistCounts(api, playlistId, requests))
    ensures trackTotal == api.playlistTracks(playlistId, 0, PAGE_LIMIT).total
  {
    var artists;
    artists, requests := GetArtistCounts(api, playlistId);
    genres := GetGenreCounts(api, artists);
    trackTotal := api.playlistTracks(playlistId, 0, PAGE_LIMIT).total;
  }

  // ---------------------------------------------------------------------------
  // The report (retrieve_playlist_data, lines 103-105)
  // ---------------------------------------------------------------------------

  /** Python's `<` on str: lexicographic by code point, a proper prefix first. */
  predicate StrLess(a: string, b: string)
  {
    if a == [] then b != []
    else if b == [] then false
    else a[0] < b[0] || (a[0] == b[0] && StrLess(a[1..], b[1..]))
  }

  lemma {:induction false} StrLessTrichotomy(a: string, b: string)
    ensures StrLess(a, b) || a == b || StrLess(b, a)
    ensures !(StrLess(a, b) && StrLess(b, a))
  {
    if a != [] && b != [] && a[0] == b[0] {
      StrLessTrichotomy(a[1..], b[1..]);
      if a[1..] == b[1..] {
        assert a == [a[0]] + a[1..] && b == [b[0]] + b[1..];
      }
    }
  }

  lemma {:induction false} StrLessTransitive(a: string, b: string, c: string)
    requires StrLess(a, b) && StrLess(b, c)
    ensures StrLess(a, c)
  {
    if a != [] && a[0] == b[0] && b[0] == c[0] {
      StrLessTransitive(a[1..], b[1..], c[1..]);
    }
  }

  /** The sort key `(count, genre)` of `p` is larger than that of `q`. */
  predicate Outranks(p: (Genre, int), q: (Genre, int))
  {
    p.1 > q.1 || (p.1 == q.1 && StrLess(q.0, p.0))
  }

  /** `Outranks` is a strict weak order: asymmetric, and its complement is transitive. */
  lemma OutranksIsStrictWeakOrder(p: (Genre, int), q: (Genre, int), r: (Genre, int))
    ensures Outranks(p, q) ==> !Outranks(q, p)
    ensures Outranks(p, r) ==> Outranks(p, q) || Outranks(q, r)
  {
    StrLessTrichotomy(p.0, q.0);
    if Outranks(p, r) && p.1 == q.1 && q.1 == r.1 {
      StrLessTrichotomy(q.0, p.0);
      if StrLess(p.0, q.0) {
        StrLessTransitive(r.0, p.0, q.0);
      }
    }
  }

  /** Ordered as `sorted(..., key=lambda item: (item[1], item[0]), reverse=True)` orders. */
  predicate Descending(r: seq<(Genre, int)>)
  {
    forall i, j :: 0 <= i < j < |r| ==> !Outranks(r[j], r[i])
  }

  function Insert(x: (Genre, int), r: seq<(Genre, int)>): (r': seq<(Genre, int)>)
    ensures multiset(r') == multiset(r) + multiset{x}
  {
    if r == [] then [x]
    else if Outranks(r[0], x) then
      assert r == [r[0]] + r[1..];
      [r[0]] + Insert(x, r[1..])
    else [x] + r
  }

  lemma {:induction false} InsertKeepsDescending(x: (Genre, int), r: seq<(Genre, int)>)
    requires Descending(r)
    ensures Descending(Insert(x, r))
  {
    if r == [] {
    } else if Outranks(r[0], x) {
      var t := Insert(x, r[1..]);
      InsertKeepsDescending(x, r[1..]);
      forall j | 0 <= j < |t|
        ensures !Outranks(t[j], r[0])
      {
        assert t[j] in multiset(t);
        if t[j] == x {
          OutranksIsStrictWeakOrder(r[0], x, x);
        } else {
          assert t[j] in multiset(r[1..]);
          var m :| 0 <= m < |r[1..]| && r[1..][m] == t[j];
          assert r[m + 1] == t[j];
        }
      }
      var u := [r[0]] + t;
      forall i, j | 0 <= i < j < |u|
        ensures !Outranks(u[j], u[i])
      {
        if i > 0 {
          assert u[i] == t[i - 1] && u[j] == t[j - 1];
        } else {
          assert u[j] == t[j - 1];
        }
      }
    } else {
      var u := [x] + r;
      forall i, j | 0 <= i < j < |u|
        ensures !Outranks(u[j], u[i])
      {
        if i == 0 && j > 1 {
          OutranksIsStrictWeakOrder(r[j - 1], r[0], x);
        }
      }
    }
  }

  /** Insertion sort by descending `(count, genre)`: a permutation of `s`, in descending order. */
  function SortDescending(s: seq<(Genre, int)>): (r: seq<(Genre, int)>)
    ensures multiset(r) == multiset(s)
    ensures Descending(r)
  {
    if s == [] then []
    else
      assert s == [s[0]] + s[1..];
      var rest := SortDescending(s[1..]);
      InsertKeepsDescending(s[0], rest);
      Insert(s[0], rest)
  }

  /** `playlist_data.items()`: each genre with its count, in key order. */
  function Items(c: Counter): (r: seq<(Genre, int)>)
    requires c.Valid()
    ensures |r| == |c.keys|
  {
    seq(|c.keys|, i requires 0 <= i < |c.keys| => (c.keys[i], c.counts[c.keys[i]]))
  }

  /** The items are exactly the counter's (genre, count) pairs. */
  lemma ItemsAreEntries(c: Counter)
    requires c.Valid()
    ensures forall e :: e in Items(c) <==> e.0 in c.counts && c.counts[e.0] == e.1
  {
    forall e: (Genre, int) | e.0 in c.counts && c.counts[e.0] == e.1
      ensures e in Items(c)
    {
      var i :| 0 <= i < |c.keys| && c.keys[i] == e.0;
      assert Items(c)[i] == e;
    }
  }

  /** The figures `retrieve_playlist_data` shows: data total, track total, genre total, sorted entries. */
  datatype Report = Report(dataTotal: int, trackTotal: nat, genreTotal: nat, entries: seq<(Genre, int)>)

  /**
   * Lines 103-105 of `retrieve_playlist_data`: the data total is the sum of
   * the genre counts, the genre total the number of genres, and the entries
   * are the genre counts ordered by count descending, ties by genre name
   * descending.
   */
  function MakeReport(genres: Counter, trackTotal: nat): (r: Report)
    requires genres.Valid()
    ensures r.dataTotal == genres.Total()
    ensures r.trackTotal == trackTotal
    ensures r.genreTotal == |genres.keys| == |r.entries|
    ensures forall e :: e in r.entries <==> e.0 in genres.counts && genres.counts[e.0] == e.1
    ensures multiset(r.entries) == multiset(Items(genres))
    ensures Descending(r.entries)
  {
    var entries := SortDescending(Items(genres));
    ItemsAreEntries(genres);
    assert |entries| == |multiset(entries)| == |Items(genres)|;
    assert forall e :: e in entries <==> e in multiset(entries);
    Report(genres.Total(), trackTotal, |genres.keys|, entries)
  }

  /**
   * The data total of the report on `get_combined_genres`' result is the
   * total weight credited: every returned artist's play count times the
   * length of its genre list, summed.
   */
  lemma DataTotalIsCreditedWeight(api: SpotifyApi, artists: Counter, trackTotal: nat)
    ensures GenreCounts(api, artists).Valid()
    ensures MakeReport(GenreCounts(api, artists), trackTotal).dataTotal
         == TotalWeight(Contributions(Returned(api, Batches(artists.keys)), artists))
         == CountTimesGenres(Returned(api, Batches(artists.keys)), artists)
  {
    TallyTotal(Contributions(Returned(api, Batches(artists.keys)), artists));
    ContributionsTotal(Returned(api, Batches(artists.keys)), artists);
  }

  /** Every artist of `rs`'s play count times the length of its genre list, summed. */
  function CountTimesGenres(rs: seq<Artist>, artists: Counter): int
  {
    if rs == [] then 0
    else CountTimesGenres(rs[..|rs| - 1], artists) + artists.Get(rs[|rs| - 1].id) * |GenresOf(rs[|rs| - 1])|
  }

  /** Crediting `w` to each of `gs` credits `w` times the number of genres. */
  lemma {:induction false} WeightedTotal(gs: seq<Genre>, w: int)
    ensures TotalWeight(Weighted(gs, w)) == w * |gs|
  {
    if gs != [] {
      var init := gs[..|gs| - 1];
      WeightedTotal(init, w);
      var r := Weighted(gs, w);
      assert r[..|r| - 1] == Weighted(init, w);
      MulSucc(w, |init|);
    }
  }

  /** The weight the returned artists `rs` contribute is their count-times-genres sum. */
  lemma {:induction false} ContributionsTotal(rs: seq<Artist>, artists: Counter)
    ensures TotalWeight(Contributions(rs, artists)) == CountTimesGenres(rs, artists)
  {
    if rs != [] {
      var init := rs[..|rs| - 1];
      var last := rs[|rs| - 1];
      ContributionsTotal(init, artists);
      TotalWeightAppend(Contributions(init, artists), Credits(last, artists));
      WeightedTotal(GenresOf(last), artists.Get(last.id));
    }
  }
}
