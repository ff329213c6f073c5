# Spotify playlist genre statistics: verified model of the core

This project models in Dafny the logic of a small desktop app that reports the
genres of a Spotify playlist. It covers two files.

`src/playlist_info.py` turns what the user typed into a playlist id. It then
counts how often each artist appears in the playlist, paging through the
listing 100 tracks at a time. Next it looks the artists up in batches of 50
and credits every genre of an artist with that artist's count. Finally it
builds the report: the data total, the number of genres, and the genres
sorted by count.

`src/file_handler.py` keeps two encrypted caches on disk:
- the Spotify client id and secret, with every value encrypted;
- the OAuth token, where the values it selects are encrypted, `expires_in` is
  renamed to `expires_at`, and a write is skipped while the file is less than
  100 seconds old.

Modules:

- `Common` (`common.dfy`): `Option`, `Result`, the Python exceptions the code
  raises, and `Flatten`.
- `Counters` (`counters.dfy`): `collections.Counter` as the code uses it. Keys
  keep insertion order, a missing key reads 0, and `c[k] += w` inserts `k`.
  `Tally(s)` is the counter built by `c[k] += w` over the entries `s`.
  `TallyMeaning` says what that counter is without the loop: keys in order of
  first occurrence, each reading the sum of its weights.
- `PlaylistId` (`playlist_id.dfy`): `extract_playlist_id`, with both regular
  expressions written out character by character.
- `PlaylistInfo` (`playlist_info.dfy`): the Spotify client is a value with
  two functions, `playlistTracks(id, offset, limit)` and `artists(ids)`.
  - `get_artist_counts`, `get_genre_counts` and `get_combined_genres` are
    methods with the source's loops. Each is proved equal to a specification
    function (`ArtistCounts`, `GenreCounts`).
  - Lemmas then say what those functions mean: multiplicities, weighted sums,
    a partition into batches, the number of pages.
  - The report of `retrieve_playlist_data` is `MakeReport`.
- `FileHandler` (`file_handler.dfy`):
  - The disk and the clock are a `FileSystem` object: a map from path to file
    and an integer time. A file holds either a parsed JSON object or content
    that does not parse, plus its modification time.
  - The Fernet key is a `Cipher` value. The two facts about Fernet that the
    code relies on are the predicates `Inverts` and `TokensAreNotFieldNames`,
    and they are hypotheses of the lemmas that use them.
  - `CredentialsFileHandler` and `CustomCacheFileHandler` are classes whose
    methods modify the file system and the handler's `credentials` field.

The token cache selects what to encrypt by VALUE (`v in ATTRS_TO_ENCRYPT`),
as the code does. The lemmas under "Selection by value" show the effect:
- the real access and refresh tokens are written in clear;
- a value spelled like a field name is turned into ciphertext and does not
  come back on reload.

The by-key selection the comment on `ATTRS_TO_ENCRYPT` (src/file_handler.py:87) describes is defined beside it, with
its round trip proved (see Findings). `CustomCacheFileHandler` itself keeps
the behaviour as written.

## Model

| member | source | states |
|---|---|---|
| PlaylistId.WordRun | src/playlist_info.py:170 | the greedy `(\w+)` capture: a prefix of the text made of word characters, followed by a non-word character or the end |
| PlaylistId.ExtractPlaylistId | src/playlist_info.py:160-182 | with the two `re.match` tests as `MatchesIdPattern` and `MatchesUrlPattern`: input matching the id pattern is returned unchanged; otherwise a URL match returns the maximal word run after the prefix; the error is raised exactly when neither matches, and it is a ValueError carrying the input |
| PlaylistId.PatternsAreDisjoint | src/playlist_info.py:174-180 | no input matches both patterns, so the order of the two tests never matters |
| PlaylistId.ShareLinkYieldsId | src/playlist_info.py:178-180 | a share link `https://open.spotify.com/playlist/<id><rest>`, where `rest` starts with a non-word character such as `?si=`, yields `<id>` |
| PlaylistId.BareIdUnchanged | src/playlist_info.py:172-176 | a bare alphanumeric id, with or without `spotify:playlist:`, is returned as it is |
| PlaylistId.TrailingNewlineIsKept | src/playlist_info.py:172-176 | because `$` also matches before a final newline, an id followed by "\n" is accepted and returned with the newline |
| PlaylistId.RejectedExample | src/playlist_info.py:182 | text that is neither an id nor a URL raises ValueError with the message and the input |
| Counters.TallyValid | src/playlist_info.py:132 | a counter built by `c[k] += w` holds each key once, and its keys are exactly the keys with a count |
| Counters.TallyMeaning | src/playlist_info.py:132 | the built counter's keys (`Counter.keys`) are the distinct keys in order of first occurrence, and every key read `c[k]` (`Counter.Get`) is the sum of its weights (0 if absent) |
| Counters.AddKeepsValid | src/playlist_info.py:132 | `c[k] += w` (`Counter.Add`) keeps the counter well formed, appends `k` only if it is new, and changes the count of `k` alone, by `w` |
| Counters.CountOnes | src/playlist_info.py:132 | adding 1 per occurrence gives each key its multiplicity |
| Counters.AddTotal | src/playlist_info.py:103 | `c[k] += w` raises `sum(c.values())` (`Counter.Total`) by `w` |
| Counters.TallyTotal | src/playlist_info.py:103 | `sum(c.values())` of a built counter is the sum of all weights added |
| PlaylistInfo.Fetched | src/playlist_info.py:127-135 | the first `n` pages are the answers to requests at offsets 0, 100, ..., with limit 100 |
| PlaylistInfo.GetArtistCounts | src/playlist_info.py:122-137 | the loop stops at the first page without `next` (every earlier page has it), and the counter is `ArtistCounts` of the pages fetched |
| PlaylistInfo.CountItems | src/playlist_info.py:129-132 | counting the items of one page extends the counter exactly by their artist entries |
| PlaylistInfo.CountArtists | src/playlist_info.py:130-132 | counting one track's artists extends the counter by those artists, in order |
| PlaylistInfo.FetchedOneMore | src/playlist_info.py:128-132 | the entries of `k + 1` pages are those of `k` pages followed by those of page `k` |
| PlaylistInfo.ArtistCountIsOccurrences | src/playlist_info.py:122-137 | each artist's count is its number of (track, artist) entries over the fetched pages; an artist is a key iff it occurs; keys are in order of first appearance |
| PlaylistInfo.FetchedSlices | src/playlist_info.py:128 | against a service that serves consecutive slices, the first `k` pages hold the first `100 k` tracks |
| PlaylistInfo.PagingCoversPlaylist | src/playlist_info.py:124-135 | against such a service the loop terminates after exactly ceil(n / 100) requests (one for an empty playlist), and it counts every track of the playlist exactly once |
| PlaylistInfo.Weighted | src/playlist_info.py:151-152 | one `(genre, weight)` entry per listed genre, in order |
| PlaylistInfo.GetGenreCounts | src/playlist_info.py:139-154 | the genre counter equals `GenreCounts`: every returned artist credits each of its genres with that artist's count, batch by batch |
| PlaylistInfo.BatchesOneMore | src/playlist_info.py:144-145 | the batches taken so far, plus the slice `ids[i:i+50]`, plus those still to come, are all the batches |
| PlaylistInfo.ReturnedOneMore | src/playlist_info.py:146-147 | the artists returned after one more batch are those before it followed by that batch's answer |
| PlaylistInfo.CreditArtists | src/playlist_info.py:149-152 | crediting a response extends the counter by the credits of each artist, in order |
| PlaylistInfo.ContributionsOneMore | src/playlist_info.py:149-152 | the credits of one more artist are appended after those already given |
| PlaylistInfo.CreditGenres | src/playlist_info.py:151-152 | crediting one artist adds its count to each of its genres, in order |
| PlaylistInfo.CreditOneMore | src/playlist_info.py:151-152 | crediting one more genre is one `genres[g] += w` |
| PlaylistInfo.BatchesFromConcatenate | src/playlist_info.py:144-145 | the batches from position `start` concatenate back to the ids from `start` |
| PlaylistInfo.BatchesFromShape | src/playlist_info.py:144-145 | there are ceil((n - start) / 50) batches from `start`, each of 1 to 50 ids |
| PlaylistInfo.BatchesPartitionKeys | src/playlist_info.py:141-146 | the batches partition the artist keys in order: their concatenation is the key list, there are ceil(n / 50) of them, and each holds 1 to 50 ids |
| PlaylistInfo.WeightOfWeighted | src/playlist_info.py:151-152 | one artist gives genre `g` its count times the number of times `g` is listed |
| PlaylistInfo.ContributionWeights | src/playlist_info.py:149-152 | the total credit of a genre over a response is the weighted sum over its artists |
| PlaylistInfo.ContributionKeys | src/playlist_info.py:149-152 | the genres credited are the listed genres of the artists, in order |
| PlaylistInfo.GenreCountIsWeightedSum | src/playlist_info.py:139-154 | each genre reads the sum, over returned artists, of artist count times listings of the genre; keys are the listed genres in order of first appearance |
| PlaylistInfo.LookUp | src/playlist_info.py:146 | a per-artist lookup answers one artist per id, in order |
| PlaylistInfo.ReturnedLooksUpFlattened | src/playlist_info.py:144-147 | when the service answers each id on its own, the batched answers are the lookup of all the batched ids |
| PlaylistInfo.BatchedLookupIsPerKey | src/playlist_info.py:141-147 | batching is invisible: the returned artists are one per artist key, in key order |
| PlaylistInfo.GetCombinedGenres | src/playlist_info.py:115-120 | the genre counts are those of the artist counts of the playlist, and the track total is the `total` of the first listing page |
| PlaylistInfo.StrLessTrichotomy | src/playlist_info.py:105 | Python's string order is total and asymmetric |
| PlaylistInfo.StrLessTransitive | src/playlist_info.py:105 | Python's string order is transitive |
| PlaylistInfo.OutranksIsStrictWeakOrder | src/playlist_info.py:105 | the sort key `(count, genre)` in reverse is asymmetric and transitive in the strict-weak sense |
| PlaylistInfo.Insert | src/playlist_info.py:105 | inserting an item adds exactly that item |
| PlaylistInfo.InsertKeepsDescending | src/playlist_info.py:105 | inserting into a descending list keeps it descending |
| PlaylistInfo.SortDescending | src/playlist_info.py:105 | the sorted items are a permutation of the input, ordered by count descending and then genre descending |
| PlaylistInfo.Items | src/playlist_info.py:105 | `playlist_data.items()` has one entry per key |
| PlaylistInfo.ItemsAreEntries | src/playlist_info.py:105 | a pair is an item iff its genre is a key holding that count |
| PlaylistInfo.MakeReport | src/playlist_info.py:103-105 | data total = `sum(values)`, track total as given, genre total = number of keys; the sorted entries are exactly the counter's items, in descending order |
| PlaylistInfo.DataTotalIsCreditedWeight | src/playlist_info.py:103 | the report's data total equals the total weight credited to genres, which equals the sum over returned artists of the artist's count times the length of its genre list |
| PlaylistInfo.WeightedTotal | src/playlist_info.py:151-152 | crediting one artist's count to each of its genres credits that count times the number of genres |
| PlaylistInfo.ContributionsTotal | src/playlist_info.py:144-152 | the weight all returned artists credit is the sum of each artist's count times the length of its genre list |
| Counters.TotalWeightAppend | src/playlist_info.py:152 | total credited weight adds up over consecutive runs of `+=` updates |
| FileHandler.FileSystem.Dump | src/file_handler.py:74-75 | writing a JSON object replaces that one file, stamped with the current time; nothing else changes |
| FileHandler.EncryptCredentials | src/file_handler.py:73 | the same keys, each value replaced by its encryption |
| FileHandler.LoadCredentials | src/file_handler.py:54-67 | None for a missing or unparseable file; UnboundLocalError exactly when the file holds an object with a value that is not a string or is refused; an object whose every value decrypts always yields Some, with the same keys and each value decrypted |
| FileHandler.DecryptCredentials | src/file_handler.py:64 | every value is decrypted under the same key, or the comprehension fails when a value is not a string or is refused |
| FileHandler.SaveThenLoadCredentials | src/file_handler.py:54-75 | reading back what `save_credentials_to_file` wrote gives exactly the saved credentials |
| FileHandler.ChooseCredentials | src/file_handler.py:70-71 | a falsy argument (None or `{}`) falls back to the handler's credentials |
| FileHandler.Field | src/file_handler.py:44-52 | a property read: None for no or empty credentials; the field's value if present; KeyError otherwise |
| FileHandler.CredentialsFileHandler.constructor | src/file_handler.py:32-38 | the handler starts with the given key and file system and no credentials |
| FileHandler.CredentialsFileHandler.Create | src/file_handler.py:32-38 | construction retrieves the credentials; an exception from the retrieval escapes and no handler is made |
| FileHandler.CredentialsFileHandler.ClientId | src/file_handler.py:44-47 | None when the credentials are missing or empty; `credentials['client_id']` otherwise, and KeyError when that key is absent |
| FileHandler.CredentialsFileHandler.ClientSecret | src/file_handler.py:49-52 | the same for `client_secret` |
| FileHandler.CredentialsFileHandler.HasCredentials | src/file_handler.py:40-42 | truthy iff both fields are present and non-empty; raises KeyError iff the credentials are non-empty and a field it reaches is missing |
| FileHandler.CredentialsFileHandler.RetrieveCredentials | src/file_handler.py:54-67 | None for a missing or unparseable file; an object whose every value decrypts yields Some of the decrypted object with the same keys; success stores the result, and a value that cannot be decrypted escapes as UnboundLocalError with the field unchanged |
| FileHandler.CredentialsFileHandler.SaveCredentialsToFile | src/file_handler.py:69-75 | with nothing to save, AttributeError and the disk is unchanged; otherwise the file holds the chosen credentials, each value encrypted |
| FileHandler.SubmitCredentials | src/authorisation.py:178-188 | saving and then retrieving the typed id and secret leaves exactly them in the handler, and `has_credentials` is truthy iff both are non-empty |
| FileHandler.IsFresh | src/file_handler.py:97-105 | a missing file is never fresh; a file stamped now is fresh; one stamped 100 or more units ago is not |
| FileHandler.FreshForOneInterval | src/file_handler.py:97-105 | a file just written is fresh for exactly 100 time units; a missing file is never fresh |
| FileHandler.RenameExpiry | src/file_handler.py:115 | `expires_in` is removed and its value moved unconverted to `expires_at`, overwriting it; other keys are kept |
| FileHandler.CustomCacheFileHandler.constructor | src/file_handler.py:92-95 | the handler uses `../cache/token_cache.json` and the given key |
| FileHandler.CustomCacheFileHandler.IsCacheFresh | src/file_handler.py:97-105 | true iff the cache file exists and changed less than 100 time units ago |
| FileHandler.CustomCacheFileHandler.SaveTokenToCache | src/file_handler.py:107-118 | a fresh cache leaves the disk untouched; a token without `expires_in` raises KeyError before writing; otherwise the file holds the token with selected values encrypted and the expiry renamed |
| FileHandler.CustomCacheFileHandler.GetCachedToken | src/file_handler.py:121-130 | None iff the file is absent; JSONDecodeError iff it does not parse; InvalidToken iff a selected value is refused; an object whose selected values all decrypt yields exactly that decrypted object |
| FileHandler.SaveTwice | src/file_handler.py:109 | the clock advances by exactly the pause; a second save less than 100 time units after one that wrote changes nothing |
| FileHandler.EncryptSelected | src/file_handler.py:112 | the save comprehension keeps the keys; only values equal to `access_token` or `refresh_token` are encrypted, and every other value is kept |
| FileHandler.DecryptSelected | src/file_handler.py:127 | the load comprehension keeps the keys, decrypts exactly the values equal to a field name and keeps the rest; InvalidToken iff one of those is refused |
| FileHandler.StoredToken | src/file_handler.py:112-115 | the object written: `expires_in` replaced by `expires_at` holding its (possibly encrypted) value, selected values encrypted, every other value kept |
| FileHandler.LoadToken | src/file_handler.py:121-130 | None iff the file is absent; JSONDecodeError iff it does not parse; InvalidToken iff a selected value is refused; no other error; an object whose selected values all decrypt yields exactly that decrypted object |
| FileHandler.AccessTokenStoredInClear | src/file_handler.py:112 | a real access token is written to disk unencrypted |
| FileHandler.StoredValuesAreNotSelected | src/file_handler.py:112 | no value of a stored token, `expires_at` included, is selected again, so the loader decrypts nothing |
| FileHandler.CacheRoundTripAsWritten | src/file_handler.py:107-130 | loading after saving returns the stored object itself; it equals the saved token after the rename iff no value other than an old, overwritten `expires_at` is spelled like a field name (`expires_in` included) |
| FileHandler.FieldNameValueDoesNotRoundTrip | src/file_handler.py:127 | a token whose refresh token is the text `refresh_token` does not come back as saved |
| FileHandler.EncryptSecrets | src/file_handler.py:87-88 | by-key selection: string values under `access_token` and `refresh_token` are encrypted, and everything else is kept |
| FileHandler.SecretsRoundTrip | src/file_handler.py:87-88 | with by-key selection, loading what was saved gives back the token after the rename, for every token |

## Left out

- The Tkinter user interface, `main.py`, the browser, `build_auth_url`,
  `create_auth_manager`, `generate_tokens` and every HTTP request: these are
  I/O. The Spotify client is a parameter with two functions.
- `util.py` (`get_fernet_key`) is not part of this model. The key is a
  `Cipher` value taken once per handler, so the second `get_fernet_key()` call
  in `retrieve_credentials` (file_handler.py:56) is assumed to return the same
  key.
- Fernet itself: encryption is a deterministic function. Fernet's random IV
  and timestamp, and its token format, are not modelled. Only the two facts
  `Inverts` and `TokensAreNotFieldNames` are used, as hypotheses.
- JSON text and serialisation: a file holds the parsed object or
  `Unparseable`. A file whose JSON is valid but not an object (whose
  `.items()` would raise) is not modelled. Nor are values other than strings
  and integers, or other OS errors than a missing file.
- Real time: the clock and the modification time are integers, not floats.
- Dict iteration order in the file handler: objects are maps.
- `get_track_total` is one read of the first listing page's `total`. It
  appears inside `GetCombinedGenres` and has no member of its own.
- `str.title()`, the f-string text and the text widget of
  `retrieve_playlist_data`. Its `get_cached_token` gate is the handler
  method, so only the figures of the report are modelled.
- The singletons `CREDENTIALS_FILE_HANDLER` and `CACHE_FILE_HANDLER`, and
  spotipy's `CacheFileHandler` internals other than the path.
- PlaylistId.IsWordChar: `\w` is narrowed to ASCII letters, digits and
  underscore. Python also accepts other Unicode letters and digits.
- PlaylistInfo.GetArtistCounts: requires that the service eventually answers
  a page without `next` (`Terminates`). Without it the source loops forever.
  `PagingCoversPlaylist` shows a slice-serving service meets this.
- PlaylistInfo.GetArtistCounts: the track and artist records are reduced to
  the artist ids. Missing dictionary keys (`KeyError`) in Spotify's answers
  are not modelled.
- PlaylistInfo.GetGenreCounts: an artist record always has an `id`, and
  `genres` is optional (`artist.get('genres', [])`).

## Findings

| source | as written | input that shows it | evidently intended | confidence | as-written member | corrected member |
|---|---|---|---|---|---|---|
| src/file_handler.py:112 | the comprehension encrypts `v` when the VALUE `v` is one of `('access_token', 'refresh_token')`, and line 127 decrypts by the same test | `{"access_token": "BQDx...", "refresh_token": "AQCy...", "expires_in": 3600}`: both tokens are written in clear; a value that is literally `refresh_token` is stored as ciphertext and read back still encrypted | select by KEY (`k in ATTRS_TO_ENCRYPT`), as the comment on line 87 says, so that the two tokens are stored encrypted and decrypted on load | high (not executed) | FileHandler.AccessTokenStoredInClear | FileHandler.SecretsRoundTrip |
