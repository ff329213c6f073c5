/**
 * `MainCanvas.extract_playlist_id`: turn what the user typed into a playlist
 * id. Two regular expressions are tried with Python's `re.match` (anchored at
 * the start only):
 *
 *   the id pattern   ^(spotify:playlist:)?[A-Za-z0-9]+$   -> the input, unchanged
 *   the URL pattern  ^https://open\.spotify\.com/playlist/(\w+)  -> group 1
 *
 * and anything else raises ValueError naming the input. The recognisers
 * below are written out character by character.
 */
module PlaylistId {
  import opened Common

  const URI_PREFIX: string := "spotify:playlist:"
  const URL_PREFIX: string := "https://open.spotify.com/playlist/"
  const INVALID_MESSAGE: string := "Invalid playlist URL or playlist ID: "

  /** `[A-Za-z0-9]` */
  predicate IsAlnum(c: char)
  {
    'A' <= c <= 'Z' || 'a' <= c <= 'z' || '0' <= c <= '9'
  }

  /** `\w`, narrowed to ASCII letters, digits and underscore. */
  predicate IsWordChar(c: char)
  {
    IsAlnum(c) || c == '_'
  }

  /** `[A-Za-z0-9]+` matching all of `s`. */
  predicate IsAlnumRun(s: string)
  {
    |s| > 0 && forall i :: 0 <= i < |s| ==> IsAlnum(s[i])
  }

  /** `(spotify:playlist:)?[A-Za-z0-9]+` matching all of `s`. */
  predicate IsIdBody(s: string)
  {
    IsAlnumRun(s) || (URI_PREFIX <= s && IsAlnumRun(s[|URI_PREFIX|..]))
  }

  /**
   * `re.match(id_pattern, s)` succeeds. Python's `$` also matches just before
   * a newline that ends the string, so a body followed by one "\n" matches.
   */
  predicate MatchesIdPattern(s: string)
  {
    IsIdBody(s) || (|s| > 0 && s[|s| - 1] == '\n' && IsIdBody(s[..|s| - 1]))
  }

  /** `re.match(playlist_url_pattern, s)` succeeds: the prefix, then at least one word character. */
  predicate MatchesUrlPattern(s: string)
  {
    URL_PREFIX <= s && |s| > |URL_PREFIX| && IsWordChar(s[|URL_PREFIX|])
  }

  /** What the greedy `(\w+)` captures at the start of `s`: its longest prefix of word characters. */
  function WordRun(s: string): (r: string)
    ensures r <= s
    ensures forall i :: 0 <= i < |r| ==> IsWordChar(r[i])
    ensures |r| < |s| ==> !IsWordChar(s[|r|])
  {
    if s == [] || !IsWordChar(s[0]) then [] else [s[0]] + WordRun(s[1..])
  }

  /**
   * `extract_playlist_id(s)`: the id pattern is tried first and returns the
   * input as it is; then the URL pattern returns the maximal run of word
   * characters after the prefix (whatever follows, such as "?si=...", is
   * ignored); otherwise ValueError carrying the input.
   */
  function ExtractPlaylistId(s: string): (r: Result<string, Exception>)
    ensures MatchesIdPattern(s) ==> r == Ok(s)
    ensures !MatchesIdPattern(s) && MatchesUrlPattern(s) ==>
      && r.Ok?
      && |r.value| > 0
      && URL_PREFIX + r.value <= s
      && (forall i :: 0 <= i < |r.value| ==> IsWordChar(r.value[i]))
      && (|URL_PREFIX + r.value| < |s| ==> !IsWordChar(s[|URL_PREFIX + r.value|]))
    ensures r.Err? <==> !MatchesIdPattern(s) && !MatchesUrlPattern(s)
    ensures r.Err? ==> r.error == ValueError(INVALID_MESSAGE + s)
  {
    if MatchesIdPattern(s) then Ok(s)
    else if MatchesUrlPattern(s) then
      var id := WordRun(s[|URL_PREFIX|..]);
      assert s == URL_PREFIX + s[|URL_PREFIX|..];
      Ok(id)
    else Err(ValueError(INVALID_MESSAGE + s))
  }

  /**
   * No input matches both patterns: a URL starts with "https:", which is not
   * an alphanumeric run and does not start with "spotify:". So the order in
   * which the two patterns are tried never changes the answer.
   */
  lemma PatternsAreDisjoint(s: string)
    ensures !(MatchesIdPattern(s) && MatchesUrlPattern(s))
  {
    if MatchesUrlPattern(s) {
      assert s[0] == 'h' && s[5] == ':';
      assert !IsIdBody(s) by {
        assert !IsAlnum(s[5]);
        assert URI_PREFIX[0] == 's';
      }
      var t := s[..|s| - 1];
      assert t[0] == 'h' && t[5] == ':';
      assert !IsIdBody(t) by {
        assert !IsAlnum(t[5]);
        assert URI_PREFIX[0] == 's';
      }
    }
  }

  /** The capture of `(\w+)` over a word run followed by a non-word character is that run. */
  lemma {:induction false} WordRunStopsAtBoundary(id: string, rest: string)
    requires forall i :: 0 <= i < |id| ==> IsWordChar(id[i])
    requires rest == [] || !IsWordChar(rest[0])
    ensures WordRun(id + rest) == id
  {
    if id != [] {
      assert (id + rest)[1..] == id[1..] + rest;
      WordRunStopsAtBoundary(id[1..], rest);
    }
  }

  /**
   * A share link `https://open.spotify.com/playlist/<id><rest>`, where `rest`
   * is empty or starts with a non-word character such as the "?" of
   * "?si=...", yields `<id>`.
   */
  lemma ShareLinkYieldsId(id: string, rest: string)
    requires |id| > 0 && forall i :: 0 <= i < |id| ==> IsWordChar(id[i])
    requires rest == [] || !IsWordChar(rest[0])
    ensures ExtractPlaylistId(URL_PREFIX + id + rest) == Ok(id)
  {
    var s := URL_PREFIX + id + rest;
    assert s[|URL_PREFIX|..] == id + rest;
    assert MatchesUrlPattern(s);
    PatternsAreDisjoint(s);
    WordRunStopsAtBoundary(id, rest);
  }

  /** A bare alphanumeric id, with or without the `spotify:playlist:` prefix, is returned unchanged. */
  lemma BareIdUnchanged(id: string)
    requires IsAlnumRun(id)
    ensures ExtractPlaylistId(id) == Ok(id)
    ensures ExtractPlaylistId(URI_PREFIX + id) == Ok(URI_PREFIX + id)
  {
    assert (URI_PREFIX + id)[|URI_PREFIX|..] == id;
  }

  /**
   * Python's `$` matches before a final newline, so an id followed by "\n" is
   * accepted by the id pattern and returned with the newline still attached.
   */
  lemma TrailingNewlineIsKept(id: string)
    requires IsAlnumRun(id)
    ensures ExtractPlaylistId(id + "\n") == Ok(id + "\n")
  {
    assert (id + "\n")[..|id|] == id;
  }

  /** Text that is neither an id nor a playlist URL raises ValueError naming it. */
  lemma RejectedExample()
    ensures ExtractPlaylistId("not a url") == Err(ValueError(INVALID_MESSAGE + "not a url"))
  {
    var s := "not a url";
    assert !IsAlnum(s[3]);
    assert s[0] != URL_PREFIX[0] && s[0] != URI_PREFIX[0];
    assert s[|s| - 1] != '\n';
  }
}
