/**
  The part of the `play` command of rezz/bot.py that decides what to do with a
  query: plain text becomes a YouTube search, and the node's load result is
  sorted into one of the outcomes the command acts on.
*/
module Search {
  import opened Maybe
  import opened Session

  predicate HasPrefix(s: string, prefix: string) {
    |prefix| <= |s| && s[..|prefix|] == prefix
  }

  /** `.+` matched at the start of `s`: at least one character other than a newline. */
  predicate SomeChars(s: string) {
    |s| >= 1 && s[0] != '\n'
  }

  /** `(?:www\.)?.+` matched at the start of `s`. */
  predicate UrlRest(s: string) {
    (HasPrefix(s, "www.") && SomeChars(s[4..])) || SomeChars(s)
  }

  /** The optional `www.` group never decides a match: `.+` alone accepts whatever it would. */
  lemma WwwOptional(s: string)
    ensures UrlRest(s) <==> SomeChars(s)
  {
    if HasPrefix(s, "www.") {
      assert s[0] == s[..4][0] == 'w';
    }
  }

  /**
    `url_rx.match(q)` for `url_rx = https?://(?:www\.)?.+`, anchored at the start
    only: a link is a scheme followed by at least one character that is not a
    newline.
  */
  predicate IsUrl(q: string)
    ensures IsUrl(q) ==> HasPrefix(q, "http://") || HasPrefix(q, "https://")
    ensures IsUrl(q) <==>
      || (HasPrefix(q, "http://") && SomeChars(q[7..]))
      || (HasPrefix(q, "https://") && SomeChars(q[8..]))
  {
    (if |q| >= 7 then WwwOptional(q[7..]); true else true) &&
    (if |q| >= 8 then WwwOptional(q[8..]); true else true) &&
    (|| (HasPrefix(q, "http://") && UrlRest(q[7..]))
     || (HasPrefix(q, "https://") && UrlRest(q[8..])))
  }

  const SearchPrefix: string := "ytsearch:"

  /** A query that is not a link is turned into a YouTube search; a link is left as it is. */
  function NormaliseQuery(q: string): (r: string)
    ensures IsUrl(r) <==> IsUrl(q)
    ensures HasPrefix(r, SearchPrefix) <==> !IsUrl(q)
    ensures |q| <= |r| && r[|r| - |q|..] == q
  {
    if !IsUrl(q) then
      var r := SearchPrefix + q;
      assert r[..|SearchPrefix|] == SearchPrefix;
      assert r[|r| - |q|..] == q;
      UrlIsNotSearch(r);
      r
    else
      UrlIsNotSearch(q);
      q
  }

  /** A link never starts like a search query. */
  lemma UrlIsNotSearch(s: string)
    ensures !(IsUrl(s) && HasPrefix(s, SearchPrefix))
  {
    if IsUrl(s) {
      UrlStartsWithScheme(s);
      assert s[0] == s[..4][0] == 'h';
      if |SearchPrefix| <= |s| {
        assert s[..|SearchPrefix|][0] == 'h' != SearchPrefix[0];
      }
    }
  }

  lemma UrlStartsWithScheme(q: string)
    requires IsUrl(q)
    ensures |q| > 7 && q[..4] == "http"
  {
    if HasPrefix(q, "http://") {
      assert q[..4] == q[..7][..4];
    } else {
      assert q[..4] == q[..8][..4];
    }
  }

  /** The query the user typed, recovered from the one sent to the node. */
  function UserQuery(r: string): string {
    if HasPrefix(r, SearchPrefix) then r[|SearchPrefix|..] else r
  }

  /** Normalisation loses nothing: the typed query is recovered from the normalised one. */
  lemma NormaliseRoundTrip(q: string)
    ensures UserQuery(NormaliseQuery(q)) == q
  {
    if IsUrl(q) {
      assert q[0] == 'h';
    } else {
      assert (SearchPrefix + q)[|SearchPrefix|..] == q;
    }
  }

  /** Distinct queries are sent to the node as distinct queries. */
  lemma NormaliseInjective(a: string, b: string)
    requires NormaliseQuery(a) == NormaliseQuery(b)
    ensures a == b
  {
    NormaliseRoundTrip(a);
    NormaliseRoundTrip(b);
  }

  /** What the node answers for a query: `results.load_type`, `results.tracks`, the playlist's name. */
  datatype LoadResult = LoadResult(loadType: string, tracks: seq<Track>, playlistName: string)

  /** Which branch of `play` a load result takes. */
  datatype Selection =
    | NothingFound
    | EnqueueAll(tracks: seq<Track>, playlistName: string)
    | Offer(choices: seq<Track>)
    | EnqueueOne(track: Track)
    | NoMatches
    | LoadFailed
    | UnknownLoadType

  /** At most this many search results are offered as buttons. */
  const MaxChoices: nat := 5

  /**
    A missing result or one without tracks is reported before the load type is
    looked at; then a playlist is enqueued whole, a search offers its first five
    tracks, a single track is enqueued alone, and the remaining load types
    produce their messages.
  */
  function Select(results: Option<LoadResult>): (s: Selection)
    ensures s == NothingFound <==> results.None? || results.value.tracks == []
    ensures s != NothingFound ==> |results.value.tracks| >= 1
    ensures s.EnqueueAll? <==> s != NothingFound && results.value.loadType == "PLAYLIST_LOADED"
    ensures s.EnqueueAll? ==> s.tracks == results.value.tracks && s.playlistName == results.value.playlistName
    ensures s.Offer? <==> s != NothingFound && results.value.loadType == "SEARCH_RESULT"
    ensures s.Offer? ==>
      && 1 <= |s.choices| <= MaxChoices
      && |s.choices| == (if |results.value.tracks| < MaxChoices then |results.value.tracks| else MaxChoices)
      && forall i :: 0 <= i < |s.choices| ==> s.choices[i] == results.value.tracks[i]
    ensures s.EnqueueOne? <==> s != NothingFound && results.value.loadType == "TRACK_LOADED"
    ensures s.EnqueueOne? ==> s.track == results.value.tracks[0]
    ensures s == NoMatches <==> s != NothingFound && results.value.loadType == "NO_MATCHES"
    ensures s == LoadFailed <==> s != NothingFound && results.value.loadType == "LOAD_FAILED"
  {
    if results.None? || results.value.tracks == [] then NothingFound
    else
      var r := results.value;
      match r.loadType
      case "PLAYLIST_LOADED" => EnqueueAll(r.tracks, r.playlistName)
      case "SEARCH_RESULT" => Offer(if |r.tracks| <= MaxChoices then r.tracks else r.tracks[..MaxChoices])
      case "TRACK_LOADED" => EnqueueOne(r.tracks[0])
      case "NO_MATCHES" => NoMatches
      case "LOAD_FAILED" => LoadFailed
      case _ => UnknownLoadType
  }

  /** Seven search results are cut down to five choices. */
  lemma SevenResultsOfferFive(tracks: seq<Track>)
    requires |tracks| == 7
    ensures Select(Some(LoadResult("SEARCH_RESULT", tracks, ""))) == Offer(tracks[..5])
  {
  }
}
