/** Recommendation ranking shared by the two analysis handlers: which karaoke tracks become
    candidates, and the five best by similarity.

    The similarity of a track to a user's scores (1 - sqrt(sum of (1 - score)^2) / count over the
    track's flagged notes) is a parameter of the model, `similarity(performance, flagged)`. */
module Ranking {
  import opened Common
  import Notes

  /** A JSON value stored under a note in a track's note data. */
  datatype JsonValue = JInt(i: int) | JReal(r: real) | JBool(b: bool) | JText(s: string) | JNull | JCompound

  /** Python's `value == 1`: the integer 1, the float 1.0 and True compare equal to 1. */
  predicate EqualsOne(v: JsonValue)
  {
    v == JInt(1) || v == JReal(1.0) || v == JBool(true)
  }

  /** A track's note data once it is a dictionary. */
  type NoteFlags = map<string, JsonValue>

  /** The forms a track's `notesBinary` attribute takes: a dictionary, JSON text, a list of
      note names, or another JSON value (null, a number, a boolean). */
  datatype NotesData = NotesDict(flags: NoteFlags) | NotesText(text: string) | NotesList(items: seq<string>) | NotesOther

  /** A karaoke track document; a missing attribute is None. */
  datatype Track = Track(id: Option<string>, songName: Option<string>, artist: Option<string>,
                         genre: Option<string>, notes: Option<NotesData>)

  /** One entry of the recommendation list. */
  datatype Recommendation = Recommendation(id: string, songName: string, artist: string, similarity: real, genre: string)

  /** A candidate with the position of the track it was built from. */
  datatype Ranked = Ranked(source: nat, rec: Recommendation)

  /** The notes flagged 1 in a track's note data. */
  function FlaggedNotes(flags: NoteFlags): set<string>
  {
    set n | n in flags && EqualsOne(flags[n])
  }

  /** The recommendation a track yields, given its normalised note data: none when the note
      data could not be read, when no note is flagged 1, or when an attribute the entry copies
      is missing (each of these raises or `continue`s in the source); otherwise the track's
      attributes with its similarity to the user's scores over the flagged notes. */
  function CandidateFrom(track: Track, flags: Result<NoteFlags, string>, perf: Notes.Performance,
                         similarity: (Notes.Performance, set<string>) -> real): (r: Option<Recommendation>)
    ensures r.Some? <==> (&& flags.Ok? && FlaggedNotes(flags.value) != {}
                          && track.id.Some? && track.songName.Some? && track.artist.Some? && track.genre.Some?)
    ensures r.Some? ==> && r.value.id == track.id.value && r.value.songName == track.songName.value
                        && r.value.artist == track.artist.value && r.value.genre == track.genre.value
                        && r.value.similarity == similarity(perf, FlaggedNotes(flags.value))
  {
    if flags.Err? then None
    else
      var valid := FlaggedNotes(flags.value);
      if valid == {} then None
      else if track.id.None? || track.songName.None? || track.artist.None? || track.genre.None? then None
      else Some(Recommendation(track.id.value, track.songName.value, track.artist.value, similarity(perf, valid), track.genre.value))
  }

  /** The sources are positions of tracks, in increasing order. */
  predicate SourcesIncreasing(s: seq<Ranked>)
  {
    forall i, j :: 0 <= i < j < |s| ==> s[i].source < s[j].source
  }

  predicate DistinctSources(s: seq<Ranked>)
  {
    forall i, j :: 0 <= i < j < |s| ==> s[i].source != s[j].source
  }

  /** The candidates in track order, each tagged with its track's position. */
  function Candidates(tracks: seq<Track>, cand: Track -> Option<Recommendation>): (r: seq<Ranked>)
    ensures SourcesIncreasing(r)
    ensures forall i :: 0 <= i < |r| ==> r[i].source < |tracks| && cand(tracks[r[i].source]) == Some(r[i].rec)
    ensures forall k :: 0 <= k < |tracks| && cand(tracks[k]).Some? ==> exists i :: 0 <= i < |r| && r[i].source == k
    decreases |tracks|
  {
    if tracks == [] then []
    else
      var k := |tracks| - 1;
      var earlier := Candidates(tracks[..k], cand);
      assert tracks == tracks[..k] + [tracks[k]];
      CandidatesExtend(tracks[..k], tracks[k], cand, earlier);
      if cand(tracks[k]).Some? then earlier + [Ranked(k, cand(tracks[k]).value)] else earlier
  }

  /** The candidates of some tracks, followed by the candidate of one more track if it has
      one, are in track order, each built from its track, and miss no track. */
  lemma CandidatesExtend(init: seq<Track>, last: Track, cand: Track -> Option<Recommendation>, earlier: seq<Ranked>)
    requires SourcesIncreasing(earlier)
    requires forall i :: 0 <= i < |earlier| ==> earlier[i].source < |init| && cand(init[earlier[i].source]) == Some(earlier[i].rec)
    requires forall m :: 0 <= m < |init| && cand(init[m]).Some? ==> exists i :: 0 <= i < |earlier| && earlier[i].source == m
    ensures var tracks := init + [last];
            var r := if cand(last).Some? then earlier + [Ranked(|init|, cand(last).value)] else earlier;
            && SourcesIncreasing(r)
            && (forall i :: 0 <= i < |r| ==> r[i].source < |tracks| && cand(tracks[r[i].source]) == Some(r[i].rec))
            && (forall m :: 0 <= m < |tracks| && cand(tracks[m]).Some? ==> exists i :: 0 <= i < |r| && r[i].source == m)
  {
    var tracks := init + [last];
    assert forall m :: 0 <= m < |init| ==> tracks[m] == init[m];
    if cand(last).Some? {
      var r := earlier + [Ranked(|init|, cand(last).value)];
      assert forall i :: 0 <= i < |earlier| ==> r[i] == earlier[i];
      assert r[|r| - 1].source == |init|;
    }
  }

  /** One more track adds its candidate, tagged with its position, after the earlier ones. */
  lemma CandidatesSnoc(tracks: seq<Track>, cand: Track -> Option<Recommendation>, i: nat)
    requires i < |tracks|
    ensures Candidates(tracks[..i + 1], cand) ==
            Candidates(tracks[..i], cand) + (if cand(tracks[i]).Some? then [Ranked(i, cand(tracks[i]).value)] else [])
  {
    assert tracks[..i + 1][..i] == tracks[..i];
    assert tracks[..i + 1][i] == tracks[i];
  }

  /** Each entry's similarity is at least the next one's. */
  predicate NonIncreasing(s: seq<Ranked>)
  {
    forall i, j :: 0 <= i < j < |s| ==> s[i].rec.similarity >= s[j].rec.similarity
  }

  /** Entries of equal similarity keep the order of their tracks (Python's sort is stable,
      also with reverse=True). */
  predicate TiesInSourceOrder(s: seq<Ranked>)
  {
    forall i, j :: 0 <= i < j < |s| && s[i].rec.similarity == s[j].rec.similarity ==> s[i].source < s[j].source
  }

  /** Puts x after every entry at least as similar and before the first less similar one. */
  function InsertDesc(x: Ranked, s: seq<Ranked>): (r: seq<Ranked>)
    requires NonIncreasing(s)
    ensures |r| == |s| + 1 && (r[0] == x || (s != [] && r[0] == s[0]))
    ensures NonIncreasing(r)
    ensures multiset(r) == multiset(s) + multiset{x}
    decreases |s|
  {
    if s == [] then [x]
    else if s[0].rec.similarity < x.rec.similarity then [x] + s
    else
      var t := InsertDesc(x, s[1..]);
      assert s == [s[0]] + s[1..];
      [s[0]] + t
  }

  /** What InsertDesc returns holds x and the entries of s, nothing else. */
  lemma InsertDescMembers(x: Ranked, s: seq<Ranked>)
    requires NonIncreasing(s)
    ensures forall y :: y in InsertDesc(x, s) <==> y == x || y in s
  {
    var r := InsertDesc(x, s);
    forall y ensures y in r <==> y == x || y in s {
      assert y in r <==> y in multiset(r);
      assert y in s <==> y in multiset(s);
    }
  }

  /** sorted(candidates, key=similarity, reverse=True), as an insertion sort that inserts each
      later candidate after the equally similar earlier ones. */
  function SortDesc(s: seq<Ranked>): (r: seq<Ranked>)
    ensures |r| == |s|
    ensures NonIncreasing(r)
    ensures multiset(r) == multiset(s)
    decreases |s|
  {
    if s == [] then []
    else
      assert s == s[..|s| - 1] + [s[|s| - 1]];
      InsertDesc(s[|s| - 1], SortDesc(s[..|s| - 1]))
  }

  /** Putting a in front keeps the sources distinct and ties in track order when a's track
      differs from every other and comes first among the equally similar. */
  lemma ConsKeepsSources(a: Ranked, t: seq<Ranked>)
    requires DistinctSources(t) && TiesInSourceOrder(t)
    requires forall y :: y in t ==> y.source != a.source && (y.rec.similarity == a.rec.similarity ==> a.source < y.source)
    ensures DistinctSources([a] + t) && TiesInSourceOrder([a] + t)
  {
    var r := [a] + t;
    forall i, j | 0 <= i < j < |r|
      ensures r[i].source != r[j].source
      ensures r[i].rec.similarity == r[j].rec.similarity ==> r[i].source < r[j].source
    {
      assert r[j] == t[j - 1];
      if i > 0 {
        assert r[i] == t[i - 1];
      } else {
        assert t[j - 1] in t;
      }
    }
  }

  /** x, more similar than the head of s and from a later track than any entry, goes in front. */
  lemma InsertFrontKeepsSources(x: Ranked, s: seq<Ranked>)
    requires NonIncreasing(s) && DistinctSources(s) && TiesInSourceOrder(s)
    requires forall y :: y in s ==> y.source < x.source
    requires s != [] && s[0].rec.similarity < x.rec.similarity
    ensures DistinctSources([x] + s) && TiesInSourceOrder([x] + s)
  {
    forall y | y in s
      ensures y.source != x.source && (y.rec.similarity == x.rec.similarity ==> x.source < y.source)
    {
      var k :| 0 <= k < |s| && s[k] == y;
      assert s[0].rec.similarity >= y.rec.similarity;
    }
    ConsKeepsSources(x, s);
  }

  /** The head of s stays in front of x inserted into the rest of s. */
  lemma InsertBehindKeepsSources(x: Ranked, s: seq<Ranked>, t: seq<Ranked>)
    requires s != [] && DistinctSources(s) && TiesInSourceOrder(s)
    requires forall y :: y in s ==> y.source < x.source
    requires x.rec.similarity <= s[0].rec.similarity
    requires DistinctSources(t) && TiesInSourceOrder(t)
    requires forall y :: y in t <==> y == x || y in s[1..]
    ensures DistinctSources([s[0]] + t) && TiesInSourceOrder([s[0]] + t)
  {
    var tail := s[1..];
    forall y | y in t
      ensures y.source != s[0].source && (y.rec.similarity == s[0].rec.similarity ==> s[0].source < y.source)
    {
      if y == x {
        assert s[0] in s;
      } else {
        var k :| 0 <= k < |tail| && tail[k] == y;
        assert s[k + 1] == y;
      }
    }
    ConsKeepsSources(s[0], t);
  }

  lemma {:induction false} InsertDescKeepsSources(x: Ranked, s: seq<Ranked>)
    requires NonIncreasing(s) && DistinctSources(s) && TiesInSourceOrder(s)
    requires forall y :: y in s ==> y.source < x.source
    ensures DistinctSources(InsertDesc(x, s)) && TiesInSourceOrder(InsertDesc(x, s))
    decreases |s|
  {
    if s != [] {
      if s[0].rec.similarity < x.rec.similarity {
        InsertFrontKeepsSources(x, s);
      } else {
        var tail := s[1..];
        assert forall i :: 0 <= i < |tail| ==> tail[i] == s[i + 1];
        InsertDescKeepsSources(x, tail);
        InsertDescMembers(x, tail);
        InsertBehindKeepsSources(x, s, InsertDesc(x, tail));
      }
    }
  }

  /** The sort keeps each track once and keeps equally similar candidates in track order. */
  lemma {:induction false} SortDescKeepsSources(s: seq<Ranked>)
    requires SourcesIncreasing(s)
    ensures DistinctSources(SortDesc(s)) && TiesInSourceOrder(SortDesc(s))
    decreases |s|
  {
    if s != [] {
      var init := s[..|s| - 1];
      var x := s[|s| - 1];
      SortDescKeepsSources(init);
      var sorted := SortDesc(init);
      forall y | y in sorted ensures y.source < x.source {
        assert y in multiset(init);
      }
      InsertDescKeepsSources(x, sorted);
    }
  }

  /** The first five of the sorted candidates, or all of them when there are fewer. */
  function TopFive(s: seq<Ranked>): (r: seq<Ranked>)
    ensures |r| == if |s| < 5 then |s| else 5
  {
    var sorted := SortDesc(s);
    sorted[..if |s| < 5 then |s| else 5]
  }

  /** A prefix keeps the order properties of the whole. */
  lemma PrefixKeepsOrder(s: seq<Ranked>, n: nat)
    requires n <= |s|
    requires NonIncreasing(s) && DistinctSources(s) && TiesInSourceOrder(s)
    ensures NonIncreasing(s[..n]) && DistinctSources(s[..n]) && TiesInSourceOrder(s[..n])
  {
    assert forall i :: 0 <= i < n ==> s[..n][i] == s[i];
  }

  /** An entry of a non-increasing sequence that is not in a prefix is no more similar than
      any entry of the prefix. */
  lemma OutsidePrefixNotBetter(s: seq<Ranked>, n: nat, y: Ranked, i: nat)
    requires n <= |s| && NonIncreasing(s)
    requires y in s && y !in s[..n] && i < n
    ensures y.rec.similarity <= s[..n][i].rec.similarity
  {
    assert s == s[..n] + s[n..];
    assert y in s[n..];
    var p :| 0 <= p < |s[n..]| && s[n..][p] == y;
    assert s[n + p] == y;
  }

  /** The top five: at most five, from most to least similar, a selection of the candidates
      (each track at most once, ties in track order), all of them when there are at most five,
      and no candidate left out is more similar than one kept. */
  lemma TopFiveIsBest(s: seq<Ranked>)
    requires SourcesIncreasing(s)
    ensures NonIncreasing(TopFive(s)) && DistinctSources(TopFive(s)) && TiesInSourceOrder(TopFive(s))
    ensures multiset(TopFive(s)) <= multiset(s)
    ensures |s| <= 5 ==> multiset(TopFive(s)) == multiset(s)
    ensures forall y, i :: y in s && y !in TopFive(s) && 0 <= i < |TopFive(s)| ==>
              y.rec.similarity <= TopFive(s)[i].rec.similarity
  {
    var sorted := SortDesc(s);
    var n := if |s| < 5 then |s| else 5;
    assert TopFive(s) == sorted[..n];
    SortDescKeepsSources(s);
    PrefixKeepsOrder(sorted, n);
    assert sorted == sorted[..n] + sorted[n..];
    assert multiset(sorted) == multiset(sorted[..n]) + multiset(sorted[n..]);
    if |s| <= 5 {
      assert sorted[..n] == sorted;
    }
    forall y, i | y in s && y !in sorted[..n] && 0 <= i < n
      ensures y.rec.similarity <= sorted[..n][i].rec.similarity
    {
      assert y in multiset(sorted);
      OutsidePrefixNotBetter(sorted, n, y, i);
    }
  }

  /** The ranked candidates both handlers keep. */
  function TopRanked(tracks: seq<Track>, cand: Track -> Option<Recommendation>): seq<Ranked>
  {
    TopFive(Candidates(tracks, cand))
  }

  /** The kept list: at most five entries, in non-increasing similarity, each the
      recommendation of the track it names, no track twice, equal similarities in track order. */
  lemma TopRankedFromTracks(tracks: seq<Track>, cand: Track -> Option<Recommendation>)
    ensures |TopRanked(tracks, cand)| <= 5
    ensures var r := TopRanked(tracks, cand);
            NonIncreasing(r) && DistinctSources(r) && TiesInSourceOrder(r)
    ensures var r := TopRanked(tracks, cand);
            forall i :: 0 <= i < |r| ==> r[i].source < |tracks| && cand(tracks[r[i].source]) == Some(r[i].rec)
  {
    var c := Candidates(tracks, cand);
    var r := TopFive(c);
    TopFiveIsBest(c);
    forall i | 0 <= i < |r| ensures r[i].source < |tracks| && cand(tracks[r[i].source]) == Some(r[i].rec) {
      assert r[i] in multiset(c);
      var m :| 0 <= m < |c| && c[m] == r[i];
    }
  }

  /** A track that yields a recommendation but is not kept: the list is full and the track is
      no more similar than any kept entry. */
  lemma TopRankedLeftOut(tracks: seq<Track>, cand: Track -> Option<Recommendation>, k: nat)
    requires k < |tracks| && cand(tracks[k]).Some?
    requires forall i :: 0 <= i < |TopRanked(tracks, cand)| ==> TopRanked(tracks, cand)[i].source != k
    ensures |TopRanked(tracks, cand)| == 5
    ensures forall i :: 0 <= i < |TopRanked(tracks, cand)| ==>
              cand(tracks[k]).value.similarity <= TopRanked(tracks, cand)[i].rec.similarity
  {
    var c := Candidates(tracks, cand);
    var r := TopFive(c);
    TopFiveIsBest(c);
    var m :| 0 <= m < |c| && c[m].source == k;
    var y := c[m];
    assert y in c;
    assert r == TopRanked(tracks, cand);
    forall i | 0 <= i < |r| ensures r[i] != y {
      assert r[i].source != k;
    }
    assert y !in multiset(r);
    assert y in multiset(c);
  }

  function Recs(s: seq<Ranked>): (r: seq<Recommendation>)
    ensures |r| == |s| && forall i :: 0 <= i < |s| ==> r[i] == s[i].rec
  {
    seq(|s|, i requires 0 <= i < |s| => s[i].rec)
  }
}
