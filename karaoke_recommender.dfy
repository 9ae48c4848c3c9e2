/** The cloud analysis handler (karaoke-recommender/main.py): every helper is a loop that
    updates a dictionary or a list: the note table, the nearest-note scan, a recording's
    running per-note scores, the scores combined across recordings, and the recommendation
    list. Its main reads the request, marks the tracking document as processing, scores the
    recordings, ranks the karaoke tracks and saves the result; on an exception it marks the
    tracking document as failed.

    The database, the storage download with conversion and pitch detection, json.loads of a
    track's note data and the similarity computation are parameters, as in LocalRunner. */
module KaraokeRecommender {
  import opened Common
  import Appwrite
  import Notes
  import Ranking

  /** Python's `d[key] = value` on a dictionary kept in insertion order: the entry of an
      existing key changes in place, a new key is appended. */
  function DictAssign(t: Notes.NoteTable, key: string, value: real): (r: Notes.NoteTable)
    ensures (forall i :: 0 <= i < |t| ==> t[i].0 != key) ==> r == t + [(key, value)]
    ensures |r| == |t| || |r| == |t| + 1
    decreases |t|
  {
    if t == [] then [(key, value)]
    else if t[0].0 == key then [(key, value)] + t[1..]
    else [t[0]] + DictAssign(t[1..], key, value)
  }

  /** The name the loop assigns next is semitone octave * 12 + i's, and no entry before it
      has that name, so the assignment appends that semitone's entry. */
  lemma NextNoteIsNew(t: Notes.NoteTable, octave: nat, i: nat, freqOf: nat -> real)
    requires octave < 9 && i < 12 && |t| == octave * 12 + i
    requires forall n :: 0 <= n < |t| ==> t[n] == (Notes.NoteName(n), freqOf(n))
    ensures var next := DictAssign(t, Notes.NoteNames[i] + [DigitChar(octave)], freqOf(i + octave * 12));
            && |next| == |t| + 1
            && forall n :: 0 <= n < |next| ==> next[n] == (Notes.NoteName(n), freqOf(n))
  {
    var n := i + octave * 12;
    assert n % 12 == i && n / 12 == octave;
    assert Notes.NoteNames[i] + [DigitChar(octave)] == Notes.NoteName(n);
    forall m | 0 <= m < |t| ensures t[m].0 != Notes.NoteName(n) {
      Notes.NoteNamesDistinct(m, n);
    }
  }

  /** generate_note_frequencies: for octave 0 to 8 and each of the twelve names, assigns the
      name with its octave digit the frequency of that semitone; `freqOf(n)` is
      round(16.35 * 2 ** (n / 12), 2). */
  method GenerateNoteFrequencies(freqOf: nat -> real) returns (t: Notes.NoteTable)
    ensures t == Notes.NoteFrequencyTable(freqOf)
  {
    t := [];
    var octave := 0;
    while octave < 9
      invariant 0 <= octave <= 9
      invariant |t| == octave * 12
      invariant forall n :: 0 <= n < |t| ==> t[n] == (Notes.NoteName(n), freqOf(n))
    {
      var i := 0;
      while i < 12
        invariant 0 <= i <= 12
        invariant |t| == octave * 12 + i
        invariant forall n :: 0 <= n < |t| ==> t[n] == (Notes.NoteName(n), freqOf(n))
      {
        var n := i + octave * 12;
        var noteName := Notes.NoteNames[i] + [DigitChar(octave)];
        NextNoteIsNew(t, octave, i, freqOf);
        t := DictAssign(t, noteName, freqOf(n));
        i := i + 1;
      }
      octave := octave + 1;
    }
  }

  /** frequency_to_note: None for a frequency that is not positive; otherwise a scan that
      keeps the first entry of smallest distance (the minimum starts at infinity and is only
      replaced on a strictly smaller distance). */
  method FrequencyToNote(table: Notes.NoteTable, freq: real) returns (note: Option<string>)
    ensures freq <= 0.0 || table == [] ==> note.None?
    ensures freq > 0.0 && table != [] ==> note == Some(table[Notes.ClosestIndex(table, freq)].0)
  {
    if freq <= 0.0 {
      return None;
    }
    var minDiff: Option<real> := None;
    note := None;
    ghost var k: nat := 0;
    var i := 0;
    while i < |table|
      invariant 0 <= i <= |table|
      invariant i == 0 ==> minDiff.None? && note.None?
      invariant i > 0 ==> && k == Notes.ClosestIndex(table[..i], freq)
                          && minDiff == Some(Notes.Dist(table[k].1, freq))
                          && note == Some(table[k].0)
    {
      assert table[..i + 1][..i] == table[..i];
      var diff := Notes.Dist(table[i].1, freq);
      if minDiff.None? || diff < minDiff.value {
        minDiff := Some(diff);
        note := Some(table[i].0);
        k := i;
      }
      i := i + 1;
    }
    assert table[..i] == table;
  }

  /** The frequency a dictionary lookup NOTE_FREQUENCIES[name] gives: that of the entry with
      the name. */
  function Lookup(table: Notes.NoteTable, name: string): Option<real>
  {
    if table == [] then None else if table[0].0 == name then Some(table[0].1) else Lookup(table[1..], name)
  }

  lemma {:induction false} LookupDistinct(table: Notes.NoteTable, k: nat)
    requires Notes.DistinctKeys(table) && k < |table|
    ensures Lookup(table, table[k].0) == Some(table[k].1)
    decreases |table|
  {
    if k > 0 {
      assert table[0].0 != table[k].0;
      var rest := table[1..];
      assert Notes.DistinctKeys(rest) by {
        forall i, j | 0 <= i < j < |rest| ensures rest[i].0 != rest[j].0 {
          assert rest[i] == table[i + 1] && rest[j] == table[j + 1];
        }
      }
      LookupDistinct(rest, k - 1);
    }
  }

  /** The body of calculate_performance's loop for one confident sample: the note it maps to,
      if its name is truthy, with the accuracy against that note's frequency. */
  method ScoreSample(table: Notes.NoteTable, s: Notes.Sample, accuracy: (real, real) -> real)
    returns (scored: Option<(string, real)>)
    requires Notes.DistinctKeys(table) && s.confidence > 0.5
    ensures scored.None? <==> Notes.SampleEntry(table, s).None?
    ensures scored.Some? ==> var k := Notes.SampleEntry(table, s).value;
                             scored.value == (table[k].0, accuracy(s.frequency, table[k].1))
  {
    var note := FrequencyToNote(table, s.frequency);
    if note.None? || note.value == "" {
      return None;
    }
    var k := Notes.ClosestIndex(table, s.frequency);
    LookupDistinct(table, k);
    var standard := Lookup(table, note.value).value;
    scored := Some((note.value, accuracy(s.frequency, standard)));
  }

  /** calculate_performance: for each confident sample whose note has a truthy name, the
      accuracy against that note's frequency sets the note's score the first time and is
      averaged with the running score after that. The table is a dictionary, so its names are
      distinct. */
  method CalculatePerformance(table: Notes.NoteTable, samples: seq<Notes.Sample>, accuracy: (real, real) -> real)
    returns (performance: Notes.Performance)
    requires Notes.DistinctKeys(table)
    ensures performance == Notes.RunningPerformance(table, samples, accuracy)
  {
    performance := map[];
    var i := 0;
    while i < |samples|
      invariant 0 <= i <= |samples|
      invariant performance == Notes.RunningPerformance(table, samples[..i], accuracy)
    {
      assert samples[..i + 1][..i] == samples[..i];
      var s := samples[i];
      if s.confidence > 0.5 {
        var scored := ScoreSample(table, s, accuracy);
        if scored.Some? {
          var (note, score) := scored.value;
          if note in performance {
            performance := performance[note := (performance[note] + score) / 2.0];
          } else {
            performance := performance[note := score];
          }
        }
      }
      i := i + 1;
    }
    assert samples[..i] == samples;
  }

  /** The combined scores once the notes in `done` have been merged in the karaoke way. */
  function PartialMerge(combined: Notes.Performance, perf: Notes.Performance, done: set<string>): Notes.Performance
    requires done <= perf.Keys
  {
    map k | k in combined.Keys + done ::
      if k in done then (if k in combined then (combined[k] + perf[k]) / 2.0 else perf[k]) else combined[k]
  }

  lemma PartialMergeStep(combined: Notes.Performance, perf: Notes.Performance, done: set<string>, note: string)
    requires done <= perf.Keys && note in perf && note !in done
    ensures (note in PartialMerge(combined, perf, done)) == (note in combined)
    ensures note in combined ==> PartialMerge(combined, perf, done)[note] == combined[note]
    ensures PartialMerge(combined, perf, done + {note}) ==
            PartialMerge(combined, perf, done)[note := if note in combined then (combined[note] + perf[note]) / 2.0 else perf[note]]
  {
  }

  lemma PartialMergeAll(combined: Notes.Performance, perf: Notes.Performance)
    ensures PartialMerge(combined, perf, perf.Keys) == Notes.MergeFirstKept(combined, perf)
  {
  }

  /** The inner loop of main's file loop: a note already combined is averaged with the new
      score, a new note takes the score as is. */
  method MergeScores(combined: Notes.Performance, perf: Notes.Performance) returns (c: Notes.Performance)
    ensures c == Notes.MergeFirstKept(combined, perf)
  {
    c := combined;
    var todo := perf.Keys;
    assert perf.Keys - todo == {};
    assert c == PartialMerge(combined, perf, {});
    while todo != {}
      invariant todo <= perf.Keys
      invariant c == PartialMerge(combined, perf, perf.Keys - todo)
      decreases todo
    {
      var note :| note in todo;
      ghost var done := perf.Keys - todo;
      PartialMergeStep(combined, perf, done, note);
      if note in c {
        c := c[note := (c[note] + perf[note]) / 2.0];
      } else {
        c := c[note := perf[note]];
      }
      todo := todo - {note};
      assert perf.Keys - todo == done + {note};
    }
    assert perf.Keys - todo == perf.Keys;
  }

  /** The pitch side of the analysis: the note table, the accuracy function, and what the
      download, conversion and pitch detection yield for a file id (its pitch estimates, or
      failure: a raised exception or a failed conversion, both skip the file). */
  datatype Analysis = Analysis(table: Notes.NoteTable, accuracy: (real, real) -> real,
                               pitch: string -> Result<seq<Notes.Sample>, string>)

  /** The scores of the files that could be analysed, in file order. */
  function FilePerfs(fileIds: seq<string>, an: Analysis): seq<Notes.Performance>
    decreases |fileIds|
  {
    if fileIds == [] then []
    else
      var earlier := FilePerfs(fileIds[..|fileIds| - 1], an);
      var samples := an.pitch(fileIds[|fileIds| - 1]);
      if samples.Err? then earlier else earlier + [Notes.RunningPerformance(an.table, samples.value, an.accuracy)]
  }

  /** The file loop of main: each file that can be analysed has its scores merged into the
      combined scores; a failing file is skipped. */
  method CombineRecordings(fileIds: seq<string>, an: Analysis) returns (combined: Notes.Performance)
    requires Notes.DistinctKeys(an.table)
    ensures combined == Notes.CombineFirstKept(map[], FilePerfs(fileIds, an))
  {
    combined := map[];
    var i := 0;
    while i < |fileIds|
      invariant 0 <= i <= |fileIds|
      invariant combined == Notes.CombineFirstKept(map[], FilePerfs(fileIds[..i], an))
    {
      assert fileIds[..i + 1][..i] == fileIds[..i];
      ghost var before := FilePerfs(fileIds[..i], an);
      var samples := an.pitch(fileIds[i]);
      if samples.Ok? {
        var perf := CalculatePerformance(an.table, samples.value, an.accuracy);
        ghost var after := before + [perf];
        assert after[..|after| - 1] == before;
        combined := MergeScores(combined, perf);
      }
      i := i + 1;
    }
    assert fileIds[..i] == fileIds;
  }

  /** A note's combined score: present exactly when some analysed file scored it, and the
      running mean of its scores in file order, the first kept as is. */
  lemma CombinedScores(fileIds: seq<string>, an: Analysis, note: string)
    ensures var c := Notes.CombineFirstKept(map[], FilePerfs(fileIds, an));
            && (note in c <==> Notes.NoteScores(FilePerfs(fileIds, an), note) != [])
            && (note in c ==> c[note] == Notes.RunningMean(Notes.NoteScores(FilePerfs(fileIds, an), note)))
  {
    Notes.CombineFirstKeptIsRunningMean(FilePerfs(fileIds, an), note);
  }

  /** Whether a filter constrains the tracks: a non-empty value that is not "all" in any
      letter case. */
  predicate FilterActive(filter: string)
  {
    filter != "" && AsciiLower(filter) != "all"
  }

  /** The track queries: a genre equality query when the genre filter is active, then an
      artist equality query when the artist filter is active. */
  function TrackQueries(genre: string, artist: string): (r: seq<Appwrite.Query>)
    ensures |r| <= 2
    ensures Appwrite.Equal("genre", genre) in r <==> FilterActive(genre)
    ensures Appwrite.Equal("artist", artist) in r <==> FilterActive(artist)
    ensures forall q :: q in r ==> q == Appwrite.Equal("genre", genre) || q == Appwrite.Equal("artist", artist)
  {
    (if FilterActive(genre) then [Appwrite.Equal("genre", genre)] else [])
    + (if FilterActive(artist) then [Appwrite.Equal("artist", artist)] else [])
  }

  /** A filter leaves the tracks unfiltered exactly when it is empty or spells "all" in any
      mix of upper and lower case; any other filter adds its query. */
  lemma InactiveFilters(filter: string)
    ensures !FilterActive(filter) <==>
              filter == "" || (|filter| == 3 && filter[0] in "aA" && filter[1] in "lL" && filter[2] in "lL")
  {
    if |filter| == 3 {
      var l := AsciiLower(filter);
      assert l == "all" <==> l[0] == 'a' && l[1] == 'l' && l[2] == 'l';
    }
  }

  /** json.loads(track.get('notesBinary', '{}')): a missing attribute reads as the empty
      dictionary; text is parsed; any other value is not text, and json.loads raises. */
  function KaraokeNoteFlags(notes: Option<Ranking.NotesData>, parse: string -> Result<Ranking.NoteFlags, string>): (r: Result<Ranking.NoteFlags, string>)
    ensures notes.None? ==> r == Ok(map[])
    ensures notes.Some? && !notes.value.NotesText? ==> r.Err?
    ensures notes.Some? && notes.value.NotesText? ==> r == parse(notes.value.text)
  {
    if notes.None? then Ok(map[])
    else if notes.value.NotesText? then parse(notes.value.text)
    else Err("the JSON object must be str, bytes or bytearray")
  }

  /** The recommendation main builds for a track, if any. */
  function KaraokeCandidate(parse: string -> Result<Ranking.NoteFlags, string>, perf: Notes.Performance,
                            similarity: (Notes.Performance, set<string>) -> real): Ranking.Track -> Option<Ranking.Recommendation>
  {
    (t: Ranking.Track) => Ranking.CandidateFrom(t, KaraokeNoteFlags(t.notes, parse), perf, similarity)
  }

  /** A track stored without note data, or with note data that is not text, is never
      recommended. */
  lemma NonTextNotesNeverRecommended(t: Ranking.Track, parse: string -> Result<Ranking.NoteFlags, string>,
                                     perf: Notes.Performance, similarity: (Notes.Performance, set<string>) -> real)
    requires t.notes.None? || !t.notes.value.NotesText?
    ensures KaraokeCandidate(parse, perf, similarity)(t).None?
  {
  }

  /** main's recommendation loop followed by the sort and the cut to five. */
  method Recommend(tracks: seq<Ranking.Track>, perf: Notes.Performance,
                   parse: string -> Result<Ranking.NoteFlags, string>,
                   similarity: (Notes.Performance, set<string>) -> real)
    returns (top: seq<Ranking.Recommendation>)
    ensures top == Ranking.Recs(Ranking.TopRanked(tracks, KaraokeCandidate(parse, perf, similarity)))
  {
    var cand := KaraokeCandidate(parse, perf, similarity);
    var recommendations: seq<Ranking.Ranked> := [];
    var i := 0;
    while i < |tracks|
      invariant 0 <= i <= |tracks|
      invariant recommendations == Ranking.Candidates(tracks[..i], cand)
    {
      Ranking.CandidatesSnoc(tracks, cand, i);
      var track := tracks[i];
      var rec := Ranking.CandidateFrom(track, KaraokeNoteFlags(track.notes, parse), perf, similarity);
      assert rec == cand(tracks[i]);
      if rec.Some? {
        recommendations := recommendations + [Ranking.Ranked(i, rec.value)];
      }
      i := i + 1;
    }
    assert tracks[..i] == tracks;
    top := Ranking.Recs(Ranking.TopFive(recommendations));
  }

  /** The request fields main reads; a missing key is None. */
  datatype Request = Request(fileIds: Option<seq<string>>, userId: Option<string>, documentId: Option<string>,
                             genreFilter: Option<string>, artistFilter: Option<string>)

  /** The file ids, [] when missing. */
  function FileIdsOf(data: Request): seq<string>
  {
    if data.fileIds.Some? then data.fileIds.value else []
  }

  /** A filter, "all" when missing. */
  function OrAll(filter: Option<string>): string
  {
    if filter.Some? then filter.value else "all"
  }

  /** Whether either filter of the request constrains the tracks. */
  predicate AnyFilterActive(data: Request)
  {
    FilterActive(OrAll(data.genreFilter)) || FilterActive(OrAll(data.artistFilter))
  }

  /** The track queries of the request. */
  function QueriesOf(data: Request): seq<Appwrite.Query>
  {
    TrackQueries(OrAll(data.genreFilter), OrAll(data.artistFilter))
  }

  /** The scores of the request's recordings combined. */
  function CombinedOf(data: Request, an: Analysis): Notes.Performance
  {
    Notes.CombineFirstKept(map[], FilePerfs(FileIdsOf(data), an))
  }

  /** The fields an update writes: the completed result carries the recommendations, the
      combined scores and the number of file ids. */
  datatype Fields =
    | Processing
    | Completed(recommendations: seq<Ranking.Recommendation>, performance: Notes.Performance, fileCount: nat)
    | Failed(error: string)

  /** An update of the tracking document; a request without documentId updates None. */
  datatype Write = Write(documentId: Option<string>, fields: Fields)

  /** The completed result saved for the request over the listed tracks. */
  function SavedResult(data: Request, an: Analysis, parse: string -> Result<Ranking.NoteFlags, string>,
                       similarity: (Notes.Performance, set<string>) -> real, tracks: seq<Ranking.Track>): Write
  {
    var combined := CombinedOf(data, an);
    var top := Ranking.Recs(Ranking.TopRanked(tracks, KaraokeCandidate(parse, combined, similarity)));
    Write(data.documentId, Completed(top, combined, |FileIdsOf(data)|))
  }

  /** The error main fails with, as written, once the document is marked processing. */
  function AsWrittenFailure(data: Request, listTracks: seq<Appwrite.Query> -> Result<seq<Ranking.Track>, string>): string
  {
    if AnyFilterActive(data) then QueryUndefined
    else if listTracks(QueriesOf(data)).Err? then listTracks(QueriesOf(data)).error
    else DatetimeUndefined
  }

  /** The outcome of main: success (status 200), failure (status 500), or an exception that
      escapes main because marking the document failed raised as well. */
  datatype Reply = Done | Error(error: string) | Raised(error: string)

  const QueryUndefined: string := "name 'Query' is not defined"
  const DatetimeUndefined: string := "name 'datetime' is not defined"

  /** The steps of main after the processing update: combine the recordings, build the
      queries, list and rank the tracks, build and save the result. `failure` is the error
      the first failing step raises, and `saved` the result update if it was attempted. */
  method Complete(data: Request, an: Analysis,
                  parse: string -> Result<Ranking.NoteFlags, string>,
                  similarity: (Notes.Performance, set<string>) -> real,
                  listTracks: seq<Appwrite.Query> -> Result<seq<Ranking.Track>, string>,
                  update: Write -> Result<(), string>, imported: bool)
    returns (failure: Option<string>, saved: seq<Write>)
    requires Notes.DistinctKeys(an.table)
    ensures !imported ==> failure == Some(AsWrittenFailure(data, listTracks)) && saved == []
    ensures failure.None? ==> && imported && listTracks(QueriesOf(data)).Ok?
                              && saved == [SavedResult(data, an, parse, similarity, listTracks(QueriesOf(data)).value)]
                              && update(saved[0]).Ok?
    ensures |saved| <= 1 && forall w :: w in saved ==> w.fields.Completed? && w.documentId == data.documentId
    ensures imported && listTracks(QueriesOf(data)).Ok? && (forall w :: update(w).Ok?) ==> failure.None?
  {
    saved := [];
    var combined := CombineRecordings(FileIdsOf(data), an);
    if !imported && AnyFilterActive(data) {
      return Some(QueryUndefined), saved;
    }
    var queries := TrackQueries(OrAll(data.genreFilter), OrAll(data.artistFilter));
    var tracks := listTracks(queries);
    if tracks.Err? {
      return Some(tracks.error), saved;
    }
    var top := Recommend(tracks.value, combined, parse, similarity);
    if !imported {
      return Some(DatetimeUndefined), saved;
    }
    var final := Write(data.documentId, Completed(top, combined, |FileIdsOf(data)|));
    assert final == SavedResult(data, an, parse, similarity, tracks.value);
    saved := [final];
    var outcome := update(final);
    failure := if outcome.Err? then Some(outcome.error) else None;
  }

  /** main, with `imported` saying whether the names Query and datetime resolve. As the file
      stands they do not: Query is looked up when the first active filter's query is built,
      datetime when the result is built. */
  method Handle(body: Result<Request, string>, an: Analysis,
                parse: string -> Result<Ranking.NoteFlags, string>,
                similarity: (Notes.Performance, set<string>) -> real,
                listTracks: seq<Appwrite.Query> -> Result<seq<Ranking.Track>, string>,
                update: Write -> Result<(), string>, imported: bool)
    returns (reply: Reply, writes: seq<Write>)
    requires Notes.DistinctKeys(an.table)
    ensures !imported ==> !reply.Done?
    ensures body.Err? ==> reply == Error(body.error) && writes == []
    ensures body.Ok? ==> |writes| >= 2 && writes[0] == Write(body.value.documentId, Processing)
    ensures body.Ok? && update(Write(body.value.documentId, Processing)).Err? ==>
              var failed := Write(body.value.documentId, Failed(update(Write(body.value.documentId, Processing)).error));
              && writes == [Write(body.value.documentId, Processing), failed]
              && reply == (if update(failed).Ok? then Error(failed.fields.error) else Raised(update(failed).error))
    ensures body.Ok? && !reply.Done? ==>
              && writes[|writes| - 1].documentId == body.value.documentId
              && writes[|writes| - 1].fields.Failed?
              && (reply.Error? ==> writes[|writes| - 1].fields.error == reply.error && update(writes[|writes| - 1]).Ok?)
              && (reply.Raised? ==> update(writes[|writes| - 1]) == Err(reply.error))
    ensures body.Ok? && !imported && update(Write(body.value.documentId, Processing)).Ok? ==>
              writes[|writes| - 1].fields == Failed(AsWrittenFailure(body.value, listTracks))
    ensures imported && body.Ok? && listTracks(QueriesOf(body.value)).Ok? && (forall w :: update(w).Ok?) ==> reply.Done?
    ensures reply.Done? ==>
              && body.Ok? && listTracks(QueriesOf(body.value)).Ok?
              && writes == [Write(body.value.documentId, Processing),
                            SavedResult(body.value, an, parse, similarity, listTracks(QueriesOf(body.value)).value)]
              && update(writes[0]).Ok? && update(writes[1]).Ok?
  {
    writes := [];
    if body.Err? {
      reply := Error(body.error);
      return;
    }
    var data := body.value;
    var failure: string;
    var processing := Write(data.documentId, Processing);
    writes := writes + [processing];
    var marked := update(processing);
    if marked.Err? {
      failure := marked.error;
    } else {
      var outcome, saved := Complete(data, an, parse, similarity, listTracks, update, imported);
      writes := writes + saved;
      if outcome.None? {
        reply := Done;
        assert writes == [processing, saved[0]];
        return;
      }
      failure := outcome.value;
    }
    var failed := Write(data.documentId, Failed(failure));
    writes := writes + [failed];
    assert writes[0] == processing && writes[|writes| - 1] == failed;
    var result := update(failed);
    reply := if result.Ok? then Error(failure) else Raised(result.error);
  }

  /** main as written: it never reports success. Once the processing update is done, an
      active filter fails on the missing Query; otherwise the listing fails or the result
      building fails on the missing datetime. Either way the tracking document is marked
      failed. */
  method RunAsWritten(body: Result<Request, string>, an: Analysis,
                      parse: string -> Result<Ranking.NoteFlags, string>,
                      similarity: (Notes.Performance, set<string>) -> real,
                      listTracks: seq<Appwrite.Query> -> Result<seq<Ranking.Track>, string>,
                      update: Write -> Result<(), string>)
    returns (reply: Reply, writes: seq<Write>)
    requires Notes.DistinctKeys(an.table)
    ensures !reply.Done?
    ensures body.Ok? ==> && |writes| >= 2
                         && writes[0] == Write(body.value.documentId, Processing)
                         && writes[|writes| - 1].documentId == body.value.documentId
                         && writes[|writes| - 1].fields.Failed?
    ensures body.Ok? && update(Write(body.value.documentId, Processing)).Ok?
            && listTracks(QueriesOf(body.value)).Ok? && !AnyFilterActive(body.value) ==>
              writes[|writes| - 1].fields == Failed(DatetimeUndefined)
  {
    reply, writes := Handle(body, an, parse, similarity, listTracks, update, false);
  }

  /** main with Query and datetime imported: when every collaborator succeeds it saves the
      ranked recommendations and the combined scores and reports success. */
  method RunWithImports(body: Result<Request, string>, an: Analysis,
                        parse: string -> Result<Ranking.NoteFlags, string>,
                        similarity: (Notes.Performance, set<string>) -> real,
                        listTracks: seq<Appwrite.Query> -> Result<seq<Ranking.Track>, string>,
                        update: Write -> Result<(), string>)
    returns (reply: Reply, writes: seq<Write>)
    requires Notes.DistinctKeys(an.table)
    ensures body.Ok? && listTracks(QueriesOf(body.value)).Ok? && (forall w :: update(w).Ok?) ==> reply == Done
    ensures reply.Done? ==> |writes| == 2 && writes[1].fields.Completed?
    ensures !reply.Done? && body.Ok? ==> |writes| >= 2 && writes[|writes| - 1].fields.Failed?
  {
    reply, writes := Handle(body, an, parse, similarity, listTracks, update, true);
  }
}
