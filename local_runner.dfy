/** The local analysis handler (local-runner/main.py): it reads the request, marks the tracking
    document as processing, scores the user's recordings note by note, ranks the karaoke tracks
    against those scores and saves the result to the master document; on any exception it marks
    the documents it knows as failed.

    The database, the storage download with pitch detection, json.loads of a track's note data,
    and the similarity computation are parameters: each is the outcome the collaborator would
    return for its argument (a value, or the text of the exception it raises). */
module LocalRunner {
  import opened Common
  import Appwrite
  import Notes
  import Ranking

  /** The request fields main reads; a key missing from the JSON body is None. */
  datatype Request = Request(documentId: Option<string>, masterDocumentId: Option<string>,
                             documentIds: Option<seq<string>>, fileIds: Option<seq<string>>,
                             genreFilter: Option<string>, artistFilter: Option<string>)

  /** The request once its defaults are applied. */
  datatype Job = Job(documentId: string, masterDocumentId: string, documentIds: seq<string>, fileIds: seq<string>)

  /** The text of the KeyError a dictionary subscript raises for a missing key. */
  function KeyError(key: string): string
  {
    "'" + key + "'"
  }

  /** The defaults main applies: documentId is required; masterDocumentId defaults to it,
      documentIds to the one-element list of it, fileIds to the empty list. */
  function ReadJob(data: Request): (r: Result<Job, string>)
    ensures r.Err? <==> data.documentId.None?
    ensures r.Err? ==> r.error == KeyError("documentId")
    ensures r.Ok? ==> && r.value.documentId == data.documentId.value
                      && (data.masterDocumentId.None? ==> r.value.masterDocumentId == r.value.documentId)
                      && (data.documentIds.None? ==> r.value.documentIds == [r.value.documentId])
                      && (data.fileIds.None? ==> r.value.fileIds == [])
  {
    match data.documentId
    case None => Err(KeyError("documentId"))
    case Some(d) =>
      Ok(Job(d,
             if data.masterDocumentId.Some? then data.masterDocumentId.value else d,
             if data.documentIds.Some? then data.documentIds.value else [d],
             if data.fileIds.Some? then data.fileIds.value else []))
  }

  /** A field given in the request is used as given. */
  lemma ReadJobKeepsGivenFields(data: Request)
    requires data.documentId.Some?
    ensures data.masterDocumentId.Some? ==> ReadJob(data).value.masterDocumentId == data.masterDocumentId.value
    ensures data.documentIds.Some? ==> ReadJob(data).value.documentIds == data.documentIds.value
    ensures data.fileIds.Some? ==> ReadJob(data).value.fileIds == data.fileIds.value
  {
  }

  /** One filter's query: none for "all"; an equality query on the attribute otherwise; and
      for a missing key, the `data[key]` subscript raises. */
  function FilterQuery(attribute: string, key: string, filter: Option<string>): Result<seq<Appwrite.Query>, string>
  {
    if filter == Some("all") then Ok([])
    else if filter.None? then Err(KeyError(key))
    else Ok([Appwrite.Equal(attribute, filter.value)])
  }

  /** The track queries: the genre query is built before the artist query, so a missing genre
      filter is the error reported when both are missing. */
  function Queries(data: Request): (r: Result<seq<Appwrite.Query>, string>)
    ensures r.Err? <==> data.genreFilter.None? || data.artistFilter.None?
    ensures r.Err? ==> r.error == if data.genreFilter.None? then KeyError("genreFilter") else KeyError("artistFilter")
    ensures r.Ok? ==> && |r.value| <= 2
                      && (Appwrite.Equal("genre", data.genreFilter.value) in r.value <==> data.genreFilter.value != "all")
                      && (Appwrite.Equal("artist", data.artistFilter.value) in r.value <==> data.artistFilter.value != "all")
                      && (forall q :: q in r.value ==>
                            q == Appwrite.Equal("genre", data.genreFilter.value) || q == Appwrite.Equal("artist", data.artistFilter.value))
  {
    var g := FilterQuery("genre", "genreFilter", data.genreFilter);
    var a := FilterQuery("artist", "artistFilter", data.artistFilter);
    if g.Err? then Err(g.error)
    else if a.Err? then Err(a.error)
    else Ok(g.value + a.value)
  }

  /** The pitch side of the analysis: the note table, the accuracy of a frequency against a
      standard frequency, and what download_and_process_audio yields for a file id (its pitch
      estimates, or the text of the exception it raises). */
  datatype Analysis = Analysis(table: Notes.NoteTable, accuracy: (real, real) -> real,
                               pitch: string -> Result<seq<Notes.Sample>, string>)

  /** A processed file id with the scores computed from it. */
  type Scored = (string, Notes.Performance)

  /** What one tracking document contributes to process_recordings: the first of its file ids
      with that recording's scores; nothing when the document cannot be read, lists no file,
      or its first file cannot be analysed. */
  function DocResult(docId: string, getDoc: string -> Result<seq<string>, string>, an: Analysis): seq<Scored>
  {
    match getDoc(docId)
    case Err(_) => []
    case Ok(files) =>
      if files == [] then []
      else
        match an.pitch(files[0])
        case Err(_) => []
        case Ok(samples) => [(files[0], Notes.LastWinsPerformance(an.table, samples, an.accuracy))]
  }

  function DocResults(docIds: seq<string>, getDoc: string -> Result<seq<string>, string>, an: Analysis): seq<Scored>
    decreases |docIds|
  {
    if docIds == [] then []
    else DocResults(docIds[..|docIds| - 1], getDoc, an) + DocResult(docIds[|docIds| - 1], getDoc, an)
  }

  /** What one standalone file contributes: its id with its scores, or nothing when it fails. */
  function FileResult(fileId: string, an: Analysis): seq<Scored>
  {
    match an.pitch(fileId)
    case Err(_) => []
    case Ok(samples) => [(fileId, Notes.LastWinsPerformance(an.table, samples, an.accuracy))]
  }

  function FileResults(fileIds: seq<string>, an: Analysis): seq<Scored>
    decreases |fileIds|
  {
    if fileIds == [] then [] else FileResults(fileIds[..|fileIds| - 1], an) + FileResult(fileIds[|fileIds| - 1], an)
  }

  function Files(rs: seq<Scored>): (f: seq<string>)
    ensures |f| == |rs| && forall i :: 0 <= i < |rs| ==> f[i] == rs[i].0
  {
    seq(|rs|, i requires 0 <= i < |rs| => rs[i].0)
  }

  function Perfs(rs: seq<Scored>): (p: seq<Notes.Performance>)
    ensures |p| == |rs| && forall i :: 0 <= i < |rs| ==> p[i] == rs[i].1
  {
    seq(|rs|, i requires 0 <= i < |rs| => rs[i].1)
  }

  /** A document that fails contributes nothing and does not stop the documents after it:
      the results of a list of documents are the results of its parts, in order. */
  lemma {:induction false} DocResultsAppend(a: seq<string>, b: seq<string>, getDoc: string -> Result<seq<string>, string>, an: Analysis)
    ensures DocResults(a + b, getDoc, an) == DocResults(a, getDoc, an) + DocResults(b, getDoc, an)
    decreases |b|
  {
    if b == [] {
      assert a + b == a;
    } else {
      var init := b[..|b| - 1];
      DocResultsAppend(a, init, getDoc, an);
      assert (a + b)[..|a + b| - 1] == a + init;
      assert (a + b)[|a + b| - 1] == b[|b| - 1];
    }
  }

  /** Each document yields at most one recording: its first file id, when it has file ids and
      that file can be analysed. */
  lemma DocResultSpec(docId: string, getDoc: string -> Result<seq<string>, string>, an: Analysis)
    ensures |DocResult(docId, getDoc, an)| <= 1
    ensures DocResult(docId, getDoc, an) != [] <==>
              getDoc(docId).Ok? && getDoc(docId).value != [] && an.pitch(getDoc(docId).value[0]).Ok?
    ensures DocResult(docId, getDoc, an) != [] ==> DocResult(docId, getDoc, an)[0].0 == getDoc(docId).value[0]
  {
  }

  lemma ScoredSnoc(rs: seq<Scored>, more: seq<Scored>)
    requires |more| <= 1
    ensures Files(rs + more) == Files(rs) + Files(more)
    ensures more == [] ==> Perfs(rs + more) == Perfs(rs)
    ensures more != [] ==> Perfs(rs + more)[..|rs|] == Perfs(rs) && Perfs(rs + more)[|rs|] == more[0].1 && |Perfs(rs + more)| == |rs| + 1
  {
    if more == [] {
      assert rs + more == rs;
    }
  }

  /** Merging one more result, or none. */
  lemma CombineStep(start: Notes.Performance, rs: seq<Scored>, more: seq<Scored>)
    requires |more| <= 1
    ensures Files(rs + more) == Files(rs) + Files(more)
    ensures Notes.CombineHalving(start, Perfs(rs + more)) ==
            if more == [] then Notes.CombineHalving(start, Perfs(rs))
            else Notes.MergeHalving(Notes.CombineHalving(start, Perfs(rs)), more[0].1)
  {
    ScoredSnoc(rs, more);
  }

  /** The combined scores once the notes in `done` have been merged in the local way. */
  function PartialMerge(combined: Notes.Performance, perf: Notes.Performance, done: set<string>): Notes.Performance
    requires done <= perf.Keys
  {
    map k | k in combined.Keys + done ::
      if k in done then ((if k in combined then combined[k] else 0.0) + perf[k]) / 2.0 else combined[k]
  }

  lemma PartialMergeStep(combined: Notes.Performance, perf: Notes.Performance, done: set<string>, note: string)
    requires done <= perf.Keys && note in perf && note !in done
    ensures PartialMerge(combined, perf, done + {note}) ==
            PartialMerge(combined, perf, done)[note := ((if note in combined then combined[note] else 0.0) + perf[note]) / 2.0]
  {
  }

  lemma PartialMergeUntouched(combined: Notes.Performance, perf: Notes.Performance, done: set<string>, note: string)
    requires done <= perf.Keys && note !in done
    ensures (note in PartialMerge(combined, perf, done)) == (note in combined)
    ensures note in combined ==> PartialMerge(combined, perf, done)[note] == combined[note]
  {
  }

  lemma PartialMergeAll(combined: Notes.Performance, perf: Notes.Performance)
    ensures PartialMerge(combined, perf, perf.Keys) == Notes.MergeHalving(combined, perf)
  {
  }

  /** The per-note merge loop: each note of the recording's scores is folded into the combined
      scores with (combined.get(note, 0) + score) / 2. */
  method MergeScores(combined: Notes.Performance, perf: Notes.Performance) returns (c: Notes.Performance)
    ensures c == Notes.MergeHalving(combined, perf)
  {
    c := combined;
    var todo := perf.Keys;
    assert perf.Keys - todo == {};
    assert c == PartialMerge(combined, perf, {});
    while todo != {}
      invariant todo <= perf.Keys
      invariant c == PartialMerge(combined, perf, perf.Keys - todo)
      decreases todo
    {
      var note :| note in todo;
      ghost var done := perf.Keys - todo;
      PartialMergeUntouched(combined, perf, done, note);
      PartialMergeStep(combined, perf, done, note);
      var previous := if note in c then c[note] else 0.0;
      c := c[note := (previous + perf[note]) / 2.0];
      todo := todo - {note};
      assert perf.Keys - todo == done + {note};
    }
    assert perf.Keys - todo == perf.Keys;
    PartialMergeAll(combined, perf);
  }

  /** The results of one more document are those so far followed by its own. */
  lemma DocResultsSnoc(docIds: seq<string>, i: nat, getDoc: string -> Result<seq<string>, string>, an: Analysis)
    requires i < |docIds|
    ensures DocResults(docIds[..i + 1], getDoc, an) == DocResults(docIds[..i], getDoc, an) + DocResult(docIds[i], getDoc, an)
  {
    assert docIds[..i + 1][..i] == docIds[..i];
  }

  /** The results of one more file are those so far followed by its own. */
  lemma FileResultsSnoc(fileIds: seq<string>, i: nat, an: Analysis)
    requires i < |fileIds|
    ensures FileResults(fileIds[..i + 1], an) == FileResults(fileIds[..i], an) + FileResult(fileIds[i], an)
  {
    assert fileIds[..i + 1][..i] == fileIds[..i];
  }

  /** One turn of process_recordings' loop: a document whose first file can be analysed adds
      that file and merges its scores; any other document leaves both as they were. */
  lemma DocStep(docIds: seq<string>, i: nat, getDoc: string -> Result<seq<string>, string>, an: Analysis)
    requires i < |docIds|
    ensures var before := DocResults(docIds[..i], getDoc, an);
            var after := DocResults(docIds[..i + 1], getDoc, an);
            var doc := getDoc(docIds[i]);
            if doc.Ok? && doc.value != [] && an.pitch(doc.value[0]).Ok? then
              && Files(after) == Files(before) + [doc.value[0]]
              && Notes.CombineHalving(map[], Perfs(after)) ==
                 Notes.MergeHalving(Notes.CombineHalving(map[], Perfs(before)),
                                    Notes.LastWinsPerformance(an.table, an.pitch(doc.value[0]).value, an.accuracy))
            else
              && Files(after) == Files(before)
              && Notes.CombineHalving(map[], Perfs(after)) == Notes.CombineHalving(map[], Perfs(before))
  {
    var before := DocResults(docIds[..i], getDoc, an);
    var step := DocResult(docIds[i], getDoc, an);
    DocResultsSnoc(docIds, i, getDoc, an);
    CombineStep(map[], before, step);
  }

  /** process_recordings: the combined scores and processed file ids of the documents that
      could be analysed, each one's first file merged in document order. */
  method ProcessRecordings(docIds: seq<string>, getDoc: string -> Result<seq<string>, string>, an: Analysis)
    returns (combined: Notes.Performance, processed: seq<string>)
    ensures processed == Files(DocResults(docIds, getDoc, an))
    ensures combined == Notes.CombineHalving(map[], Perfs(DocResults(docIds, getDoc, an)))
  {
    combined := map[];
    processed := [];
    var i := 0;
    while i < |docIds|
      invariant 0 <= i <= |docIds|
      invariant processed == Files(DocResults(docIds[..i], getDoc, an))
      invariant combined == Notes.CombineHalving(map[], Perfs(DocResults(docIds[..i], getDoc, an)))
    {
      DocStep(docIds, i, getDoc, an);
      var doc := getDoc(docIds[i]);
      if doc.Ok? && doc.value != [] {
        var fileId := doc.value[0];
        var samples := an.pitch(fileId);
        if samples.Ok? {
          var perf := Notes.LastWinsPerformance(an.table, samples.value, an.accuracy);
          combined := MergeScores(combined, perf);
          processed := processed + [fileId];
        }
      }
      i := i + 1;
    }
    assert docIds[..i] == docIds;
  }

  /** One turn of main's file loop: a file that can be analysed adds its id and merges its
      scores; one that cannot leaves both as they were. */
  lemma FileStep(combined0: Notes.Performance, processed0: seq<string>, fileIds: seq<string>, i: nat, an: Analysis)
    requires i < |fileIds|
    ensures var before := FileResults(fileIds[..i], an);
            var after := FileResults(fileIds[..i + 1], an);
            match an.pitch(fileIds[i])
            case Err(_) =>
              && processed0 + Files(after) == processed0 + Files(before)
              && Notes.CombineHalving(combined0, Perfs(after)) == Notes.CombineHalving(combined0, Perfs(before))
            case Ok(samples) =>
              && processed0 + Files(after) == processed0 + Files(before) + [fileIds[i]]
              && Notes.CombineHalving(combined0, Perfs(after)) ==
                 Notes.MergeHalving(Notes.CombineHalving(combined0, Perfs(before)), Notes.LastWinsPerformance(an.table, samples, an.accuracy))
  {
    var before := FileResults(fileIds[..i], an);
    var step := FileResult(fileIds[i], an);
    FileResultsSnoc(fileIds, i, an);
    CombineStep(combined0, before, step);
    if an.pitch(fileIds[i]).Ok? {
      assert Files(step) == [fileIds[i]];
    }
  }

  /** main's loop over the standalone file ids: each file that can be analysed is merged into
      the combined scores and appended to the processed files; a failing one is skipped. */
  method ProcessFiles(combined0: Notes.Performance, processed0: seq<string>, fileIds: seq<string>, an: Analysis)
    returns (combined: Notes.Performance, processed: seq<string>)
    ensures processed == processed0 + Files(FileResults(fileIds, an))
    ensures combined == Notes.CombineHalving(combined0, Perfs(FileResults(fileIds, an)))
  {
    combined, processed := combined0, processed0;
    var i := 0;
    while i < |fileIds|
      invariant 0 <= i <= |fileIds|
      invariant processed == processed0 + Files(FileResults(fileIds[..i], an))
      invariant combined == Notes.CombineHalving(combined0, Perfs(FileResults(fileIds[..i], an)))
    {
      FileStep(combined0, processed0, fileIds, i, an);
      var samples := an.pitch(fileIds[i]);
      if samples.Ok? {
        var perf := Notes.LastWinsPerformance(an.table, samples.value, an.accuracy);
        combined := MergeScores(combined, perf);
        processed := processed + [fileIds[i]];
      }
      i := i + 1;
    }
    assert fileIds[..i] == fileIds;
  }

  /** The scores main saves are those of every analysed recording, documents first, then
      standalone files, merged the local way: a note's value is the halving mean of its scores
      in that order. */
  lemma CombinedScores(docs: seq<Scored>, files: seq<Scored>, note: string)
    ensures Notes.CombineHalving(Notes.CombineHalving(map[], Perfs(docs)), Perfs(files)) == Notes.CombineHalving(map[], Perfs(docs + files))
    ensures var c := Notes.CombineHalving(map[], Perfs(docs + files));
            && (note in c <==> Notes.NoteScores(Perfs(docs + files), note) != [])
            && (note in c ==> c[note] == Notes.HalvingMean(Notes.NoteScores(Perfs(docs + files), note)))
  {
    assert Perfs(docs + files) == Perfs(docs) + Perfs(files);
    Notes.CombineHalvingAppend(map[], Perfs(docs), Perfs(files));
    Notes.CombineHalvingIsHalvingMean(Perfs(docs + files), note);
  }

  /** generate_recommendations' reading of a track's note data: a dictionary is used as is,
      text is parsed as JSON, a list flags each listed note with 1, anything else (and a missing
      attribute) is the empty dictionary. */
  function LocalNoteFlags(notes: Option<Ranking.NotesData>, parse: string -> Result<Ranking.NoteFlags, string>): (r: Result<Ranking.NoteFlags, string>)
    ensures notes.Some? && notes.value.NotesDict? ==> r == Ok(notes.value.flags)
    ensures notes.Some? && notes.value.NotesText? ==> r == parse(notes.value.text)
    ensures notes.Some? && notes.value.NotesList? ==> r.Ok? && Ranking.FlaggedNotes(r.value) == set n | n in notes.value.items
    ensures notes.None? || notes == Some(Ranking.NotesOther) ==> r.Ok? && Ranking.FlaggedNotes(r.value) == {}
  {
    if notes.None? then Ok(map[])
    else if notes.value.NotesDict? then Ok(notes.value.flags)
    else if notes.value.NotesText? then parse(notes.value.text)
    else if notes.value.NotesList? then Ok(map n | n in notes.value.items :: Ranking.JInt(1))
    else Ok(map[])
  }

  /** The recommendation generate_recommendations builds for a track, if any. */
  function LocalCandidate(parse: string -> Result<Ranking.NoteFlags, string>, perf: Notes.Performance,
                          similarity: (Notes.Performance, set<string>) -> real): Ranking.Track -> Option<Ranking.Recommendation>
  {
    (t: Ranking.Track) => Ranking.CandidateFrom(t, LocalNoteFlags(t.notes, parse), perf, similarity)
  }

  /** generate_recommendations: collects a recommendation from every track that yields one,
      in track order, and keeps the five most similar. */
  method GenerateRecommendations(tracks: seq<Ranking.Track>, perf: Notes.Performance,
                                 parse: string -> Result<Ranking.NoteFlags, string>,
                                 similarity: (Notes.Performance, set<string>) -> real)
    returns (top: seq<Ranking.Recommendation>)
    ensures top == Ranking.Recs(Ranking.TopRanked(tracks, LocalCandidate(parse, perf, similarity)))
  {
    var cand := LocalCandidate(parse, perf, similarity);
    var recommendations: seq<Ranking.Ranked> := [];
    var i := 0;
    while i < |tracks|
      invariant 0 <= i <= |tracks|
      invariant recommendations == Ranking.Candidates(tracks[..i], cand)
    {
      Ranking.CandidatesSnoc(tracks, cand, i);
      var track := tracks[i];
      var flags := LocalNoteFlags(track.notes, parse);
      var rec := Ranking.CandidateFrom(track, flags, perf, similarity);
      assert rec == cand(tracks[i]);
      if rec.Some? {
        recommendations := recommendations + [Ranking.Ranked(i, rec.value)];
      }
      i := i + 1;
    }
    assert tracks[..i] == tracks;
    top := Ranking.Recs(Ranking.TopFive(recommendations));
  }

  /** The fields an update writes to a tracking document. The completed result carries the
      recommendations, the combined scores (from which the strong and weak notes and the
      overall accuracy are derived), the number of processed recordings and the child
      documents. */
  datatype Fields =
    | Processing
    | Completed(recommendations: seq<Ranking.Recommendation>, performance: Notes.Performance,
                processedCount: nat, childDocuments: seq<string>)
    | Failed(error: string)

  datatype Write = Write(documentId: string, fields: Fields)

  /** The handler's response: success with the processed files and the master document (status
      200), or failure with the error text (status 500). */
  datatype Reply = Done(processedFiles: seq<string>, masterDocumentId: string) | Error(error: string)

  function StatusCode(reply: Reply): nat
  {
    if reply.Done? then 200 else 500
  }

  predicate Truthy(id: Option<string>)
  {
    id.Some? && id.value != ""
  }

  /** The failure writes, in order: documentId when it is set and non-empty, then
      masterDocumentId when it is non-empty and differs from documentId; both sit in one try,
      so a failed first write skips the second. */
  function FailureWrites(documentId: Option<string>, master: Option<string>, error: string,
                         update: Write -> Result<(), string>): seq<Write>
  {
    var first := if Truthy(documentId) then [Write(documentId.value, Failed(error))] else [];
    var firstOk := !Truthy(documentId) || update(Write(documentId.value, Failed(error))).Ok?;
    var second := if Truthy(master) && master != documentId && firstOk then [Write(master.value, Failed(error))] else [];
    first + second
  }

  /** Only the documents the handler knows are marked, each at most once, each with the error. */
  lemma FailureWritesSpec(documentId: Option<string>, master: Option<string>, error: string,
                          update: Write -> Result<(), string>)
    ensures var w := FailureWrites(documentId, master, error, update);
            && |w| <= 2
            && (forall x :: x in w ==> x.fields == Failed(error))
            && (Truthy(documentId) <==> |w| >= 1 && Some(w[0].documentId) == documentId)
            && (forall x :: x in w ==> Some(x.documentId) == documentId || Some(x.documentId) == master)
            && (|w| == 2 ==> w[0].documentId != w[1].documentId)
            && (Truthy(master) && master != documentId && !Truthy(documentId) ==> w == [Write(master.value, Failed(error))])
            && (!Truthy(master) || master == documentId ==> |w| <= 1)
  {
  }

  /** Every recording main analyses, with its scores: the tracking documents' first files,
      then the standalone files. */
  function Results(job: Job, getDoc: string -> Result<seq<string>, string>, an: Analysis): seq<Scored>
  {
    DocResults(job.documentIds, getDoc, an) + FileResults(job.fileIds, an)
  }

  /** The user's combined scores. */
  function Combined(job: Job, getDoc: string -> Result<seq<string>, string>, an: Analysis): Notes.Performance
  {
    Notes.CombineHalving(map[], Perfs(Results(job, getDoc, an)))
  }

  /** process_recordings followed by main's file loop. */
  method AnalyseAll(job: Job, getDoc: string -> Result<seq<string>, string>, an: Analysis)
    returns (combined: Notes.Performance, processed: seq<string>)
    ensures combined == Combined(job, getDoc, an)
    ensures processed == Files(Results(job, getDoc, an))
  {
    combined, processed := ProcessRecordings(job.documentIds, getDoc, an);
    combined, processed := ProcessFiles(combined, processed, job.fileIds, an);
    ResultsSplit(job, getDoc, an);
  }

  /** The documents' results followed by the files' give the combined scores and the
      processed list of all results. */
  lemma ResultsSplit(job: Job, getDoc: string -> Result<seq<string>, string>, an: Analysis)
    ensures var docs, files := DocResults(job.documentIds, getDoc, an), FileResults(job.fileIds, an);
            && Combined(job, getDoc, an) == Notes.CombineHalving(Notes.CombineHalving(map[], Perfs(docs)), Perfs(files))
            && Files(Results(job, getDoc, an)) == Files(docs) + Files(files)
  {
    var docs, files := DocResults(job.documentIds, getDoc, an), FileResults(job.fileIds, an);
    assert Perfs(docs + files) == Perfs(docs) + Perfs(files);
    Notes.CombineHalvingAppend(map[], Perfs(docs), Perfs(files));
    assert Files(docs + files) == Files(docs) + Files(files);
  }

  /** The completed result main saves to the master document for the listed tracks. */
  function SavedResult(job: Job, tracks: seq<Ranking.Track>, getDoc: string -> Result<seq<string>, string>, an: Analysis,
                       parse: string -> Result<Ranking.NoteFlags, string>,
                       similarity: (Notes.Performance, set<string>) -> real): Write
  {
    var combined := Combined(job, getDoc, an);
    var top := Ranking.Recs(Ranking.TopRanked(tracks, LocalCandidate(parse, combined, similarity)));
    Write(job.masterDocumentId, Completed(top, combined, |Results(job, getDoc, an)|, job.documentIds))
  }

  /** The steps of main after the processing update: analyse the recordings, build the
      queries, list and rank the tracks and save the result to the master document. `failure`
      is the error of the first step that raises, `saved` the result update if it was
      attempted. */
  method Complete(job: Job, data: Request, getDoc: string -> Result<seq<string>, string>, an: Analysis,
                  parse: string -> Result<Ranking.NoteFlags, string>,
                  similarity: (Notes.Performance, set<string>) -> real,
                  listTracks: seq<Appwrite.Query> -> Result<seq<Ranking.Track>, string>,
                  update: Write -> Result<(), string>)
    returns (failure: Option<string>, saved: seq<Write>, processed: seq<string>)
    ensures |saved| <= 1 && forall w :: w in saved ==> w.fields.Completed?
    ensures failure.None? ==> && Queries(data).Ok? && listTracks(Queries(data).value).Ok?
                              && saved == [SavedResult(job, listTracks(Queries(data).value).value, getDoc, an, parse, similarity)]
                              && update(saved[0]).Ok?
                              && processed == Files(Results(job, getDoc, an))
    ensures Queries(data).Ok? && listTracks(Queries(data).value).Ok? && (forall w :: update(w).Ok?) ==> failure.None?
  {
    saved := [];
    var combined;
    combined, processed := AnalyseAll(job, getDoc, an);
    var queries := Queries(data);
    if queries.Err? {
      return Some(queries.error), saved, processed;
    }
    var tracks := listTracks(queries.value);
    if tracks.Err? {
      return Some(tracks.error), saved, processed;
    }
    var top := GenerateRecommendations(tracks.value, combined, parse, similarity);
    var final := Write(job.masterDocumentId, Completed(top, combined, |processed|, job.documentIds));
    assert final == SavedResult(job, tracks.value, getDoc, an, parse, similarity);
    saved := [final];
    var outcome := update(final);
    failure := if outcome.Err? then Some(outcome.error) else None;
  }

  /** The try block once the job is read: check the tracking document exists, mark it
      processing, then complete the job. `failure` is the error of the first step that raises;
      `writes` are the updates attempted, none of which marks a failure. */
  method ProcessJob(job: Job, data: Request, getDoc: string -> Result<seq<string>, string>, an: Analysis,
                    parse: string -> Result<Ranking.NoteFlags, string>,
                    similarity: (Notes.Performance, set<string>) -> real,
                    listTracks: seq<Appwrite.Query> -> Result<seq<Ranking.Track>, string>,
                    update: Write -> Result<(), string>)
    returns (failure: Option<string>, writes: seq<Write>, processed: seq<string>)
    ensures getDoc(job.documentId).Err? ==> failure == Some(getDoc(job.documentId).error) && writes == []
    ensures failure.None? ==>
              && Queries(data).Ok? && listTracks(Queries(data).value).Ok?
              && writes == [Write(job.documentId, Processing),
                            SavedResult(job, listTracks(Queries(data).value).value, getDoc, an, parse, similarity)]
              && update(writes[0]).Ok? && update(writes[1]).Ok?
              && processed == Files(Results(job, getDoc, an))
    ensures |writes| <= 2 && forall i :: 0 <= i < |writes| ==> !writes[i].fields.Failed?
    ensures (&& getDoc(job.documentId).Ok? && Queries(data).Ok? && listTracks(Queries(data).value).Ok?
             && (forall w :: update(w).Ok?)) ==> failure.None?
  {
    writes := [];
    processed := [];
    var doc := getDoc(job.documentId);
    if doc.Err? {
      return Some(doc.error), writes, processed;
    }
    var processing := Write(job.documentId, Processing);
    writes := [processing];
    var marked := update(processing);
    if marked.Err? {
      return Some(marked.error), writes, processed;
    }
    var saved;
    failure, saved, processed := Complete(job, data, getDoc, an, parse, similarity, listTracks, update);
    writes := writes + saved;
  }

  /** main. The try block's steps, in order: parse the body, read the job, check the tracking
      document exists, mark it processing, process the documents and the files, build the
      queries, list the karaoke tracks, rank them and save the result to the master document.
      The first step to raise ends the try block and the failure writes follow. */
  method Run(body: Result<Request, string>, getDoc: string -> Result<seq<string>, string>, an: Analysis,
              parse: string -> Result<Ranking.NoteFlags, string>,
              similarity: (Notes.Performance, set<string>) -> real,
              listTracks: seq<Appwrite.Query> -> Result<seq<Ranking.Track>, string>,
              update: Write -> Result<(), string>)
    returns (reply: Reply, writes: seq<Write>)
    ensures body.Err? ==> reply == Error(body.error) && writes == []
    ensures body.Ok? && body.value.documentId.None? ==> reply == Error(KeyError("documentId")) && writes == []
    ensures body.Ok? && ReadJob(body.value).Ok? && getDoc(ReadJob(body.value).value.documentId).Err? ==>
              && reply == Error(getDoc(ReadJob(body.value).value.documentId).error)
              && writes == FailureWrites(Some(ReadJob(body.value).value.documentId),
                                         Some(ReadJob(body.value).value.masterDocumentId), reply.error, update)
    ensures reply.Done? ==>
              && body.Ok? && ReadJob(body.value).Ok? && Queries(body.value).Ok?
              && listTracks(Queries(body.value).value).Ok?
              && reply == Done(Files(Results(ReadJob(body.value).value, getDoc, an)), ReadJob(body.value).value.masterDocumentId)
              && writes == [Write(ReadJob(body.value).value.documentId, Processing),
                            SavedResult(ReadJob(body.value).value, listTracks(Queries(body.value).value).value, getDoc, an, parse, similarity)]
              && update(writes[0]).Ok? && update(writes[1]).Ok?
    ensures reply.Error? && body.Ok? && ReadJob(body.value).Ok? ==>
              var marked := FailureWrites(Some(ReadJob(body.value).value.documentId),
                                          Some(ReadJob(body.value).value.masterDocumentId), reply.error, update);
              && |marked| <= |writes| <= |marked| + 2
              && writes[|writes| - |marked|..] == marked
              && forall i :: 0 <= i < |writes| - |marked| ==> !writes[i].fields.Failed?
    ensures (&& body.Ok? && ReadJob(body.value).Ok? && getDoc(ReadJob(body.value).value.documentId).Ok?
             && Queries(body.value).Ok? && listTracks(Queries(body.value).value).Ok?
             && (forall w :: update(w).Ok?)) ==> reply.Done?
  {
    var documentId: Option<string> := None;
    var master: Option<string> := None;
    writes := [];
    var failure: string;
    if body.Err? {
      failure := body.error;
    } else {
      var data := body.value;
      var job := ReadJob(data);
      if job.Err? {
        failure := job.error;
      } else {
        documentId := Some(job.value.documentId);
        master := Some(job.value.masterDocumentId);
        var outcome, processed;
        outcome, writes, processed := ProcessJob(job.value, data, getDoc, an, parse, similarity, listTracks, update);
        if outcome.None? {
          reply := Done(processed, job.value.masterDocumentId);
          assert data == body.value && job == ReadJob(body.value);
          return;
        }
        failure := outcome.value;
      }
    }
    reply := Error(failure);
    var marked := FailureWrites(documentId, master, failure, update);
    writes := writes + marked;
    assert writes[|writes| - |marked|..] == marked;
  }
}
