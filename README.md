# berkaraoke core model

berkaraoke is a karaoke app. A singer records takes in the mobile app. The app uploads them to
Appwrite storage and creates a tracking document in the `pending` state, then asks an analysis
service to process it. The service marks the document as processing and runs pitch detection
(CREPE) on each recording. It scores how accurately each musical note was sung and averages
those scores across recordings. It then ranks the karaoke tracks whose stored note sets best
match the singer's strong notes, and saves the top five, with the scores, on the tracking
document. On any error it marks the document as failed.

This Dafny project models that core:

- **Client data layer** (`appwrite.dfy`, module `Appwrite`): file upload, the creation of a
  recording document followed by the analysis request, track paging with `hasMore`, the sorted
  distinct genre and artist pick lists, and the current-user lookup.
  - Shared pieces: JavaScript's default string order is in `string_order.dfy`, and the
    `JSON.stringify` of the file-id array, with a decoder, is in `json_array.dfy`.
- **Session state** (`global_provider.dfy`, module `GlobalProvider`): a class holding
  `isLoggedIn`, `user` and `isLoading`, updated by `checkUser`, `logout` and the exposed setters.
- **Note scoring shared by both analysis handlers**:
  - `notes.dfy`: the 108-entry note table, the first-closest note lookup, a recording's per-note
    scores, and the two ways of combining scores across recordings.
  - `ranking.dfy`: candidate recommendations, the stable descending sort by similarity, and the
    cut to five.
- **Local analysis runner** (`local_runner.dfy`, module `LocalRunner`):
  - request defaults and filter queries;
  - the per-document and per-file loops;
  - recommendation generation;
  - the handler, with its failure writes to the document and the master document.
- **Cloud analysis function** (`karaoke_recommender.dfy`, module `KaraokeRecommender`): the loop
  versions of the table, the lookup, the scoring, the merge and the recommendation list, and its
  handler. As written, the handler cannot succeed; see "Findings".
- **Local HTTP front** (`local_server.dfy`, module `LocalServer`): the health check, and the
  400/202/500 classification of a processing request.
- **Player and search components** (`music_player.dfy`, `search_input.dfy`):
  - the time formatter and the speaker icon;
  - the player state, which changes only with a loaded sound;
  - the blank-input search guard, with the focus state.

Collaborators are inputs to the model:

- **Outcome parameters** stand for calls to the database, storage, `fetch`, the file system and
  the sound engine. Each is either a `Result` (a value, or the message of the exception raised)
  or a function from the call's argument to such an outcome.
- **Function parameters** stand for floating-point formulas: the table frequency `round(16.35 *
  2 ** (n / 12), 2)`, the accuracy `1 - 12 * |log2(f / standard)|`, and the similarity `1 -
  sqrt(sum((1 - score) ** 2)) / count`. The model proves what the code does with their results
  (which note is closest, how scores are averaged, how tracks are ranked), not the arithmetic.
- Reals stand for Python and JavaScript floats.

## Model

| member | source | states |
|---|---|---|
| Appwrite.UploadAudioFile | lib/appwrite.js:246-307 | The file info is read first. A missing file, a failed read or a failed upload gives an error that starts with "Upload failed: ", and the upload error is wrapped in "Appwrite upload failed: ". Storage is called only when the file exists and was read. Success returns the non-empty id the upload reported. |
| Appwrite.ProcessRecording | lib/appwrite.js:197-236 | Exactly one document is created, first, with status pending and the JSON-encoded file ids, whose decoding gives back the file ids that are posted. A failed creation posts nothing. The result is the reply's JSON exactly when the status is 2xx, and otherwise "Lambda returned <status>" or the fetch error. |
| Appwrite.TrackQueries | lib/appwrite.js:125-134 | The queries order by songName and page with the limit and offset, which default to 25 and 0. |
| Appwrite.GetAllTracks | lib/appwrite.js:125-145 | A listing error is rethrown as a new Error whose message is String(error) of the caught exception. Otherwise the documents and total are passed through, and hasMore holds iff offset + limit < total. |
| Appwrite.ErrorString | lib/appwrite.js:142-143 | String(error) of a caught Error is its name, ": " and its message when both are non-empty, otherwise whichever is non-empty; it starts with the name and ends with the message. |
| Appwrite.HasMoreIffNextPageNonEmpty | lib/appwrite.js:137-141 | Over a collection served in pages, hasMore holds iff the page after this one has at least one track. |
| Appwrite.AvailableGenres | lib/appwrite.js:165-179 | The result is strictly sorted in JavaScript string order and holds exactly the genres of the listed documents; a listing error gives []. |
| Appwrite.AvailableArtists | lib/appwrite.js:181-195 | The same for artists. |
| Appwrite.AvailableGenresDependOnlyOnGenreSet | lib/appwrite.js:173-174 | Two listings with the same set of genres give the same pick list, whatever their order or duplicates. |
| Appwrite.AvailableArtistsDependOnlyOnArtistSet | lib/appwrite.js:189-190 | The same for artists. |
| Appwrite.GetCurrentUser | lib/appwrite.js:98-123 | A user comes back exactly when the account and the listing both succeed and the listing is non-empty, and it is the listing's first document. Errors and absences give null. |
| Appwrite.UsersOfHead | lib/appwrite.js:106-113 | Filtering the users by account id is empty iff no user has that account, and otherwise starts with the first user that does. |
| Appwrite.CurrentUserIsFirstOfAccount | lib/appwrite.js:103-118 | With the accountId equality query, the current user is the first user document of the signed-in account. |
| StringOrder.LessTransitive | lib/appwrite.js:174 | The default sort's string order is transitive. |
| StringOrder.LessTotal | lib/appwrite.js:174 | Any two distinct strings are ordered one way or the other. |
| StringOrder.SortedDistinct | lib/appwrite.js:173-174 | Array.from(new Set(xs)).sort() is strictly sorted and holds exactly the members of xs. |
| StringOrder.StrictlySortedUnique | lib/appwrite.js:173-174 | Two strictly sorted lists with the same members are equal. |
| JsonArray.EncodeArrayRoundTrip | lib/appwrite.js:206 | Decoding JSON.stringify of a string array gives back the array. |
| JsonArray.EncodeArrayInjective | lib/appwrite.js:206 | Distinct file-id lists are stored as distinct texts. |
| GlobalProvider.Session.constructor | context/GlobalProvider.js:9-11 | A new session is logged out, has no user, and is loading. |
| GlobalProvider.Session.CheckUser | context/GlobalProvider.js:23-41 | Afterwards loading is over. The user is the looked-up one, and logged in holds iff there is one. An error logs out. The session stays logged in iff it has a user. |
| GlobalProvider.Session.Logout | context/GlobalProvider.js:13-21 | Deleting the sessions logs out and clears the user; a failed deletion changes nothing. |
| GlobalProvider.Session.SetIsLoggedIn | context/GlobalProvider.js:49-53 | Only the flag changes, and the invariant holds afterwards iff the flag matches whether there is a user. |
| GlobalProvider.Session.SetUser | context/GlobalProvider.js:49-53 | Only the user changes, with the same rule for the invariant. |
| GlobalProvider.AfterCheckUser | context/GlobalProvider.js:23-41 | The state after a check: not loading, logged in iff there is a user, and the user is the one looked up, or none on an error. |
| GlobalProvider.CheckUserWithGetCurrentUser | context/GlobalProvider.js:26-33 | Checking through getCurrentUser logs in iff the account has a user document, and that user is the first one. |
| Notes.NoteFrequencyTable | local-runner/main.py:36-38 | The table has 108 entries, entry n is the name of semitone n with its octave digit, and its frequency is that of semitone n. |
| Notes.NoteNamesDistinct | local-runner/main.py:36-38 | Note names are non-empty and distinct semitones get distinct names. |
| Notes.NoteTableKeysDistinct | local-runner/main.py:36-38 | The table is a dictionary: its names are pairwise distinct and all truthy. |
| Notes.NoteNameParts | karaoke-recommender/main.py:23 | A name is the note letter, then the octave digit. |
| Notes.ClosestIndex | local-runner/main.py:42-43 | The index of the first entry whose frequency is closest to the given one. |
| Notes.FirstClosestUnique | local-runner/main.py:42-43 | There is only one first-closest entry, so the lookup is deterministic. |
| Notes.FrequencyToNote | local-runner/main.py:42-43 | None iff the frequency is not positive; otherwise the name of the first closest entry. |
| Notes.SampleEntry | local-runner/main.py:102-105 | A sample is scored iff its confidence is above 0.5, its frequency is positive and the closest name is truthy; it is scored against the first closest entry. |
| Notes.LastWinsIsLastScore | local-runner/main.py:102-105 | In the dictionary comprehension a note is present iff some sample scored it, and its value is the last such score. |
| Notes.RunningPerformanceIsRunningMean | karaoke-recommender/main.py:62-76 | In the loop a note is present iff some sample scored it, and its value is the running mean of its scores: the first taken as is, then averaged pairwise. |
| Notes.MergeHalving | local-runner/main.py:126-127 | Merging keeps every note already combined and every new note. |
| Notes.MergeFirstKept | karaoke-recommender/main.py:131-135 | The same for the karaoke merge. |
| Notes.CombineHalvingIsHalvingMean | local-runner/main.py:111-131 | Across recordings a note is combined iff some recording scored it, with each score averaged against the previous value, which starts at 0. |
| Notes.CombineFirstKeptIsRunningMean | karaoke-recommender/main.py:106-141 | Across recordings a note is combined iff some recording scored it, as the running mean with the first score kept. |
| Notes.CombineHalvingAppend | local-runner/main.py:215-226 | Continuing the combination with more recordings equals combining all of them at once. |
| Ranking.CandidateFrom | local-runner/main.py:159-171 | A track yields a recommendation iff its notes parse, it has at least one note flagged with 1, and it has an id, a song name, an artist and a genre. The fields are copied, and the similarity is computed over the flagged notes. |
| Ranking.Candidates | local-runner/main.py:137-175 | The candidates come in track order, each is its track's recommendation, and every track that yields one is there. |
| Ranking.CandidatesExtend | local-runner/main.py:137-175 | One more track adds its candidate, if any, after the earlier ones; the result stays in track order, each entry is its track's recommendation, and no track that yields one is missed. |
| Ranking.CandidatesSnoc | local-runner/main.py:137-175 | The candidates of one more track are the earlier candidates followed by that track's candidate, tagged with its position. |
| Ranking.InsertDesc | local-runner/main.py:177 | Insertion into a list sorted by descending similarity keeps it sorted and adds exactly the element. |
| Ranking.InsertDescMembers | local-runner/main.py:177 | The members after insertion are the old ones and the new one. |
| Ranking.SortDesc | local-runner/main.py:177 | The result is sorted by descending similarity and is a permutation of its input. |
| Ranking.SortDescKeepsSources | local-runner/main.py:177 | The sort is stable: equal similarities stay in track order. |
| Ranking.InsertDescKeepsSources | local-runner/main.py:177 | Inserting a candidate from a later track keeps each track once and equal similarities in track order. |
| Ranking.TopFive | local-runner/main.py:177 | The cut keeps min(5, n) entries. |
| Ranking.TopFiveIsBest | local-runner/main.py:177 | The top five are sorted, stable and drawn from the candidates. All are kept when there are at most five. Every left-out candidate is no more similar than any kept one. |
| Ranking.TopRankedFromTracks | local-runner/main.py:135-177 | At most five recommendations, sorted and stable, each the recommendation of its own track. |
| Ranking.TopRankedLeftOut | local-runner/main.py:135-177 | A track that yields a recommendation but is not kept means five were kept, each at least as similar as it. |
| LocalRunner.ReadJob | local-runner/main.py:193-197 | A missing documentId is the KeyError "'documentId'". Otherwise the master defaults to the document, the document list to [document], and the file ids to []. |
| LocalRunner.ReadJobKeepsGivenFields | local-runner/main.py:195-197 | Fields that are given are taken as is. |
| LocalRunner.Queries | local-runner/main.py:229-234 | A missing filter raises a KeyError, genre first. Otherwise there is an equality query on genre iff the genre is not "all", the same for artist, and no other queries. |
| LocalRunner.DocResultSpec | local-runner/main.py:111-131 | A document is processed iff it can be read, has a non-empty fileIds list, and its first file can be analysed; the processed file is that first file id. |
| LocalRunner.DocResultsAppend | local-runner/main.py:111-133 | Processing documents one after another concatenates their results; one document's failure does not affect the others. |
| LocalRunner.MergeScores | local-runner/main.py:126-127 | The merge loop computes the halving merge. |
| LocalRunner.ProcessRecordings | local-runner/main.py:107-133 | The processed files are the first file ids of the documents that could be processed, in order, and the combined scores are the halving combination of their scores. |
| LocalRunner.DocStep | local-runner/main.py:111-131 | One document adds its first file and merges its scores when it can be read, lists a file and that file can be analysed; otherwise it changes nothing. |
| LocalRunner.ProcessFiles | local-runner/main.py:218-226 | Standalone files are appended and combined in the same way, continuing from the documents' state. |
| LocalRunner.FileStep | local-runner/main.py:218-226 | One standalone file adds its id and merges its scores when it can be analysed; otherwise it changes nothing. |
| LocalRunner.CombinedScores | local-runner/main.py:215-226 | The documents-then-files combination equals one combination over both, with each note's halving mean. |
| LocalRunner.LocalNoteFlags | local-runner/main.py:144-158 | A dictionary is used as is, and text is read with the JSON parser, failing when it fails. A list of notes flags exactly its members, and missing or unsupported note data flags nothing. |
| LocalRunner.GenerateRecommendations | local-runner/main.py:135-177 | The loop yields the top five of the tracks' recommendations. |
| LocalRunner.FailureWritesSpec | local-runner/main.py:280-296 | On failure the document is marked failed when its id is truthy, then the master when it is truthy and different; an update that raises stops further updates. |
| LocalRunner.AnalyseAll | local-runner/main.py:215-226 | The documents and then the files give the combined scores and the processed list. |
| LocalRunner.ResultsSplit | local-runner/main.py:215-226 | The combined scores and processed files of the whole job are those of the documents, continued with the standalone files. |
| LocalRunner.Complete | local-runner/main.py:215-264 | After the processing update: at most one write, the completed result to the master document. Without a failure, the queries and the listing succeeded, the saved result is the one for the listed tracks, and the processed files are all analysed recordings. When the queries, the listing and every update succeed there is no failure. |
| LocalRunner.ProcessJob | local-runner/main.py:199-264 | A missing document fails with its error and writes nothing. Without a failure, the writes are the processing mark and the saved result, both accepted. No write marks a failure. When the document, the queries, the listing and every update succeed there is no failure. |
| LocalRunner.Run | local-runner/main.py:179-301 | An unreadable body or a missing documentId writes nothing. A missing document only gets the failure writes. On success the document is marked processing and the master gets the result, including the processed files. Any error after the job is read ends with the failure writes. When the body, the job, the document, the queries, the listing and every update succeed, the reply is success. |
| KaraokeRecommender.DictAssign | karaoke-recommender/main.py:24 | Assigning a new name appends it to the table. |
| KaraokeRecommender.NextNoteIsNew | karaoke-recommender/main.py:19-24 | The name assigned for octave and index i is that of semitone i + 12 * octave and is new, so the table grows by exactly that entry. |
| KaraokeRecommender.GenerateNoteFrequencies | karaoke-recommender/main.py:16-25 | The nested loop builds the note table. |
| KaraokeRecommender.FrequencyToNote | karaoke-recommender/main.py:29-39 | None for a frequency that is not positive or an empty table; otherwise the name of the first closest entry. |
| KaraokeRecommender.LookupDistinct | karaoke-recommender/main.py:69 | Looking up the found name in the table gives that entry's frequency. |
| KaraokeRecommender.ScoreSample | karaoke-recommender/main.py:67-71 | A confident sample is scored iff its closest note exists and is truthy, and then against that note's table frequency. |
| KaraokeRecommender.CalculatePerformance | karaoke-recommender/main.py:62-76 | The loop computes the running-mean scores of the confident samples. |
| KaraokeRecommender.MergeScores | karaoke-recommender/main.py:131-135 | The merge loop computes the first-kept merge. |
| KaraokeRecommender.CombineRecordings | karaoke-recommender/main.py:106-141 | The file loop skips failing files and combines the others by the first-kept rule. |
| KaraokeRecommender.CombinedScores | karaoke-recommender/main.py:106-141 | A note is combined iff an analysed file scored it, as the running mean of its scores in file order. |
| KaraokeRecommender.TrackQueries | karaoke-recommender/main.py:144-148 | There is a genre or artist equality query iff that filter is non-empty and not "all" in any case, and no other query. |
| KaraokeRecommender.InactiveFilters | karaoke-recommender/main.py:145-148 | A filter adds no query iff it is empty or spells "all" in any mix of upper and lower case; any other filter adds its query. |
| KaraokeRecommender.KaraokeNoteFlags | karaoke-recommender/main.py:160 | Missing note data reads as the empty object; text is parsed; any other value raises. |
| KaraokeRecommender.NonTextNotesNeverRecommended | karaoke-recommender/main.py:160-174 | A track whose note data is missing or not text is never recommended. |
| KaraokeRecommender.Recommend | karaoke-recommender/main.py:157-186 | The loop yields the top five of the tracks' recommendations. |
| KaraokeRecommender.Complete | karaoke-recommender/main.py:144-211 | Without the imports the steps after the file loop fail with the as-written error and save nothing. Without a failure, the listing succeeded and the completed result for its tracks was saved to the document. With the imports, a successful listing and every update succeeding, there is no failure. |
| KaraokeRecommender.Handle | karaoke-recommender/main.py:86-233 | The document is marked processing first. On an error it is marked failed with the message; if that update also raises, the exception escapes. Without the imports the handler never succeeds, and fails on Query when a filter is active, on the listing error, or on datetime. When it succeeds, the result holds the top five and the combined scores. |
| KaraokeRecommender.RunAsWritten | karaoke-recommender/main.py:86-233 | The handler as written never reports success and always ends by marking the document failed. With no active filter and a successful listing, the error is the undefined datetime. |
| KaraokeRecommender.RunWithImports | karaoke-recommender/main.py:86-233 | With the imports, it succeeds whenever the body, the listing and every update succeed, saving the completed result. |
| LocalServer.HasField | local-runner/local-server.py:35 | The field test checks an object's keys and an array's items, and raises on a value that cannot be searched. |
| LocalServer.AllPresent | local-runner/local-server.py:35 | All fields are present iff each field test is true. |
| LocalServer.HealthCheck | local-runner/local-server.py:21-23 | Always 200 with status "ready". |
| LocalServer.HandleProcessing | local-runner/local-server.py:26-55 | A non-JSON request gets 400 "Request must be JSON". 400 is returned iff the request is not JSON or a field is missing. 202 "started" is returned iff it is an object with all three fields and the launch succeeded. A JSON request whose body does not parse gets 500 with the text of the BadRequest raised. Everything else is 500 with an error. |
| LocalServer.MissingFieldRefused | local-runner/local-server.py:35-36 | An object missing any one of fileIds, documentId and userId gets 400 "Missing required fields". |
| MusicPlayer.JsRem | app/components/MusicPlayer.tsx:79 | JavaScript's remainder: the Euclidean one for a non-negative dividend, negated magnitude otherwise. |
| MusicPlayer.FormatTimeReadsBack | app/components/MusicPlayer.tsx:76-81 | For a non-negative time the text is minutes, a colon, and exactly two digits of seconds below 60, and minutes*60 + seconds is the number of whole seconds. |
| MusicPlayer.SecondsReadBack | app/components/MusicPlayer.tsx:79-80 | Seconds below 60 are written as exactly two digits that read back as the seconds. |
| MusicPlayer.SpeakerIconFor | app/components/MusicPlayer.tsx:84-94 | Mute iff the volume is 0, low iff non-zero and below 0.33, medium iff in [0.33, 0.66), high iff at least 0.66. |
| MusicPlayer.SpeakerIconMonotone | app/components/MusicPlayer.tsx:84-94 | Over the slider's range a louder volume never shows a quieter icon, and the icon names are distinct. |
| MusicPlayer.Player.constructor | app/components/MusicPlayer.tsx:8-12 | No sound, paused, volume 1, position 0, duration 0. |
| MusicPlayer.Player.SoundLoaded | app/components/MusicPlayer.tsx:22-26 | After loading there is a sound, and the duration is the reported one, or 0. |
| MusicPlayer.Player.HandlePlayPause | app/components/MusicPlayer.tsx:48-57 | Without a sound nothing changes. With one, a playing sound is paused or a paused one played, and isPlaying flips. |
| MusicPlayer.Player.HandleVolumeChange | app/components/MusicPlayer.tsx:60-65 | The volume is set on the sound and shown only when a sound is loaded. |
| MusicPlayer.Player.HandleSeek | app/components/MusicPlayer.tsx:68-73 | The position is set on the sound and shown only when a sound is loaded. |
| MusicPlayer.Player.OnPlaybackStatusUpdate | app/components/MusicPlayer.tsx:29-34 | Position and isPlaying follow a loaded status; any other status changes nothing. |
| MusicPlayer.Player.PlayButtonIcon | app/components/MusicPlayer.tsx:123 | "pause" iff playing, "play" iff not. |
| MusicPlayer.ControlsWithoutSound | app/components/MusicPlayer.tsx:48-73 | Without a sound, presses of play/pause, volume and seek leave the player and the sound untouched. |
| MusicPlayer.PlayPauseTwice | app/components/MusicPlayer.tsx:48-57 | Two presses with a sound restore isPlaying, sending play and pause in the right order. |
| SearchInput.SearchRoute | app/components/SearchInput.tsx:10-14 | A route exists iff the value is not all white space, and it is "/search/" followed by the untrimmed value. |
| SearchInput.SearchRouteKeepsValue | app/components/SearchInput.tsx:12 | The route ends in exactly the value as typed. |
| SearchInput.SearchField.constructor | app/components/SearchInput.tsx:8 | A new field is not focused and has navigated nowhere. |
| SearchInput.SearchField.OnFocus | app/components/SearchInput.tsx:28 | Focus sets isFocused and navigates nowhere. |
| SearchInput.SearchField.OnBlur | app/components/SearchInput.tsx:29 | Blur clears isFocused and navigates nowhere. |
| SearchInput.SearchField.HandleSearch | app/components/SearchInput.tsx:10-14 | A blank value pushes nothing; any other value pushes "/search/" followed by the value. |
| SearchInput.SearchField.OnSubmitEditing | app/components/SearchInput.tsx:30 | Return on the keyboard pushes exactly what the search button pushes. |
| SearchInput.SearchField.OnPressSearch | app/components/SearchInput.tsx:33 | The search button pushes the route of a non-blank value. |
| SearchInput.SearchField.BorderClass | app/components/SearchInput.tsx:20 | The border is "border-secondary" iff focused, and "border-black-200" otherwise. |
| SearchInput.FocusThenBlur | app/components/SearchInput.tsx:28-29 | Focus and then blur end unfocused with the plain border, with no navigation. |

## Findings

| source | as written | input that shows it | evidently intended | confidence | as-written member | corrected member |
|---|---|---|---|---|---|---|
| karaoke-recommender/main.py:144-202 | `Query` (line 146) and `datetime` (line 202) are used but never imported, so building a filter query or the result raises NameError. | Any request whose processing update succeeds: an active filter fails on `Query`, and with no filter the listing is followed by a failure on `datetime`. | The recommendations and scores are saved, the document is completed, and success is returned. | high; not executed | KaraokeRecommender.RunAsWritten | KaraokeRecommender.RunWithImports |

## Left out

- Floating point: reals replace floats. NaN, infinities, rounding in `round`, `log2` and `sqrt`, and numpy's float conversions are not modelled. The table frequency, the accuracy and the similarity are function parameters.
- Audio I/O: ffmpeg checks and conversion, temporary files, downloads, WAV reads and CREPE. A recording's analysis is one outcome parameter: its pitch samples, or failure.
- Appwrite SDK, `fetch`, Flask and subprocess calls are outcome parameters. The launch of `processor.py` is not part of this model; the server only sees the launch's outcome.
- Client setup and environment variables of both handlers are not modelled; their failures are treated like any other collaborator error.
- `createUser`, `signIn`, `getTracksByArtist` and `getTracksByGenre` in lib/appwrite.js are outside the core and not modelled.
- The result fields derived only for display: `strongNotes`, `weakNotes`, `overallAccuracy`, `accuracyScore`, the `crepeAnalysis` text and `processedAt`. The model keeps the recommendations, the combined scores, the processed files or file count, and the child documents.
- JSON parsing is an outcome parameter. Invalid text and values that are not objects both count as failures, which skip the track in both handlers.
- LocalRunner.ReadJob: a key present with the value null is modelled as a missing key, which reverses some outcomes. In the source `data.get` returns the stored null, not the default. A null masterDocumentId makes the final update on a None id raise, so the source fails where the model uses the document id and can succeed. A null documentIds or fileIds makes the loop over None raise (local-runner/main.py:111, 218), where the model processes `[documentId]` or `[]`. A null documentId is not a KeyError in the source: the job goes on with a None id until a collaborator call on it fails.
- Ranking.CandidateFrom: a track attribute stored as null is modelled as missing, so the track is dropped. In the source `track['songName']` (or artist, genre, `$id`) gives None, and the track is kept with None in that field (local-runner/main.py:165-171).
- LocalRunner.DocResult: getDoc gives a tracking document's fileIds attribute as a list of ids. A document written by processRecording stores them as JSON text (lib/appwrite.js:206). For such a document the source's `fileIds[0]` is the character "[", so its download fails and the document is skipped. The model does not represent fileIds held as text.
- Appwrite.GetAllTracks: a listing rejected with a value that is not an Error object (a bare string, say) is not modelled; String() of such a value is the value itself.
- Request values of the wrong type, such as a number where a filter string is expected, are not modelled.
- The player's load and unload effect is reduced to `SoundLoaded`. Rejected promises of the sound engine are not modelled: every awaited call is taken to succeed.
- The `value` prop of the search input is taken to be a string; the React rendering and styling beyond the border class are not modelled.
- `AsciiLower` lowercases ASCII letters only, and the string order compares characters by code point. Python's `str.lower` on other letters and the UTF-16 ordering of surrogate pairs are not modelled.
- Iteration order of Python dictionaries in the per-note merges is not modelled: each note's entry is updated once, so the order does not change the result.
- LocalRunner.MergeScores: the local merge halves the first score of a note, since it adds it to 0. This is modelled as written and not listed as a finding, because the intent cannot be told from the code.
- KaraokeRecommender.Handle: the handler requires a note table with distinct names, which the dictionary it models always has.
- MusicPlayer.FormatTimeReadsBack: stated for non-negative times only. For negative input JavaScript's remainder gives a negative seconds part, which the formatter writes as it is.
