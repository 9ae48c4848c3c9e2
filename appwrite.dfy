/** The client library over the Appwrite backend (lib/appwrite.js): uploading a recording,
    registering it for analysis, paging the track catalogue, the genre and artist pick lists,
    and looking up the signed-in user's profile document.

    Every SDK, file-system and network call is a collaborator whose outcome is a parameter;
    the upload and submission methods also return the log of calls they issued, in order. */
module Appwrite {
  import opened Common
  import StringOrder
  import JsonArray

  const StorageId: string := "67b48ebd0030e7749cef"
  const UserKaraokeTrackCollectionId: string := "67b48c36002338cee82c"
  const ProcessUrl: string := "https://hmfxhbuoqe.execute-api.ap-southeast-1.amazonaws.com/production/process"
  const AudioMimeType: string := "audio/x-m4a"

  const UploadFailedPrefix: string := "Upload failed: "
  const MissingFileMessage: string := "File does not exist at specified URI"
  const StoragePrefix: string := "Appwrite upload failed: "
  const NoFileIdMessage: string := "Appwrite did not return a file ID"
  const LambdaPrefix: string := "Lambda returned "
  const DefaultLimit: int := 25
  const DefaultOffset: int := 0

  /** What FileSystem.getInfoAsync reports about a local file. */
  datatype FileInfo = FileInfo(fileExists: bool, size: int)

  /** The fields of a new user-recording document. */
  datatype TrackingFields = TrackingFields(
    users: string,
    fileIds: string,          // the file ids as JSON text
    processingStatus: string,
    genreFilter: string,
    artistFilter: string)

  /** The JSON body posted to the analysis service. */
  datatype ProcessRequest = ProcessRequest(
    fileIds: seq<string>,
    userId: string,
    documentId: string,
    genreFilter: string,
    artistFilter: string)

  /** A collaborator call issued by the client. */
  datatype Call =
    | GetFileInfo(uri: string)
    | ReadBase64(uri: string)
    | CreateFile(bucketId: string, name: string, mimeType: string, size: int)
    | CreateDocument(collectionId: string, fields: TrackingFields)
    | Post(url: string, body: ProcessRequest)

  /** The reply of fetch: its HTTP status and the outcome of reading its JSON body. */
  datatype HttpReply<P> = HttpReply(status: nat, payload: Result<P, string>)

  predicate StorageCalled(calls: seq<Call>)
  {
    exists i :: 0 <= i < |calls| && calls[i].CreateFile?
  }

  /** A non-empty `$id`: what `!result?.$id` lets through. */
  predicate HasFileId(id: Option<string>)
  {
    id.Some? && id.value != ""
  }

  /** uploadAudioFile: checks the file exists, reads it, stores it, and returns the new file id.
      info, content and stored are the outcomes of getInfoAsync, readAsStringAsync and
      storage.createFile (the `$id` of what it returned, or the message it threw). */
  method UploadAudioFile(fileUri: string, fileName: string,
                         info: Result<FileInfo, string>,
                         content: Result<string, string>,
                         stored: Result<Option<string>, string>)
    returns (r: Result<string, string>, calls: seq<Call>)
    ensures |calls| >= 1 && calls[0] == GetFileInfo(fileUri)
    // a missing file fails before anything else is called
    ensures info.Ok? && !info.value.fileExists ==>
              r == Err(UploadFailedPrefix + MissingFileMessage) && calls == [GetFileInfo(fileUri)]
    ensures StorageCalled(calls) <==> info.Ok? && info.value.fileExists && content.Ok?
    ensures StorageCalled(calls) ==>
              calls == [GetFileInfo(fileUri), ReadBase64(fileUri),
                        CreateFile(StorageId, fileName, AudioMimeType, info.value.size)]
    // success returns exactly the stored file's id, which is never empty
    ensures r.Ok? <==> StorageCalled(calls) && stored.Ok? && HasFileId(stored.value)
    ensures r.Ok? ==> r.value != "" && stored == Ok(Some(r.value))
    // every failure carries the fixed prefix; a storage exception is wrapped twice
    ensures r.Err? ==> UploadFailedPrefix <= r.error
    ensures StorageCalled(calls) && stored.Err? ==>
              r == Err(UploadFailedPrefix + (StoragePrefix + stored.error))
    ensures StorageCalled(calls) && stored.Ok? && !HasFileId(stored.value) ==>
              r == Err(UploadFailedPrefix + NoFileIdMessage)
    ensures info.Err? ==> r == Err(UploadFailedPrefix + info.error)
    ensures info.Ok? && info.value.fileExists && content.Err? ==> r == Err(UploadFailedPrefix + content.error)
  {
    calls := [GetFileInfo(fileUri)];
    var failure: string;
    if info.Err? {
      failure := info.error;
    } else if !info.value.fileExists {
      failure := MissingFileMessage;
    } else {
      calls := calls + [ReadBase64(fileUri)];
      if content.Err? {
        failure := content.error;
      } else {
        calls := calls + [CreateFile(StorageId, fileName, AudioMimeType, info.value.size)];
        assert calls[2].CreateFile?;
        if stored.Err? {
          failure := StoragePrefix + stored.error;
        } else if !HasFileId(stored.value) {
          failure := NoFileIdMessage;
        } else {
          return Ok(stored.value.value), calls;
        }
      }
    }
    r := Err(UploadFailedPrefix + failure);
  }

  function EffectiveFilter(filter: Option<string>): string
  {
    if filter.None? then "all" else filter.value
  }

  /** processRecording: creates a pending tracking document, then posts its id to the analysis
      service. created is the new document's `$id` (or what createDocument threw); reply is
      the outcome of fetch (or what it threw). */
  method ProcessRecording<P>(fileIds: seq<string>, userId: string,
                             genreFilter: Option<string>, artistFilter: Option<string>,
                             created: Result<string, string>,
                             reply: Result<HttpReply<P>, string>)
    returns (r: Result<P, string>, calls: seq<Call>)
    // exactly one document is created, first, pending, with the filters defaulting to 'all'
    ensures |calls| >= 1
    ensures calls[0] == CreateDocument(UserKaraokeTrackCollectionId,
              TrackingFields(userId, JsonArray.EncodeArray(fileIds), "pending",
                             EffectiveFilter(genreFilter), EffectiveFilter(artistFilter)))
    ensures forall i :: 1 <= i < |calls| ==> !calls[i].CreateDocument?
    // nothing is posted unless the document exists; the post names it
    ensures created.Err? ==> calls == calls[..1] && r == Err(created.error)
    ensures created.Ok? ==>
              && |calls| == 2
              && calls[1] == Post(ProcessUrl, ProcessRequest(fileIds, userId, created.value,
                                    EffectiveFilter(genreFilter), EffectiveFilter(artistFilter)))
    // the document and the request carry the same file ids
    ensures |calls| == 2 ==> JsonArray.DecodeArray(calls[0].fields.fileIds) == Some(calls[1].body.fileIds)
    // the reply decides the result
    ensures r.Ok? <==> created.Ok? && reply.Ok? && 200 <= reply.value.status < 300 && reply.value.payload.Ok?
    ensures r.Ok? ==> r.value == reply.value.payload.value
    ensures created.Ok? && reply.Ok? && !(200 <= reply.value.status < 300) ==>
              r == Err(LambdaPrefix + NatToString(reply.value.status))
    ensures created.Ok? && reply.Err? ==> r == Err(reply.error)
  {
    var genre := EffectiveFilter(genreFilter);
    var artist := EffectiveFilter(artistFilter);
    var encoded := JsonArray.EncodeArray(fileIds);
    calls := [CreateDocument(UserKaraokeTrackCollectionId,
                             TrackingFields(userId, encoded, "pending", genre, artist))];
    if created.Err? {
      return Err(created.error), calls;
    }
    calls := calls + [Post(ProcessUrl, ProcessRequest(fileIds, userId, created.value, genre, artist))];
    JsonArray.EncodeArrayRoundTrip(fileIds);
    if reply.Err? {
      r := Err(reply.error);
    } else if !(200 <= reply.value.status < 300) {
      r := Err(LambdaPrefix + NatToString(reply.value.status));
    } else if reply.value.payload.Err? {
      r := Err(reply.value.payload.error);
    } else {
      r := Ok(reply.value.payload.value);
    }
  }

  /** A query of the document store. */
  datatype Query =
    | OrderAsc(attribute: string)
    | Limit(count: int)
    | Offset(count: int)
    | Equal(attribute: string, value: string)
    | Select(attributes: seq<string>)

  /** What listDocuments returns: one page of documents and the total number matching. */
  datatype DocumentList<D> = DocumentList(documents: seq<D>, total: int)

  datatype TrackPage<D> = TrackPage(documents: seq<D>, total: int, hasMore: bool)

  function EffectiveLimit(limit: Option<int>): int
  {
    if limit.None? then DefaultLimit else limit.value
  }

  function EffectiveOffset(offset: Option<int>): int
  {
    if offset.None? then DefaultOffset else offset.value
  }

  /** The queries getAllTracks sends: by song name, one page at the given offset. */
  function TrackQueries(limit: Option<int>, offset: Option<int>): (q: seq<Query>)
    ensures q == [OrderAsc("songName"), Limit(EffectiveLimit(limit)), Offset(EffectiveOffset(offset))]
    ensures limit.None? ==> q[1] == Limit(25)
    ensures offset.None? ==> q[2] == Offset(0)
  {
    [OrderAsc("songName"), Limit(EffectiveLimit(limit)), Offset(EffectiveOffset(offset))]
  }

  /** An exception a collaborator rejects with: its name (such as "AppwriteException") and
      its message. */
  datatype Thrown = Thrown(name: string, message: string)

  /** String(error) of an Error object, as Error.prototype.toString writes it: the name and the
      message joined by ": ", or whichever of the two is not empty. */
  function ErrorString(e: Thrown): (t: string)
    ensures e.message != "" ==> |e.message| <= |t| && t[|t| - |e.message|..] == e.message
    ensures e.name != "" ==> |e.name| <= |t| && t[..|e.name|] == e.name
    ensures e.name != "" && e.message != "" ==> t == e.name + ": " + e.message
    ensures t == "" <==> e.name == "" && e.message == ""
  {
    if e.name == "" then e.message
    else if e.message == "" then e.name
    else e.name + ": " + e.message
  }

  /** getAllTracks: one page of the catalogue and whether more follow it. A failed listing is
      rethrown as `new Error(error)`, whose message is String(error). */
  function GetAllTracks<D>(limit: Option<int>, offset: Option<int>,
                           listing: Result<DocumentList<D>, Thrown>): (r: Result<TrackPage<D>, string>)
    ensures r.Ok? <==> listing.Ok?
    ensures r.Err? ==> r.error == ErrorString(listing.error)
    ensures r.Ok? ==> r.value.documents == listing.value.documents && r.value.total == listing.value.total
    ensures r.Ok? ==> (r.value.hasMore <==> EffectiveOffset(offset) + EffectiveLimit(limit) < listing.value.total)
  {
    match listing
    case Err(e) => Err(ErrorString(e))
    case Ok(list) =>
      Ok(TrackPage(list.documents, list.total,
                   EffectiveOffset(offset) + EffectiveLimit(limit) < list.total))
  }

  function Min(a: int, b: int): int
  {
    if a <= b then a else b
  }

  /** The page a store holding `all` (in song-name order) returns for a limit and an offset. */
  function Window<D>(all: seq<D>, offset: nat, limit: nat): seq<D>
  {
    all[Min(offset, |all|)..Min(offset + limit, |all|)]
  }

  /** Against a store holding `all`, hasMore is true exactly when the next page, requested at
      offset + limit, holds at least one track. */
  lemma HasMoreIffNextPageNonEmpty<D>(all: seq<D>, offset: nat, limit: nat)
    requires limit > 0
    ensures var r := GetAllTracks(Some(limit), Some(offset),
                                  Ok(DocumentList(Window(all, offset, limit), |all|)));
            r.Ok? && (r.value.hasMore <==> Window(all, offset + limit, limit) != [])
  {
  }

  /** A document of the karaoke track collection, reduced to the fields the pick lists read. */
  datatype TrackDoc = TrackDoc(genre: string, artist: string)

  function Genres(docs: seq<TrackDoc>): (g: seq<string>)
    ensures |g| == |docs| && forall i :: 0 <= i < |docs| ==> g[i] == docs[i].genre
  {
    seq(|docs|, i requires 0 <= i < |docs| => docs[i].genre)
  }

  function Artists(docs: seq<TrackDoc>): (a: seq<string>)
    ensures |a| == |docs| && forall i :: 0 <= i < |docs| ==> a[i] == docs[i].artist
  {
    seq(|docs|, i requires 0 <= i < |docs| => docs[i].artist)
  }

  /** getAvailableGenres: the distinct genres of the catalogue, sorted; [] when listing fails. */
  function AvailableGenres(listing: Result<seq<TrackDoc>, string>): (r: seq<string>)
    ensures StringOrder.StrictlySorted(r)
    ensures listing.Err? ==> r == []
    ensures listing.Ok? ==>
              forall g :: g in r <==> exists i :: 0 <= i < |listing.value| && listing.value[i].genre == g
  {
    match listing
    case Err(_) => []
    case Ok(docs) =>
      var r := StringOrder.SortedDistinct(Genres(docs));
      assert forall g :: g in Genres(docs) <==> exists i :: 0 <= i < |docs| && docs[i].genre == g by {
        forall g ensures g in Genres(docs) ==> exists i :: 0 <= i < |docs| && docs[i].genre == g {
          if g in Genres(docs) {
            var i :| 0 <= i < |docs| && Genres(docs)[i] == g;
          }
        }
      }
      r
  }

  /** getAvailableArtists: the distinct artists of the catalogue, sorted; [] when listing fails. */
  function AvailableArtists(listing: Result<seq<TrackDoc>, string>): (r: seq<string>)
    ensures StringOrder.StrictlySorted(r)
    ensures listing.Err? ==> r == []
    ensures listing.Ok? ==>
              forall a :: a in r <==> exists i :: 0 <= i < |listing.value| && listing.value[i].artist == a
  {
    match listing
    case Err(_) => []
    case Ok(docs) =>
      var r := StringOrder.SortedDistinct(Artists(docs));
      assert forall a :: a in Artists(docs) <==> exists i :: 0 <= i < |docs| && docs[i].artist == a by {
        forall a ensures a in Artists(docs) ==> exists i :: 0 <= i < |docs| && docs[i].artist == a {
          if a in Artists(docs) {
            var i :| 0 <= i < |docs| && Artists(docs)[i] == a;
          }
        }
      }
      r
  }

  /** The genre list depends only on which genres occur: two listings with the same genres,
      in any order and with any repetition, give the same list. */
  lemma AvailableGenresDependOnlyOnGenreSet(docs1: seq<TrackDoc>, docs2: seq<TrackDoc>)
    requires forall g :: g in Genres(docs1) <==> g in Genres(docs2)
    ensures AvailableGenres(Ok(docs1)) == AvailableGenres(Ok(docs2))
  {
    StringOrder.StrictlySortedUnique(AvailableGenres(Ok(docs1)), AvailableGenres(Ok(docs2)));
  }

  /** The same for the artist list. */
  lemma AvailableArtistsDependOnlyOnArtistSet(docs1: seq<TrackDoc>, docs2: seq<TrackDoc>)
    requires forall a :: a in Artists(docs1) <==> a in Artists(docs2)
    ensures AvailableArtists(Ok(docs1)) == AvailableArtists(Ok(docs2))
  {
    StringOrder.StrictlySortedUnique(AvailableArtists(Ok(docs1)), AvailableArtists(Ok(docs2)));
  }

  /** The signed-in account, as account.get() returns it. */
  datatype Account = Account(id: string)

  /** A document of the user collection. */
  datatype UserDoc = UserDoc(id: string, accountId: string, username: Option<string>)

  function CurrentUserQueries(account: Account): seq<Query>
  {
    [Equal("accountId", account.id)]
  }

  /** getCurrentUser: the first user document of the signed-in account, or None when there is no
      account, no such document, or any call throws. account and listing are the outcomes of
      account.get() and of listing the user documents with CurrentUserQueries. */
  function GetCurrentUser(account: Result<Option<Account>, string>,
                          listing: Result<Option<seq<UserDoc>>, string>): (r: Option<UserDoc>)
    ensures account.Err? || account.value.None? ==> r.None?
    ensures r.Some? <==> account.Ok? && account.value.Some? && listing.Ok? && listing.value.Some?
                         && listing.value.value != []
    ensures r.Some? ==> r.value == listing.value.value[0]
  {
    if account.Err? || account.value.None? then None
    else if listing.Err? || listing.value.None? || listing.value.value == [] then None
    else Some(listing.value.value[0])
  }

  /** The user documents of an account, in store order: what the Equal query selects. */
  function UsersOf(users: seq<UserDoc>, accountId: string): (m: seq<UserDoc>)
    ensures forall u :: u in m ==> u in users && u.accountId == accountId
  {
    if users == [] then []
    else if users[0].accountId == accountId then [users[0]] + UsersOf(users[1..], accountId)
    else UsersOf(users[1..], accountId)
  }

  /** The earliest user document of an account in the store, if there is one. */
  function FirstUserOf(users: seq<UserDoc>, accountId: string): Option<UserDoc>
  {
    if users == [] then None
    else if users[0].accountId == accountId then Some(users[0])
    else FirstUserOf(users[1..], accountId)
  }

  lemma {:induction false} UsersOfHead(users: seq<UserDoc>, accountId: string)
    ensures UsersOf(users, accountId) == [] <==> FirstUserOf(users, accountId).None?
    ensures UsersOf(users, accountId) != [] ==> UsersOf(users, accountId)[0] == FirstUserOf(users, accountId).value
  {
    if users != [] && users[0].accountId != accountId {
      UsersOfHead(users[1..], accountId);
    }
  }

  /** Against a store holding `users`, getCurrentUser finds the earliest document of the
      signed-in account, and that document belongs to the account. */
  lemma CurrentUserIsFirstOfAccount(users: seq<UserDoc>, account: Account)
    ensures GetCurrentUser(Ok(Some(account)), Ok(Some(UsersOf(users, account.id))))
            == FirstUserOf(users, account.id)
    ensures FirstUserOf(users, account.id).Some? ==> FirstUserOf(users, account.id).value.accountId == account.id
  {
    UsersOfHead(users, account.id);
    if UsersOf(users, account.id) != [] {
      assert UsersOf(users, account.id)[0] in UsersOf(users, account.id);
    }
  }
}
