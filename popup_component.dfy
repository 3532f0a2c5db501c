/** The popup of one location: its comment input and its photos. Photo bytes
    live in blob storage under a path derived from the location id and the
    file name; the record's `photos` and `comments` fields are written through
    the record store; and the popup keeps its own local `photos` list, which it
    appends to and removes from once the remote steps have succeeded. */
module PopupComponent {
  import opened Records

  /** Files larger than this many bytes are refused. */
  const MaxPhotoBytes: nat := 3000000
  /** The file input is offered only while fewer photos than this are shown. */
  const MaxPhotos: nat := 3

  /** The chosen file: its name and its size in bytes. */
  datatype File = File(name: string, size: nat)

  /** How an awaited remote step settles. */
  datatype Step = Succeeded | Failed

  /** The remote requests the popup issues. */
  datatype RemoteCall =
    | UploadBytes(path: string)
    | GetDownloadUrl(path: string)
    | DeleteObject(path: string)
    | AppendPhoto(docId: string, photo: Photo)
    | RemovePhoto(docId: string, photo: Photo)
    | AppendComment(docId: string, comment: Comment)

  // ---------------------------------------------------------------------------
  // Storage paths
  // ---------------------------------------------------------------------------

  /** The storage folder of a location's photos. */
  function PhotoFolder(locationId: string): string
  {
    "locations/" + locationId + "/photos/"
  }

  /** The storage path of a location's photo with the given file name, the
      same for upload and delete. */
  function StoragePath(locationId: string, name: string): (path: string)
    ensures |path| == |PhotoFolder(locationId)| + |name|
    ensures path[..|PhotoFolder(locationId)|] == PhotoFolder(locationId)
    ensures path[|PhotoFolder(locationId)|..] == name
  {
    PhotoFolder(locationId) + name
  }

  /** `n` is the position of the first slash in `t`. */
  ghost predicate FirstSlashAt(t: string, n: nat)
  {
    n < |t| && t[n] == '/' && forall k :: 0 <= k < n ==> t[k] != '/'
  }

  lemma FirstSlashAfterId(id: string, rest: string)
    requires '/' !in id
    ensures FirstSlashAt(id + "/" + rest, |id|)
  {
  }

  /** Document ids never contain a slash; under that condition different
      (location, file name) pairs get different blobs, and uploading a name
      twice to one location reuses its blob. */
  lemma StoragePathInjective(id1: string, name1: string, id2: string, name2: string)
    requires '/' !in id1 && '/' !in id2
    ensures StoragePath(id1, name1) == StoragePath(id2, name2) <==> id1 == id2 && name1 == name2
  {
    if StoragePath(id1, name1) == StoragePath(id2, name2) {
      var p := StoragePath(id1, name1);
      var tail := p[10..];
      assert tail == id1 + "/" + ("photos/" + name1);
      assert tail == id2 + "/" + ("photos/" + name2);
      FirstSlashAfterId(id1, "photos/" + name1);
      FirstSlashAfterId(id2, "photos/" + name2);
      assert |id1| == |id2|;
      assert id1 == tail[..|id1|] && id2 == tail[..|id2|];
      assert PhotoFolder(id1) == PhotoFolder(id2);
    }
  }

  // ---------------------------------------------------------------------------
  // Awaited workflows
  // ---------------------------------------------------------------------------

  predicate AllSucceeded(outcomes: seq<Step>)
  {
    forall k :: 0 <= k < |outcomes| ==> outcomes[k] == Succeeded
  }

  /** The requests a handler issues when it awaits `plan` one request at a
      time with no `catch`: each request is sent only after the one before it
      succeeded, and the first failure ends the handler. */
  function Issued<C>(plan: seq<C>, outcomes: seq<Step>): (calls: seq<C>)
    requires |plan| == |outcomes|
    ensures |calls| <= |plan| && calls == plan[..|calls|]
    ensures plan != [] ==> |calls| >= 1
    ensures forall k :: 0 <= k < |calls| - 1 ==> outcomes[k] == Succeeded
    ensures 0 < |calls| < |plan| ==> outcomes[|calls| - 1] == Failed
    ensures plan != [] ==> (calls == plan <==> AllSucceeded(outcomes[..|plan| - 1]))
  {
    if plan == [] then []
    else if outcomes[0] == Failed then [plan[0]]
    else [plan[0]] + Issued(plan[1..], outcomes[1..])
  }

  /** The requests of a photo upload, in their order: the bytes, the download
      URL, then the appended record entry. */
  function UploadPlan(locationId: string, file: File, url: string): seq<RemoteCall>
  {
    var path := StoragePath(locationId, file.name);
    [UploadBytes(path), GetDownloadUrl(path), AppendPhoto(locationId, Photo(url, file.name))]
  }

  /** The requests of a photo delete, in their order: the blob, then the
      record entry. */
  function DeletePlan(locationId: string, photo: Photo): seq<RemoteCall>
  {
    [DeleteObject(StoragePath(locationId, photo.name)), RemovePhoto(locationId, photo)]
  }

  /** A photo uploaded and then deleted is deleted from the very blob it was
      uploaded to, and the record entry removed is the one appended. */
  lemma DeleteUndoesUpload(locationId: string, file: File, url: string)
    ensures DeletePlan(locationId, Photo(url, file.name))[0].path == UploadPlan(locationId, file, url)[0].path
    ensures DeletePlan(locationId, Photo(url, file.name))[1].photo == UploadPlan(locationId, file, url)[2].photo
  {
  }

  /** The list without its entry at `i`. */
  function RemoveAt<T>(s: seq<T>, i: nat): (r: seq<T>)
    requires i < |s|
    ensures |r| == |s| - 1
    ensures forall k :: 0 <= k < i ==> r[k] == s[k]
    ensures forall k :: i <= k < |r| ==> r[k] == s[k + 1]
    ensures multiset(r) + multiset{s[i]} == multiset(s)
  {
    assert s == s[..i] + [s[i]] + s[i + 1..];
    s[..i] + s[i + 1..]
  }

  /** What `getDoc` of the location gives the popup when it opens. */
  datatype FetchOutcome = Threw | NoSuchDocument | Found(photos: Option<seq<Photo>>)

  /** The popup of one location: its `comment` and `photos` state cells. */
  class Popup {
    const locationId: string
    var comment: string
    var photos: seq<Photo>

    constructor (locationId: string)
      ensures this.locationId == locationId && comment == "" && photos == []
    {
      this.locationId := locationId;
      comment := "";
      photos := [];
    }

    /** Whether the file input is offered: exactly while one more photo still
        fits under the cap. */
    predicate UploadInputShown(): (shown: bool)
      reads this
      ensures shown <==> |photos| + 1 <= MaxPhotos
    {
      |photos| < MaxPhotos
    }

    /** The `fetchPhotos` effect: a found record replaces the local list by its
        `photos` field (no field: the empty list); otherwise nothing changes. */
    method FetchPhotos(fetched: FetchOutcome)
      modifies this`photos
      ensures fetched.Found? ==> photos == (if fetched.photos.Some? then fetched.photos.value else [])
      ensures !fetched.Found? ==> photos == old(photos)
    {
      if fetched.Found? {
        photos := if fetched.photos.Some? then fetched.photos.value else [];
      }
    }

    /** `handleCommentSubmit`: writes `{text: comment}` to the record and
        clears the input only once that write has succeeded. */
    method SubmitComment(written: Step) returns (calls: seq<RemoteCall>)
      modifies this`comment
      ensures calls == [AppendComment(locationId, Comment(old(comment)))]
      ensures calls == Issued([AppendComment(locationId, Comment(old(comment)))], [written])
      ensures comment == if written == Succeeded then "" else old(comment)
    {
      calls := [AppendComment(locationId, Comment(comment))];
      if written == Failed {
        return;
      }
      comment := "";
    }

    /** `handlePhotoChange` for the chosen file (`None` when the input's file
        list is empty: reading its size throws and nothing happens), given how
        its three awaited steps settle (`url` is what a successful URL fetch
        returns). A file over the size limit is refused before any request.
        Otherwise the
        requests go out in plan order until one fails, and the new entry is
        appended locally, after everything else, only when all three
        succeeded. The handler does not look at the photo count; only the
        hidden input keeps the list at three. */
    method PhotoChange(chosen: Option<File>, uploaded: Step, urlFetched: Step, url: string, recorded: Step)
      returns (calls: seq<RemoteCall>)
      modifies this`photos
      ensures chosen.None? ==> calls == [] && photos == old(photos)
      ensures chosen.Some? && chosen.value.size > MaxPhotoBytes ==> calls == [] && photos == old(photos)
      ensures chosen.Some? && chosen.value.size <= MaxPhotoBytes ==>
                calls == Issued(UploadPlan(locationId, chosen.value, url), [uploaded, urlFetched, recorded])
      ensures photos == if chosen.Some? && chosen.value.size <= MaxPhotoBytes && AllSucceeded([uploaded, urlFetched, recorded])
                        then old(photos) + [Photo(url, chosen.value.name)]
                        else old(photos)
      ensures old(UploadInputShown()) ==> |photos| <= MaxPhotos
    {
      if chosen.None? {
        calls := [];
        return;
      }
      var file := chosen.value;
      if file.size > MaxPhotoBytes {
        calls := [];
        return;
      }
      var path := StoragePath(locationId, file.name);
      calls := [UploadBytes(path)];
      if uploaded == Failed {
        assert [uploaded, urlFetched, recorded][0] == Failed;
        return;
      }
      calls := calls + [GetDownloadUrl(path)];
      if urlFetched == Failed {
        assert [uploaded, urlFetched, recorded][1] == Failed;
        return;
      }
      var newPhoto := Photo(url, file.name);
      calls := calls + [AppendPhoto(locationId, newPhoto)];
      if recorded == Failed {
        assert [uploaded, urlFetched, recorded][2] == Failed;
        return;
      }
      photos := photos + [newPhoto];
    }

    /** `handlePhotoDelete` for the photo shown at `index`, given how its two
        awaited steps settle. The blob goes first; if that fails, the record
        and the local list are left alone. The local entry is removed, keeping
        every other entry in order, only when both steps succeeded. */
    method PhotoDelete(index: nat, deleted: Step, recorded: Step) returns (calls: seq<RemoteCall>)
      requires index < |photos|
      modifies this`photos
      ensures calls == Issued(DeletePlan(locationId, old(photos)[index]), [deleted, recorded])
      ensures deleted == Failed ==>
                calls == [DeleteObject(StoragePath(locationId, old(photos)[index].name))] && photos == old(photos)
      ensures photos == if deleted == Succeeded && recorded == Succeeded
                        then RemoveAt(old(photos), index)
                        else old(photos)
    {
      var photo := photos[index];
      calls := [DeleteObject(StoragePath(locationId, photo.name))];
      if deleted == Failed {
        return;
      }
      calls := calls + [RemovePhoto(locationId, photo)];
      if recorded == Failed {
        return;
      }
      photos := RemoveAt(photos, index);
    }
  }
}
