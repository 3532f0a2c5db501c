/** The records the map app keeps in its shared `locations` collection, and the
    mapping from a collection snapshot to the local list that two components
    (the location list and the map) both perform. */
module Records {

  datatype Option<+T> = None | Some(value: T)

  /** A point as the app stores it, `{lat, lng}`. Coordinates are exact reals:
      the model only copies and compares them, except for the shoelace sum that
      gives the winding of the search boundary. */
  datatype LatLng = LatLng(lat: real, lng: real)

  datatype Comment = Comment(text: string)

  /** A photo entry of a record: the download URL and the file name, which is
      also the last part of the photo's storage path. */
  datatype Photo = Photo(path: string, name: string)

  /** The fields of a stored record, as `doc.data()` returns them. `country`
      is `None` when the record has no country field (records created on a map
      click have none). */
  datatype Fields = Fields(
    name: string,
    description: string,
    country: Option<string>,
    coordinates: LatLng,
    comments: seq<Comment>,
    photos: seq<Photo>)

  /** One document of a snapshot: the store-assigned id and its fields. */
  datatype Doc = Doc(id: string, data: Fields)

  /** A local list entry, `{ id: doc.id, ...doc.data() }`. */
  datatype Location = Location(id: string, fields: Fields)
  {
    function country(): Option<string> { fields.country }
    function coordinates(): LatLng { fields.coordinates }
  }

  /** The entry built from one document. */
  function FromDoc(d: Doc): (l: Location)
    ensures l.id == d.id && l.fields == d.data
  {
    Location(d.id, d.data)
  }

  /** The document an entry was built from. */
  function ToDoc(l: Location): Doc
  {
    Doc(l.id, l.fields)
  }

  /** `snapshot.docs.map(doc => ({ id: doc.id, ...doc.data() }))`: the new
      local list, one entry per document, in snapshot order. */
  function FromSnapshot(docs: seq<Doc>): (ls: seq<Location>)
    ensures |ls| == |docs|
    ensures forall k :: 0 <= k < |docs| ==> ls[k].id == docs[k].id && ls[k].fields == docs[k].data
  {
    seq(|docs|, k requires 0 <= k < |docs| => FromDoc(docs[k]))
  }

  function ToSnapshot(ls: seq<Location>): (docs: seq<Doc>)
    ensures |docs| == |ls|
  {
    seq(|ls|, k requires 0 <= k < |ls| => ToDoc(ls[k]))
  }

  /** The local list loses nothing of the snapshot: it gives the documents back
      exactly, in their order. */
  lemma SnapshotRoundTrip(docs: seq<Doc>)
    ensures ToSnapshot(FromSnapshot(docs)) == docs
  {
  }

  /** Different snapshots give different local lists: the mapping forgets
      nothing that tells two snapshots apart. */
  lemma SnapshotInjective(a: seq<Doc>, b: seq<Doc>)
    requires FromSnapshot(a) == FromSnapshot(b)
    ensures a == b
  {
  }
}
