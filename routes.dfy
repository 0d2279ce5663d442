/** The API routes: the in-memory album table and the five handlers that
    read or change it, with the multer file filter in front of the upload. */
module Routes {
  import opened JsStrings
  import S3

  datatype Option<T> = None | Some(value: T)

  /** One uploaded photo, as pushed onto its album's list. */
  datatype Photo = Photo(url: JsString, uploadedAt: JsString, filename: JsString)

  /** An album record: its id, its photos in upload order, its creation time. */
  datatype Album = Album(id: JsString, photos: seq<Photo>, createdAt: JsString)

  /** The `file` field that multer parses from the multipart body: the parts
      the routes read. The bytes, which only the object store sees, are not
      modelled. */
  datatype UploadedFile = UploadedFile(mimetype: JsString, originalname: JsString)

  /** The failures a request can end in. */
  datatype ErrorKind =
    | AlbumNotFound   // 'Álbum não encontrado'
    | NoFileSent      // 'Nenhum arquivo enviado'
    | UploadFailed    // the message of the error thrown by uploadToS3
    | NotAnImage      // 'Apenas imagens são permitidas', raised by the file filter

  /** One entry of the album list. */
  datatype AlbumSummary = AlbumSummary(id: JsString, photoCount: nat, createdAt: JsString)

  /** The JSON bodies the handlers send. `success` is true in every variant
      but `Failure`; health has no `success` field, and its `status: 'ok'`
      is the `HealthStatus` variant itself. */
  datatype Body =
    | AlbumCreated(albumId: JsString)
    | PhotoUploaded(url: JsString, albumId: JsString)
    | AlbumView(albumId: JsString, photos: seq<JsString>, photoDetails: seq<Photo>,
                createdAt: JsString, totalPhotos: nat)
    | AlbumList(albums: seq<AlbumSummary>, total: nat)
    | HealthStatus(timestamp: JsString, albumCount: nat)
    | Failure(error: ErrorKind)

  datatype Response = Response(status: nat, body: Body)

  /** How a request to the upload route ends: the handler responds, or
      multer passes the filter's error on to the application's error
      handler, which picks the status. */
  datatype RouteOutcome = Responded(resp: Response) | ToErrorHandler(error: ErrorKind)

  /** `image/`. */
  const ImagePrefix: JsString := [0x69, 0x6D, 0x61, 0x67, 0x65, 0x2F]

  lemma ImagePrefixSpelling()
    ensures ImagePrefix == Ascii("image/")
  {
  }

  /** multer's `fileFilter`: a file is accepted exactly when its MIME type
      starts with `image/`. */
  function FileFilter(mimetype: JsString): (accepted: bool)
    ensures accepted <==> ImagePrefix <= mimetype
  {
    StartsWith(mimetype, ImagePrefix)
  }

  /** `album.photos.map(p => p.url)`. */
  function PhotoUrls(photos: seq<Photo>): (urls: seq<JsString>)
    ensures |urls| == |photos|
    ensures forall i :: 0 <= i < |photos| ==> urls[i] == photos[i].url
  {
    if photos == [] then [] else [photos[0].url] + PhotoUrls(photos[1..])
  }

  /** `album.photos.push(photo)` on a record. */
  function AppendPhoto(album: Album, photo: Photo): (r: Album)
    ensures r.id == album.id && r.createdAt == album.createdAt
    ensures |r.photos| == |album.photos| + 1
    ensures r.photos[..|album.photos|] == album.photos
    ensures r.photos[|album.photos|] == photo
  {
    album.(photos := album.photos + [photo])
  }

  function Summarize(album: Album): AlbumSummary
  {
    AlbumSummary(album.id, |album.photos|, album.createdAt)
  }

  /** The summaries of the albums stored under `order`, in that order. */
  function Summaries(order: seq<JsString>, albums: map<JsString, Album>): (s: seq<AlbumSummary>)
    requires forall i :: 0 <= i < |order| ==> order[i] in albums
    ensures |s| == |order|
    ensures forall i :: 0 <= i < |order| ==> s[i] == Summarize(albums[order[i]])
  {
    if order == [] then [] else [Summarize(albums[order[0]])] + Summaries(order[1..], albums)
  }

  predicate Distinct(s: seq<JsString>)
  {
    forall i, j :: 0 <= i < j < |s| ==> s[i] != s[j]
  }

  /** A sequence without repetitions has as many distinct elements as entries. */
  lemma {:induction false} DistinctCardinality(s: seq<JsString>)
    requires Distinct(s)
    ensures |set k | k in s| == |s|
  {
    if s != [] {
      var rest := s[1..];
      assert Distinct(rest) by {
        forall i, j | 0 <= i < j < |rest| ensures rest[i] != rest[j] {
          assert rest[i] == s[i + 1] && rest[j] == s[j + 1];
        }
      }
      DistinctCardinality(rest);
      assert s[0] !in rest by {
        forall i | 0 <= i < |rest| ensures rest[i] != s[0] {
          assert rest[i] == s[i + 1];
        }
      }
      assert (set k | k in s) == {s[0]} + (set k | k in rest) by {
        assert s == [s[0]] + rest;
      }
    }
  }

  /** The album table of the server. */
  class AlbumRegistry {
    /** The module-level `albums` Map: album id to album record. */
    var albums: map<JsString, Album>
    /** The Map's iteration order: every id once, in order of first insertion. */
    var order: seq<JsString>

    ghost predicate Valid()
      reads this
    {
      && Distinct(order)
      && (forall i :: 0 <= i < |order| ==> order[i] in albums)
      && (forall k :: k in albums ==> k in order)
      && (forall k :: k in albums ==> albums[k].id == k)
    }

    /** The table when the process starts: empty. */
    constructor ()
      ensures Valid()
      ensures albums == map[] && order == []
    {
      albums := map[];
      order := [];
    }

    /** A valid table has one iteration entry per album. */
    lemma OrderCoversTable()
      ensures Valid() ==> |albums| == |order|
    {
      if Valid() {
        DistinctCardinality(order);
        assert (set k | k in order) == albums.Keys;
      }
    }

    /** `albums.size`: the number of albums, which is the number of entries
        the Map iterates over. */
    function AlbumCount(): (count: nat)
      reads this
      ensures count == |albums.Keys|
      ensures Valid() ==> count == |order|
    {
      OrderCoversTable();
      |albums|
    }

    /** `POST /album`. The new id (`uuidv4()`) and the creation time are
        inputs. `albums.set` replaces an entry that has the same id and keeps
        its place in the iteration order. */
    method CreateAlbum(albumId: JsString, createdAt: JsString) returns (resp: Response)
      requires Valid()
      modifies this
      ensures Valid()
      ensures albums == old(albums)[albumId := Album(albumId, [], createdAt)]
      ensures order == if albumId in old(albums) then old(order) else old(order) + [albumId]
      ensures albumId !in old(albums) ==> AlbumCount() == old(AlbumCount()) + 1
      ensures resp == Response(200, AlbumCreated(albumId))
    {
      if albumId !in albums {
        order := order + [albumId];
      }
      albums := albums[albumId := Album(albumId, [], createdAt)];
      resp := Response(200, AlbumCreated(albumId));
    }

    /** `POST /upload/:albumId`: multer's file filter, then the handler.
        `part` is the multipart `file` field, if one was sent; `now` is the
        `Date.now()` reading that names the object; `sent` says whether the
        remote put succeeds; `publicBase` is the configured public URL;
        `uploadedAt` is the time stamped on the photo. `storeKey` is the key
        handed to the object store, or `None` when the store is never called. */
    method Upload(albumId: JsString, part: Option<UploadedFile>, now: nat, sent: bool,
                  publicBase: JsString, uploadedAt: JsString)
      returns (outcome: RouteOutcome, storeKey: Option<JsString>)
      requires Valid()
      modifies this
      ensures Valid() && order == old(order)
      ensures part.Some? && !FileFilter(part.value.mimetype) ==>
        outcome == ToErrorHandler(NotAnImage) && storeKey == None && albums == old(albums)
      ensures (part.None? || FileFilter(part.value.mimetype)) && albumId !in old(albums) ==>
        outcome == Responded(Response(404, Failure(AlbumNotFound))) && storeKey == None && albums == old(albums)
      ensures part.None? && albumId in old(albums) ==>
        outcome == Responded(Response(400, Failure(NoFileSent))) && storeKey == None && albums == old(albums)
      ensures part.Some? && FileFilter(part.value.mimetype) && albumId in old(albums) ==>
        var file := part.value;
        var key := S3.GenerateFileName(file.originalname, albumId, now);
        var stored := S3.UploadToS3(sent, publicBase, key);
        && storeKey == Some(key)
        && (stored.StoreFailed? ==>
              outcome == Responded(Response(500, Failure(UploadFailed))) && albums == old(albums))
        && (stored.Stored? ==>
              && outcome == Responded(Response(200, PhotoUploaded(stored.url, albumId)))
              && albums == old(albums)[albumId := AppendPhoto(old(albums)[albumId],
                                                              Photo(stored.url, uploadedAt, file.originalname))])
    {
      storeKey := None;
      if part.Some? && !FileFilter(part.value.mimetype) {
        outcome := ToErrorHandler(NotAnImage);
        return;
      }
      if albumId !in albums {
        outcome := Responded(Response(404, Failure(AlbumNotFound)));
        return;
      }
      if part.None? {
        outcome := Responded(Response(400, Failure(NoFileSent)));
        return;
      }
      var file := part.value;
      var key := S3.GenerateFileName(file.originalname, albumId, now);
      storeKey := Some(key);
      var stored := S3.UploadToS3(sent, publicBase, key);
      if stored.StoreFailed? {
        outcome := Responded(Response(500, Failure(UploadFailed)));
        return;
      }
      var album := albums[albumId];
      albums := albums[albumId := AppendPhoto(album, Photo(stored.url, uploadedAt, file.originalname))];
      outcome := Responded(Response(200, PhotoUploaded(stored.url, albumId)));
    }

    /** `GET /album/:albumId`. */
    function GetAlbum(albumId: JsString): (resp: Response)
      reads this
      ensures albumId !in albums ==> resp == Response(404, Failure(AlbumNotFound))
      ensures albumId in albums ==>
        var album := albums[albumId];
        && resp.status == 200 && resp.body.AlbumView?
        && resp.body.albumId == albumId
        && resp.body.createdAt == album.createdAt
        && resp.body.photoDetails == album.photos
        && |resp.body.photos| == resp.body.totalPhotos == |album.photos|
        && forall i :: 0 <= i < |album.photos| ==> resp.body.photos[i] == album.photos[i].url
    {
      if albumId !in albums then Response(404, Failure(AlbumNotFound))
      else
        var album := albums[albumId];
        Response(200, AlbumView(albumId, PhotoUrls(album.photos), album.photos,
                                album.createdAt, |album.photos|))
    }

    /** `GET /albums`: one summary per album, in the Map's iteration order. */
    function ListAlbums(): (resp: Response)
      reads this
      requires Valid()
      ensures resp.status == 200 && resp.body.AlbumList?
      ensures resp.body.total == |resp.body.albums| == |albums| == |order|
      ensures forall i :: 0 <= i < |order| ==>
        && order[i] in albums
        && resp.body.albums[i].id == order[i]
        && resp.body.albums[i].photoCount == |albums[order[i]].photos|
        && resp.body.albums[i].createdAt == albums[order[i]].createdAt
      ensures forall k :: k in albums ==>
        exists i :: 0 <= i < |resp.body.albums| && resp.body.albums[i].id == k
    {
      OrderCoversTable();
      var summaries := Summaries(order, albums);
      Response(200, AlbumList(summaries, |summaries|))
    }

    /** `GET /health`; `timestamp` is the clock reading it reports. It always
        answers 200, and the count it reports is the total of the album list. */
    function Health(timestamp: JsString): (resp: Response)
      reads this
      ensures resp.status == 200 && resp.body.HealthStatus? && resp.body.timestamp == timestamp
      ensures Valid() ==> resp.body.albumCount == ListAlbums().body.total
    {
      Response(200, HealthStatus(timestamp, AlbumCount()))
    }
  }

  /** An album created, then two photos uploaded to it one after the other:
      reading the album shows both URLs, in upload order, and a total of two. */
  method CreateUploadTwiceGet(albumId: JsString, first: UploadedFile, second: UploadedFile,
                              publicBase: JsString, t1: nat, t2: nat, clock: JsString)
      returns (view: Response, sent1: RouteOutcome, sent2: RouteOutcome)
    requires FileFilter(first.mimetype) && FileFilter(second.mimetype)
    ensures sent1.Responded? && sent1.resp.body.PhotoUploaded?
    ensures sent2.Responded? && sent2.resp.body.PhotoUploaded?
    ensures view.status == 200 && view.body.AlbumView? && view.body.totalPhotos == 2
    ensures view.body.photos == [sent1.resp.body.url, sent2.resp.body.url]
    ensures sent1.resp.body.url
         == S3.UploadToS3(true, publicBase, S3.GenerateFileName(first.originalname, albumId, t1)).url
    ensures sent2.resp.body.url
         == S3.UploadToS3(true, publicBase, S3.GenerateFileName(second.originalname, albumId, t2)).url
  {
    var registry := new AlbumRegistry();
    var _ := registry.CreateAlbum(albumId, clock);
    var key1, key2;
    sent1, key1 := registry.Upload(albumId, Some(first), t1, true, publicBase, clock);
    var photo1 := Photo(sent1.resp.body.url, clock, first.originalname);
    assert registry.albums[albumId] == Album(albumId, [photo1], clock);
    sent2, key2 := registry.Upload(albumId, Some(second), t2, true, publicBase, clock);
    var photo2 := Photo(sent2.resp.body.url, clock, second.originalname);
    assert registry.albums[albumId] == AppendPhoto(Album(albumId, [photo1], clock), photo2);
    view := registry.GetAlbum(albumId);
  }
}
