# Photo-album upload service: album registry and storage keys

This project models the core of a small photo-album server. Clients create
an album, upload images to it and read back the album's photo list. Album
metadata lives in a process-wide table. Image bytes go to an S3-compatible
object store under a generated key.

Three modules:

- `JsStrings` (`js_strings.dfy`): a JavaScript string as its sequence of
  UTF-16 code units (`CodeUnit`, 0 to 0xFFFF), and `startsWith`.
  A Dafny `char` cannot hold a lone surrogate, so code units are used
  instead of `char`.
- `S3` (`s3.dfy`): `generateFileName`, which sanitizes the original file
  name and builds `albums/<albumId>/<timestamp>_<sanitized>`. It also gives
  the result of `uploadToS3`: the public URL `<base>/<key>`, or a failure.
- `Routes` (`routes.dfy`): the `albums` table as the class `AlbumRegistry`,
  with the five handlers and multer's `fileFilter`.
  - Create album and upload change the table in place, so they are methods.
  - Get album, list albums and health only read it, so they are functions.

Inputs that the server takes from the outside world are parameters:

- the id from `uuidv4()` (`CreateAlbum`'s `albumId`);
- the ISO time strings (`createdAt`, `uploadedAt`, the health `timestamp`);
- the `Date.now()` reading used in the key (`now` / `timestamp`);
- whether the remote put of `uploadToS3` succeeds (`sent`);
- the configured public base URL (`publicBase`).

`Upload` also returns `storeKey`: the key handed to the object store, or
`None` when the store is never called.

A JavaScript `Map` iterates in insertion order, and `GET /albums` shows that
order. So the registry keeps `order` (each id once, in first-insertion order)
beside the `albums` map. `albums.set` on an id already present replaces the
record and keeps its place. `CreateAlbum` does not require a fresh id: the
table grows by one exactly when the id is new.

Two consequences of the code worth knowing:

- The sanitizer keeps dots, so `my photo!.PNG` becomes `my_photo_.PNG`
  (`S3.SanitizeExample`).
- multer's file filter runs before the handler. A non-image file is rejected
  even for an album that does not exist, so a missing album gives 404 only
  for an image file or no file (`Routes.AlbumRegistry.Upload`).

## Model

| member | source | states |
|---|---|---|
| `JsStrings.StartsWith` | server/routes.js:18 | `startsWith(prefix)`, compared code unit by code unit, holds exactly when `prefix` is a prefix of the string, in both directions |
| `S3.KeyRootSpelling` | server/s3.js:62 | the fixed key directory is the text `albums/` |
| `S3.ReplaceDisallowed` | server/s3.js:59 | the global regex replace keeps the length; each code unit in `[a-zA-Z0-9.]` is kept, every other one, a surrogate included, becomes `_` |
| `S3.Sanitize` | server/s3.js:58-60 | the sanitized name has length `min(50, \|originalName\|)`; at each position below 50 a kept code unit is unchanged and any other is `_`; every code unit is in `[a-zA-Z0-9._]` |
| `S3.SanitizeIdempotent` | server/s3.js:58-60 | replacing and truncating a sanitized name again returns it unchanged |
| `S3.SanitizeExample` | server/s3.js:58-60 | `my photo!.PNG` sanitizes to `my_photo_.PNG` |
| `S3.Decimal` | server/s3.js:62 | the printed timestamp is non-empty, all decimal digits, and starts with `0` only for timestamp 0 |
| `S3.DecimalRoundTrip` | server/s3.js:62 | the printed timestamp reads back as the timestamp |
| `S3.GenerateFileName` | server/s3.js:55-63 | a key starts with `albums/` + albumId + `/` + timestamp + `_`, ends with the sanitized name, and has exactly the length of those parts together |
| `S3.KeyLastSegment` | server/s3.js:59-62 | the sanitized name holds no `/`; the key's last path segment is timestamp digits, `_` and the sanitized name, so it starts with a digit and is never `.` or `..`, even for the original name `..` |
| `S3.UploadToS3` | server/s3.js:25-47 | the upload gives a URL exactly when the remote put succeeds; the URL is the public base, `/`, and the key, each recoverable from it |
| `S3.UrlDeterminesKey` | server/s3.js:38 | under one public base, equal public URLs come from equal keys |
| `Routes.ImagePrefixSpelling` | server/routes.js:18 | the accepted MIME prefix is the text `image/` |
| `Routes.FileFilter` | server/routes.js:16-23 | a file is accepted exactly when its MIME type starts with `image/` |
| `Routes.PhotoUrls` | server/routes.js:131 | one URL per photo, in order: entry i is the URL of photo i |
| `Routes.AppendPhoto` | server/routes.js:89-94 | the push adds exactly one photo, at the end; earlier photos, the id and `createdAt` are unchanged |
| `Routes.Summaries` | server/routes.js:149-153 | one summary per listed id, in order, each with that album's id, photo count and creation time |
| `Routes.AlbumRegistry.constructor` | server/routes.js:27 | the table starts empty |
| `Routes.AlbumRegistry.CreateAlbum` | server/routes.js:30-45 | the id is mapped to a record with that id, no photos and the creation time; every other entry is unchanged; a new id is appended to the iteration order and the count health reports grows by exactly one; the response is 200 with the id |
| `Routes.AlbumRegistry.Upload` | server/routes.js:57-111 | a non-image file goes to the error handler; otherwise a missing album gives 404, even with no file; a missing file gives 400; none of these calls the store or changes the table. Otherwise the store is called with the generated key; if it fails the answer is 500 and nothing is appended; if it succeeds exactly one photo, with the store's URL and the original name, is appended to that album only, and the answer is 200 with the URL |
| `Routes.AlbumRegistry.GetAlbum` | server/routes.js:114-135 | a missing id gives 404; otherwise 200 with the album's details, `photos[i]` the URL of `photoDetails[i]`, and `totalPhotos` the number of photos |
| `Routes.AlbumRegistry.ListAlbums` | server/routes.js:147-159 | one summary per album, in the table's iteration order, each with that album's photo count; `total` is the number of albums, and every album appears |
| `Routes.AlbumRegistry.AlbumCount` | server/routes.js:175 | `albums.size` is the number of albums, which in a valid table is the number of ids the Map iterates over |
| `Routes.AlbumRegistry.Health` | server/routes.js:171-177 | health always answers 200 with the timestamp it was given, and the album count it reports equals the total of the album list |
| `Routes.CreateUploadTwiceGet` | server/routes.js:89-134 | after creating an album and uploading two images to it, reading it gives both store URLs in upload order and a total of two |

## Left out

- `uploadToS3`'s remote put (server/s3.js:25-47) is remote I/O through the AWS SDK. Its outcome is the input `sent`. The file bytes, bucket, ACL and content type it sends are not modelled.
- `uuidv4()`, `Date.now()` and `new Date().toISOString()` are clocks and randomness. They are inputs. So the model does not show that two creates give distinct ids: uniqueness of the ids belongs to the id generator.
- The timestamp is a `nat`. A negative clock reading, or one of 10^21 ms or more, would print differently in JavaScript (a sign, or exponent form); that is not modelled.
- The `extension` variable (server/s3.js:57) is computed and never used.
- multer's multipart parsing and its 10 MB size limit (server/routes.js:11-15) are library behaviour. Only the file filter is modelled.
- The HTTP status of a request rejected by the file filter is chosen by the general error handler in server/index.js. The model ends that request at `ToErrorHandler(NotAnImage)` and does not state a status.
- The `catch` branches that answer 500 in create album, get album and list albums (server/routes.js:47-53, 137-143, 161-167) cannot be reached in the model: none of its operations throw.
- The error message texts are the variants of `ErrorKind`. `success` is implied by the body variant, and health's constant `status: 'ok'` is implied by the `HealthStatus` variant.
- `console.log` and `console.error` calls.
- Requests that interleave at the `await` of the upload (server/routes.js:82) are not modelled: each request is one sequential step.
- Album records are values. `album.photos.push` mutates the stored record in place, and the model replaces the record with `AppendPhoto`'s result; no other code holds a reference to the record, so the outcome is the same.
- Express wiring, CORS, body parsing, request logging, the generic 404 and error handlers and `app.listen` (server/index.js) are framework plumbing.
- js/login.js is browser UI: DOM events, `localStorage` and redirects.
