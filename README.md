# cds file service — a Dafny model of its file handlers

The cds service (pietrangelo/cds) is a small HTTP file server for the Entando
platform. Everything it stores lives under the data directory `entando-data`.
Uploaded files go to `entando-data/public/…` or `entando-data/protected/…`.
Archives are staged in `entando-data/archives`. This project models five
handlers:

- `upload` walks a multipart request field by field. It keeps the path, the
  protection flag, the destination and the file name in mutable locals. It
  creates the destination directory and streams a `file` field into one file.
  It answers with a JSON array of records.
- `index` serves a file under `entando-data/public/`.
- `delete` removes a file, or a whole directory tree.
- `decompress` unpacks a staged `.tar.gz` into `entando-data` and removes it.
- `compress` packs a directory or a file of `entando-data` into the one fixed
  archive `entando-data/archives/entando-data.tar.gz`.

The layout:

- `filesystem.dfy` (`FileSystem`) holds the disk as a map from path text to a
  directory or a regular file. It also holds the structural rules of
  `create_dir_all`, `File::create`, `remove_file` and `remove_dir_all`, and
  `PathBuf::push` with its Unix rules: an absolute segment replaces the path.
- `foreign.dfy` (`Foreign`) holds the crates the handlers call. Each one is an
  uninterpreted function value: `sanitize_filename`, UTF-8 decoding of a chunk,
  tar unpacking, and tar/gzip packing. Every property holds for every choice of
  these functions.
- `disk.dfy` (`StdFs`) holds the class `Disk`, the mutable disk. It has one
  method per disk call. A ghost journal records each call attempted, in
  order, so the lemmas can speak about the order of effects.
- `upload.dfy` (`Upload`) holds the upload handler:
  - the function `Step` models one field and `RunFields` the whole walk;
  - the method `HandleOne` is the loop body, with the branch for each field
    name, proved equal to `Step`. It works on the handler's mutable locals,
    which arrive and leave as one `Locals` record;
  - the method `Upload` is the handler's loop, proved equal to `RunFields`;
  - lemmas state what a field of each name does, and what whole requests do.
- `handlers.dfy` (`Handlers`) holds `index` (a function of the disk) and
  `delete` (a method on the disk).
- `archive.dfy` (`Archive`) holds `decompress` and `compress`. Each one is
  specified by a job function (`DecompressJob`, `CompressJob`), and a method
  on the disk is proved equal to it.

The model follows the code, which differs from the documentation in two
places:

- No handler rejects `..` or an absolute request path. `PathBuf::push` with
  an absolute segment drops `entando-data/` altogether
  (`Handlers.DeleteAbsolutePath`). `compress` then packs a directory
  anywhere on the disk (`Archive.CompressAbsolutePath`).
- A `protected` value other than "true" or "false" does not refuse the
  upload: the destination keeps its earlier value, initially "".
  `create_dir_all("")` succeeds without doing anything (`Upload.ProtectedRouting`).
  A `file` field then goes to "/" followed by the sanitized file name
  (`Upload.FileWrite` with an empty `finalPath`; `Upload.UnroutedFile` for a
  lone `file` field).

The upload's per-field record branch never runs, because the outer `file`
is never reassigned (`Upload.NoPerFieldRecords`). The answer is always one
record: its `file` is empty, and it carries the last values received
(`Upload.UploadAnswersOnce`).

## Model

| member | source | states |
|---|---|---|
| `FileSystem.PushRelative` | src/handlers.rs:333-340 | pushing a relative segment onto an empty base gives the segment itself; onto a non-empty base it adds one '/' unless the base already ends with one; the base stays a prefix |
| `FileSystem.PushAbsolute` | src/utils.rs:121-129 | pushing an absolute segment discards the base, so the joined path is the request path itself |
| `FileSystem.MakeDirs` | src/handlers.rs:185 | create_dir_all adds exactly the directory and its missing ancestors, keeps every existing entry, and leaves the directory in place |
| `FileSystem.LastSlash` | src/handlers.rs:202 | the position of the last '/' of a path, or -1: no '/' follows it (the parent `File::create` needs) |
| `FileSystem.CreateInMadeDir` | src/handlers.rs:185-202 | once create_dir_all(dir) succeeds, `File::create(dir/name)` succeeds for a plain name unless a directory sits at that spot |
| `StdFs.Disk.CreateDirAll` | src/handlers.rs:185 | succeeds exactly when no file blocks the path or an ancestor; then the tree becomes `MakeDirs`, else it is unchanged; the call is journalled |
| `StdFs.Disk.Create` | src/handlers.rs:202 | succeeds exactly when `CanCreateFile`; then the path holds an empty file (created or truncated), else nothing changes |
| `StdFs.Disk.WriteAll` | src/handlers.rs:204-207 | appends one chunk to the open file and changes nothing else |
| `StdFs.Disk.RemoveFile` | src/handlers.rs:346 | succeeds exactly on a regular file, which is then the only entry removed |
| `StdFs.Disk.RemoveDirAll` | src/handlers.rs:344 | succeeds exactly on a directory; it and everything below it is removed |
| `StdFs.Disk.Unpack` | src/utils.rs:98-101 | unpacking a regular file yields the crate's tree; a directory yields an unchanged tree (its read error is swallowed) |
| `StdFs.Disk.AppendDirAll` | src/utils.rs:131-136 | the output holds whatever the packer wrote; success exactly when packing and finishing succeeded |
| `StdFs.Disk.AppendFile` | src/utils.rs:145-147 | the output holds the single-entry archive of the source file's bytes |
| `Upload.LastText` | src/handlers.rs:166-168 | a scalar field's chunk loop succeeds exactly when every chunk decodes; the value is then the last chunk's text, or the old value when there are no chunks |
| `Upload.ReadText` | src/handlers.rs:166-168 | the chunk loop, proved to compute `LastText` |
| `Upload.LastTextValue` | src/handlers.rs:172-174 | the chunk loop is `Some` of the last chunk's text exactly when all chunks decode, else `None` |
| `Upload.WriteChunks` | src/handlers.rs:204-207 | the file ends up holding its old bytes followed by every chunk in order, with one write journalled per chunk |
| `Upload.MakeDestination` | src/handlers.rs:176-185 | the destination is `Route` of the path, the flag and the old destination; it is made a directory exactly when no file blocks it, and the call is journalled |
| `Upload.StoreFile` | src/handlers.rs:199-208 | the `file` branch succeeds exactly when the file can be created; it then holds the concatenated chunks, and on failure nothing is written |
| `Upload.HandleOne` | src/handlers.rs:162-223 | one iteration of the field loop (the name's branch, then the per-field record) succeeds, fails with its panic or error, and leaves the locals, disk and journal exactly as `Step` |
| `Upload.Upload` | src/handlers.rs:152-242 | the handler's loop answers, and leaves the disk and the journal, exactly as `RunFields` over the fields from the initial locals, `Reply` included |
| `Upload.SplitChunk` | src/handlers.rs:204-207 | how the body is split into chunks does not change the stored bytes |
| `Upload.StepScalar` | src/handlers.rs:165-197 | one field moves a path/protected/filename local only when it carries that name, and then to the text of its last chunk |
| `Upload.LastChunkWins` | src/handlers.rs:161-197 | over a whole request, each scalar local holds the text of the last chunk sent under that name; values are replaced, never concatenated |
| `Upload.NoPerFieldRecords` | src/handlers.rs:199-223 | the per-field record is never appended: the outer `file` stays empty for the whole walk |
| `Upload.UploadAnswersOnce` | src/handlers.rs:227-241 | the answer fails exactly when the walk stopped; otherwise it is exactly one "Ok" record with an empty `file`, the last file name, the last protection value and the final destination |
| `Upload.ProtectedRouting` | src/handlers.rs:171-186 | a `protected` field: "archives" goes to entando-data/archives; "true" and "false" pick the protected or public zone; any other value keeps the destination; the destination is then made a directory, else it panics |
| `Upload.FilenameMarksDirectory` | src/handlers.rs:188-197 | a `filename` field marks a directory-only upload exactly when its text is empty, and does not touch the disk |
| `Upload.PathFieldKeepsRoute` | src/handlers.rs:165-169 | a `path` field only records the path; the destination is not recomputed |
| `Upload.FileWrite` | src/handlers.rs:199-208 | a `file` field writes nothing in a directory-only upload; otherwise it creates `finalPath/sanitize(filename)` and fills it with its chunks, or fails with an error and nothing written |
| `Upload.OtherFieldsIgnored` | src/handlers.rs:161-224 | fields with any other name change nothing |
| `Upload.Routed` | src/handlers.rs:161-197 | path, protected and filename fields of one chunk each leave the routed destination made and the locals set |
| `Upload.StoredRun` | src/handlers.rs:161-224 | a request in the documented order stores the file under its sanitized name in the routed directory, with that effect order |
| `Upload.StoredUpload` | src/handlers.rs:152-242 | such a request answers with one record naming the file name, the destination and the flag; the disk and journal are as stored |
| `Upload.PublicUpload` | src/handlers.rs:179-185 | protected "false" stores the file under ./entando-data/public/<path> |
| `Upload.DirectoryOnlyUpload` | src/handlers.rs:192-199 | an empty file name creates the destination directory only, and the answer carries an empty file name |
| `Upload.ArchivesUpload` | src/handlers.rs:176-185 | path "archives" stores the file in entando-data/archives whatever the protection flag |
| `Upload.UnroutedFile` | src/handlers.rs:199-202 | a request made of one lone `file` field first attempts `File::create` of "/" followed by the sanitized empty name, and fills that file when the create succeeds |
| `Handlers.RequestPath` | src/handlers.rs:333-340 | the request path under "entando-data/", or the request path itself when it is absolute |
| `Handlers.Index` | src/handlers.rs:258-281 | forbidden exactly without the "public/" prefix; served exactly when entando-data/<path> is a regular file, with its bytes; otherwise not found, with the fixed messages |
| `Handlers.Deleted` | src/handlers.rs:342-347 | the path goes, together with everything below it when it is a directory; nothing else changes |
| `Handlers.Delete` | src/handlers.rs:332-363 | "OK" with the path removed when it existed, otherwise "KO" with no change; a directory is removed recursively |
| `Handlers.DeleteAbsolutePath` | src/handlers.rs:333-346 | an absolute request path escapes entando-data and is deleted as given |
| `Archive.PackJob` | src/utils.rs:131-158 | once the output is open, exactly one packing or writing effect follows; the output exists afterwards and is the only entry added; a success names the fixed output |
| `Archive.Decompress` | src/utils.rs:83-113 | the handler answers, and leaves the disk and the journal, exactly as `DecompressJob` |
| `Archive.Compress` | src/utils.rs:116-159 | the handler answers, and leaves the disk and the journal, exactly as `CompressJob` |
| `Archive.DecompressEnsuresStagingFirst` | src/utils.rs:85 | the first disk call is create_dir_all of entando-data/archives |
| `Archive.DecompressMissingArchive` | src/utils.rs:97-112 | 404 with "Ko"/"Wrong Path" exactly when the staged archive does not exist; nothing is unpacked or removed |
| `Archive.DecompressConsumesArchive` | src/utils.rs:97-106 | an existing archive is unpacked into entando-data and then removed, whatever the unpack did; the job answers "name,fullPath" exactly when the removal succeeds |
| `Archive.CompressFixedOutput` | src/utils.rs:117-149 | the staging directory is made and the one fixed output created before the source is looked at; every success names that output |
| `Archive.CompressOutputCreatable` | src/utils.rs:117-119 | creating the output fails exactly when a directory sits at its path |
| `Archive.CompressSource` | src/utils.rs:121-158 | the source is the request path pushed onto entando-data: entando-data/<path> for a relative path, the path itself for an absolute one; a directory is packed recursively under "entando-data" (a packing error answers an error), a file as one entry, anything else answers 404 and leaves an empty archive behind |
| `Archive.CompressAbsolutePath` | src/utils.rs:121-135 | an absolute request path naming a directory outside entando-data is packed into the output, not refused |

## Left out

- The handlers `index_protected`, `list` and `health_check`, and the server
  setup in `src/main.rs`, are not part of this model.
- Paths are map keys compared as text. "./entando-data/x" and
  "entando-data/x" are different keys. "//", ".", ".." and a trailing '/'
  are not normalised, and symbolic links are not modelled. So a request
  path ending in '/' (say "public/" for `delete`, or "" for `compress`) does
  not find the directory it names on a real disk. The model also states no
  property across handlers: an upload stores under "./entando-data/public/",
  while `index` reads "entando-data/public/".
- I/O errors beyond the structural ones are not modelled: permissions, a
  full disk, failures of `File::open` or `NamedFile::open` on an existing
  regular file, and a failing `remove_dir_all` or `remove_file` on an
  existing entry.
- UTF-8 decoding, `sanitize_filename`, and tar/gzip packing and unpacking are
  uninterpreted functions. The lemmas that need a '/'-free, non-empty
  sanitized name say so in their requires. Any path-traversal guard inside
  the tar crate's unpacking is not modelled.
- Multipart transport is not modelled. Fields arrive as a finished sequence
  of (name, chunks). A stream error, which ends the field loop silently or
  fails a chunk loop, is not modelled, and neither is a field without a
  content-disposition name, which panics.
- The clock is a parameter (`now`), read once per request. The code reads it
  for each record, but at most one record is ever built.
- The `date` field is an unbounded `nat`, not a u64.
- The handlers are modelled one call at a time. Concurrent requests
  interleaving on the disk, and the async runtime, are not modelled.
- HTTP status codes, JSON encoding, ETag and Last-Modified headers are
  represented by the reply datatypes' constructors only.
