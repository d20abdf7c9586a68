/** The multipart upload handler: a walk over the request's fields in arrival
  * order that keeps the path, protection flag, destination directory and file
  * name in mutable locals, ensures the destination directory, streams a
  * `file` field into one file chunk by chunk, and answers with the records
  * it collected. */
module Upload {
  import opened FileSystem
  import opened Foreign
  import opened StdFs

  const PUBLIC_UPLOAD_PATH := "./entando-data/public/"
  const PROTECTED_UPLOAD_PATH := "./entando-data/protected/"
  const BASE_PATH := "entando-data/"

  const UTF8_PANIC := Panicked("invalid utf-8 in a field value")
  const DIR_PANIC := Panicked("unable to create directory")
  const CREATE_ERROR := Errored("unable to create file")

  /** One multipart field: its name and the chunks of its body, in order. */
  datatype Field = Field(name: string, chunks: seq<seq<Byte>>)

  /** One element of the JSON array the handler answers with. */
  datatype FileResource = FileResource(
    status: string, filename: string, file: string, date: nat, path: string, isProtectedFile: string)

  /** The handler's mutable locals. */
  datatype Locals = Locals(
    file: string, filename: string, pathValue: string, protectedValue: string,
    finalPath: string, isDirectory: bool, results: seq<FileResource>)

  const Start := Locals("", "", "", "", "", false, [])

  /** The handler between two fields: still running, or stopped by a panic or
    * an error, together with the disk and the journal of disk calls. */
  datatype Run =
    | Running(locals: Locals, fs: Tree, log: seq<Effect>)
    | Stopped(failure: Failure, fs: Tree, log: seq<Effect>)

  datatype UploadReply = Replied(results: seq<FileResource>) | Failed(failure: Failure)

  /** The value a scalar field's chunk loop leaves behind: every chunk replaces
    * the value with its own text, and an invalid chunk panics (None). */
  function LastText(utf8: seq<Byte> -> Option<string>, chunks: seq<seq<Byte>>, current: string): (r: Option<string>)
    ensures r.Some? <==> forall k | 0 <= k < |chunks| :: utf8(chunks[k]).Some?
    ensures r.Some? && chunks == [] ==> r.value == current
    ensures r.Some? && chunks != [] ==> Some(r.value) == utf8(chunks[|chunks| - 1])
  {
    if chunks == [] then Some(current)
    else match utf8(chunks[0])
      case None => None
      case Some(s) => LastText(utf8, chunks[1..], s)
  }

  /** The bytes of a chunk sequence, in order. */
  function Concat(chunks: seq<seq<Byte>>): seq<Byte> {
    if chunks == [] then [] else Concat(chunks[..|chunks| - 1]) + chunks[|chunks| - 1]
  }

  /** The journal entries of writing `chunks` to `p`, one per chunk. */
  function Writes(p: Path, chunks: seq<seq<Byte>>): seq<Effect> {
    if chunks == [] then [] else Writes(p, chunks[..|chunks| - 1]) + [Wrote(p, chunks[|chunks| - 1])]
  }

  /** The destination chosen when a `protected` field has been read. */
  function Route(pathValue: string, protectedValue: string, finalPath: string): Path {
    if pathValue != "archives" then
      if protectedValue == "true" then PROTECTED_UPLOAD_PATH + pathValue
      else if protectedValue == "false" then PUBLIC_UPLOAD_PATH + pathValue
      else finalPath
    else BASE_PATH + "archives"
  }

  /** Where a `file` field is written. */
  function FilePath(c: Crates, l: Locals): Path {
    l.finalPath + "/" + c.sanitize(l.filename)
  }

  /** What the branches for the four known field names do with one field. */
  function HandleField(c: Crates, l: Locals, fs: Tree, log: seq<Effect>, f: Field): Run {
    if f.name == "path" then
      match LastText(c.utf8, f.chunks, l.pathValue)
      case None => Stopped(UTF8_PANIC, fs, log)
      case Some(v) => Running(l.(pathValue := v), fs, log)
    else if f.name == "protected" then
      match LastText(c.utf8, f.chunks, l.protectedValue)
      case None => Stopped(UTF8_PANIC, fs, log)
      case Some(v) =>
        var dest := Route(l.pathValue, v, l.finalPath);
        if CanMakeDirs(fs, dest)
        then Running(l.(protectedValue := v, finalPath := dest), MakeDirs(fs, dest), log + [MadeDirs(dest)])
        else Stopped(DIR_PANIC, fs, log + [MadeDirs(dest)])
    else if f.name == "filename" then
      match LastText(c.utf8, f.chunks, l.filename)
      case None => Stopped(UTF8_PANIC, fs, log)
      case Some(v) => Running(l.(filename := v, isDirectory := v == ""), fs, log)
    else if f.name == "file" && !l.isDirectory then
      var p := FilePath(c, l);
      if CanCreateFile(fs, p)
      then Running(l, fs[p := File(Concat(f.chunks))], log + [Created(p)] + Writes(p, f.chunks))
      else Stopped(CREATE_ERROR, fs, log + [Created(p)])
    else Running(l, fs, log)
  }

  /** The handler's work on one field: the field's branch, then the record
    * added at the end of every iteration once `file` is set. */
  function Step(c: Crates, l: Locals, fs: Tree, log: seq<Effect>, f: Field, now: nat): Run {
    match HandleField(c, l, fs, log, f)
    case Running(l', fs', log') =>
      if l'.file != "" then
        Running(l'.(results := l'.results + [FileResource("Ok", l'.filename, "", now, l'.finalPath, l'.protectedValue)]), fs', log')
      else Running(l', fs', log')
    case Stopped(failure, fs', log') => Stopped(failure, fs', log')
  }

  /** The handler's walk over the remaining fields. */
  function RunFields(c: Crates, r: Run, fields: seq<Field>, now: nat): Run
    decreases |fields|
  {
    if fields == [] || r.Stopped? then r
    else RunFields(c, Step(c, r.locals, r.fs, r.log, fields[0], now), fields[1..], now)
  }

  /** The response once the fields are exhausted. */
  function Reply(r: Run, now: nat): UploadReply {
    match r
    case Running(l, _, _) =>
      Replied(l.results + [FileResource("Ok", l.filename, l.file, now, l.finalPath, l.protectedValue)])
    case Stopped(f, _, _) => Failed(f)
  }

  /** The chunk loop of a scalar field. */
  method ReadText(utf8: seq<Byte> -> Option<string>, chunks: seq<seq<Byte>>, current: string)
    returns (v: Option<string>)
    ensures v == LastText(utf8, chunks, current)
  {
    var value := current;
    var j := 0;
    while j < |chunks|
      invariant 0 <= j <= |chunks|
      invariant LastText(utf8, chunks[j..], value) == LastText(utf8, chunks, current)
    {
      assert chunks[j..][1..] == chunks[j + 1..];
      var s := utf8(chunks[j]);
      if s.None? {
        return None;
      }
      value := s.value;
      j := j + 1;
    }
    assert chunks[j..] == [];
    return Some(value);
  }

  /** The chunk loop of a `file` field: every chunk is appended, in order, to
    * the file created just before. */
  method WriteChunks(disk: Disk, p: Path, chunks: seq<seq<Byte>>)
    requires IsFile(disk.entries, p)
    modifies disk
    ensures disk.entries == old(disk.entries)[p := File(old(disk.entries)[p].bytes + Concat(chunks))]
    ensures disk.journal == old(disk.journal) + Writes(p, chunks)
  {
    var j := 0;
    ghost var before := old(disk.entries)[p].bytes;
    assert before + Concat(chunks[..0]) == before;
    while j < |chunks|
      invariant 0 <= j <= |chunks|
      invariant disk.entries == old(disk.entries)[p := File(old(disk.entries)[p].bytes + Concat(chunks[..j]))]
      invariant disk.journal == old(disk.journal) + Writes(p, chunks[..j])
    {
      disk.WriteAll(p, chunks[j]);
      assert chunks[..j + 1][..j] == chunks[..j];
      assert before + Concat(chunks[..j + 1]) == before + Concat(chunks[..j]) + chunks[j];
      j := j + 1;
    }
    assert chunks[..j] == chunks;
  }

  /** The end of the `protected` branch: pick the destination from the path
    * and the flag, then make sure it is a directory. */
  method MakeDestination(disk: Disk, pathValue: string, protectedValue: string, finalPath: Path)
    returns (dest: Path, ok: bool)
    modifies disk
    ensures dest == Route(pathValue, protectedValue, finalPath)
    ensures ok == CanMakeDirs(old(disk.entries), dest)
    ensures disk.entries == if ok then MakeDirs(old(disk.entries), dest) else old(disk.entries)
    ensures disk.journal == old(disk.journal) + [MadeDirs(dest)]
  {
    dest := finalPath;
    if pathValue != "archives" {
      if protectedValue == "true" {
        dest := PROTECTED_UPLOAD_PATH + pathValue;
      } else if protectedValue == "false" {
        dest := PUBLIC_UPLOAD_PATH + pathValue;
      }
    } else {
      dest := BASE_PATH + "archives";
    }
    ok := disk.CreateDirAll(dest);
  }

  /** The `file` branch: create (or truncate) the file, then stream every
    * chunk into it; nothing is written when the create fails. */
  method StoreFile(disk: Disk, p: Path, chunks: seq<seq<Byte>>) returns (ok: bool)
    modifies disk
    ensures ok == CanCreateFile(old(disk.entries), p)
    ensures disk.entries == if ok then old(disk.entries)[p := File(Concat(chunks))] else old(disk.entries)
    ensures disk.journal == old(disk.journal) + [Created(p)] + (if ok then Writes(p, chunks) else [])
  {
    ok := disk.Create(p);
    if ok {
      WriteChunks(disk, p, chunks);
      assert [] + Concat(chunks) == Concat(chunks);
    } else {
      assert disk.journal == old(disk.journal) + [Created(p)] + [];
    }
  }

  lemma RunFieldsUnfold(c: Crates, r: Run, fields: seq<Field>, i: nat, now: nat)
    requires r.Running? && i < |fields|
    ensures RunFields(c, r, fields[i..], now)
         == RunFields(c, Step(c, r.locals, r.fs, r.log, fields[i], now), fields[i + 1..], now)
  {
    assert fields[i..][1..] == fields[i + 1..];
  }

  /** The body of the field loop: the branch for the field's name, then the
    * per-field record. The handler's locals come in as `l` and go out as
    * `next`; `failure` is the panic or error that ends the request. */
  method HandleOne(disk: Disk, c: Crates, l: Locals, field: Field, now: nat)
    returns (next: Locals, failure: Option<Failure>)
    modifies disk
    ensures var r := Step(c, l, old(disk.entries), old(disk.journal), field, now);
      && (failure.None? <==> r.Running?)
      && (r.Running? ==> next == r.locals)
      && (r.Stopped? ==> failure == Some(r.failure))
      && disk.entries == r.fs && disk.journal == r.log
  {
    var file, filename, pathValue, protectedValue := l.file, l.filename, l.pathValue, l.protectedValue;
    var finalPath, isDirectory, results := l.finalPath, l.isDirectory, l.results;
    ghost var fs0, log0 := disk.entries, disk.journal;
    ghost var handled := HandleField(c, l, fs0, log0, field);
    next := l;
    // the four names are distinct, so at most one branch runs per field
    if field.name == "path" {
      var v := ReadText(c.utf8, field.chunks, pathValue);
      if v.None? {
        return next, Some(UTF8_PANIC);
      }
      pathValue := v.value;
      assert handled == Running(l.(pathValue := pathValue), fs0, log0);
    } else if field.name == "protected" {
      var v := ReadText(c.utf8, field.chunks, protectedValue);
      if v.None? {
        return next, Some(UTF8_PANIC);
      }
      protectedValue := v.value;
      var ok;
      finalPath, ok := MakeDestination(disk, pathValue, protectedValue, finalPath);
      if !ok {
        return next, Some(DIR_PANIC);
      }
      assert handled == Running(l.(protectedValue := protectedValue, finalPath := finalPath), disk.entries, disk.journal);
    } else if field.name == "filename" {
      var v := ReadText(c.utf8, field.chunks, filename);
      if v.None? {
        return next, Some(UTF8_PANIC);
      }
      filename := v.value;
      isDirectory := filename == "";
      assert handled == Running(l.(filename := filename, isDirectory := isDirectory), fs0, log0);
    } else if field.name == "file" && !isDirectory {
      var filePath := finalPath + "/" + c.sanitize(filename);
      var ok := StoreFile(disk, filePath, field.chunks);
      if !ok {
        return next, Some(CREATE_ERROR);
      }
      assert handled == Running(l, disk.entries, disk.journal);
    } else {
      assert handled == Running(l, fs0, log0);
    }
    if file != "" {
      results := results + [FileResource("Ok", filename, "", now, finalPath, protectedValue)];
    }
    next := Locals(file, filename, pathValue, protectedValue, finalPath, isDirectory, results);
    failure := None;
  }

  /** The upload handler over a request whose fields have arrived. */
  method Upload(disk: Disk, c: Crates, fields: seq<Field>, now: nat) returns (reply: UploadReply)
    modifies disk
    ensures var r := RunFields(c, Running(Start, old(disk.entries), old(disk.journal)), fields, now);
      reply == Reply(r, now) && disk.entries == r.fs && disk.journal == r.log
  {
    var locals := Locals("", "", "", "", "", false, []);
    ghost var goal := RunFields(c, Running(Start, disk.entries, disk.journal), fields, now);
    var i := 0;
    while i < |fields|
      invariant 0 <= i <= |fields|
      invariant goal == RunFields(c, Running(locals, disk.entries, disk.journal), fields[i..], now)
    {
      RunFieldsUnfold(c, Running(locals, disk.entries, disk.journal), fields, i, now);
      var failure;
      locals, failure := HandleOne(disk, c, locals, fields[i], now);
      if failure.Some? {
        return Failed(failure.value);
      }
      i := i + 1;
    }
    assert fields[i..] == [];
    reply := Replied(locals.results + [FileResource("Ok", locals.filename, locals.file, now, locals.finalPath, locals.protectedValue)]);
  }

  // ---------------------------------------------------------------------
  // Properties of the field walk

  /** The bytes of two chunk sequences laid end to end. */
  lemma {:induction false} ConcatAppend(a: seq<seq<Byte>>, b: seq<seq<Byte>>)
    ensures Concat(a + b) == Concat(a) + Concat(b)
    decreases |b|
  {
    if b == [] {
      assert a + b == a;
    } else {
      var ab := a + b;
      assert ab[..|ab| - 1] == a + b[..|b| - 1];
      ConcatAppend(a, b[..|b| - 1]);
    }
  }

  /** Chunk boundaries do not matter: splitting one chunk in two leaves the
    * written bytes unchanged. */
  lemma SplitChunk(chunks: seq<seq<Byte>>, i: nat, x: seq<Byte>, y: seq<Byte>)
    requires i < |chunks| && x + y == chunks[i]
    ensures Concat(chunks[..i] + [x, y] + chunks[i + 1..]) == Concat(chunks)
  {
    assert chunks == chunks[..i] + [chunks[i]] + chunks[i + 1..];
    ConcatAppend(chunks[..i] + [x, y], chunks[i + 1..]);
    ConcatAppend(chunks[..i], [x, y]);
    ConcatAppend(chunks[..i] + [chunks[i]], chunks[i + 1..]);
    ConcatAppend(chunks[..i], [chunks[i]]);
    assert Concat([x, y]) == Concat([x]) + y;
    assert [x, y][..1] == [x];
    assert Concat([x]) == x by { assert [x][..0] == []; }
    assert Concat([chunks[i]]) == chunks[i] by { assert [chunks[i]][..0] == []; }
  }

  /** The chunks of every field called `name`, in arrival order. */
  function NamedChunks(fields: seq<Field>, name: string): seq<seq<Byte>> {
    if fields == [] then []
    else (if fields[0].name == name then fields[0].chunks else []) + NamedChunks(fields[1..], name)
  }

  predicate AllDecode(utf8: seq<Byte> -> Option<string>, chunks: seq<seq<Byte>>) {
    forall k | 0 <= k < |chunks| :: utf8(chunks[k]).Some?
  }

  /** The text of the last chunk, or `default` when there is none. */
  function LastValue(utf8: seq<Byte> -> Option<string>, chunks: seq<seq<Byte>>, default: string): string {
    if chunks == [] then default
    else match utf8(chunks[|chunks| - 1])
      case Some(s) => s
      case None => default
  }

  /** The chunk loop of a scalar field succeeds exactly when every chunk
    * decodes, and then leaves the text of the last one. */
  lemma LastTextValue(utf8: seq<Byte> -> Option<string>, chunks: seq<seq<Byte>>, current: string)
    ensures LastText(utf8, chunks, current)
         == if AllDecode(utf8, chunks) then Some(LastValue(utf8, chunks, current)) else None
  {
  }

  /** The local a scalar field writes. */
  function Scalar(l: Locals, name: string): string {
    if name == "path" then l.pathValue
    else if name == "protected" then l.protectedValue
    else l.filename
  }

  predicate IsScalarName(name: string) {
    name == "path" || name == "protected" || name == "filename"
  }

  /** One field moves a scalar local only if it carries that local's name,
    * and then to the text of its last chunk. */
  lemma StepScalar(c: Crates, l: Locals, fs: Tree, log: seq<Effect>, f: Field, now: nat, name: string)
    requires IsScalarName(name)
    ensures var r := Step(c, l, fs, log, f, now);
      r.Running? ==>
        && (f.name == name ==> AllDecode(c.utf8, f.chunks))
        && Scalar(r.locals, name) == LastValue(c.utf8, if f.name == name then f.chunks else [], Scalar(l, name))
  {
    if f.name == "path" {
      LastTextValue(c.utf8, f.chunks, l.pathValue);
    } else if f.name == "protected" {
      LastTextValue(c.utf8, f.chunks, l.protectedValue);
    } else if f.name == "filename" {
      LastTextValue(c.utf8, f.chunks, l.filename);
    }
  }

  lemma LastValueAppend(utf8: seq<Byte> -> Option<string>, a: seq<seq<Byte>>, b: seq<seq<Byte>>, default: string)
    requires AllDecode(utf8, b)
    ensures LastValue(utf8, a + b, default) == LastValue(utf8, b, LastValue(utf8, a, default))
  {
    if b == [] {
      assert a + b == a;
    } else {
      assert (a + b)[|a + b| - 1] == b[|b| - 1];
    }
  }

  /** Each scalar local ends up holding the text of the last chunk of the
    * last field with its name: chunks replace the value, they are never
    * concatenated. A running walk has decoded every such chunk. */
  lemma {:induction false} LastChunkWins(c: Crates, r: Run, fields: seq<Field>, now: nat, name: string)
    requires r.Running? && IsScalarName(name)
    ensures var r' := RunFields(c, r, fields, now);
      r'.Running? ==>
        && AllDecode(c.utf8, NamedChunks(fields, name))
        && Scalar(r'.locals, name) == LastValue(c.utf8, NamedChunks(fields, name), Scalar(r.locals, name))
    decreases |fields|
  {
    if fields != [] {
      var r1 := Step(c, r.locals, r.fs, r.log, fields[0], now);
      if r1.Running? {
        var head := if fields[0].name == name then fields[0].chunks else [];
        var tail := NamedChunks(fields[1..], name);
        assert NamedChunks(fields, name) == head + tail;
        StepScalar(c, r.locals, r.fs, r.log, fields[0], now, name);
        LastChunkWins(c, r1, fields[1..], now, name);
        if RunFields(c, r, fields, now).Running? {
          LastValueAppend(c.utf8, head, tail, Scalar(r.locals, name));
          forall k | 0 <= k < |head + tail| ensures c.utf8((head + tail)[k]).Some? {
            if k >= |head| {
              assert (head + tail)[k] == tail[k - |head|];
            }
          }
        }
      }
    }
  }

  /** The per-field record is never added: the outer `file` stays empty. */
  lemma {:induction false} NoPerFieldRecords(c: Crates, r: Run, fields: seq<Field>, now: nat)
    requires r.Running? && r.locals.file == "" && r.locals.results == []
    ensures var r' := RunFields(c, r, fields, now);
      r'.Running? ==> r'.locals.file == "" && r'.locals.results == []
    decreases |fields|
  {
    if fields != [] {
      var r1 := Step(c, r.locals, r.fs, r.log, fields[0], now);
      if r1.Running? {
        NoPerFieldRecords(c, r1, fields[1..], now);
      }
    }
  }

  /** The upload answers with exactly one record: status "Ok", an empty
    * `file`, the last file name and protection value sent, and the final
    * destination; it fails exactly when the walk stopped. */
  lemma UploadAnswersOnce(c: Crates, fs: Tree, log: seq<Effect>, fields: seq<Field>, now: nat)
    ensures var r := RunFields(c, Running(Start, fs, log), fields, now);
      && (Reply(r, now).Failed? <==> r.Stopped?)
      && (Reply(r, now).Replied? ==>
            Reply(r, now).results == [FileResource("Ok",
                                                   LastValue(c.utf8, NamedChunks(fields, "filename"), ""),
                                                   "", now, r.locals.finalPath,
                                                   LastValue(c.utf8, NamedChunks(fields, "protected"), ""))])
  {
    NoPerFieldRecords(c, Running(Start, fs, log), fields, now);
    LastChunkWins(c, Running(Start, fs, log), fields, now, "filename");
    LastChunkWins(c, Running(Start, fs, log), fields, now, "protected");
  }

  /** A `protected` field routes the upload: "archives" goes to the archive
    * staging directory whatever the flag says; otherwise "true" and "false"
    * pick the protected or public zone, and any other value keeps the old
    * destination. The destination is then made a directory (create_dir_all
    * of "" does nothing), and nothing else changes. */
  lemma ProtectedRouting(c: Crates, l: Locals, fs: Tree, log: seq<Effect>, chunks: seq<seq<Byte>>, now: nat)
    requires l.file == ""
    ensures var r := Step(c, l, fs, log, Field("protected", chunks), now);
      && (r.Running? <==> AllDecode(c.utf8, chunks)
                          && CanMakeDirs(fs, Route(l.pathValue, LastValue(c.utf8, chunks, l.protectedValue), l.finalPath)))
      && (r.Stopped? ==> r.failure == if AllDecode(c.utf8, chunks) then DIR_PANIC else UTF8_PANIC)
    ensures var r := Step(c, l, fs, log, Field("protected", chunks), now);
      r.Running? ==>
        var v := r.locals.protectedValue;
        var dest := r.locals.finalPath;
        && AllDecode(c.utf8, chunks)
        && v == LastValue(c.utf8, chunks, l.protectedValue)
        && dest == (if l.pathValue == "archives" then "entando-data/archives"
                    else if v == "true" then "./entando-data/protected/" + l.pathValue
                    else if v == "false" then "./entando-data/public/" + l.pathValue
                    else l.finalPath)
        && r.locals == l.(protectedValue := v, finalPath := dest)
        && CanMakeDirs(fs, dest) && r.fs == MakeDirs(fs, dest)
        && (dest != "" ==> IsDir(r.fs, dest))
        && r.log == log + [MadeDirs(dest)]
  {
    LastTextValue(c.utf8, chunks, l.protectedValue);
    if AllDecode(c.utf8, chunks) {
      var v := LastValue(c.utf8, chunks, l.protectedValue);
      assert Route(l.pathValue, v, l.finalPath)
          == (if l.pathValue == "archives" then "entando-data/archives"
              else if v == "true" then "./entando-data/protected/" + l.pathValue
              else if v == "false" then "./entando-data/public/" + l.pathValue
              else l.finalPath);
    }
  }

  /** A `filename` field marks a directory-only upload exactly when its text
    * is empty, and touches nothing on disk. */
  lemma FilenameMarksDirectory(c: Crates, l: Locals, fs: Tree, log: seq<Effect>, chunks: seq<seq<Byte>>, now: nat)
    requires l.file == ""
    ensures Step(c, l, fs, log, Field("filename", chunks), now).Running? <==> AllDecode(c.utf8, chunks)
    ensures var r := Step(c, l, fs, log, Field("filename", chunks), now);
      r.Running? ==>
        && r.locals.filename == LastValue(c.utf8, chunks, l.filename)
        && r.locals.isDirectory == (r.locals.filename == "")
        && r.locals == l.(filename := r.locals.filename, isDirectory := r.locals.isDirectory)
        && r.fs == fs && r.log == log
  {
  }

  /** A `path` field only records the path: the destination chosen by an
    * earlier `protected` field is not recomputed. */
  lemma PathFieldKeepsRoute(c: Crates, l: Locals, fs: Tree, log: seq<Effect>, chunks: seq<seq<Byte>>, now: nat)
    requires l.file == ""
    ensures Step(c, l, fs, log, Field("path", chunks), now).Running? <==> AllDecode(c.utf8, chunks)
    ensures var r := Step(c, l, fs, log, Field("path", chunks), now);
      r.Running? ==>
        && r.locals == l.(pathValue := LastValue(c.utf8, chunks, l.pathValue))
        && r.fs == fs && r.log == log
  {
  }

  /** A `file` field writes nothing while the upload is directory-only;
    * otherwise it creates `finalPath/sanitize(filename)` and fills it with
    * its chunks in order, or the request fails with nothing written. */
  lemma FileWrite(c: Crates, l: Locals, fs: Tree, log: seq<Effect>, chunks: seq<seq<Byte>>, now: nat)
    requires l.file == ""
    ensures var r := Step(c, l, fs, log, Field("file", chunks), now);
      var p := l.finalPath + "/" + c.sanitize(l.filename);
      && (l.isDirectory ==> r == Running(l, fs, log))
      && (!l.isDirectory ==> (r.Running? <==> CanCreateFile(fs, p)))
      && (!l.isDirectory && r.Running? ==>
            && r.locals == l
            && r.fs == fs[p := File(Concat(chunks))]
            && r.log == log + [Created(p)] + Writes(p, chunks))
      && (r.Stopped? ==> r.failure == CREATE_ERROR && r.fs == fs && r.log == log + [Created(p)])
  {
  }

  /** Fields with any other name are skipped. */
  lemma OtherFieldsIgnored(c: Crates, l: Locals, fs: Tree, log: seq<Effect>, f: Field, now: nat)
    requires l.file == ""
    requires f.name != "path" && f.name != "protected" && f.name != "filename" && f.name != "file"
    ensures Step(c, l, fs, log, f, now) == Running(l, fs, log)
  {
  }

  lemma RunCons(c: Crates, r: Run, f: Field, rest: seq<Field>, now: nat)
    requires r.Running?
    ensures RunFields(c, r, [f] + rest, now) == RunFields(c, Step(c, r.locals, r.fs, r.log, f, now), rest, now)
  {
    assert ([f] + rest)[1..] == rest;
  }

  lemma OneChunk(utf8: seq<Byte> -> Option<string>, b: seq<Byte>, s: string, current: string)
    requires utf8(b) == Some(s)
    ensures AllDecode(utf8, [b]) && LastValue(utf8, [b], current) == s
  {
  }

  /** The four fields of a complete request, walked one after the other. */
  lemma RunFour(c: Crates, r0: Run, f0: Field, f1: Field, f2: Field, f3: Field, now: nat)
    requires r0.Running?
    ensures var r1 := Step(c, r0.locals, r0.fs, r0.log, f0, now);
      var r2 := if r1.Running? then Step(c, r1.locals, r1.fs, r1.log, f1, now) else r1;
      var r3 := if r2.Running? then Step(c, r2.locals, r2.fs, r2.log, f2, now) else r2;
      var r4 := if r3.Running? then Step(c, r3.locals, r3.fs, r3.log, f3, now) else r3;
      RunFields(c, r0, [f0, f1, f2, f3], now) == r4
  {
    var r1 := Step(c, r0.locals, r0.fs, r0.log, f0, now);
    RunCons(c, r0, f0, [f1, f2, f3], now);
    assert [f0, f1, f2, f3] == [f0] + [f1, f2, f3];
    if r1.Running? {
      var r2 := Step(c, r1.locals, r1.fs, r1.log, f1, now);
      RunCons(c, r1, f1, [f2, f3], now);
      assert [f1, f2, f3] == [f1] + [f2, f3];
      if r2.Running? {
        var r3 := Step(c, r2.locals, r2.fs, r2.log, f2, now);
        RunCons(c, r2, f2, [f3], now);
        assert [f2, f3] == [f2] + [f3];
        if r3.Running? {
          RunCons(c, r3, f3, [], now);
          assert [f3] == [f3] + [];
        }
      }
    }
  }

  /** The locals after single-chunk `path`, `protected` and `filename` fields. */
  function RoutedLocals(p: string, v: string, n: string): Locals {
    Start.(pathValue := p, protectedValue := v, finalPath := Route(p, v, ""), filename := n, isDirectory := n == "")
  }

  /** The three routing fields of a request, in the documented order, leave
    * the destination directory made and hand the fourth field to Step. */
  lemma Routed(c: Crates, fs: Tree, log: seq<Effect>, pb: seq<Byte>, vb: seq<Byte>, nb: seq<Byte>,
               f3: Field, p: string, v: string, n: string, now: nat)
    requires c.utf8(pb) == Some(p) && c.utf8(vb) == Some(v) && c.utf8(nb) == Some(n)
    requires CanMakeDirs(fs, Route(p, v, ""))
    ensures var d := Route(p, v, "");
      RunFields(c, Running(Start, fs, log), [Field("path", [pb]), Field("protected", [vb]), Field("filename", [nb]), f3], now)
      == (var r3 := Step(c, RoutedLocals(p, v, n), MakeDirs(fs, d), log + [MadeDirs(d)], f3, now); r3)
  {
    var d := Route(p, v, "");
    var f0, f1, f2 := Field("path", [pb]), Field("protected", [vb]), Field("filename", [nb]);
    RunFour(c, Running(Start, fs, log), f0, f1, f2, f3, now);
    OneChunk(c.utf8, pb, p, "");
    OneChunk(c.utf8, vb, v, "");
    OneChunk(c.utf8, nb, n, "");
    PathFieldKeepsRoute(c, Start, fs, log, [pb], now);
    var l1 := Start.(pathValue := p);
    ProtectedRouting(c, l1, fs, log, [vb], now);
    var l2 := l1.(protectedValue := v, finalPath := d);
    var fs2, log2 := MakeDirs(fs, d), log + [MadeDirs(d)];
    FilenameMarksDirectory(c, l2, fs2, log2, [nb], now);
    assert l2.(filename := n, isDirectory := n == "") == RoutedLocals(p, v, n);
  }

  /** The field walk of a request in the documented order that names a
    * file: the routed directory is made and the file is written. */
  lemma StoredRun(c: Crates, fs: Tree, log: seq<Effect>, pb: seq<Byte>, vb: seq<Byte>, nb: seq<Byte>,
                  chunks: seq<seq<Byte>>, p: string, v: string, n: string, now: nat)
    requires c.utf8(pb) == Some(p) && c.utf8(vb) == Some(v)
    requires c.utf8(nb) == Some(n) && n != ""
    requires Route(p, v, "") != "" && CanMakeDirs(fs, Route(p, v, ""))
    requires c.sanitize(n) != "" && '/' !in c.sanitize(n)
    requires !IsDir(fs, Route(p, v, "") + "/" + c.sanitize(n))
    ensures var d := Route(p, v, "");
      var target := d + "/" + c.sanitize(n);
      RunFields(c, Running(Start, fs, log),
                [Field("path", [pb]), Field("protected", [vb]), Field("filename", [nb]), Field("file", chunks)], now)
      == Running(RoutedLocals(p, v, n), MakeDirs(fs, d)[target := File(Concat(chunks))],
                 log + [MadeDirs(d)] + [Created(target)] + Writes(target, chunks))
  {
    var d := Route(p, v, "");
    var target := d + "/" + c.sanitize(n);
    var l3 := RoutedLocals(p, v, n);
    var fs2, log2 := MakeDirs(fs, d), log + [MadeDirs(d)];
    Routed(c, fs, log, pb, vb, nb, Field("file", chunks), p, v, n, now);
    assert CanCreateFile(fs2, target) by {
      CreateInMadeDir(fs, d, c.sanitize(n));
    }
    FileWrite(c, l3, fs2, log2, chunks, now);
  }

  /** A request in the documented order (path, protected, a non-empty file
    * name, then the file) stores the file under its sanitized name in the
    * routed directory and answers with one record describing it. */
  lemma StoredUpload(c: Crates, fs: Tree, log: seq<Effect>, pb: seq<Byte>, vb: seq<Byte>, nb: seq<Byte>,
                     chunks: seq<seq<Byte>>, p: string, v: string, n: string, now: nat)
    requires c.utf8(pb) == Some(p) && c.utf8(vb) == Some(v)
    requires c.utf8(nb) == Some(n) && n != ""
    requires Route(p, v, "") != "" && CanMakeDirs(fs, Route(p, v, ""))
    requires c.sanitize(n) != "" && '/' !in c.sanitize(n)
    requires !IsDir(fs, Route(p, v, "") + "/" + c.sanitize(n))
    ensures var d := Route(p, v, "");
      var target := d + "/" + c.sanitize(n);
      var r := RunFields(c, Running(Start, fs, log),
                         [Field("path", [pb]), Field("protected", [vb]), Field("filename", [nb]), Field("file", chunks)], now);
      && Reply(r, now) == Replied([FileResource("Ok", n, "", now, d, v)])
      && r.fs == MakeDirs(fs, d)[target := File(Concat(chunks))]
      && r.log == log + [MadeDirs(d), Created(target)] + Writes(target, chunks)
  {
    var d := Route(p, v, "");
    var target := d + "/" + c.sanitize(n);
    StoredRun(c, fs, log, pb, vb, nb, chunks, p, v, n, now);
    assert log + [MadeDirs(d)] + [Created(target)] == log + [MadeDirs(d), Created(target)];
  }

  /** The documented example: protected "false" stores the file in the
    * public zone. */
  lemma PublicUpload(c: Crates, fs: Tree, log: seq<Effect>, pb: seq<Byte>, vb: seq<Byte>, nb: seq<Byte>,
                     chunks: seq<seq<Byte>>, p: string, n: string, now: nat)
    requires c.utf8(pb) == Some(p) && p != "archives"
    requires c.utf8(vb) == Some("false")
    requires c.utf8(nb) == Some(n) && n != ""
    requires CanMakeDirs(fs, "./entando-data/public/" + p)
    requires c.sanitize(n) != "" && '/' !in c.sanitize(n)
    requires !IsDir(fs, "./entando-data/public/" + p + "/" + c.sanitize(n))
    ensures var r := RunFields(c, Running(Start, fs, log),
                               [Field("path", [pb]), Field("protected", [vb]), Field("filename", [nb]), Field("file", chunks)], now);
      && Reply(r, now) == Replied([FileResource("Ok", n, "", now, "./entando-data/public/" + p, "false")])
      && r.fs == MakeDirs(fs, "./entando-data/public/" + p)["./entando-data/public/" + p + "/" + c.sanitize(n) := File(Concat(chunks))]
  {
    assert Route(p, "false", "") == "./entando-data/public/" + p;
    StoredUpload(c, fs, log, pb, vb, nb, chunks, p, "false", n, now);
  }

  /** An empty file name makes the upload directory-only: the destination
    * directory is created, a following `file` field writes nothing, and the
    * answer reports an empty file name. */
  lemma DirectoryOnlyUpload(c: Crates, fs: Tree, log: seq<Effect>, pb: seq<Byte>, vb: seq<Byte>, nb: seq<Byte>,
                            chunks: seq<seq<Byte>>, p: string, v: string, now: nat)
    requires c.utf8(pb) == Some(p) && c.utf8(vb) == Some(v) && c.utf8(nb) == Some("")
    requires CanMakeDirs(fs, Route(p, v, ""))
    ensures var d := Route(p, v, "");
      var r := RunFields(c, Running(Start, fs, log),
                         [Field("path", [pb]), Field("protected", [vb]), Field("filename", [nb]), Field("file", chunks)], now);
      && Reply(r, now) == Replied([FileResource("Ok", "", "", now, d, v)])
      && r.fs == MakeDirs(fs, d)
      && r.log == log + [MadeDirs(d)]
  {
    var d := Route(p, v, "");
    Routed(c, fs, log, pb, vb, nb, Field("file", chunks), p, v, "", now);
    FileWrite(c, RoutedLocals(p, v, ""), MakeDirs(fs, d), log + [MadeDirs(d)], chunks, now);
  }

  /** With path "archives" the file lands in the archive staging directory
    * whatever the protection value, and the record carries that value. */
  lemma ArchivesUpload(c: Crates, fs: Tree, log: seq<Effect>, pb: seq<Byte>, vb: seq<Byte>, nb: seq<Byte>,
                       chunks: seq<seq<Byte>>, v: string, n: string, now: nat)
    requires c.utf8(pb) == Some("archives") && c.utf8(vb) == Some(v)
    requires c.utf8(nb) == Some(n) && n != ""
    requires CanMakeDirs(fs, "entando-data/archives")
    requires c.sanitize(n) != "" && '/' !in c.sanitize(n)
    requires !IsDir(fs, "entando-data/archives/" + c.sanitize(n))
    ensures var r := RunFields(c, Running(Start, fs, log),
                               [Field("path", [pb]), Field("protected", [vb]), Field("filename", [nb]), Field("file", chunks)], now);
      && Reply(r, now) == Replied([FileResource("Ok", n, "", now, "entando-data/archives", v)])
      && r.fs == MakeDirs(fs, "entando-data/archives")["entando-data/archives/" + c.sanitize(n) := File(Concat(chunks))]
  {
    assert Route("archives", v, "") == "entando-data/archives";
    assert "entando-data/archives" + "/" + c.sanitize(n) == "entando-data/archives/" + c.sanitize(n);
    StoredUpload(c, fs, log, pb, vb, nb, chunks, "archives", v, n, now);
  }

  /** A `file` field that arrives before any routing field is not refused:
    * it is written to "/" followed by the sanitized empty name. */
  lemma UnroutedFile(c: Crates, fs: Tree, log: seq<Effect>, chunks: seq<seq<Byte>>, now: nat)
    ensures var r := RunFields(c, Running(Start, fs, log), [Field("file", chunks)], now);
      var target := "/" + c.sanitize("");
      && |r.log| > |log| && r.log[|log|] == Created(target)
      && (r.Running? ==> r.fs == fs[target := File(Concat(chunks))])
  {
    RunFieldsUnfold(c, Running(Start, fs, log), [Field("file", chunks)], 0, now);
  }
}
