/** The two archive jobs: `decompress` unpacks an uploaded archive from the
  * staging directory into the data directory and deletes it; `compress`
  * packs a directory or a single file of the data directory into the one
  * fixed archive in the staging directory. The tar and gzip work itself is
  * left to the uninterpreted functions of `Crates`. */
module Archive {
  import opened FileSystem
  import opened Foreign
  import opened StdFs

  const ARCHIVE_BASE_PATH := "entando-data/archives"
  const BASE_PATH := "entando-data"
  /** The archive's single top-level entry name. */
  const ROOT := "entando-data"
  /** The one archive compress writes, in the staging directory:
    * "entando-data/archives/entando-data.tar.gz". */
  const OUTPUT_NAME := "entando-data.tar.gz"
  const OUTPUT := ARCHIVE_BASE_PATH + "/" + OUTPUT_NAME

  const DIR_PANIC := Panicked("unable to create directory")
  const CREATE_ERROR := Errored("unable to create the archive")
  const REMOVE_ERROR := Errored("unable to remove the archive")
  const PACK_ERROR := Errored("unable to pack the directory")

  datatype EntandoData = EntandoData(status: string, path: string)

  const WRONG_PATH := EntandoData("Ko", "Wrong Path")

  datatype ArchiveReply =
    | OkText(text: string)        // 200 with a JSON string
    | OkData(data: EntandoData)   // 200 with an EntandoData object
    | NotFound(data: EntandoData) // 404 with an EntandoData object
    | Failed(failure: Failure)

  /** The reply, the disk afterwards and the journal of disk calls. */
  datatype Job = Job(reply: ArchiveReply, fs: Tree, log: seq<Effect>)

  /** Where decompress looks for the archive: plain text formatting, not a
    * path push. */
  function ArchivePath(name: string): Path {
    ARCHIVE_BASE_PATH + "/" + name
  }

  /** The tree after the unpack call on an archive path that exists. */
  function AfterUnpack(c: Crates, fs: Tree, archive: Path): Tree {
    if IsFile(fs, archive) then c.unpack(fs[archive].bytes, BASE_PATH, fs) else fs
  }

  /** The decompress job once the staging directory exists: unpack the
    * archive into the data directory, then remove it. */
  function ConsumeJob(c: Crates, fs: Tree, log: seq<Effect>, name: string, full: Path): Job {
    var unpacked := AfterUnpack(c, fs, full);
    var log1 := log + [Unpacked(full, BASE_PATH), RemovedFile(full)];
    if IsFile(unpacked, full) then Job(OkText(name + "," + full), unpacked - {full}, log1)
    else Job(Failed(REMOVE_ERROR), unpacked, log1)
  }

  /** The decompress job, step by step. */
  function DecompressJob(c: Crates, fs: Tree, log: seq<Effect>, name: string): Job {
    var log1 := log + [MadeDirs(ARCHIVE_BASE_PATH)];
    if !CanMakeDirs(fs, ARCHIVE_BASE_PATH) then Job(Failed(DIR_PANIC), fs, log1)
    else
      var fs1 := MakeDirs(fs, ARCHIVE_BASE_PATH);
      var full := ArchivePath(name);
      if full !in fs1 then Job(NotFound(WRONG_PATH), fs1, log1)
      else ConsumeJob(c, fs1, log1, name, full)
  }

  /** The compress job once the output is open and empty: pack `source`
    * into it, or answer 404 when there is nothing at `source`. */
  function PackJob(c: Crates, fs: Tree, log: seq<Effect>, source: Path): (j: Job)
    ensures |j.log| == |log| + 1 && j.log[..|log|] == log
    ensures j.reply.OkData? ==> j.reply.data == EntandoData("Ok", OUTPUT)
    ensures OUTPUT in j.fs && j.fs.Keys == fs.Keys + {OUTPUT}
  {
    if IsDir(fs, source) then
      var packed := c.packDir(fs, source, ROOT);
      var after := fs[OUTPUT := File(packed.bytes)];
      var log1 := log + [PackedDir(source, ROOT, OUTPUT)];
      if packed.Packed? then Job(OkData(EntandoData("Ok", OUTPUT)), after, log1)
      else Job(Failed(PACK_ERROR), after, log1)
    else if IsFile(fs, source) then
      Job(OkData(EntandoData("Ok", OUTPUT)),
          fs[OUTPUT := File(c.packFile(fs[source].bytes, ROOT))],
          log + [PackedFile(source, ROOT, OUTPUT)])
    else
      Job(NotFound(WRONG_PATH), fs[OUTPUT := File(c.emptyArchive)], log + [Wrote(OUTPUT, c.emptyArchive)])
  }

  /** The compress job, step by step. */
  function CompressJob(c: Crates, fs: Tree, log: seq<Effect>, filename: string): Job {
    var log1 := log + [MadeDirs(ARCHIVE_BASE_PATH)];
    if !CanMakeDirs(fs, ARCHIVE_BASE_PATH) then Job(Failed(DIR_PANIC), fs, log1)
    else
      var fs1 := MakeDirs(fs, ARCHIVE_BASE_PATH);
      var log2 := log1 + [Created(OUTPUT)];
      if !CanCreateFile(fs1, OUTPUT) then Job(Failed(CREATE_ERROR), fs1, log2)
      else PackJob(c, fs1[OUTPUT := File([])], log2, Push(BASE_PATH, filename))
  }

  /** The decompress handler. */
  method Decompress(disk: Disk, c: Crates, name: string) returns (reply: ArchiveReply)
    modifies disk
    ensures var j := DecompressJob(c, old(disk.entries), old(disk.journal), name);
      reply == j.reply && disk.entries == j.fs && disk.journal == j.log
  {
    var ok := disk.CreateDirAll(ARCHIVE_BASE_PATH);
    if !ok {
      return Failed(DIR_PANIC);
    }
    var full := ArchivePath(name);
    if full in disk.entries {
      assert DecompressJob(c, old(disk.entries), old(disk.journal), name)
          == ConsumeJob(c, disk.entries, disk.journal, name, full);
      disk.Unpack(c.unpack, full, BASE_PATH);
      var removed := disk.RemoveFile(full);
      if !removed {
        return Failed(REMOVE_ERROR);
      }
      reply := OkText(name + "," + full);
    } else {
      reply := NotFound(WRONG_PATH);
    }
  }

  /** The compress handler. */
  method Compress(disk: Disk, c: Crates, filename: string) returns (reply: ArchiveReply)
    modifies disk
    ensures var j := CompressJob(c, old(disk.entries), old(disk.journal), filename);
      reply == j.reply && disk.entries == j.fs && disk.journal == j.log
  {
    var ok := disk.CreateDirAll(ARCHIVE_BASE_PATH);
    if !ok {
      return Failed(DIR_PANIC);
    }
    var created := disk.Create(OUTPUT);
    if !created {
      return Failed(CREATE_ERROR);
    }
    var path := Push(BASE_PATH, filename);
    assert CompressJob(c, old(disk.entries), old(disk.journal), filename)
        == PackJob(c, disk.entries, disk.journal, path);
    if IsDir(disk.entries, path) {
      var packed := disk.AppendDirAll(c.packDir, ROOT, path, OUTPUT);
      if !packed {
        return Failed(PACK_ERROR);
      }
      return OkData(EntandoData("Ok", OUTPUT));
    }
    if IsFile(disk.entries, path) {
      disk.AppendFile(c.packFile, ROOT, path, OUTPUT);
      reply := OkData(EntandoData("Ok", OUTPUT));
    } else {
      // dropping the empty builder and its encoder still finishes the output
      disk.WriteAll(OUTPUT, c.emptyArchive);
      assert [] + c.emptyArchive == c.emptyArchive;
      reply := NotFound(WRONG_PATH);
    }
  }

  // ---------------------------------------------------------------------
  // Properties of the jobs

  /** Decompress makes sure the staging directory exists before any other
    * disk call. */
  lemma DecompressEnsuresStagingFirst(c: Crates, fs: Tree, log: seq<Effect>, name: string)
    ensures var j := DecompressJob(c, fs, log, name);
      |j.log| > |log| && j.log[..|log| + 1] == log + [MadeDirs(ARCHIVE_BASE_PATH)]
  {
  }

  /** A missing archive answers 404 with status "Ko" and path "Wrong Path";
    * nothing is unpacked or removed, and the staging directory is the only
    * change. */
  lemma DecompressMissingArchive(c: Crates, fs: Tree, log: seq<Effect>, name: string)
    ensures var j := DecompressJob(c, fs, log, name);
      && (j.reply.NotFound? <==>
            CanMakeDirs(fs, ARCHIVE_BASE_PATH) && ArchivePath(name) !in MakeDirs(fs, ARCHIVE_BASE_PATH))
      && (j.reply.NotFound? ==>
            && j.reply.data == EntandoData("Ko", "Wrong Path")
            && j.fs == MakeDirs(fs, ARCHIVE_BASE_PATH)
            && j.log == log + [MadeDirs(ARCHIVE_BASE_PATH)])
  {
  }

  /** An existing archive is always unpacked into "entando-data" and then
    * removed, whatever the unpack did: its errors are swallowed. The job
    * succeeds, answering "name,fullPath", exactly when the archive is still
    * a regular file after unpacking, and then it is gone. */
  lemma DecompressConsumesArchive(c: Crates, fs: Tree, log: seq<Effect>, name: string)
    requires CanMakeDirs(fs, ARCHIVE_BASE_PATH)
    requires ArchivePath(name) in MakeDirs(fs, ARCHIVE_BASE_PATH)
    ensures var full := ArchivePath(name);
      var staged := MakeDirs(fs, ARCHIVE_BASE_PATH);
      var unpacked := AfterUnpack(c, staged, full);
      var j := DecompressJob(c, fs, log, name);
      && j.log == log + [MadeDirs(ARCHIVE_BASE_PATH), Unpacked(full, "entando-data"), RemovedFile(full)]
      && (j.reply.OkText? <==> IsFile(unpacked, full))
      && (j.reply.OkText? ==> j.reply.text == name + "," + full && j.fs == unpacked - {full} && full !in j.fs)
      && (!j.reply.OkText? ==> j.reply == Failed(REMOVE_ERROR) && j.fs == unpacked)
  {
    var full := ArchivePath(name);
    var log1 := log + [MadeDirs(ARCHIVE_BASE_PATH)];
    assert DecompressJob(c, fs, log, name) == ConsumeJob(c, MakeDirs(fs, ARCHIVE_BASE_PATH), log1, name, full);
    assert log1 + [Unpacked(full, BASE_PATH), RemovedFile(full)]
        == log + [MadeDirs(ARCHIVE_BASE_PATH), Unpacked(full, BASE_PATH), RemovedFile(full)];
  }

  /** Compress makes sure the staging directory exists, then creates or
    * truncates the one fixed output, before it looks at the source; every
    * success names that output. */
  lemma CompressFixedOutput(c: Crates, fs: Tree, log: seq<Effect>, filename: string)
    requires CanMakeDirs(fs, ARCHIVE_BASE_PATH)
    ensures var j := CompressJob(c, fs, log, filename);
      && |j.log| >= |log| + 2
      && j.log[..|log| + 2] == log + [MadeDirs(ARCHIVE_BASE_PATH), Created(OUTPUT)]
      && (j.reply.OkData? ==> j.reply.data == EntandoData("Ok", OUTPUT))
  {
    var log2 := log + [MadeDirs(ARCHIVE_BASE_PATH), Created(OUTPUT)];
    assert log + [MadeDirs(ARCHIVE_BASE_PATH)] + [Created(OUTPUT)] == log2;
    var j := CompressJob(c, fs, log, filename);
    if j.log != log2 {
      assert j.log[..|log2|] == log2;
    }
  }

  /** Creating the output fails only when a directory sits at its path: the
    * staging directory has just been made. */
  lemma CompressOutputCreatable(c: Crates, fs: Tree, log: seq<Effect>, filename: string)
    requires CanMakeDirs(fs, ARCHIVE_BASE_PATH)
    ensures CompressJob(c, fs, log, filename).reply == Failed(CREATE_ERROR)
            <==> IsDir(fs, OUTPUT)
  {
    var staged := MakeDirs(fs, ARCHIVE_BASE_PATH);
    if !IsDir(fs, OUTPUT) {
      CreateInMadeDir(fs, ARCHIVE_BASE_PATH, OUTPUT_NAME);
    } else {
      assert IsDir(staged, OUTPUT);
    }
  }

  /** The source is the request path pushed onto "entando-data": the data
    * directory joined with a relative path, or an absolute path itself, so
    * compress can pack anything on the disk. A directory is packed
    * recursively under the root name "entando-data" (a packing error answers
    * an error but leaves what was written), a regular file becomes one entry
    * of that name, and anything else answers 404 "Ko"/"Wrong Path" while the
    * output it truncated is still left behind, holding an empty archive. */
  lemma CompressSource(c: Crates, fs: Tree, log: seq<Effect>, filename: string)
    requires CanMakeDirs(fs, ARCHIVE_BASE_PATH) && !IsDir(fs, OUTPUT)
    ensures var out := OUTPUT;
      var source := Push("entando-data", filename);
      var ready := MakeDirs(fs, ARCHIVE_BASE_PATH)[out := File([])];
      var j := CompressJob(c, fs, log, filename);
      var prefix := log + [MadeDirs(ARCHIVE_BASE_PATH), Created(out)];
      && (!StartsWith(filename, "/") ==> source == "entando-data/" + filename)
      && (StartsWith(filename, "/") ==> source == filename)
      && (IsDir(ready, source) ==>
            var packed := c.packDir(ready, source, "entando-data");
            && j.reply == (if packed.Packed? then OkData(EntandoData("Ok", out)) else Failed(PACK_ERROR))
            && j.log == prefix + [PackedDir(source, "entando-data", out)]
            && j.fs == ready[out := File(packed.bytes)])
      && (IsFile(ready, source) ==> j.reply == OkData(EntandoData("Ok", out))
                                    && j.log == prefix + [PackedFile(source, "entando-data", out)]
                                    && j.fs == ready[out := File(c.packFile(ready[source].bytes, "entando-data"))])
      && (j.reply.NotFound? <==> !IsDir(ready, source) && !IsFile(ready, source))
      && (j.reply.NotFound? ==> j.reply.data == EntandoData("Ko", "Wrong Path")
                                && j.fs == ready[out := File(c.emptyArchive)]
                                && IsFile(j.fs, out))
  {
    if !StartsWith(filename, "/") {
      PushRelative(BASE_PATH, filename);
      assert Push(BASE_PATH, filename) == "entando-data/" + filename;
    }
    CompressOutputCreatable(c, fs, log, filename);
    var out := OUTPUT;
    var e1, e2 := MadeDirs(ARCHIVE_BASE_PATH), Created(out);
    assert log + [e1] + [e2] == log + [e1, e2];
  }

  /** An absolute request path is not confined to the data directory: a
    * directory anywhere on the disk is packed into the output. */
  lemma CompressAbsolutePath(c: Crates, fs: Tree, log: seq<Effect>, filename: string)
    requires StartsWith(filename, "/")
    requires CanMakeDirs(fs, ARCHIVE_BASE_PATH) && !IsDir(fs, OUTPUT)
    requires IsDir(fs, filename)
    ensures var j := CompressJob(c, fs, log, filename);
      && j.log[|j.log| - 1] == PackedDir(filename, "entando-data", OUTPUT)
      && !j.reply.NotFound?
  {
    CompressSource(c, fs, log, filename);
    assert filename != OUTPUT;
  }
}
