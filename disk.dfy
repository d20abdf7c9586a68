/** The mutable disk shared by all handlers, one method per disk call
  * (std::fs, and the tar and gzip calls that touch the disk).
  * Each method records the call it models in the ghost journal, whether the
  * call succeeds or not. */
module StdFs {
  import opened FileSystem
  import opened Foreign

  class Disk {
    var entries: Tree
    ghost var journal: seq<Effect>

    constructor (initial: Tree)
      ensures entries == initial && journal == []
    {
      entries := initial;
      journal := [];
    }

    /** fs::create_dir_all */
    method CreateDirAll(p: Path) returns (ok: bool)
      modifies this
      ensures ok == CanMakeDirs(old(entries), p)
      ensures entries == if ok then MakeDirs(old(entries), p) else old(entries)
      ensures journal == old(journal) + [MadeDirs(p)]
    {
      ok := CanMakeDirs(entries, p);
      if ok {
        entries := MakeDirs(entries, p);
      }
      journal := journal + [MadeDirs(p)];
    }

    /** File::create: creates the file, or truncates an existing one */
    method Create(p: Path) returns (ok: bool)
      modifies this
      ensures ok == CanCreateFile(old(entries), p)
      ensures entries == if ok then old(entries)[p := File([])] else old(entries)
      ensures journal == old(journal) + [Created(p)]
    {
      ok := CanCreateFile(entries, p);
      if ok {
        entries := entries[p := File([])];
      }
      journal := journal + [Created(p)];
    }

    /** write_all of one chunk at the end of an open file */
    method WriteAll(p: Path, chunk: seq<Byte>)
      requires IsFile(entries, p)
      modifies this
      ensures entries == old(entries)[p := File(old(entries)[p].bytes + chunk)]
      ensures journal == old(journal) + [Wrote(p, chunk)]
    {
      entries := entries[p := File(entries[p].bytes + chunk)];
      journal := journal + [Wrote(p, chunk)];
    }

    /** fs::remove_file: fails unless `p` is a regular file */
    method RemoveFile(p: Path) returns (ok: bool)
      modifies this
      ensures ok == IsFile(old(entries), p)
      ensures entries == if ok then old(entries) - {p} else old(entries)
      ensures journal == old(journal) + [RemovedFile(p)]
    {
      ok := IsFile(entries, p);
      if ok {
        entries := entries - {p};
      }
      journal := journal + [RemovedFile(p)];
    }

    /** fs::remove_dir_all: removes a directory and everything below it */
    method RemoveDirAll(p: Path) returns (ok: bool)
      modifies this
      ensures ok == IsDir(old(entries), p)
      ensures entries == if ok then old(entries) - Subtree(old(entries), p) else old(entries)
      ensures journal == old(journal) + [RemovedTree(p)]
    {
      ok := IsDir(entries, p);
      if ok {
        entries := entries - Subtree(entries, p);
      }
      journal := journal + [RemovedTree(p)];
    }

    /** Archive::unpack over a GzDecoder reading `archive`; reading a
      * directory fails before any entry is extracted. */
    method Unpack(unpack: (seq<Byte>, Path, Tree) -> Tree, archive: Path, dest: Path)
      modifies this
      ensures entries == if IsFile(old(entries), archive)
                         then unpack(old(entries)[archive].bytes, dest, old(entries))
                         else old(entries)
      ensures journal == old(journal) + [Unpacked(archive, dest)]
    {
      if IsFile(entries, archive) {
        entries := unpack(entries[archive].bytes, dest, entries);
      }
      journal := journal + [Unpacked(archive, dest)];
    }

    /** Builder::append_dir_all(root, source) then finish, into the open output */
    method AppendDirAll(packDir: (Tree, Path, string) -> PackOutcome, root: string, source: Path, out: Path)
      returns (ok: bool)
      requires IsFile(entries, out)
      modifies this
      ensures var o := packDir(old(entries), source, root);
        ok == o.Packed? && entries == old(entries)[out := File(o.bytes)]
      ensures journal == old(journal) + [PackedDir(source, root, out)]
    {
      var o := packDir(entries, source, root);
      ok := o.Packed?;
      entries := entries[out := File(o.bytes)];
      journal := journal + [PackedDir(source, root, out)];
    }

    /** Builder::append_file(root, source), finished when the builder is dropped */
    method AppendFile(packFile: (seq<Byte>, string) -> seq<Byte>, root: string, source: Path, out: Path)
      requires IsFile(entries, source) && IsFile(entries, out)
      modifies this
      ensures entries == old(entries)[out := File(packFile(old(entries)[source].bytes, root))]
      ensures journal == old(journal) + [PackedFile(source, root, out)]
    {
      entries := entries[out := File(packFile(entries[source].bytes, root))];
      journal := journal + [PackedFile(source, root, out)];
    }
  }
}
