/** The two request handlers that only look a path up under the data
  * directory: `index`, which serves public files, and `delete`, which
  * removes a file or a whole directory. Neither rejects '..' or an absolute
  * request path. */
module Handlers {
  import opened FileSystem
  import opened StdFs

  const BASE_PATH := "entando-data/"
  const NOT_FOUND_MESSAGE := "File not found. Or tried to list content of a directory."
  const FORBIDDEN_MESSAGE := "You are not allowed to get this protected resource"

  datatype IndexReply =
    | Served(path: Path, bytes: seq<Byte>)
    | NotFound(message: string)
    | Forbidden(message: string)

  /** PathBuf::new(), push(BASE_PATH), push(request path): the base directory
    * joined with a relative request path, or the request path itself when it
    * is absolute. */
  function RequestPath(filename: string): (p: Path)
    ensures StartsWith(filename, "/") ==> p == filename
    ensures !StartsWith(filename, "/") ==> p == BASE_PATH + filename
  {
    Push(Push("", BASE_PATH), filename)
  }

  /** The public file handler: only request paths starting with "public/"
    * are looked at, and only an existing regular file is served. */
  function Index(fs: Tree, filename: string): (r: IndexReply)
    ensures r.Forbidden? <==> !StartsWith(filename, "public/")
    ensures r.Forbidden? ==> r.message == FORBIDDEN_MESSAGE
    ensures r.Served? <==> StartsWith(filename, "public/") && IsFile(fs, "entando-data/" + filename)
    ensures r.NotFound? ==> r.message == NOT_FOUND_MESSAGE
    ensures r.Served? ==>
      && r.path == "entando-data/" + filename
      && StartsWith(r.path, "entando-data/public/")
      && r.bytes == fs[r.path].bytes
  {
    if StartsWith(filename, "public/") then
      var path := RequestPath(filename);
      if path in fs && IsFile(fs, path) then Served(path, fs[path].bytes)
      else NotFound(NOT_FOUND_MESSAGE)
    else Forbidden(FORBIDDEN_MESSAGE)
  }

  /** The tree after deleting an existing `p`: `p` goes, together with
    * everything below it when it is a directory; nothing else changes. */
  function Deleted(fs: Tree, p: Path): (r: Tree)
    requires p in fs
    ensures p !in r
    ensures forall q | q in r :: q in fs && r[q] == fs[q]
    ensures forall q | q in fs ::
      q in r <==> q != p && !(IsDir(fs, p) && StartsWith(q, p + "/"))
  {
    if IsDir(fs, p) then fs - Subtree(fs, p) else fs - {p}
  }

  /** The delete handler: "OK" when the path existed, which is then removed
    * (recursively for a directory); "KO" and no change otherwise. */
  method Delete(disk: Disk, filename: string) returns (status: string)
    modifies disk
    ensures var p := RequestPath(filename);
      && status == (if p in old(disk.entries) then "OK" else "KO")
      && disk.entries == (if p in old(disk.entries) then Deleted(old(disk.entries), p) else old(disk.entries))
      && disk.journal == old(disk.journal) + (if IsDir(old(disk.entries), p) then [RemovedTree(p)]
                                              else if p in old(disk.entries) then [RemovedFile(p)]
                                              else [])
  {
    var path := RequestPath(filename);
    var result: bool;
    if path in disk.entries {
      if IsDir(disk.entries, path) {
        var _ := disk.RemoveDirAll(path);
      } else {
        var _ := disk.RemoveFile(path);
      }
      result := true;
    } else {
      result := false;
    }
    status := if result then "OK" else "KO";
  }

  /** An absolute request path is not confined to the data directory:
    * delete then works on the request path itself. */
  lemma DeleteAbsolutePath(fs: Tree, filename: string)
    requires StartsWith(filename, "/") && filename in fs
    ensures RequestPath(filename) == filename
    ensures filename !in Deleted(fs, RequestPath(filename))
  {
  }
}
