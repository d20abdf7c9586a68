/** The foreign crates the handlers call, kept uninterpreted: every property
  * proved about the handlers holds for every choice of these functions. */
module Foreign {
  import opened FileSystem

  /** What tar's Builder leaves in the output: the finished archive, or,
    * when packing or finishing failed, what the output holds once the failed
    * builder and its gzip encoder have been dropped. */
  datatype PackOutcome = Packed(bytes: seq<Byte>) | PackFailed(bytes: seq<Byte>)

  datatype Crates = Crates(
    /** sanitize_filename::sanitize */
    sanitize: string -> string,
    /** std::str::from_utf8 of one multipart chunk; None is invalid UTF-8 */
    utf8: seq<Byte> -> Option<string>,
    /** tar Archive::unpack of a gzip-compressed archive into a destination
      * directory, errors swallowed: the tree after whatever it extracted */
    unpack: (seq<Byte>, Path, Tree) -> Tree,
    /** gzip (best compression) of tar Builder::append_dir_all(root, source) */
    packDir: (Tree, Path, string) -> PackOutcome,
    /** gzip of tar Builder::append_file(root, file) for a file's contents */
    packFile: (seq<Byte>, string) -> seq<Byte>,
    /** what dropping an empty tar Builder and its gzip encoder writes */
    emptyArchive: seq<Byte>
  )
}
