/**
 * The path library the block reconstructor relies on, kept abstract: normalising a
 * path to slash form (PathUtil.toUnixStylePath), `java.io.File` equality of two paths,
 * and the relative path from one directory to another (FileUtil.getRelativePath, which
 * is null when there is none).
 */
module Paths {
  import opened Wrappers

  datatype PathOps = PathOps(
    unix: string -> string,
    same: (string, string) -> bool,
    relative: (string, string) -> Option<string>)
}
