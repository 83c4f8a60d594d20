/**
 * The part of the file system the manager touches: entries named by path, each a
 * regular file or a directory holding tables by file name.
 */
module Files {
  import opened Tables

  datatype Entry = RegularFile | Directory(files: map<string, Table>)

  /** The file system, which the manager's constructor and `save` change in place. */
  class FileSystem {
    var entries: map<string, Entry>

    constructor (entries: map<string, Entry>)
      ensures this.entries == entries
    {
      this.entries := entries;
    }
  }

  predicate IsDirectory(entries: map<string, Entry>, path: string)
  {
    path in entries && entries[path].Directory?
  }

  /** `mkdir(parents=True, exist_ok=True)` on a path that is not a regular file. */
  function MakeDirectory(entries: map<string, Entry>, path: string): (r: map<string, Entry>)
    requires !(path in entries && entries[path].RegularFile?)
    ensures IsDirectory(r, path)
    ensures r.Keys == entries.Keys + {path}
    ensures forall p :: p in entries && (p != path || entries[p].Directory?) ==> r[p] == entries[p]
    ensures path !in entries ==> r[path] == Directory(map[])
  {
    if path in entries then entries else entries[path := Directory(map[])]
  }

  /** Writing `t` to the file `name` inside the directory `dir`, replacing any file of that name. */
  function WriteFile(entries: map<string, Entry>, dir: string, name: string, t: Table): (r: map<string, Entry>)
    requires IsDirectory(entries, dir)
    ensures r.Keys == entries.Keys && IsDirectory(r, dir)
    ensures r[dir].files.Keys == entries[dir].files.Keys + {name}
    ensures r[dir].files[name] == t
    ensures forall n :: n in entries[dir].files && n != name ==> r[dir].files[n] == entries[dir].files[n]
    ensures forall p :: p in entries && p != dir ==> r[p] == entries[p]
  {
    entries[dir := Directory(entries[dir].files[name := t])]
  }
}
