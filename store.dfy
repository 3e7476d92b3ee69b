/** The on-disk JSON cache, as an abstract file system: a map from path to
    the top-level object stored there, which maps a listing name to its
    record. */
module Store {
  import opened Values

  type Record = map<string, Json>
  type CacheFile = map<string, Record>
  type Files = map<string, CacheFile>

  /** The catalogue file, written whole. */
  const TopFile := "cache/" + "cached_apt_results.json"
  /** The per-listing file, written one entry at a time. */
  const AptsFile := "cache/" + "cached_apt_info.json"

  /** The file at `path` exists and has a top-level key `name`. */
  predicate HasEntry(files: Files, path: string, name: string)
  {
    path in files && name in files[path]
  }

  /** The per-name write: when the file exists, only the entry `name` is
      replaced by `data[name]`; otherwise the file becomes `data`. */
  function PutEntry(files: Files, path: string, name: string, data: CacheFile): (r: Files)
    requires path in files ==> name in data
    ensures r.Keys == files.Keys + {path}
    ensures forall p :: p in files && p != path ==> r[p] == files[p]
    ensures path in files ==>
      && r[path].Keys == files[path].Keys + {name}
      && r[path][name] == data[name]
      && forall k :: k in files[path] && k != name ==> r[path][k] == files[path][k]
    ensures path !in files ==> r[path] == data
  {
    if path in files then files[path := files[path][name := data[name]]]
    else files[path := data]
  }

  /** Writing the entry of one listing leaves every other listing's entry,
      in every file, as it was, and the written entry reads back. */
  lemma PutEntryIsolation(files: Files, path: string, name: string, data: CacheFile, p: string, other: string)
    requires name in data
    requires other != name
    ensures var r := PutEntry(files, path, name, data);
      && HasEntry(r, path, name) && r[path][name] == data[name]
      && (HasEntry(files, p, other) && (p != path || path in files) ==>
            HasEntry(r, p, other) && r[p][other] == files[p][other])
  {
  }

  /** Repeating a write changes nothing more. */
  lemma PutEntryIdempotent(files: Files, path: string, name: string, data: CacheFile)
    requires name in data
    ensures PutEntry(PutEntry(files, path, name, data), path, name, data) == PutEntry(files, path, name, data)
  {
    if path !in files {
      assert data[name := data[name]] == data;
    } else {
      var f := files[path][name := data[name]];
      assert f[name := data[name]] == f;
    }
  }

  /** The file system, which the scrapers read and rewrite whole files of. */
  class Disk {
    var files: Files

    constructor (files: Files)
      ensures this.files == files
    {
      this.files := files;
    }

    /** `os.path.isfile(path)`. */
    method IsFile(path: string) returns (b: bool)
      ensures b == (path in files)
    {
      b := path in files;
    }

    /** `json.load` of the file at `path`. */
    method Load(path: string) returns (f: CacheFile)
      requires path in files
      ensures f == files[path]
    {
      f := files[path];
    }

    /** `json.dump` of `data` over the file at `path`. */
    method Dump(path: string, data: CacheFile)
      modifies this
      ensures files == old(files)[path := data]
    {
      files := files[path := data];
    }
  }
}
