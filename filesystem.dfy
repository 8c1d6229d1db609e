/**
 * The filesystem both components read and write, reduced to a map from path
 * to (content, modification time, readable). Timestamps are integer seconds
 * since the epoch.
 */
module FileSystem {
  import opened Common

  datatype FileInfo = FileInfo(content: string, mtime: int, readable: bool)

  type Files = map<string, FileInfo>

  /** `file_get_contents(p)`: the content of an existing readable file, else false. */
  function ReadFile(files: Files, p: string): (r: Option<string>)
    ensures r.Some? <==> p in files && files[p].readable
    ensures r.Some? ==> r.value == files[p].content
  {
    if p in files && files[p].readable then Some(files[p].content) else None
  }

  /** The map after writing `content` to `p` at time `now` and making it world-readable (0644). */
  function Written(files: Files, p: string, content: string, now: int): Files
  {
    files[p := FileInfo(content, now, true)]
  }

  /**
   * What `glob(dir . "*" . ext)` matches: `*` stands for any run of characters
   * other than '/'.
   */
  predicate GlobMatch(p: string, dir: string, ext: string)
  {
    |dir| + |ext| <= |p| && p[..|dir|] == dir && p[|p| - |ext|..] == ext && '/' !in p[|dir|..]
  }

  class Disk {
    var files: Files
    /** The paths for which `fopen(path, 'w')` fails. */
    const unwritable: set<string>
    /** The time stamped on a file written during this session. */
    const now: int

    constructor (files: Files, unwritable: set<string>, now: int)
      ensures this.files == files && this.unwritable == unwritable && this.now == now
    {
      this.files := files;
      this.unwritable := unwritable;
      this.now := now;
    }

    /**
     * `fopen(p, 'w')`, `fwrite`, `fclose`, `chmod(p, 0644)`: false and no change
     * when the open fails, otherwise the file holds exactly `content`.
     */
    method Write(p: string, content: string) returns (ok: bool)
      modifies this`files
      ensures ok <==> p !in unwritable
      ensures files == if ok then Written(old(files), p, content, now) else old(files)
    {
      ok := p !in unwritable;
      if ok {
        files := Written(files, p, content, now);
      }
    }

    /** `fwrite(fp, text)` on a file just opened with `fopen(p, 'w')`: the text is appended. */
    method Append(p: string, text: string)
      requires p in files
      modifies this`files
      ensures files == Written(old(files), p, old(files)[p].content + text, now)
    {
      files := Written(files, p, files[p].content + text, now);
    }

    /** `glob(dir . "*" . ext)`: every matching path once, in some order. */
    method Glob(dir: string, ext: string) returns (paths: seq<string>)
      ensures forall p :: p in paths <==> p in files && GlobMatch(p, dir, ext)
      ensures forall i, j :: 0 <= i < j < |paths| ==> paths[i] != paths[j]
    {
      var pending := set p | p in files && GlobMatch(p, dir, ext);
      paths := [];
      while pending != {}
        invariant forall p :: p in paths <==> p in files && GlobMatch(p, dir, ext) && p !in pending
        invariant forall p :: p in pending ==> p in files && GlobMatch(p, dir, ext)
        invariant forall i, j :: 0 <= i < j < |paths| ==> paths[i] != paths[j]
        decreases pending
      {
        var p :| p in pending;
        paths := paths + [p];
        pending := pending - {p};
      }
    }
  }
}
