/**
 * The file system the generator and the blog share, as a value: regular
 * files by absolute location, and the order in which they were created,
 * which fixes the order `readdir` lists a directory's entries in.
 * Directories exist implicitly, as the proper prefixes of file locations.
 */
module Files {
  import opened Wrappers
  import opened Seqs

  /** An absolute location: the plain segments below the root. */
  type Loc = seq<string>

  datatype Fs = Fs(files: map<Loc, string>, order: seq<Loc>)

  predicate ProperPrefix(p: Loc, q: Loc)
  {
    |p| < |q| && q[..|p|] == p
  }

  /**
   * A consistent file system: `order` lists every file once, and no file
   * sits where a directory of another file is.
   */
  ghost predicate Valid(fs: Fs)
  {
    Distinct(fs.order)
    && (forall p :: p in fs.files <==> p in fs.order)
    && (forall p, q :: p in fs.files && q in fs.files ==> !ProperPrefix(p, q))
  }

  predicate IsFile(fs: Fs, p: Loc)
  {
    p in fs.files
  }

  predicate IsDir(fs: Fs, p: Loc)
  {
    exists i :: 0 <= i < |fs.order| && ProperPrefix(p, fs.order[i])
  }

  /** A proper ancestor of `p` is a regular file, so `p` cannot be reached (ENOTDIR). */
  predicate FileOnPath(fs: Fs, p: Loc)
  {
    exists i :: 0 <= i < |p| && p[..i] in fs.files
  }

  /** `stat` succeeds. */
  predicate Exists(fs: Fs, p: Loc)
  {
    IsFile(fs, p) || IsDir(fs, p)
  }

  function Write(fs: Fs, p: Loc, content: string): (r: Fs)
    ensures r.files == fs.files[p := content]
  {
    Fs(fs.files[p := content], if p in fs.files then fs.order else fs.order + [p])
  }

  lemma WriteValid(fs: Fs, p: Loc, content: string)
    requires Valid(fs) && !IsDir(fs, p) && !FileOnPath(fs, p)
    ensures Valid(Write(fs, p, content))
  {
    var r := Write(fs, p, content);
    forall q | q in fs.files ensures !ProperPrefix(p, q) && !ProperPrefix(q, p) {
      assert q in fs.order;
      assert |q| < |p| ==> p[..|q|] !in fs.files;
    }
  }

  datatype IoError = NoEntry | IsADirectory | NotADirectory

  /** fs.copyFile(src, dst): the destination's directory must already be reachable. */
  function CopyFile(fs: Fs, src: Loc, dst: Loc): (r: Result<Fs, IoError>)
    ensures r.Ok? <==> src in fs.files && !FileOnPath(fs, dst) && !IsDir(fs, dst)
    ensures r.Ok? ==> r.value.files == fs.files[dst := fs.files[src]]
  {
    if src !in fs.files then Err(if IsDir(fs, src) then IsADirectory else if FileOnPath(fs, src) then NotADirectory else NoEntry)
    else if FileOnPath(fs, dst) then Err(NotADirectory)
    else if IsDir(fs, dst) then Err(IsADirectory)
    else Ok(Write(fs, dst, fs.files[src]))
  }

  /**
   * fs.mkdir(dir, {recursive: true}) followed by ignoring EEXIST: it only
   * fails when an ancestor of `dir` is a regular file. Directories the call
   * creates are implicit here, and appear once a file is written below them.
   */
  function MkdirP(fs: Fs, dir: Loc): Option<IoError>
  {
    if FileOnPath(fs, dir) then Some(NotADirectory) else None
  }

  /** The names under `dir`, one per file below it, in creation order. */
  function ChildNames(order: seq<Loc>, dir: Loc): (r: seq<string>)
    ensures forall n :: n in r <==> exists i :: 0 <= i < |order| && ProperPrefix(dir, order[i]) && order[i][|dir|] == n
    decreases |order|
  {
    if |order| == 0 then []
    else
      var rest := ChildNames(order[1..], dir);
      assert forall i :: 0 <= i < |order| - 1 ==> order[1..][i] == order[i + 1];
      (if ProperPrefix(dir, order[0]) then [order[0][|dir|]] else []) + rest
  }

  /** fs.readdir(dir): each entry once, in the order it first appeared. */
  function ListDir(fs: Fs, dir: Loc): (r: seq<string>)
    ensures Distinct(r)
    ensures forall n :: n in r <==> IsDir(fs, dir) && IsDirOrFileChild(fs, dir, n)
  {
    Dedupe(ChildNames(fs.order, dir))
  }

  predicate IsDirOrFileChild(fs: Fs, dir: Loc, n: string)
  {
    exists i :: 0 <= i < |fs.order| && ProperPrefix(dir, fs.order[i]) && fs.order[i][|dir|] == n
  }

  /** The longest file location: a bound on how deep a directory walk can go. */
  function MaxDepth(order: seq<Loc>): (r: nat)
    ensures forall i :: 0 <= i < |order| ==> |order[i]| <= r
    decreases |order|
  {
    if |order| == 0 then 0
    else
      var m := MaxDepth(order[1..]);
      assert forall i :: 1 <= i < |order| ==> order[i] == order[1..][i - 1];
      if |order[0]| > m then |order[0]| else m
  }

  /** Every child of a listed directory is a file or a directory, never both. */
  lemma ChildKind(fs: Fs, dir: Loc, n: string)
    requires Valid(fs) && IsDirOrFileChild(fs, dir, n)
    ensures IsFile(fs, dir + [n]) || IsDir(fs, dir + [n])
    ensures !(IsFile(fs, dir + [n]) && IsDir(fs, dir + [n]))
  {
    var i :| 0 <= i < |fs.order| && ProperPrefix(dir, fs.order[i]) && fs.order[i][|dir|] == n;
    var q := fs.order[i];
    assert q[..|dir| + 1] == dir + [n];
    if |q| > |dir| + 1 {
      assert ProperPrefix(dir + [n], q);
    } else {
      assert q == dir + [n];
    }
    forall j | 0 <= j < |fs.order| ensures IsFile(fs, dir + [n]) ==> !ProperPrefix(dir + [n], fs.order[j]) {
      assert fs.order[j] in fs.files;
    }
  }
}
