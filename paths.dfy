/**
 * POSIX path handling of Node's `path` module: `join` concatenates with
 * "/" and normalises, dropping empty and "." segments and letting ".."
 * remove the segment before it; `resolve` does the same starting from the
 * working directory.
 */
module Paths {
  import opened Strs

  /** A normalised path: whether it starts at the root, and its segments. */
  datatype Path = Path(absolute: bool, segs: seq<string>)

  /** A segment normalisation keeps: not empty, not ".", not "..", no "/". */
  predicate PlainName(s: string)
  {
    s != "" && s != "." && s != ".." && '/' !in s
  }

  /** One step of normalisation. */
  function Push(stack: seq<string>, absolute: bool, seg: string): seq<string>
  {
    if seg == "" || seg == "." then stack
    else if seg == ".." then
      if |stack| > 0 && stack[|stack| - 1] != ".." then stack[..|stack| - 1]
      else if absolute then stack
      else stack + [".."]
    else stack + [seg]
  }

  function PushAll(stack: seq<string>, absolute: bool, segs: seq<string>): seq<string>
    decreases |segs|
  {
    if |segs| == 0 then stack else PushAll(Push(stack, absolute, segs[0]), absolute, segs[1..])
  }

  /** path.normalize of a path string. */
  function Parse(s: string): Path
  {
    var abs := StartsWith(s, "/");
    Path(abs, PushAll([], abs, Split(s, '/')))
  }

  /**
   * path.join(p, s): the result is absolute exactly when p is, an absolute
   * path keeps only plain segments, and a plain name is appended as it is.
   */
  function Join(p: Path, s: string): (r: Path)
    ensures r.absolute == p.absolute
    ensures p.absolute && AllPlain(p.segs) ==> AllPlain(r.segs)
    ensures PlainName(s) ==> r.segs == p.segs + [s]
  {
    var segs := Split(s, '/');
    if PlainName(s) then
      NoSepSplit(s, '/');
      PushAllPlain(p.segs, p.absolute, segs);
      Path(p.absolute, PushAll(p.segs, p.absolute, segs))
    else if p.absolute && AllPlain(p.segs) then
      PushAllAbsolutePlain(p.segs, segs);
      Path(p.absolute, PushAll(p.segs, p.absolute, segs))
    else
      Path(p.absolute, PushAll(p.segs, p.absolute, segs))
  }

  /**
   * path.resolve(s) against an absolute working directory: a normalised
   * working directory gives a normalised location, and a plain name is
   * appended to it.
   */
  function Resolve(cwd: seq<string>, s: string): (r: seq<string>)
    ensures AllPlain(cwd) ==> AllPlain(r)
    ensures PlainName(s) ==> r == cwd + [s]
  {
    if StartsWith(s, "/") then
      PushAllAbsolutePlain([], Split(s, '/'));
      Parse(s).segs
    else
      if PlainName(s) then
        NoSepSplit(s, '/');
        PushAllPlain(cwd, true, [s]);
        PushAll(cwd, true, Split(s, '/'))
      else if AllPlain(cwd) then
        PushAllAbsolutePlain(cwd, Split(s, '/'));
        PushAll(cwd, true, Split(s, '/'))
      else
        PushAll(cwd, true, Split(s, '/'))
  }

  /** The absolute location of a normalised path. */
  function Locate(cwd: seq<string>, p: Path): seq<string>
  {
    if p.absolute then p.segs else PushAll(cwd, true, p.segs)
  }

  /** The text of a path, as path.join returns it. */
  function Show(p: Path): string
  {
    if p.absolute then "/" + Strs.Join(p.segs, "/")
    else if p.segs == [] then "."
    else Strs.Join(p.segs, "/")
  }

  predicate AllPlain(segs: seq<string>)
  {
    forall i :: 0 <= i < |segs| ==> PlainName(segs[i])
  }

  /** Normalising an absolute path never leaves an empty, "." or ".." segment. */
  lemma {:induction false} PushAllAbsolutePlain(stack: seq<string>, segs: seq<string>)
    requires AllPlain(stack)
    requires forall i :: 0 <= i < |segs| ==> '/' !in segs[i]
    ensures AllPlain(PushAll(stack, true, segs))
    decreases |segs|
  {
    if |segs| > 0 {
      PushAllAbsolutePlain(Push(stack, true, segs[0]), segs[1..]);
    }
  }

  /** Pushing segments that are all plain just appends them. */
  lemma {:induction false} PushAllPlain(stack: seq<string>, absolute: bool, segs: seq<string>)
    requires AllPlain(segs)
    ensures PushAll(stack, absolute, segs) == stack + segs
    decreases |segs|
  {
    if |segs| > 0 {
      PushAllPlain(stack + [segs[0]], absolute, segs[1..]);
      assert stack + [segs[0]] + segs[1..] == stack + segs;
    }
  }

  lemma {:induction false} SplitJoinPlain(segs: seq<string>)
    requires |segs| >= 1 && AllPlain(segs)
    ensures Split(Strs.Join(segs, "/"), '/') == segs
    decreases |segs|
  {
    if |segs| == 1 {
      NoSepSplit(segs[0], '/');
    } else {
      SplitJoinPlain(segs[1..]);
      SplitAfterSep(segs[0], Strs.Join(segs[1..], "/"));
      assert Strs.Join(segs, "/") == segs[0] + "/" + Strs.Join(segs[1..], "/");
      assert segs == [segs[0]] + segs[1..];
    }
  }

  /** Splitting `a + "/" + b` where `a` has no "/" peels `a` off. */
  lemma {:induction false} SplitAfterSep(a: string, b: string)
    requires '/' !in a
    ensures Split(a + "/" + b, '/') == [a] + Split(b, '/')
    decreases |a|
  {
    if |a| == 0 {
      assert a + "/" + b == "/" + b;
      assert ("/" + b)[1..] == b;
    } else {
      var s := a + "/" + b;
      assert s[1..] == a[1..] + "/" + b;
      SplitAfterSep(a[1..], b);
      assert [a[0]] + a[1..] == a;
    }
  }

  /** The text of an absolute path with plain segments parses back to the same path. */
  lemma ParseShow(segs: seq<string>)
    requires AllPlain(segs)
    ensures Parse(Show(Path(true, segs))) == Path(true, segs)
  {
    var s := Show(Path(true, segs));
    assert StartsWith(s, "/");
    if segs == [] {
      assert s == "/";
      assert Split(s, '/') == ["", ""];
    } else {
      SplitAfterSep("", Strs.Join(segs, "/"));
      assert s == "" + "/" + Strs.Join(segs, "/");
      SplitJoinPlain(segs);
      PushAllPlain([], true, segs);
      assert PushAll([], true, [""] + segs) == PushAll([], true, segs);
    }
  }

  /** The last "/"-piece of the text of an absolute path with plain segments is its last segment. */
  lemma LastPieceShow(segs: seq<string>)
    requires |segs| >= 1 && AllPlain(segs)
    ensures LastPiece(Show(Path(true, segs)), '/') == segs[|segs| - 1]
  {
    var s := Show(Path(true, segs));
    SplitAfterSep("", Strs.Join(segs, "/"));
    assert s == "" + "/" + Strs.Join(segs, "/");
    SplitJoinPlain(segs);
    assert Split(s, '/') == [""] + segs;
  }
}
