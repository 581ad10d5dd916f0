/**
 * The bridge between the generator's output folder and the blog's folder:
 * copying a generated file into the blog (as a draft or published),
 * publishing a draft by copying it out of the drafts folder, scanning both
 * trees for Markdown files and synchronising the files the blog lacks.
 */
module BlogIntegration {
  import opened Wrappers
  import opened Strs
  import opened Seqs
  import opened Paths
  import opened Files

  datatype Config = Config(generatorOutputDir: string, blogFolderPath: string, draftsSubfolder: string, autoSync: bool)

  /** A configured text replaces the default only when it is a non-empty string. */
  function OrDefault(o: Option<string>, default: string): string
  {
    if o.Some? && o.value != "" then o.value else default
  }

  /** The constructor's defaults. */
  function MakeConfig(generatorOutputDir: Option<string>, blogFolderPath: Option<string>,
                      draftsSubfolder: Option<string>, autoSync: bool): (c: Config)
    ensures (generatorOutputDir.None? || generatorOutputDir == Some("")) ==> c.generatorOutputDir == "./output"
    ensures (blogFolderPath.None? || blogFolderPath == Some("")) ==> c.blogFolderPath == "../obsidian-blogger/Blog"
    ensures (draftsSubfolder.None? || draftsSubfolder == Some("")) ==> c.draftsSubfolder == "drafts"
    ensures generatorOutputDir.Some? && generatorOutputDir.value != "" ==> c.generatorOutputDir == generatorOutputDir.value
    ensures blogFolderPath.Some? && blogFolderPath.value != "" ==> c.blogFolderPath == blogFolderPath.value
    ensures draftsSubfolder.Some? && draftsSubfolder.value != "" ==> c.draftsSubfolder == draftsSubfolder.value
    ensures c.autoSync == autoSync
  {
    Config(OrDefault(generatorOutputDir, "./output"), OrDefault(blogFolderPath, "../obsidian-blogger/Blog"),
           OrDefault(draftsSubfolder, "drafts"), autoSync)
  }

  datatype CopyOptions = CopyOptions(publishReady: bool, subfolder: Option<string>, overwrite: bool)

  datatype Status = Published | Draft

  datatype CopyResult =
    | Copied(sourcePath: string, targetPath: Path, status: Status, folder: Path)
    | FileExists
    | CopyFailed(error: IoError)
  {
    predicate Success() { Copied? }
  }

  /** The folder a copy lands in: the blog root when publishing, else its drafts folder, plus an optional subfolder. */
  function TargetFolder(cfg: Config, opts: CopyOptions): (r: Path)
    ensures r.absolute == Parse(cfg.blogFolderPath).absolute
    ensures PlainName(cfg.draftsSubfolder) && (opts.subfolder.Some? && opts.subfolder.value != "" ==> PlainName(opts.subfolder.value)) ==>
      r.segs == Parse(cfg.blogFolderPath).segs + (if opts.publishReady then [] else [cfg.draftsSubfolder])
                + (if opts.subfolder.Some? && opts.subfolder.value != "" then [opts.subfolder.value] else [])
  {
    var base := if opts.publishReady then Parse(cfg.blogFolderPath) else Paths.Join(Parse(cfg.blogFolderPath), cfg.draftsSubfolder);
    if opts.subfolder.Some? && opts.subfolder.value != "" then Paths.Join(base, opts.subfolder.value) else base
  }

  /** copyToBlogs: the result and the file system afterwards. */
  function CopyToBlogs(cfg: Config, cwd: Loc, fs: Fs, filePath: string, opts: CopyOptions): (r: (CopyResult, Fs))
    ensures r.0.Copied? ==> r.0.targetPath == Paths.Join(TargetFolder(cfg, opts), LastPiece(filePath, '/'))
    ensures r.0.Copied? ==> r.0.status == if opts.publishReady then Published else Draft
    ensures r.0.Copied? ==> Resolve(cwd, filePath) in fs.files
    ensures r.0.Copied? ==> r.1.files == fs.files[Locate(cwd, r.0.targetPath) := fs.files[Resolve(cwd, filePath)]]
    ensures !r.0.Copied? ==> r.1 == fs
    ensures !opts.overwrite && Exists(fs, Locate(cwd, Paths.Join(TargetFolder(cfg, opts), LastPiece(filePath, '/'))))
            ==> !r.0.Copied?
    ensures FileOnPath(fs, Locate(cwd, TargetFolder(cfg, opts))) ==> r.0 == CopyFailed(NotADirectory)
    ensures var target := Locate(cwd, Paths.Join(TargetFolder(cfg, opts), LastPiece(filePath, '/')));
            r.0 == FileExists <==>
              !FileOnPath(fs, Locate(cwd, TargetFolder(cfg, opts))) && !opts.overwrite && Exists(fs, target)
    ensures var target := Locate(cwd, Paths.Join(TargetFolder(cfg, opts), LastPiece(filePath, '/')));
            r.0.Copied? <==>
              !FileOnPath(fs, Locate(cwd, TargetFolder(cfg, opts))) && (opts.overwrite || !Exists(fs, target))
              && CopyFile(fs, Resolve(cwd, filePath), target).Ok?
  {
    var folder := TargetFolder(cfg, opts);
    match MkdirP(fs, Locate(cwd, folder))
    case Some(e) => (CopyFailed(e), fs)
    case None =>
      var target := Paths.Join(folder, LastPiece(filePath, '/'));
      var targetLoc := Locate(cwd, target);
      if !opts.overwrite && Exists(fs, targetLoc) then (FileExists, fs)
      else
        match CopyFile(fs, Resolve(cwd, filePath), targetLoc)
        case Err(e) => (CopyFailed(e), fs)
        case Ok(fs2) => (Copied(filePath, target, if opts.publishReady then Published else Draft, folder), fs2)
  }

  /** A copy onto an existing file without `overwrite` reports FILE_EXISTS and leaves every file as it was. */
  lemma NoOverwriteKeepsTarget(cfg: Config, cwd: Loc, fs: Fs, filePath: string, opts: CopyOptions)
    requires !opts.overwrite
    requires Locate(cwd, Paths.Join(TargetFolder(cfg, opts), LastPiece(filePath, '/'))) in fs.files
    requires !FileOnPath(fs, Locate(cwd, TargetFolder(cfg, opts)))
    ensures CopyToBlogs(cfg, cwd, fs, filePath, opts) == (FileExists, fs)
  {
  }

  datatype PublishResult =
    | PublishedDraft(draftPath: Path, publishPath: Path)
    | DraftNotFound
    | PublishFailed(error: IoError)

  /** publishDraft: copy `<blog>/<drafts>/<name>` to `<blog>/<name>`. */
  function PublishDraft(cfg: Config, cwd: Loc, fs: Fs, fileName: string): (r: (PublishResult, Fs))
    ensures !Exists(fs, Locate(cwd, DraftPath(cfg, fileName))) <==> r.0 == DraftNotFound
    ensures !r.0.PublishedDraft? ==> r.1 == fs
    ensures r.0.PublishedDraft? ==>
      var d := Locate(cwd, DraftPath(cfg, fileName));
      d in fs.files && r.1.files == fs.files[Locate(cwd, PublishPath(cfg, fileName)) := fs.files[d]]
    ensures var d := Locate(cwd, DraftPath(cfg, fileName));
      var p := Locate(cwd, PublishPath(cfg, fileName));
      (r.0.PublishedDraft? <==> Exists(fs, d) && CopyFile(fs, d, p).Ok?)
      && (r.0.PublishedDraft? ==>
            r.0.draftPath == DraftPath(cfg, fileName) && r.0.publishPath == PublishPath(cfg, fileName)
            && r.1 == CopyFile(fs, d, p).value)
      && (r.0.PublishFailed? <==> Exists(fs, d) && CopyFile(fs, d, p).Err?)
      && (r.0.PublishFailed? ==> r.0.error == CopyFile(fs, d, p).error)
  {
    var draft := DraftPath(cfg, fileName);
    var publish := PublishPath(cfg, fileName);
    if !Exists(fs, Locate(cwd, draft)) then (DraftNotFound, fs)
    else
      match CopyFile(fs, Locate(cwd, draft), Locate(cwd, publish))
      case Err(e) => (PublishFailed(e), fs)
      case Ok(fs2) => (PublishedDraft(draft, publish), fs2)
  }

  function DraftPath(cfg: Config, fileName: string): Path
  {
    Paths.Join(Paths.Join(Parse(cfg.blogFolderPath), cfg.draftsSubfolder), fileName)
  }

  function PublishPath(cfg: Config, fileName: string): Path
  {
    Paths.Join(Parse(cfg.blogFolderPath), fileName)
  }

  /** Publishing copies rather than moves: a published draft is still in the drafts folder with the same content. */
  lemma PublishKeepsDraft(cfg: Config, cwd: Loc, fs: Fs, fileName: string)
    requires PublishDraft(cfg, cwd, fs, fileName).0.PublishedDraft?
    ensures var d := Locate(cwd, DraftPath(cfg, fileName));
            var r := PublishDraft(cfg, cwd, fs, fileName).1;
            d in r.files && r.files[d] == fs.files[d]
            && r.files[Locate(cwd, PublishPath(cfg, fileName))] == fs.files[d]
  {
  }

  /** One entry of a scan: the file's name and its location. */
  datatype FileEntry = FileEntry(name: string, path: Loc)

  /** How much deeper a walk from `dir` can still go. */
  function Depth(fs: Fs, dir: Loc): nat
  {
    var m := MaxDepth(fs.order);
    if |dir| <= m then m - |dir| else 0
  }

  lemma DirBelowDepth(fs: Fs, d: Loc)
    requires IsDir(fs, d)
    ensures |d| < MaxDepth(fs.order)
  {
    var i :| 0 <= i < |fs.order| && ProperPrefix(d, fs.order[i]);
  }

  /**
   * scanDirectory: the Markdown files below `dir`, depth first in listing
   * order; each is a regular file below `dir` whose name ends with `ext`.
   */
  function Scan(fs: Fs, dir: Loc, ext: string): (r: seq<FileEntry>)
    ensures forall e :: e in r ==> Matches(fs, dir, ext, e)
    decreases Depth(fs, dir), 1
  {
    ScanEntries(fs, dir, ext, ListDir(fs, dir))
  }

  /** The entries the walk contributes for each listed name of `dir`, in order. */
  function ScanEntries(fs: Fs, dir: Loc, ext: string, names: seq<string>): (r: seq<FileEntry>)
    ensures forall e :: e in r ==> Matches(fs, dir, ext, e)
    decreases Depth(fs, dir), 0, |names|
  {
    if |names| == 0 then []
    else
      var prev := ScanEntries(fs, dir, ext, names[..|names| - 1]);
      prev + ScanItem(fs, dir, ext, names[|names| - 1])
  }

  function ScanItem(fs: Fs, dir: Loc, ext: string, name: string): (r: seq<FileEntry>)
    ensures forall e :: e in r ==> Matches(fs, dir, ext, e)
    decreases Depth(fs, dir), 0, 0
  {
    var full := dir + [name];
    if IsDir(fs, full) then
      DirBelowDepth(fs, full);
      MatchesBelow(fs, dir, full, ext);
      Scan(fs, full, ext)
    else if full in fs.files && EndsWith(name, ext) then [FileEntry(name, full)]
    else []
  }

  lemma Assoc<T>(a: seq<T>, b: seq<T>, c: seq<T>)
    ensures (a + b) + c == a + (b + c)
  {
  }

  lemma ScanEntriesSnoc(fs: Fs, dir: Loc, ext: string, names: seq<string>, i: nat)
    requires i < |names|
    ensures ScanEntries(fs, dir, ext, names[..i + 1]) == ScanEntries(fs, dir, ext, names[..i]) + ScanItem(fs, dir, ext, names[i])
  {
    assert names[..i + 1][..i] == names[..i];
  }

  /**
   * The recursive walk as the source does it: every matching file is pushed
   * onto the caller's list, and a directory is walked before the entries
   * after it.
   */
  method ScanDirectory(fs: Fs, dir: Loc, files: seq<FileEntry>, ext: string) returns (out: seq<FileEntry>)
    ensures out == files + Scan(fs, dir, ext)
    decreases Depth(fs, dir), 1
  {
    var items := ListDir(fs, dir);
    out := files;
    var i := 0;
    while i < |items|
      invariant 0 <= i <= |items|
      invariant out == files + ScanEntries(fs, dir, ext, items[..i])
    {
      var name := items[i];
      var full := dir + [name];
      ScanEntriesSnoc(fs, dir, ext, items, i);
      if IsDir(fs, full) {
        DirBelowDepth(fs, full);
        assert ScanItem(fs, dir, ext, name) == Scan(fs, full, ext);
        Assoc(files, ScanEntries(fs, dir, ext, items[..i]), Scan(fs, full, ext));
        out := ScanDirectory(fs, full, out, ext);
      } else if full in fs.files && EndsWith(name, ext) {
        Assoc(files, ScanEntries(fs, dir, ext, items[..i]), [FileEntry(name, full)]);
        out := out + [FileEntry(name, full)];
      } else {
        assert ScanItem(fs, dir, ext, name) == [];
        assert ScanEntries(fs, dir, ext, items[..i]) + [] == ScanEntries(fs, dir, ext, items[..i]);
      }
      i := i + 1;
    }
    assert items[..|items|] == items;
  }

  /** What a scan can contain: files below `dir` whose names end with the extension. */
  predicate Matches(fs: Fs, dir: Loc, ext: string, e: FileEntry)
  {
    ProperPrefix(dir, e.path) && e.path in fs.files && e.name == e.path[|e.path| - 1] && EndsWith(e.name, ext)
  }

  /** A matching file below a subdirectory matches below its parent too. */
  lemma MatchesBelow(fs: Fs, dir: Loc, full: Loc, ext: string)
    requires ProperPrefix(dir, full)
    ensures forall e :: Matches(fs, full, ext, e) ==> Matches(fs, dir, ext, e)
  {
    forall e | Matches(fs, full, ext, e) ensures Matches(fs, dir, ext, e) {
      assert e.path[..|dir|] == e.path[..|full|][..|dir|];
    }
  }

  /** Every matching regular file below the directory is found by the scan. */
  lemma {:induction false} ScanComplete(fs: Fs, dir: Loc, ext: string, e: FileEntry)
    requires Valid(fs) && Matches(fs, dir, ext, e)
    ensures e in Scan(fs, dir, ext)
    decreases Depth(fs, dir), 1
  {
    var n := e.path[|dir|];
    assert e.path in fs.order;
    var k :| 0 <= k < |fs.order| && fs.order[k] == e.path;
    assert IsDirOrFileChild(fs, dir, n);
    assert IsDir(fs, dir);
    var names := ListDir(fs, dir);
    assert n in names;
    var j :| 0 <= j < |names| && names[j] == n;
    ScanItemComplete(fs, dir, ext, n, e);
    ScanEntriesHas(fs, dir, ext, names, j, e);
  }

  lemma ScanItemComplete(fs: Fs, dir: Loc, ext: string, n: string, e: FileEntry)
    requires Valid(fs) && Matches(fs, dir, ext, e) && e.path[|dir|] == n
    ensures e in ScanItem(fs, dir, ext, n)
    decreases Depth(fs, dir), 0, 0
  {
    var full := dir + [n];
    assert e.path[..|full|] == full;
    if |e.path| == |full| {
      assert e.path == full;
      assert e.path in fs.order;
      forall j | 0 <= j < |fs.order| ensures !ProperPrefix(full, fs.order[j]) {
        assert fs.order[j] in fs.files;
      }
      assert !IsDir(fs, full);
    } else {
      assert e.path in fs.order;
      assert ProperPrefix(full, e.path);
      assert IsDir(fs, full);
      DirBelowDepth(fs, full);
      ScanComplete(fs, full, ext, e);
    }
  }

  lemma {:induction false} ScanEntriesHas(fs: Fs, dir: Loc, ext: string, names: seq<string>, j: nat, e: FileEntry)
    requires j < |names| && e in ScanItem(fs, dir, ext, names[j])
    ensures e in ScanEntries(fs, dir, ext, names)
    decreases |names|
  {
    if j < |names| - 1 {
      assert names[..|names| - 1][j] == names[j];
      ScanEntriesHas(fs, dir, ext, names[..|names| - 1], j, e);
    }
  }

  /** `path.join(outputDir, 'drafts')` is the output folder with one more segment. */
  lemma DraftsJoin(p: Path)
    ensures Paths.Join(p, "drafts").segs == p.segs + ["drafts"]
  {
    assert PlainName("drafts") by {
      assert "drafts"[0] == 'd';
      assert forall k :: 0 <= k < |"drafts"| ==> "drafts"[k] != '/';
    }
  }

  /** getGeneratorFiles: the output folder, then its `drafts` folder scanned once more. */
  method GetGeneratorFiles(cfg: Config, cwd: Loc, fs: Fs) returns (files: seq<FileEntry>)
    ensures files == GeneratorFiles(cfg, cwd, fs)
  {
    var outputDir := Resolve(cwd, cfg.generatorOutputDir);
    files := ScanDirectory(fs, outputDir, [], ".md");
    assert files == Scan(fs, outputDir, ".md");
    DraftsJoin(Path(true, outputDir));
    files := ScanDirectory(fs, outputDir + ["drafts"], files, ".md");
  }

  function GeneratorFiles(cfg: Config, cwd: Loc, fs: Fs): seq<FileEntry>
  {
    var outputDir := Resolve(cwd, cfg.generatorOutputDir);
    Scan(fs, outputDir, ".md") + Scan(fs, outputDir + ["drafts"], ".md")
  }

  /** getBlogFiles: the blog folder, then its drafts folder scanned once more. */
  method GetBlogFiles(cfg: Config, cwd: Loc, fs: Fs) returns (files: seq<FileEntry>)
    ensures files == BlogFiles(cfg, cwd, fs)
  {
    files := ScanBoth(fs, Resolve(cwd, cfg.blogFolderPath), BlogDraftsDir(cfg, cwd));
  }

  /** Two scans, the second appending to the first. */
  method ScanBoth(fs: Fs, a: Loc, b: Loc) returns (files: seq<FileEntry>)
    ensures files == Scan(fs, a, ".md") + Scan(fs, b, ".md")
  {
    files := ScanDirectory(fs, a, [], ".md");
    assert files == Scan(fs, a, ".md");
    files := ScanDirectory(fs, b, files, ".md");
  }

  /** The blog's drafts folder: its subfolder path pushed onto the blog folder. */
  function BlogDraftsDir(cfg: Config, cwd: Loc): Loc
  {
    PushAll(Resolve(cwd, cfg.blogFolderPath), true, Split(cfg.draftsSubfolder, '/'))
  }

  function BlogFiles(cfg: Config, cwd: Loc, fs: Fs): seq<FileEntry>
  {
    Scan(fs, Resolve(cwd, cfg.blogFolderPath), ".md") + Scan(fs, BlogDraftsDir(cfg, cwd), ".md")
  }

  /** A Markdown file in the generator's drafts folder is listed by both scans, so at least twice. */
  lemma DraftsListedTwice(cfg: Config, cwd: Loc, fs: Fs, e: FileEntry)
    requires Valid(fs)
    requires Matches(fs, Resolve(cwd, cfg.generatorOutputDir) + ["drafts"], ".md", e)
    ensures Count(GeneratorFiles(cfg, cwd, fs), e) >= 2
  {
    var out := Resolve(cwd, cfg.generatorOutputDir);
    var drafts := out + ["drafts"];
    assert e.path[..|out|] == e.path[..|drafts|][..|out|];
    ScanComplete(fs, out, ".md", e);
    ScanComplete(fs, drafts, ".md", e);
    CountAppend(Scan(fs, out, ".md"), Scan(fs, drafts, ".md"), e);
    CountIn(Scan(fs, out, ".md"), e);
    CountIn(Scan(fs, drafts, ".md"), e);
  }

  lemma {:induction false} CountAppend<T>(a: seq<T>, b: seq<T>, x: T)
    ensures Count(a + b, x) == Count(a, x) + Count(b, x)
    decreases |a|
  {
    if |a| == 0 {
      assert a + b == b;
    } else {
      assert (a + b)[0] == a[0];
      assert (a + b)[1..] == a[1..] + b;
      CountAppend(a[1..], b, x);
    }
  }

  lemma {:induction false} CountIn<T>(a: seq<T>, x: T)
    requires x in a
    ensures Count(a, x) >= 1
    decreases |a|
  {
    if a[0] != x {
      CountIn(a[1..], x);
    }
  }

  /** Some blog file carries the name of `e`. */
  predicate NameInBlog(e: FileEntry, blog: seq<FileEntry>)
  {
    exists b :: b in blog && b.name == e.name
  }

  /**
   * Generator files whose name does not occur among the blog's files: every
   * copy of each such entry, in generator order.
   */
  function NewFiles(gen: seq<FileEntry>, blog: seq<FileEntry>): (r: seq<FileEntry>)
    ensures forall e :: e in r <==> e in gen && forall b :: b in blog ==> b.name != e.name
    ensures forall e :: Count(r, e) == if NameInBlog(e, blog) then 0 else Count(gen, e)
    ensures IsSubsequence(r, gen)
    decreases |gen|
  {
    if |gen| == 0 then []
    else
      var rest := NewFiles(gen[1..], blog);
      CountCons(gen[0], gen[1..]);
      assert [gen[0]] + gen[1..] == gen;
      if NameInBlog(gen[0], blog) then rest else CountCons(gen[0], rest); [gen[0]] + rest
  }

  /**
   * Generator files whose name occurs among the blog's files: every copy of
   * each such entry, in generator order.
   */
  function CommonFiles(gen: seq<FileEntry>, blog: seq<FileEntry>): (r: seq<FileEntry>)
    ensures forall e :: e in r <==> e in gen && NameInBlog(e, blog)
    ensures forall e :: Count(r, e) == if NameInBlog(e, blog) then Count(gen, e) else 0
    ensures IsSubsequence(r, gen)
    decreases |gen|
  {
    if |gen| == 0 then []
    else
      var rest := CommonFiles(gen[1..], blog);
      CountCons(gen[0], gen[1..]);
      assert [gen[0]] + gen[1..] == gen;
      assert forall e :: e in gen <==> e == gen[0] || e in gen[1..];
      if NameInBlog(gen[0], blog) then CountCons(gen[0], rest); [gen[0]] + rest else rest
  }

  /** The generator files split exactly into the common ones and the new ones. */
  lemma {:induction false} CommonPlusNew(gen: seq<FileEntry>, blog: seq<FileEntry>)
    ensures |CommonFiles(gen, blog)| + |NewFiles(gen, blog)| == |gen|
    decreases |gen|
  {
    if |gen| > 0 {
      CommonPlusNew(gen[1..], blog);
    }
  }

  datatype SyncedFile = SyncedFile(fileName: string, result: CopyResult)

  datatype SyncResult =
    | NothingToSync
    | Synced(syncedFiles: seq<SyncedFile>, totalFiles: nat, successCount: nat)

  /** The copy a sync makes of one file: into the drafts folder, never overwriting. */
  function SyncCopy(cfg: Config, cwd: Loc): (Fs, FileEntry) -> (CopyResult, Fs)
  {
    (fs: Fs, f: FileEntry) => CopyToBlogs(cfg, cwd, fs, Show(Path(true, f.path)), CopyOptions(false, None, false))
  }

  /**
   * The copies of a sync, one after another, each seeing the file system the
   * previous one left: one result per file, in order, under the file's name.
   */
  function CopyAll(copy: (Fs, FileEntry) -> (CopyResult, Fs), fs: Fs, files: seq<FileEntry>): (r: (seq<SyncedFile>, Fs))
    ensures |r.0| == |files|
    ensures forall i :: 0 <= i < |files| ==> r.0[i].fileName == files[i].name
    decreases |files|
  {
    if |files| == 0 then ([], fs)
    else
      var prev := CopyAll(copy, fs, files[..|files| - 1]);
      var f := files[|files| - 1];
      var step := copy(prev.1, f);
      (prev.0 + [SyncedFile(f.name, step.0)], step.1)
  }

  /** Copying one more file extends the results by that file's copy. */
  lemma CopyAllSnoc(copy: (Fs, FileEntry) -> (CopyResult, Fs), fs: Fs, files: seq<FileEntry>, i: nat)
    requires i < |files|
    ensures var prev := CopyAll(copy, fs, files[..i]);
      var step := copy(prev.1, files[i]);
      CopyAll(copy, fs, files[..i + 1]) == (prev.0 + [SyncedFile(files[i].name, step.0)], step.1)
  {
    assert files[..i + 1][..i] == files[..i];
  }

  /**
   * A sync reports one result per new file, in the same order and under
   * the file's name; the i-th result is the copy of the i-th file made on
   * the file system the earlier copies left.
   */
  lemma {:induction false} CopyAllAt(copy: (Fs, FileEntry) -> (CopyResult, Fs), fs: Fs, files: seq<FileEntry>, i: nat)
    requires i < |files|
    ensures |CopyAll(copy, fs, files).0| == |files|
    ensures CopyAll(copy, fs, files).0[i] == SyncedFile(files[i].name, copy(CopyAll(copy, fs, files[..i]).1, files[i]).0)
    decreases |files|
  {
    var p := files[..|files| - 1];
    if i == |files| - 1 {
      if i > 0 {
        CopyAllAt(copy, fs, p, 0);
      }
    } else {
      CopyAllAt(copy, fs, p, i);
      assert p[..i] == files[..i];
    }
  }

  /** A sync reports one result per new file, in the same order and under the file's name. */
  lemma CopyAllNames(copy: (Fs, FileEntry) -> (CopyResult, Fs), fs: Fs, files: seq<FileEntry>)
    ensures |CopyAll(copy, fs, files).0| == |files|
    ensures forall i :: 0 <= i < |files| ==> CopyAll(copy, fs, files).0[i].fileName == files[i].name
  {
    if |files| > 0 {
      CopyAllAt(copy, fs, files, 0);
    }
    forall i | 0 <= i < |files| ensures CopyAll(copy, fs, files).0[i].fileName == files[i].name {
      CopyAllAt(copy, fs, files, i);
    }
  }

  function SuccessCount(results: seq<SyncedFile>): (n: nat)
    ensures n <= |results|
    decreases |results|
  {
    if |results| == 0 then 0
    else SuccessCount(results[..|results| - 1]) + (if results[|results| - 1].result.Success() then 1 else 0)
  }

  /** syncNewFiles: copy every generator file the blog lacks into the drafts folder, without overwriting. */
  method SyncNewFiles(cfg: Config, cwd: Loc, fs: Fs) returns (r: SyncResult, fs': Fs)
    ensures var gen := GeneratorFiles(cfg, cwd, fs);
            var nf := NewFiles(gen, BlogFiles(cfg, cwd, fs));
            var copied := CopyAll(SyncCopy(cfg, cwd), fs, nf);
            if nf == [] then r == NothingToSync && fs' == fs
            else r == Synced(copied.0, |nf|, SuccessCount(copied.0)) && fs' == copied.1
  {
    var generatorFiles := GetGeneratorFiles(cfg, cwd, fs);
    var blogFiles := GetBlogFiles(cfg, cwd, fs);
    var newFiles := NewFiles(generatorFiles, blogFiles);
    if |newFiles| == 0 {
      return NothingToSync, fs;
    }
    var results: seq<SyncedFile> := [];
    fs' := fs;
    var i := 0;
    while i < |newFiles|
      invariant 0 <= i <= |newFiles|
      invariant (results, fs') == CopyAll(SyncCopy(cfg, cwd), fs, newFiles[..i])
    {
      var file := newFiles[i];
      var step := SyncCopy(cfg, cwd)(fs', file);
      CopyAllSnoc(SyncCopy(cfg, cwd), fs, newFiles, i);
      fs' := step.1;
      results := results + [SyncedFile(file.name, step.0)];
      i := i + 1;
    }
    assert newFiles[..|newFiles|] == newFiles;
    var successCount := SuccessCount(results);
    r := Synced(results, |newFiles|, successCount);
  }

  /** Every file a sync copies goes into the blog's drafts folder under its own name. */
  lemma SyncTargetsDrafts(cfg: Config, cwd: Loc, fs: Fs, files: seq<FileEntry>, i: nat)
    requires i < |files|
    requires forall j :: 0 <= j < |files| ==>
      AllPlain(files[j].path) && |files[j].path| > 0 && files[j].name == files[j].path[|files[j].path| - 1]
    ensures var rs := CopyAll(SyncCopy(cfg, cwd), fs, files).0;
            i < |rs| &&
            (rs[i].result.Copied? ==>
               rs[i].result.status == Draft
               && rs[i].result.targetPath == Paths.Join(Paths.Join(Parse(cfg.blogFolderPath), cfg.draftsSubfolder), files[i].name))
  {
    var copy := SyncCopy(cfg, cwd);
    CopyAllAt(copy, fs, files, i);
    var before := CopyAll(copy, fs, files[..i]).1;
    var f := files[i];
    assert copy(before, f) == CopyToBlogs(cfg, cwd, before, Show(Path(true, f.path)), CopyOptions(false, None, false));
    LastPieceShow(f.path);
  }

  datatype IntegrationStats = IntegrationStats(generatorFiles: nat, blogFiles: nat, commonFiles: nat, newFiles: int, autoSync: bool)

  /** getIntegrationStats without the access check. */
  function IntegrationStatsOf(cfg: Config, cwd: Loc, fs: Fs): (s: IntegrationStats)
    ensures 0 <= s.newFiles <= s.generatorFiles
    ensures s.newFiles == |NewFiles(GeneratorFiles(cfg, cwd, fs), BlogFiles(cfg, cwd, fs))|
    ensures s.generatorFiles == |GeneratorFiles(cfg, cwd, fs)| && s.blogFiles == |BlogFiles(cfg, cwd, fs)|
    ensures s.commonFiles == |CommonFiles(GeneratorFiles(cfg, cwd, fs), BlogFiles(cfg, cwd, fs))|
    ensures s.commonFiles + s.newFiles == s.generatorFiles
    ensures s.autoSync == cfg.autoSync
  {
    var gen := GeneratorFiles(cfg, cwd, fs);
    var blog := BlogFiles(cfg, cwd, fs);
    var common := CommonFiles(gen, blog);
    CommonPlusNew(gen, blog);
    IntegrationStats(|gen|, |blog|, |common|, |gen| - |common|, cfg.autoSync)
  }
}
