/**
 * The Markdown generator, in both of its copies: frontmatter defaults and
 * slug, file names and output paths, drafts and articles written to the file
 * system, frontmatter updates, word counts, reading time and frontmatter
 * validation. The two copies differ only in how the output directory is
 * taken (as given, or resolved against the working directory) and in
 * whether a missing body becomes "".
 */
module MarkdownGenerator {
  import opened Wrappers
  import opened Strs
  import opened Js
  import opened Paths
  import opened Files

  /** `content-generator/src/generators` or `src/generators`. */
  datatype Variant = ContentGenerator | Bot

  /**
   * The libraries the generator calls, as functions: slugify with the
   * options it always passes, and gray-matter's stringify and parse (which
   * throws, with a message, on text whose frontmatter it cannot read).
   */
  datatype Libs = Libs(slugify: string -> string, stringify: (Value, Fields) -> string,
                       parse: string -> Result<(Fields, string), string>)

  /** A generator's configuration: the copy, the `outputDir` argument and the working directory. */
  datatype Generator = Generator(variant: Variant, outputDir: string, cwd: Loc)

  /** `this.outputDir`: as given, or `resolve(process.cwd(), outputDir)`. */
  function OutputDir(g: Generator): (p: Path)
    ensures g.variant == Bot ==> p.absolute && p.segs == Resolve(g.cwd, g.outputDir)
    ensures g.variant == ContentGenerator ==> p == Parse(g.outputDir)
  {
    if g.variant == Bot then Path(true, Resolve(g.cwd, g.outputDir)) else Parse(g.outputDir)
  }

  /** The body gray-matter receives: `content || ''`, or the content as passed. */
  function Body(g: Generator, content: Value): (b: Value)
    ensures g.variant == ContentGenerator && !Truthy(content) ==> b == Str("")
    ensures g.variant == Bot || Truthy(content) ==> b == content
  {
    if g.variant == ContentGenerator && !Truthy(content) then Str("") else content
  }

  function Prop(f: Fields, k: string): Value
  {
    Get(f, k).GetOr(Null)
  }

  // ---------------------------------------------------------------------------
  // Frontmatter
  // ---------------------------------------------------------------------------

  function Defaults(title: string, date: string): Fields
  {
    [("title", Str(title)), ("description", Str("")), ("publish", Bool(false)), ("created_date", Str(date)),
     ("tags", Arr([])), ("featured_image", Str("")), ("slug", Str(""))]
  }

  const DefaultKeys: seq<string> := ["title", "description", "publish", "created_date", "tags", "featured_image", "slug"]

  /** The value a default key starts with. */
  function DefaultOf(title: string, date: string, k: string): Option<Value>
  {
    if k == "title" then Some(Str(title))
    else if k == "description" || k == "featured_image" || k == "slug" then Some(Str(""))
    else if k == "publish" then Some(Bool(false))
    else if k == "created_date" then Some(Str(date))
    else if k == "tags" then Some(Arr([]))
    else None
  }

  lemma GetDefaults(title: string, date: string, k: string)
    ensures Get(Defaults(title, date), k) == DefaultOf(title, date, k)
  {
    var d := Defaults(title, date);
    GetSnoc(d[..6], d[6], k);
    GetSnoc(d[..5], d[5], k);
    GetSnoc(d[..4], d[4], k);
    GetSnoc(d[..3], d[3], k);
    GetSnoc(d[..2], d[2], k);
    GetSnoc(d[..1], d[1], k);
    GetSnoc(d[..0], d[0], k);
    assert d[..6] == d[..5] + [d[5]] && d[..5] == d[..4] + [d[4]] && d[..4] == d[..3] + [d[3]];
    assert d[..3] == d[..2] + [d[2]] && d[..2] == d[..1] + [d[1]] && d[..1] == d[..0] + [d[0]];
    assert d == d[..6] + [d[6]];
  }

  /** `prepareFrontmatter(title, userFrontmatter)` for the day `date`. */
  function PrepareFrontmatter(libs: Libs, date: string, title: string, user: Fields): (r: Fields)
    ensures Get(r, "title") == Some(Str(title))
    ensures Get(r, "slug").Some?
  {
    var merged := Merged(date, title, user);
    MergedReads(date, title, user, "title");
    MergedReads(date, title, user, "slug");
    GetPut(merged, "slug", Str(libs.slugify(title)), "title");
    GetPut(merged, "slug", Str(libs.slugify(title)), "slug");
    if Truthy(Prop(merged, "slug")) then merged else Put(merged, "slug", Str(libs.slugify(title)))
  }

  /** The merged frontmatter before the slug is filled in. */
  function Merged(date: string, title: string, user: Fields): Fields
  {
    Put(Assign(Defaults(title, date), user), "title", Str(title))
  }

  /** Before the slug step, a key other than the title reads as the caller's value, else as its default. */
  lemma MergedReads(date: string, title: string, user: Fields, k: string)
    ensures Get(Merged(date, title, user), k) ==
      if k == "title" then Some(Str(title)) else if HasKey(user, k) then Get(user, k) else DefaultOf(title, date, k)
  {
    GetAssign(Defaults(title, date), user, k);
    GetDefaults(title, date, k);
    GetPut(Assign(Defaults(title, date), user), "title", Str(title), k);
  }

  /** The title is always the parameter. */
  lemma PreparedTitle(libs: Libs, date: string, title: string, user: Fields)
    ensures Get(PrepareFrontmatter(libs, date, title, user), "title") == Some(Str(title))
  {
    var merged := Merged(date, title, user);
    MergedReads(date, title, user, "title");
    GetPut(merged, "slug", Str(libs.slugify(title)), "title");
  }

  /** The slug is the caller's when it is truthy, and the slug of the title otherwise. */
  lemma PreparedSlug(libs: Libs, date: string, title: string, user: Fields)
    ensures Get(PrepareFrontmatter(libs, date, title, user), "slug") ==
      if HasKey(user, "slug") && Truthy(Get(user, "slug").value) then Get(user, "slug") else Some(Str(libs.slugify(title)))
  {
    var merged := Merged(date, title, user);
    MergedReads(date, title, user, "slug");
    assert DefaultOf(title, date, "slug") == Some(Str(""));
    if !Truthy(Prop(merged, "slug")) {
      GetPut(merged, "slug", Str(libs.slugify(title)), "slug");
    }
  }

  /** Every other key is the caller's value when the caller sets it, and the default otherwise. */
  lemma PreparedOther(libs: Libs, date: string, title: string, user: Fields, k: string)
    requires k != "title" && k != "slug"
    ensures Get(PrepareFrontmatter(libs, date, title, user), k) ==
      if HasKey(user, k) then Get(user, k) else DefaultOf(title, date, k)
  {
    var merged := Merged(date, title, user);
    MergedReads(date, title, user, k);
    GetPut(merged, "slug", Str(libs.slugify(title)), k);
  }

  /** `generateFilename(title)`: `<date>-<slug>.md`. */
  function GenerateFilename(libs: Libs, date: string, title: string): (r: string)
    ensures StartsWith(r, date + "-") && EndsWith(r, ".md")
    ensures |r| == |date| + |libs.slugify(title)| + 4 && r[|date| + 1..|r| - 3] == libs.slugify(title)
  {
    var r := date + "-" + libs.slugify(title) + ".md";
    assert r[..|date| + 1] == date + "-";
    assert r[|r| - 3..] == ".md";
    r
  }

  /**
   * `getOutputPath(filename, subfolder)`: as absolute as the output
   * directory; with plain names, the output directory followed by the
   * subfolder when it is truthy and then the file name.
   */
  function GetOutputPath(g: Generator, filename: string, subfolder: Option<string>): (r: Path)
    ensures r.absolute == OutputDir(g).absolute
    ensures PlainName(filename) && (subfolder.Some? && subfolder.value != "" ==> PlainName(subfolder.value)) ==>
      r.segs == OutputDir(g).segs + (if subfolder.Some? && subfolder.value != "" then [subfolder.value] else []) + [filename]
  {
    if subfolder.Some? && subfolder.value != "" then Paths.Join(Paths.Join(OutputDir(g), subfolder.value), filename)
    else Paths.Join(OutputDir(g), filename)
  }

  /** The resolved output directory of the bot's copy is absolute whatever the working directory. */
  lemma BotPathsAreAbsolute(g: Generator, filename: string, subfolder: Option<string>)
    requires g.variant == Bot
    ensures GetOutputPath(g, filename, subfolder).absolute
  {
  }

  // ---------------------------------------------------------------------------
  // Writing files
  // ---------------------------------------------------------------------------

  datatype Generated =
    | Generated(filename: string, path: string, size: nat, frontmatter: Fields)
    | GenerateFailed(error: IoError)

  /**
   * `writeFile` after `mkdir -p` of the directory: it fails when a regular
   * file sits on the way or the target is a directory.
   */
  function WriteAt(fs: Fs, loc: Loc, content: string): (r: Result<Fs, IoError>)
    ensures r.Ok? <==> |loc| > 0 && !FileOnPath(fs, loc) && !IsDir(fs, loc)
    ensures r.Ok? ==> r.value.files == fs.files[loc := content]
  {
    if |loc| == 0 then Err(IsADirectory)
    else if FileOnPath(fs, loc) then Err(NotADirectory)
    else if IsDir(fs, loc) then Err(IsADirectory)
    else Ok(Write(fs, loc, content))
  }

  /** `generateMarkdownFile({title, content, frontmatter, filename, subfolder})`. */
  function GenerateMarkdownFile(g: Generator, libs: Libs, date: string, fs: Fs, title: string, content: Value,
                                frontmatter: Fields, filename: Option<string>, subfolder: Option<string>)
    : (r: (Generated, Fs))
    ensures var name := if filename.Some? && filename.value != "" then filename.value else GenerateFilename(libs, date, title);
      var loc := Locate(g.cwd, GetOutputPath(g, name, subfolder));
      var md := libs.stringify(Body(g, content), PrepareFrontmatter(libs, date, title, frontmatter));
      (r.0.Generated? <==> |loc| > 0 && !FileOnPath(fs, loc) && !IsDir(fs, loc))
      && (r.0.Generated? ==> r.0.filename == name && r.0.path == Show(GetOutputPath(g, name, subfolder))
                             && r.0.frontmatter == PrepareFrontmatter(libs, date, title, frontmatter)
                             && r.0.size == |md| && r.1.files == fs.files[loc := md])
      && (r.0.GenerateFailed? ==> r.1 == fs)
  {
    var name := if filename.Some? && filename.value != "" then filename.value else GenerateFilename(libs, date, title);
    var fm := PrepareFrontmatter(libs, date, title, frontmatter);
    var md := libs.stringify(Body(g, content), fm);
    var path := GetOutputPath(g, name, subfolder);
    var written := WriteAt(fs, Locate(g.cwd, path), md);
    if written.Err? then (GenerateFailed(written.error), fs)
    else (Generated(name, Show(path), |md|, fm), written.value)
  }

  const DraftFlags: Fields := [("publish", Bool(false)), ("draft", Bool(true))]
  const ArticleFlags: Fields := [("publish", Bool(true)), ("draft", Bool(false))]

  /** `createDraft(title, content, frontmatter)`: unpublished, flagged as a draft, under `drafts`. */
  function CreateDraft(g: Generator, libs: Libs, date: string, fs: Fs, title: string, content: Value, frontmatter: Fields)
    : (r: (Generated, Fs))
    ensures r.0.Generated? ==> Get(r.0.frontmatter, "publish") == Some(Bool(false)) && Get(r.0.frontmatter, "draft") == Some(Bool(true))
    ensures r.0.Generated? ==> r.0.path == Show(GetOutputPath(g, r.0.filename, Some("drafts")))
    ensures r.0.GenerateFailed? ==> r.1 == fs
  {
    var user := Assign(frontmatter, DraftFlags);
    FlagsOver(frontmatter, false, "publish");
    PreparedOther(libs, date, title, user, "publish");
    PreparedOther(libs, date, title, user, "draft");
    GenerateMarkdownFile(g, libs, date, fs, title, content, Assign(frontmatter, DraftFlags), None, Some("drafts"))
  }

  /** `createArticle(title, content, frontmatter)`: published, not a draft, in the output directory itself. */
  function CreateArticle(g: Generator, libs: Libs, date: string, fs: Fs, title: string, content: Value, frontmatter: Fields)
    : (r: (Generated, Fs))
    ensures r.0.Generated? ==> Get(r.0.frontmatter, "publish") == Some(Bool(true)) && Get(r.0.frontmatter, "draft") == Some(Bool(false))
    ensures r.0.Generated? ==> r.0.path == Show(GetOutputPath(g, r.0.filename, None))
    ensures r.0.GenerateFailed? ==> r.1 == fs
  {
    var user := Assign(frontmatter, ArticleFlags);
    FlagsOver(frontmatter, true, "publish");
    PreparedOther(libs, date, title, user, "publish");
    PreparedOther(libs, date, title, user, "draft");
    GenerateMarkdownFile(g, libs, date, fs, title, content, Assign(frontmatter, ArticleFlags), None, None)
  }

  /** The flags assigned over the caller's frontmatter win; other keys are the caller's. */
  lemma FlagsOver(frontmatter: Fields, publish: bool, k: string)
    ensures var user := Assign(frontmatter, [("publish", Bool(publish)), ("draft", Bool(!publish))]);
      Get(user, "publish") == Some(Bool(publish)) && Get(user, "draft") == Some(Bool(!publish))
      && (k != "publish" && k != "draft" ==> Get(user, k) == Get(frontmatter, k) && (HasKey(user, k) <==> HasKey(frontmatter, k)))
  {
    var flags := [("publish", Bool(publish)), ("draft", Bool(!publish))];
    GetSnoc([flags[0]], flags[1], "publish");
    GetSnoc([flags[0]], flags[1], "draft");
    GetSnoc([flags[0]], flags[1], k);
    assert flags == [flags[0]] + [flags[1]];
    GetAssign(frontmatter, flags, "publish");
    GetAssign(frontmatter, flags, "draft");
    GetAssign(frontmatter, flags, k);
  }

  datatype Updated =
    | Updated(path: string, frontmatter: Fields)
    | UpdateFailed(error: IoError)
    | Unparsable(message: string)      // matter() threw on the file's text

  /**
   * `updateMarkdownFile(filePath, newContent, newFrontmatter)`: the file's
   * frontmatter with the new keys assigned over it (or unchanged without new
   * frontmatter), and the new body; the reported path is filePath as given.
   * A file gray-matter cannot parse is left as it is.
   */
  function UpdateMarkdownFile(g: Generator, libs: Libs, fs: Fs, filePath: string, newContent: Value,
                              newFrontmatter: Option<Fields>): (r: (Updated, Fs))
    ensures var loc := Resolve(g.cwd, filePath);
      (r.0.Updated? <==> loc in fs.files && libs.parse(fs.files[loc]).Ok?
                         && |loc| > 0 && !FileOnPath(fs, loc) && !IsDir(fs, loc))
      && (r.0.Unparsable? <==> loc in fs.files && libs.parse(fs.files[loc]).Err?)
      && (r.0.Unparsable? ==> r.0.message == libs.parse(fs.files[loc]).error)
      && (r.0.Updated? ==>
            var prior := libs.parse(fs.files[loc]).value.0;
            r.0.frontmatter == (if newFrontmatter.Some? then Assign(prior, newFrontmatter.value) else prior)
            && r.1.files == fs.files[loc := libs.stringify(Body(g, newContent), r.0.frontmatter)])
      && (r.0.Updated? ==> r.0.path == filePath)
      && (!r.0.Updated? ==> r.1 == fs)
  {
    var loc := Resolve(g.cwd, filePath);
    if loc !in fs.files then (UpdateFailed(if IsDir(fs, loc) then IsADirectory else NoEntry), fs)
    else if libs.parse(fs.files[loc]).Err? then (Unparsable(libs.parse(fs.files[loc]).error), fs)
    else
      var prior := libs.parse(fs.files[loc]).value.0;
      var fm := if newFrontmatter.Some? then Assign(prior, newFrontmatter.value) else prior;
      var written := WriteAt(fs, loc, libs.stringify(Body(g, newContent), fm));
      if written.Err? then (UpdateFailed(written.error), fs)
      else (Updated(filePath, fm), written.value)
  }

  /** Updated frontmatter reads as the new frontmatter where it has a key, and as the file's elsewhere. */
  lemma UpdateMerges(g: Generator, libs: Libs, fs: Fs, filePath: string, newContent: Value, newFm: Fields, k: string)
    requires UpdateMarkdownFile(g, libs, fs, filePath, newContent, Some(newFm)).0.Updated?
    ensures var prior := libs.parse(fs.files[Resolve(g.cwd, filePath)]).value.0;
      Get(UpdateMarkdownFile(g, libs, fs, filePath, newContent, Some(newFm)).0.frontmatter, k)
        == if HasKey(newFm, k) then Get(newFm, k) else Get(prior, k)
  {
    GetAssign(libs.parse(fs.files[Resolve(g.cwd, filePath)]).value.0, newFm, k);
  }

  // ---------------------------------------------------------------------------
  // Words and reading time
  // ---------------------------------------------------------------------------

  /** The length of the run of non-space characters that starts `s`. */
  function RunLength(s: string): (n: nat)
    ensures n <= |s|
    ensures forall i :: 0 <= i < n ==> !IsSpace(s[i])
    ensures n < |s| ==> IsSpace(s[n])
    decreases |s|
  {
    if |s| == 0 || IsSpace(s[0]) then 0 else 1 + RunLength(s[1..])
  }

  /** `text.trim().split(/\s+/).filter(word => word.length > 0)`. */
  function Words(s: string): (r: seq<string>)
    ensures forall i :: 0 <= i < |r| ==> |r[i]| > 0 && forall j :: 0 <= j < |r[i]| ==> !IsSpace(r[i][j])
    decreases |s|
  {
    if |s| == 0 then []
    else if IsSpace(s[0]) then Words(s[1..])
    else
      var n := RunLength(s);
      [s[..n]] + Words(s[n..])
  }

  /** `countWords(text)`. */
  function CountWords(s: string): nat
  {
    |Words(s)|
  }

  /** A blank text has no words, and a text with no words is blank. */
  lemma {:induction false} NoWordsIffBlank(s: string)
    ensures CountWords(s) == 0 <==> AllSpace(s)
    decreases |s|
  {
    if |s| > 0 {
      NoWordsIffBlank(s[1..]);
      assert AllSpace(s) <==> IsSpace(s[0]) && AllSpace(s[1..]) by {
        if IsSpace(s[0]) && AllSpace(s[1..]) {
          forall i | 0 <= i < |s| ensures IsSpace(s[i]) { if i > 0 { assert s[i] == s[1..][i - 1]; } }
        }
      }
    }
  }

  predicate IsWord(w: string)
  {
    |w| > 0 && forall j :: 0 <= j < |w| ==> !IsSpace(w[j])
  }

  /** Words are found again after joining them with single spaces. */
  lemma {:induction false} WordsOfJoin(ws: seq<string>)
    requires forall i :: 0 <= i < |ws| ==> IsWord(ws[i])
    ensures Words(Strs.Join(ws, " ")) == ws
    decreases |ws|
  {
    if |ws| == 1 {
      WordThen(ws[0], "");
      assert ws[0] + "" == ws[0];
    } else if |ws| > 1 {
      WordsOfJoin(ws[1..]);
      WordSpaceThen(ws[0], Strs.Join(ws[1..], " "));
      assert ws == [ws[0]] + ws[1..];
    }
  }

  /** A word, a space and a text: the word comes first, then the text's words. */
  lemma WordSpaceThen(w: string, rest: string)
    requires IsWord(w)
    ensures Words(w + " " + rest) == [w] + Words(rest)
  {
    WordThen(w, " " + rest);
    assert w + " " + rest == w + (" " + rest);
    assert Words(" " + rest) == Words(rest) by { assert (" " + rest)[1..] == rest; }
  }

  /** A word followed by a text that is empty or starts with a space. */
  lemma WordThen(w: string, t: string)
    requires IsWord(w) && (|t| == 0 || IsSpace(t[0]))
    ensures Words(w + t) == [w] + Words(t)
  {
    RunLengthOfWord(w, t);
    assert (w + t)[..|w|] == w;
    assert (w + t)[|w|..] == t;
  }

  lemma {:induction false} RunLengthOfWord(w: string, t: string)
    requires IsWord(w) && (|t| == 0 || IsSpace(t[0]))
    ensures RunLength(w + t) == |w|
    decreases |w|
  {
    if |w| > 1 {
      assert (w + t)[1..] == w[1..] + t;
      RunLengthOfWord(w[1..], t);
    } else {
      assert (w + t)[1..] == t;
    }
  }

  datatype ReadingTime = ReadingTime(minutes: nat, words: nat, text: string)

  /** `estimateReadingTime(text)`: minutes at 200 words a minute, rounded up. */
  function EstimateReadingTime(s: string): (r: ReadingTime)
    ensures r.words == CountWords(s)
    ensures 200 * r.minutes >= r.words && (r.minutes > 0 ==> 200 * (r.minutes - 1) < r.words)
    ensures r.text == "1 минута" <==> r.minutes == 1
    ensures r.minutes != 1 ==> r.text == NatToString(r.minutes) + " минут"
  {
    var words := CountWords(s);
    var minutes := (words + 199) / 200;
    ReadingTimeText(minutes);
    ReadingTime(minutes, words, if minutes == 1 then "1 минута" else NatToString(minutes) + " минут")
  }

  lemma ReadingTimeText(minutes: nat)
    ensures NatToString(minutes) + " минут" != "1 минута"
  {
    var t := NatToString(minutes) + " минут";
    assert t[|t| - 1] == 'т';
  }

  /** 1800 words read in nine minutes. */
  lemma NineMinutes(s: string)
    requires CountWords(s) == 1800
    ensures EstimateReadingTime(s).minutes == 9
    ensures EstimateReadingTime(s).text == "9 минут"
  {
    assert NatToString(9) == "9";
  }

  // ---------------------------------------------------------------------------
  // validateFrontmatter
  // ---------------------------------------------------------------------------

  const RequiredFields: seq<string> := ["title"]

  /** The messages validateFrontmatter collects, in order. */
  function FrontmatterErrors(fm: Fields): seq<string>
  {
    (if Truthy(Prop(fm, "title")) then [] else ["Missing required field: title"])
    + (if Truthy(Prop(fm, "tags")) && !Prop(fm, "tags").Arr? then ["Tags must be an array"] else [])
    + (if Truthy(Prop(fm, "publish")) && !Prop(fm, "publish").Bool? then ["Publish must be a boolean"] else [])
  }

  /** A frontmatter is valid exactly when it has a title, array tags if any, and a boolean publish flag if set. */
  lemma ValidIff(fm: Fields)
    ensures FrontmatterErrors(fm) == [] <==>
      Truthy(Prop(fm, "title")) && (Truthy(Prop(fm, "tags")) ==> Prop(fm, "tags").Arr?)
      && (Truthy(Prop(fm, "publish")) ==> Prop(fm, "publish").Bool?)
  {
    var a := if Truthy(Prop(fm, "title")) then [] else ["Missing required field: title"];
    var b := if Truthy(Prop(fm, "tags")) && !Prop(fm, "tags").Arr? then ["Tags must be an array"] else [];
    var c := if Truthy(Prop(fm, "publish")) && !Prop(fm, "publish").Bool? then ["Publish must be a boolean"] else [];
    assert |a + b + c| == |a| + |b| + |c|;
  }

  datatype Validation = Validation(isValid: bool, errors: seq<string>)

  /** `validateFrontmatter(frontmatter)`. */
  method ValidateFrontmatter(fm: Fields) returns (r: Validation)
    ensures r.errors == FrontmatterErrors(fm)
    ensures r.isValid <==> |r.errors| == 0
  {
    var errors: seq<string> := [];
    for i := 0 to |RequiredFields|
      invariant errors == if i == 0 || Truthy(Prop(fm, "title")) then [] else ["Missing required field: title"]
    {
      assert RequiredFields[i] == "title";
      assert "Missing required field: " + "title" == "Missing required field: title";
      if !Truthy(Prop(fm, RequiredFields[i])) {
        errors := errors + ["Missing required field: " + RequiredFields[i]];
      }
    }
    if Truthy(Prop(fm, "tags")) && !Prop(fm, "tags").Arr? {
      errors := errors + ["Tags must be an array"];
    }
    if Truthy(Prop(fm, "publish")) && !Prop(fm, "publish").Bool? {
      errors := errors + ["Publish must be a boolean"];
    }
    r := Validation(|errors| == 0, errors);
  }

  /** A draft for a non-empty title is valid when the caller's tags, if any, are an array. */
  lemma DraftFrontmatterValid(libs: Libs, date: string, title: string, frontmatter: Fields)
    requires title != ""
    requires HasKey(frontmatter, "tags") && Truthy(Get(frontmatter, "tags").value) ==> Get(frontmatter, "tags").value.Arr?
    ensures FrontmatterErrors(PrepareFrontmatter(libs, date, title, Assign(frontmatter, DraftFlags))) == []
  {
    var r := PrepareFrontmatter(libs, date, title, Assign(frontmatter, DraftFlags));
    PreparedTitle(libs, date, title, Assign(frontmatter, DraftFlags));
    DraftPublish(libs, date, title, frontmatter);
    DraftTags(libs, date, title, frontmatter);
    ValidIff(r);
  }

  lemma DraftPublish(libs: Libs, date: string, title: string, frontmatter: Fields)
    ensures Prop(PrepareFrontmatter(libs, date, title, Assign(frontmatter, DraftFlags)), "publish") == Bool(false)
  {
    var user := Assign(frontmatter, DraftFlags);
    FlagsOver(frontmatter, false, "tags");
    PreparedOther(libs, date, title, user, "publish");
  }

  lemma DraftTags(libs: Libs, date: string, title: string, frontmatter: Fields)
    requires HasKey(frontmatter, "tags") && Truthy(Get(frontmatter, "tags").value) ==> Get(frontmatter, "tags").value.Arr?
    ensures var r := PrepareFrontmatter(libs, date, title, Assign(frontmatter, DraftFlags));
      Truthy(Prop(r, "tags")) ==> Prop(r, "tags").Arr?
  {
    var user := Assign(frontmatter, DraftFlags);
    var r := PrepareFrontmatter(libs, date, title, user);
    FlagsOver(frontmatter, false, "tags");
    PreparedOther(libs, date, title, user, "tags");
    if HasKey(frontmatter, "tags") {
      assert Get(r, "tags") == Get(frontmatter, "tags");
    } else {
      assert Get(r, "tags") == Some(Arr([]));
    }
  }
}
