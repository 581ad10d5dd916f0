/**
 * The upload step of the static-site deploy script: each file of the
 * build directory becomes one S3 PutObject whose key is the path relative
 * to the build directory with '/' separators, whose content type comes
 * from a fixed extension table and whose Cache-Control header depends on
 * the extension (a year for static assets, an hour for HTML, a day for
 * the rest).
 *
 * The build, the bucket listing and deletion, and the transfers
 * themselves are I/O; the files found under the build directory are an
 * input, each given by its path segments below that directory.
 */
module Deploy {
  import opened Wrappers
  import Strs

  /** `filePath.split('.').pop()?.toLowerCase()`. */
  function Extension(path: string): (r: string)
    ensures '.' !in r
  {
    var last := Strs.LastPiece(path, '.');
    LowerKeepsDot(last);
    Strs.Lower(last)
  }

  /** Lower-casing neither creates nor removes a '.'. */
  lemma LowerKeepsDot(s: string)
    ensures ('.' in Strs.Lower(s)) <==> ('.' in s)
  {
    var r := Strs.Lower(s);
    if '.' in r {
      var i :| 0 <= i < |r| && r[i] == '.';
      assert s[i] == '.';
    }
    if '.' in s {
      var i :| 0 <= i < |s| && s[i] == '.';
      assert r[i] == '.';
    }
  }

  const OctetStream: string := "application/octet-stream"

  /** The keys of the script's contentTypes object. */
  const TypedExtensions: seq<string> := ["html", "css", "js", "json", "xml", "png", "jpg", "jpeg", "gif", "svg", "ico", "woff", "woff2", "ttf", "eot"]

  /** The content type for an extension: the contentTypes entry, else application/octet-stream. */
  function TypeOfExtension(ext: string): string
  {
    match ext
    case "html" => "text/html"
    case "css" => "text/css"
    case "js" => "application/javascript"
    case "json" => "application/json"
    case "xml" => "application/xml"
    case "png" => "image/png"
    case "jpg" => "image/jpeg"
    case "jpeg" => "image/jpeg"
    case "gif" => "image/gif"
    case "svg" => "image/svg+xml"
    case "ico" => "image/x-icon"
    case "woff" => "font/woff"
    case "woff2" => "font/woff2"
    case "ttf" => "font/ttf"
    case "eot" => "application/vnd.ms-fontobject"
    case _ => OctetStream
  }

  /** getContentType on a file path. */
  function ContentType(path: string): (r: string)
    ensures r != OctetStream <==> Extension(path) in TypedExtensions
  {
    TypedIff(Extension(path));
    TypeOfExtension(Extension(path))
  }

  /** The content type depends only on the lower-cased text after the last '.'. */
  lemma ContentTypeOfName(name: string, ext: string)
    requires '.' !in ext
    ensures ContentType(name + "." + ext) == TypeOfExtension(Strs.Lower(ext))
  {
    assert name + "." + ext == name + ['.'] + ext;
    Strs.LastPieceAfter(name, '.', ext);
  }

  /** An extension has a type of its own exactly when it is one of the table's keys. */
  lemma TypedIff(ext: string)
    ensures TypeOfExtension(ext) != OctetStream <==> ext in TypedExtensions
  {
    if ext in TypedExtensions {
      var i :| 0 <= i < |TypedExtensions| && TypedExtensions[i] == ext;
      assert 0 <= i <= 14;
    }
  }

  /** An upper-case extension gets the same type as its lower-case spelling. */
  lemma ContentTypeIgnoresCase(name: string, ext: string)
    requires '.' !in ext
    ensures ContentType(name + "." + ext) == ContentType(name + "." + Strs.Lower(ext))
  {
    LowerKeepsDot(ext);
    ContentTypeOfName(name, ext);
    ContentTypeOfName(name, Strs.Lower(ext));
    LowerTwice(ext);
  }

  lemma LowerTwice(s: string)
    ensures Strs.Lower(Strs.Lower(s)) == Strs.Lower(s)
  {
  }

  /** The extensions getCacheControl caches for a year. */
  const StaticExtensions: seq<string> := ["css", "js", "png", "jpg", "jpeg", "gif", "svg", "ico", "woff", "woff2", "ttf"]

  const YearCache: string := "public, max-age=31536000, immutable"
  const HourCache: string := "public, max-age=3600"
  const DayCache: string := "public, max-age=86400"

  function CacheOfExtension(ext: string): string
  {
    if ext in StaticExtensions then YearCache
    else if ext == "html" then HourCache
    else DayCache
  }

  /** getCacheControl on an S3 key. */
  function CacheControl(key: string): (r: string)
    ensures r == YearCache <==> Extension(key) in StaticExtensions
    ensures r == HourCache <==> Extension(key) == "html"
    ensures r == DayCache <==> Extension(key) != "html" && Extension(key) !in StaticExtensions
  {
    CacheOfExtension(Extension(key))
  }

  /** Every extension cached for a year has a type of its own; eot, json and xml have one but are cached for a day. */
  lemma StaticAssetsTyped(ext: string)
    ensures ext in StaticExtensions ==> TypeOfExtension(ext) != OctetStream
    ensures ext in ["eot", "json", "xml"] ==> TypeOfExtension(ext) != OctetStream && CacheOfExtension(ext) == DayCache
  {
    if ext in StaticExtensions {
      StaticAreTyped(ext);
      TypedIff(ext);
    }
    if ext in ["eot", "json", "xml"] {
      DayAssetsTyped(ext);
    }
  }

  /** The year-cached extensions are among the typed ones. */
  lemma StaticAreTyped(ext: string)
    requires ext in StaticExtensions
    ensures ext in TypedExtensions
  {
    var i :| 0 <= i < |StaticExtensions| && StaticExtensions[i] == ext;
    assert TypedExtensions[if i < 2 then i + 1 else i + 3] == ext;
  }

  lemma DayAssetsTyped(ext: string)
    requires ext in ["eot", "json", "xml"]
    ensures TypeOfExtension(ext) != OctetStream && CacheOfExtension(ext) == DayCache
  {
  }

  /** `relativePath.replace(/\\/g, '/')`: every backslash becomes a slash. */
  function NormalizeKey(s: string): (r: string)
    ensures |r| == |s| && '\\' !in r
    ensures forall i :: 0 <= i < |s| ==> r[i] == (if s[i] == '\\' then '/' else s[i])
    decreases |s|
  {
    if s == [] then []
    else [if s[0] == '\\' then '/' else s[0]] + NormalizeKey(s[1..])
  }

  /** A key is unchanged by normalising it again, and a path without backslashes is its own key. */
  lemma NormalizeKeyFixes(s: string)
    ensures NormalizeKey(NormalizeKey(s)) == NormalizeKey(s)
    ensures '\\' !in s ==> NormalizeKey(s) == s
  {
  }

  predicate PlainSegment(seg: string)
  {
    '/' !in seg && '\\' !in seg
  }

  /** The key of a path joined with either separator is the segments joined with '/'. */
  lemma {:induction false} KeyOfSegments(segs: seq<string>, sep: char)
    requires sep == '/' || sep == '\\'
    requires forall i :: 0 <= i < |segs| ==> PlainSegment(segs[i])
    ensures NormalizeKey(Strs.Join(segs, [sep])) == Strs.Join(segs, "/")
    decreases |segs|
  {
    if |segs| == 1 {
      NormalizeKeyFixes(segs[0]);
    } else if |segs| > 1 {
      var t := Strs.Join(segs[1..], [sep]);
      assert forall i :: 0 <= i < |segs[1..]| ==> PlainSegment(segs[1..][i]) by {
        forall i | 0 <= i < |segs[1..]| ensures PlainSegment(segs[1..][i]) { assert segs[1..][i] == segs[i + 1]; }
      }
      KeyOfSegments(segs[1..], sep);
      assert Strs.Join(segs, [sep]) == (segs[0] + [sep]) + t;
      NormalizeAppend(segs[0] + [sep], t);
      NormalizeAppend(segs[0], [sep]);
      NormalizeKeyFixes(segs[0]);
      assert NormalizeKey([sep]) == "/";
    }
  }

  lemma NormalizeAppend(a: string, b: string)
    ensures NormalizeKey(a + b) == NormalizeKey(a) + NormalizeKey(b)
  {
    var l := NormalizeKey(a + b);
    var r := NormalizeKey(a) + NormalizeKey(b);
    assert |l| == |r|;
    forall i | 0 <= i < |l| ensures l[i] == r[i] {
      if i < |a| {
        assert (a + b)[i] == a[i];
      } else {
        assert (a + b)[i] == b[i - |a|];
      }
    }
  }

  /** One PutObjectCommand, without its body. */
  datatype PutObject = PutObject(key: string, contentType: string, cacheControl: string)

  /** A file below the build directory: its path segments and the platform's path separator. */
  function ObjectFor(segs: seq<string>, sep: char): (r: PutObject)
    ensures '\\' !in r.key
    ensures (sep == '/' || sep == '\\') && (forall i :: 0 <= i < |segs| ==> PlainSegment(segs[i])) ==>
      r.key == Strs.Join(segs, "/")
  {
    var file := Strs.Join(["dist"] + segs, [sep]);
    var key := NormalizeKey(Strs.Join(segs, [sep]));
    if (sep == '/' || sep == '\\') && (forall i :: 0 <= i < |segs| ==> PlainSegment(segs[i])) then
      KeyOfSegments(segs, sep);
      PutObject(key, ContentType(file), CacheControl(key))
    else
      PutObject(key, ContentType(file), CacheControl(key))
  }

  datatype Upload = MissingBucket | Uploads(commands: seq<PutObject>)

  /** uploadToS3: without a bucket name nothing is sent; otherwise one command per file, in order. */
  function UploadPlan(bucket: Option<string>, files: seq<seq<string>>, sep: char): (r: Upload)
    ensures r.MissingBucket? <==> bucket.None? || bucket.value == ""
    ensures r.Uploads? ==> (|r.commands| == |files|
      && forall i :: 0 <= i < |files| ==> r.commands[i] == ObjectFor(files[i], sep))
  {
    if bucket.None? || bucket.value == "" then MissingBucket
    else Uploads(seq(|files|, i requires 0 <= i < |files| => ObjectFor(files[i], sep)))
  }

  /**
   * The upload loop: the commands are sent in order, and the first send that
   * throws stops it with exit code 1 (`sends` says whether `s3Client.send`
   * of a command succeeds). `sent` is every command handed to the client.
   */
  method SendInOrder(cmds: seq<PutObject>, sends: PutObject -> bool) returns (sent: seq<PutObject>, exitCode: int)
    ensures |sent| <= |cmds| && sent == cmds[..|sent|]
    ensures forall i :: 0 <= i < |sent| - 1 ==> sends(sent[i])
    ensures exitCode == 0 <==> |sent| == |cmds| && forall i :: 0 <= i < |sent| ==> sends(sent[i])
    ensures exitCode != 0 ==> exitCode == 1 && |sent| > 0 && !sends(sent[|sent| - 1])
    ensures Stopped(cmds, sends, sent, exitCode)
  {
    sent := [];
    var i := 0;
    while i < |cmds|
      invariant 0 <= i <= |cmds| && sent == cmds[..i]
      invariant forall j :: 0 <= j < i ==> sends(cmds[j])
    {
      sent := sent + [cmds[i]];
      if !sends(cmds[i]) {
        return sent, 1;
      }
      i := i + 1;
    }
    return sent, 0;
  }

  /**
   * `sent` is the commands up to and including the first whose send throws
   * (all of them when none does), and the exit code is 1 exactly after a
   * failed send.
   */
  predicate Stopped(cmds: seq<PutObject>, sends: PutObject -> bool, sent: seq<PutObject>, exitCode: int)
  {
    |sent| <= |cmds| && sent == cmds[..|sent|]
    && (forall i :: 0 <= i < |sent| - 1 ==> sends(sent[i]))
    && (exitCode == 0 <==> |sent| == |cmds| && forall i :: 0 <= i < |sent| ==> sends(sent[i]))
    && (exitCode != 0 ==> exitCode == 1 && |sent| > 0 && !sends(sent[|sent| - 1]))
  }

  /**
   * uploadToS3 as it runs: without a bucket name it exits 1 before sending;
   * otherwise the loop over the planned commands.
   */
  method UploadToS3(bucket: Option<string>, files: seq<seq<string>>, sep: char, sends: PutObject -> bool)
    returns (sent: seq<PutObject>, exitCode: int)
    ensures var plan := UploadPlan(bucket, files, sep);
      (plan.MissingBucket? ==> sent == [] && exitCode == 1)
      && (plan.Uploads? ==> Stopped(plan.commands, sends, sent, exitCode))
  {
    var plan := UploadPlan(bucket, files, sep);
    if plan.MissingBucket? {
      return [], 1;
    }
    sent, exitCode := SendInOrder(plan.commands, sends);
  }

  /**
   * Whichever separator the platform uses, a file's S3 key is its segments
   * joined with '/', and its type and caching come from its extension.
   */
  lemma {:induction false} UploadedObject(dirs: seq<string>, name: string, ext: string, sep: char)
    requires sep == '/' || sep == '\\'
    requires forall i :: 0 <= i < |dirs| ==> PlainSegment(dirs[i])
    requires PlainSegment(name) && PlainSegment(ext) && '.' !in ext
    ensures ObjectFor(dirs + [name + "." + ext], sep)
      == PutObject(Strs.Join(dirs + [name + "." + ext], "/"), TypeOfExtension(Strs.Lower(ext)), CacheOfExtension(Strs.Lower(ext)))
  {
    var last := name + "." + ext;
    assert PlainSegment(last) by {
      assert last == name + ['.'] + ext;
    }
    ObjectOfLast(dirs, last, sep);
    var file := Strs.Join(["dist"] + (dirs + [last]), [sep]);
    var key := Strs.Join(dirs + [last], "/");
    ExtensionOfSuffix(file, name, ext);
    ExtensionOfSuffix(key, name, ext);
    ObjectFromExtension(dirs + [last], sep, Strs.Lower(ext));
  }

  lemma ObjectFromExtension(segs: seq<string>, sep: char, e: string)
    requires Extension(Strs.Join(["dist"] + segs, [sep])) == e
    requires Extension(NormalizeKey(Strs.Join(segs, [sep]))) == e
    ensures ObjectFor(segs, sep) == PutObject(NormalizeKey(Strs.Join(segs, [sep])), TypeOfExtension(e), CacheOfExtension(e))
  {
  }

  /** A file's key is its segments joined with '/', and both its path and its key end with its name. */
  lemma {:induction false} ObjectOfLast(dirs: seq<string>, last: string, sep: char)
    requires sep == '/' || sep == '\\'
    requires forall i :: 0 <= i < |dirs| ==> PlainSegment(dirs[i])
    requires PlainSegment(last)
    ensures ObjectFor(dirs + [last], sep).key == Strs.Join(dirs + [last], "/")
    ensures Strs.EndsWith(Strs.Join(["dist"] + (dirs + [last]), [sep]), last)
    ensures Strs.EndsWith(Strs.Join(dirs + [last], "/"), last)
  {
    var segs := dirs + [last];
    KeyOfSegments(segs, sep) by {
      forall i | 0 <= i < |segs| ensures PlainSegment(segs[i]) {
        if i == |dirs| {
          assert segs[i] == last;
        } else {
          assert segs[i] == dirs[i];
        }
      }
    }
    LastSegment(["dist"] + segs, [sep]);
    assert (["dist"] + segs)[|segs|] == last;
    LastSegment(segs, "/");
  }

  /** A joined sequence ends with its last element. */
  lemma {:induction false} LastSegment(parts: seq<string>, sep: string)
    requires |parts| >= 1
    ensures Strs.EndsWith(Strs.Join(parts, sep), parts[|parts| - 1])
    decreases |parts|
  {
    if |parts| == 1 {
    } else {
      LastSegment(parts[1..], sep);
      var j := Strs.Join(parts[1..], sep);
      assert Strs.Join(parts, sep) == (parts[0] + sep) + j;
    }
  }

  /** The extension of anything ending in `name.ext` is the lower-cased ext. */
  lemma ExtensionOfSuffix(s: string, name: string, ext: string)
    requires '.' !in ext && Strs.EndsWith(s, name + "." + ext)
    ensures Extension(s) == Strs.Lower(ext)
  {
    var pre := s[..|s| - |name + "." + ext|];
    assert s == pre + (name + "." + ext);
    assert s == (pre + name) + ['.'] + ext;
    Strs.LastPieceAfter(pre + name, '.', ext);
  }
}
