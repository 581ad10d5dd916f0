/**
 * Publishing drafts to Telegraph: the cache key of a draft, the URL cache
 * consulted before a page is created, and the inline-markup scanner that
 * turns `**bold**`, `*italic*` and `[text](url)` into Telegraph nodes.
 */
module Telegraph {
  import opened Wrappers
  import opened Strs
  import Seqs

  /** A part of a paragraph: plain text or a tagged node with one text child. */
  datatype Part =
    | Text(s: string)
    | Strong(child: string)
    | Em(child: string)
    | Link(href: string, child: string)

  /** `substring(k, k + 2) === '**'`. */
  predicate BoldAt(text: string, k: int)
  {
    0 <= k && k + 1 < |text| && text[k] == '*' && text[k + 1] == '*'
  }

  /** Where the bold inner loop stops: the first `**` from k on, or the end of the text. */
  function FindBold(text: string, k: nat): (e: nat)
    requires k <= |text|
    ensures k <= e <= |text|
    ensures e < |text| ==> BoldAt(text, e)
    ensures forall j :: k <= j < e ==> !BoldAt(text, j)
    decreases |text| - k
  {
    if k == |text| || BoldAt(text, k) then k else FindBold(text, k + 1)
  }

  /** Where a one-character inner loop stops: the first c from k on, or the end of the text. */
  function FindChar(text: string, k: nat, c: char): (e: nat)
    requires k <= |text|
    ensures k <= e <= |text|
    ensures e < |text| ==> text[e] == c
    ensures forall j :: k <= j < e ==> text[j] != c
    decreases |text| - k
  {
    if k == |text| || text[k] == c then k else FindChar(text, k + 1, c)
  }

  /** A stopping point with nothing before it is the one the search reports. */
  lemma FindBoldFirst(text: string, k: nat, e: nat)
    requires k <= e <= |text|
    requires e < |text| ==> BoldAt(text, e)
    requires forall j :: k <= j < e ==> !BoldAt(text, j)
    ensures FindBold(text, k) == e
  {
  }

  lemma FindCharFirst(text: string, k: nat, e: nat, c: char)
    requires k <= e <= |text|
    requires e < |text| ==> text[e] == c
    requires forall j :: k <= j < e ==> text[j] != c
    ensures FindChar(text, k, c) == e
  {
  }

  /** Pending plain text, emitted only when non-empty. */
  function Flush(cur: string): seq<Part>
  {
    if cur == "" then [] else [Text(cur)]
  }

  /** What the scanner produces for the whole text: no plain-text part of it is empty. */
  function Markup(text: string): (r: seq<Part>)
    ensures forall j :: 0 <= j < |r| && r[j].Text? ==> r[j].s != ""
  {
    GoAllNonEmpty(text, 0, "");
    Go(text, 0, "")
  }

  /**
   * The scan from index i with `cur` as the pending plain text: the
   * reference definition the loop is proved against. A marker flushes the
   * pending text and the rest is read by FromMarker.
   */
  function Go(text: string, i: nat, cur: string): seq<Part>
    requires i <= |text|
    decreases |text| - i, 1
  {
    if i == |text| then Flush(cur)
    else if text[i] == '*' || text[i] == '[' then Flush(cur) + FromMarker(text, i)
    else Go(text, i + 1, cur + [text[i]])
  }

  /** The output from a marker at i on; a marker that is never closed ends the output. */
  function FromMarker(text: string, i: nat): seq<Part>
    requires i < |text| && (text[i] == '*' || text[i] == '[')
    decreases |text| - i, 0
  {
    if BoldAt(text, i) then
      var e := FindBold(text, i + 2);
      if e < |text| then [Strong(text[i + 2..e])] + Go(text, e + 2, "") else []
    else if text[i] == '*' then
      var e := FindChar(text, i + 1, '*');
      if e < |text| then [Em(text[i + 1..e])] + Go(text, e + 1, "") else []
    else
      var e := FindChar(text, i + 1, ']');
      if e == |text| then []
      else if e + 1 < |text| && text[e + 1] == '(' then FromParen(text, e + 2, text[i + 1..e])
      else Go(text, e, "")
  }

  /** After `](`: a link node when the URL is closed by `)`, otherwise nothing more. */
  function FromParen(text: string, u: nat, linkText: string): seq<Part>
    requires u <= |text|
    decreases |text| - u, 0
  {
    var f := FindChar(text, u, ')');
    if f < |text| then [Link(text[u..f], linkText)] + Go(text, f + 1, "") else []
  }

  /**
   * processTextWithMarkdown: the index-driven scan. Each marker branch
   * (BoldSpan, ItalicSpan, LinkSpan) runs its own inner loop and says where
   * the scan resumes.
   */
  method ProcessTextWithMarkdown(text: string) returns (parts: seq<Part>)
    ensures parts == Markup(text)
  {
    parts := [];
    var cur := "";
    var i := 0;
    while i < |text|
      invariant 0 <= i <= |text|
      invariant parts + Go(text, i, cur) == Markup(text)
      decreases |text| - i
    {
      if text[i] == '*' || text[i] == '[' {
        ghost var before := parts;
        ghost var pending := cur;
        ghost var i0 := i;
        var part;
        if i + 1 < |text| && text[i] == '*' && text[i + 1] == '*' {
          i, part := BoldSpan(text, i);
        } else if text[i] == '*' {
          i, part := ItalicSpan(text, i);
        } else {
          i, part := LinkSpan(text, i);
        }
        MarkerStep(before, Flush(pending), part, Go(text, i, ""));
        parts := parts + Flush(cur) + part;
        cur := "";
      } else {
        cur := cur + [text[i]];
        i := i + 1;
      }
    }
    assert Go(text, i, cur) == Flush(cur);
    if cur != "" {
      parts := parts + [Text(cur)];
    }
  }

  /** Regrouping after a marker: the flushed text and the span go to the output. */
  lemma MarkerStep(parts: seq<Part>, flushed: seq<Part>, part: seq<Part>, rest: seq<Part>)
    ensures parts + (flushed + (part + rest)) == parts + flushed + part + rest
  {
  }

  /** The `**` branch: collect up to the closing `**`; nothing is emitted when it is missing. */
  method BoldSpan(text: string, i0: nat) returns (i: nat, part: seq<Part>)
    requires BoldAt(text, i0)
    ensures i0 < i <= |text| && part + Go(text, i, "") == FromMarker(text, i0)
  {
    i := i0 + 2;
    var bold := "";
    while i < |text| && !(i + 1 < |text| && text[i] == '*' && text[i + 1] == '*')
      invariant i0 + 2 <= i <= |text|
      invariant bold == text[i0 + 2..i]
      invariant forall k :: i0 + 2 <= k < i ==> !BoldAt(text, k)
    {
      assert text[i0 + 2..i + 1] == text[i0 + 2..i] + [text[i]];
      bold := bold + [text[i]];
      i := i + 1;
    }
    FindBoldFirst(text, i0 + 2, i);
    if i < |text| {
      assert FromMarker(text, i0) == [Strong(bold)] + Go(text, i + 2, "");
      part := [Strong(bold)];
      i := i + 2;
    } else {
      assert FromMarker(text, i0) == [] && Go(text, i, "") == [];
      part := [];
    }
  }

  /** The single `*` branch. */
  method ItalicSpan(text: string, i0: nat) returns (i: nat, part: seq<Part>)
    requires i0 < |text| && text[i0] == '*' && !BoldAt(text, i0)
    ensures i0 < i <= |text| && part + Go(text, i, "") == FromMarker(text, i0)
  {
    i := i0 + 1;
    var italic := "";
    while i < |text| && text[i] != '*'
      invariant i0 + 1 <= i <= |text|
      invariant italic == text[i0 + 1..i]
      invariant forall k :: i0 + 1 <= k < i ==> text[k] != '*'
    {
      italic := italic + [text[i]];
      i := i + 1;
    }
    FindCharFirst(text, i0 + 1, i, '*');
    if i < |text| {
      part := [Em(italic)];
      i := i + 1;
    } else {
      part := [];
    }
  }

  /**
   * The `[` branch: the link text runs to `]`; when `(` follows, the URL runs
   * to `)`; otherwise the scan resumes at the `]` itself.
   */
  method LinkSpan(text: string, i0: nat) returns (i: nat, part: seq<Part>)
    requires i0 < |text| && text[i0] == '['
    ensures i0 < i <= |text| && part + Go(text, i, "") == FromMarker(text, i0)
  {
    i := i0 + 1;
    var linkText := "";
    while i < |text| && text[i] != ']'
      invariant i0 + 1 <= i <= |text|
      invariant linkText == text[i0 + 1..i]
      invariant forall k :: i0 + 1 <= k < i ==> text[k] != ']'
    {
      linkText := linkText + [text[i]];
      i := i + 1;
    }
    FindCharFirst(text, i0 + 1, i, ']');
    if i < |text| && i + 1 < |text| && text[i + 1] == '(' {
      i, part := UrlSpan(text, i + 2, linkText);
    } else {
      part := [];
    }
  }

  /** The URL part of a link, from just after `](` to the closing `)`. */
  method UrlSpan(text: string, u: nat, linkText: string) returns (i: nat, part: seq<Part>)
    requires u <= |text|
    ensures u <= i <= |text| && part + Go(text, i, "") == FromParen(text, u, linkText)
  {
    i := u;
    var linkUrl := "";
    while i < |text| && text[i] != ')'
      invariant u <= i <= |text|
      invariant linkUrl == text[u..i]
      invariant forall k :: u <= k < i ==> text[k] != ')'
    {
      linkUrl := linkUrl + [text[i]];
      i := i + 1;
    }
    FindCharFirst(text, u, i, ')');
    if i < |text| {
      part := [Link(linkUrl, linkText)];
      i := i + 1;
    } else {
      part := [];
    }
  }

  /** No plain-text part the scanner emits is empty. */
  lemma {:induction false} GoNoEmptyText(text: string, i: nat, cur: string, j: nat)
    requires i <= |text| && j < |Go(text, i, cur)| && Go(text, i, cur)[j].Text?
    ensures Go(text, i, cur)[j].s != ""
    decreases |text| - i, 1
  {
    var n := |Flush(cur)|;
    if i == |text| {
    } else if text[i] == '*' || text[i] == '[' {
      if j >= n { FromMarkerNoEmptyText(text, i, j - n); }
    } else {
      GoNoEmptyText(text, i + 1, cur + [text[i]], j);
    }
  }

  lemma {:induction false} FromMarkerNoEmptyText(text: string, i: nat, j: nat)
    requires i < |text| && (text[i] == '*' || text[i] == '[')
    requires j < |FromMarker(text, i)| && FromMarker(text, i)[j].Text?
    ensures FromMarker(text, i)[j].s != ""
    decreases |text| - i, 0
  {
    if BoldAt(text, i) {
      var e := FindBold(text, i + 2);
      if e < |text| && j > 0 { GoNoEmptyText(text, e + 2, "", j - 1); }
    } else if text[i] == '*' {
      var e := FindChar(text, i + 1, '*');
      if e < |text| && j > 0 { GoNoEmptyText(text, e + 1, "", j - 1); }
    } else {
      var e := FindChar(text, i + 1, ']');
      if e < |text| {
        if e + 1 < |text| && text[e + 1] == '(' {
          var f := FindChar(text, e + 2, ')');
          if f < |text| && j > 0 { GoNoEmptyText(text, f + 1, "", j - 1); }
          assert FromMarker(text, i) == FromParen(text, e + 2, text[i + 1..e]);
        } else {
          GoNoEmptyText(text, e, "", j);
        }
      }
    }
  }

  lemma GoAllNonEmpty(text: string, i: nat, cur: string)
    requires i <= |text|
    ensures forall j :: 0 <= j < |Go(text, i, cur)| && Go(text, i, cur)[j].Text? ==> Go(text, i, cur)[j].s != ""
  {
    forall j | 0 <= j < |Go(text, i, cur)| && Go(text, i, cur)[j].Text? ensures Go(text, i, cur)[j].s != "" {
      GoNoEmptyText(text, i, cur, j);
    }
  }

  /** A run of characters that are not markers only accumulates into the pending text. */
  lemma {:induction false} GoPlainRun(text: string, i: nat, j: nat, cur: string)
    requires i <= j <= |text|
    requires forall k :: i <= k < j ==> text[k] != '*' && text[k] != '['
    ensures Go(text, i, cur) == Go(text, j, cur + text[i..j])
    decreases j - i
  {
    if i == j {
      assert cur + text[i..j] == cur;
    } else {
      GoPlainRun(text, i + 1, j, cur + [text[i]]);
      assert cur + [text[i]] + text[i + 1..j] == cur + text[i..j];
    }
  }

  /** Text with no marker character is one plain part, or nothing when empty. */
  lemma PlainText(text: string)
    requires '*' !in text && '[' !in text
    ensures Markup(text) == if text == "" then [] else [Text(text)]
  {
    forall k | 0 <= k < |text| ensures text[k] != '*' && text[k] != '[' {
      assert text[k] in text;
    }
    GoPlainRun(text, 0, |text|, "");
    assert "" + text[0..|text|] == text;
  }

  /** `**x**` is one strong node when x holds no `*`. */
  lemma BoldForm(x: string)
    requires '*' !in x
    ensures Markup("**" + x + "**") == [Strong(x)]
  {
    var s := "**" + x + "**";
    var e := |x| + 2;
    forall j | 2 <= j < e ensures !BoldAt(s, j) {
      assert s[j] == x[j - 2] && x[j - 2] in x;
    }
    FindBoldFirst(s, 2, e);
    assert s[2..e] == x;
    assert BoldAt(s, 0);
    assert Go(s, e + 2, "") == [];
    assert Markup(s) == Flush("") + FromMarker(s, 0);
  }

  /** `*x*` is one emphasis node when x is non-empty and holds no `*`. */
  lemma ItalicForm(x: string)
    requires '*' !in x && x != ""
    ensures Markup("*" + x + "*") == [Em(x)]
  {
    var s := "*" + x + "*";
    var e := |x| + 1;
    assert s[1] == x[0] && x[0] in x;
    forall j | 1 <= j < e ensures s[j] != '*' {
      assert s[j] == x[j - 1] && x[j - 1] in x;
    }
    FindCharFirst(s, 1, e, '*');
    assert s[1..e] == x;
    assert s[0] == '*' && !BoldAt(s, 0);
    assert Go(s, e + 1, "") == [];
    assert Markup(s) == Flush("") + FromMarker(s, 0);
  }

  /** `[t](u)` is one link node when t holds no `]` and u no `)`. */
  lemma LinkForm(t: string, u: string)
    requires ']' !in t && ')' !in u
    ensures Markup("[" + t + "](" + u + ")") == [Link(u, t)]
  {
    var s := "[" + t + "](" + u + ")";
    var e := |t| + 1;
    forall j | 1 <= j < e ensures s[j] != ']' {
      assert s[j] == t[j - 1] && t[j - 1] in t;
    }
    FindCharFirst(s, 1, e, ']');
    var f := e + 2 + |u|;
    forall j | e + 2 <= j < f ensures s[j] != ')' {
      assert s[j] == u[j - e - 2] && u[j - e - 2] in u;
    }
    FindCharFirst(s, e + 2, f, ')');
    assert s[1..e] == t;
    assert s[e + 2..f] == u;
    assert s[0] == '[' && !BoldAt(s, 0) && s[e + 1] == '(';
    assert Go(s, f + 1, "") == [];
    assert FromMarker(s, 0) == FromParen(s, e + 2, t);
    assert Markup(s) == Flush("") + FromMarker(s, 0);
  }

  /** An unterminated `**` drops the marker and everything after it. */
  lemma UnterminatedBold(pre: string, x: string)
    requires '*' !in pre && '[' !in pre && '*' !in x
    ensures Markup(pre + "**" + x) == Flush(pre)
  {
    var s := pre + "**" + x;
    var p := |pre|;
    forall k | 0 <= k < p ensures s[k] != '*' && s[k] != '[' {
      assert s[k] == pre[k] && pre[k] in pre;
    }
    GoPlainRun(s, 0, p, "");
    assert "" + s[0..p] == pre;
    forall j | p + 2 <= j < |s| ensures !BoldAt(s, j) {
      assert s[j] == x[j - p - 2] && x[j - p - 2] in x;
    }
    FindBoldFirst(s, p + 2, |s|);
  }

  /** A `[t]` not followed by `(` loses `t`; the `]` and what follows stay as plain text. */
  lemma BracketWithoutLink(t: string, after: string)
    requires ']' !in t && '*' !in after && '[' !in after
    requires after == "" || after[0] != '('
    ensures Markup("[" + t + "]" + after) == [Text("]" + after)]
  {
    var s := "[" + t + "]" + after;
    var e := |t| + 1;
    forall j | 1 <= j < e ensures s[j] != ']' {
      assert s[j] == t[j - 1] && t[j - 1] in t;
    }
    FindCharFirst(s, 1, e, ']');
    forall k | e <= k < |s| ensures s[k] != '*' && s[k] != '[' {
      if k > e { assert s[k] == after[k - e - 1] && after[k - e - 1] in after; }
    }
    GoPlainRun(s, e, |s|, "");
    assert "" + s[e..|s|] == "]" + after;
    assert s[0] == '[' && !BoldAt(s, 0);
    assert !(e + 1 < |s| && s[e + 1] == '(');
    assert FromMarker(s, 0) == Go(s, e, "");
    assert Markup(s) == Flush("") + FromMarker(s, 0);
  }

  predicate IsAlnum(c: char)
  {
    ('a' <= c <= 'z') || ('A' <= c <= 'Z') || ('0' <= c <= '9')
  }

  /** `replace(/[^a-zA-Z0-9]/g, '')`: the ASCII letters and digits, in their order. */
  function KeepAlnum(s: string): (r: string)
    ensures forall i :: 0 <= i < |r| ==> IsAlnum(r[i])
    ensures forall c :: c in r <==> c in s && IsAlnum(c)
    ensures forall c :: Seqs.Count(r, c) == if IsAlnum(c) then Seqs.Count(s, c) else 0
    ensures Seqs.IsSubsequence(r, s)
    ensures |r| <= |s|
    decreases |s|
  {
    if |s| == 0 then ""
    else
      var rest := KeepAlnum(s[1..]);
      assert forall c :: c in s <==> c == s[0] || c in s[1..];
      Seqs.CountCons(s[0], s[1..]);
      assert [s[0]] + s[1..] == s;
      if IsAlnum(s[0]) then Seqs.CountCons(s[0], rest); [s[0]] + rest else rest
  }

  /** `content.substring(0, 100)`. */
  function Head100(content: string): (h: string)
    ensures |h| == if |content| <= 100 then |content| else 100
    ensures h == content[..|h|]
  {
    if |content| <= 100 then content else content[..100]
  }

  /**
   * getCacheKey: the title, a dash, then the letters and digits among the
   * first 100 characters, in their order.
   */
  function CacheKey(title: string, content: string): (k: string)
    ensures StartsWith(k, title + "-")
    ensures |k| <= |title| + 1 + 100
    ensures forall i :: |title| + 1 <= i < |k| ==> IsAlnum(k[i])
    ensures k[|title| + 1..] == KeepAlnum(Head100(content))
    ensures forall c :: c in k[|title| + 1..] <==> c in Head100(content) && IsAlnum(c)
    ensures Seqs.IsSubsequence(k[|title| + 1..], Head100(content))
    ensures forall c :: Seqs.Count(k[|title| + 1..], c) == if IsAlnum(c) then Seqs.Count(Head100(content), c) else 0
  {
    var k := title + "-" + KeepAlnum(Head100(content));
    assert k[|title| + 1..] == KeepAlnum(Head100(content));
    k
  }

  /** Drafts with the same title and the same first 100 characters share one cache entry. */
  lemma SameHeadSameKey(title: string, c1: string, c2: string)
    requires |c1| >= 100 && |c2| >= 100 && c1[..100] == c2[..100]
    ensures CacheKey(title, c1) == CacheKey(title, c2)
  {
    assert (if |c1| <= 100 then c1 else c1[..100]) == c1[..100];
    assert (if |c2| <= 100 then c2 else c2[..100]) == c2[..100];
  }

  /**
   * The module-level article cache: its in-memory entries and the cache
   * file on disk (None when it is missing or unreadable).
   */
  class ArticleCache {
    var entries: map<string, string>
    var disk: Option<map<string, string>>

    constructor (disk: Option<map<string, string>>)
      ensures this.entries == map[] && this.disk == disk
    {
      this.entries := map[];
      this.disk := disk;
    }

    /**
     * publishToTelegraph: `available` is whether a Telegraph account could
     * be obtained, `created` the URL of the page the API creates (None when
     * the call throws). `pageCreated` tells whether the API was called.
     */
    method Publish(title: string, content: string, available: bool, created: Option<string>)
      returns (url: Option<string>, pageCreated: bool)
      modifies this
      ensures !available ==> url.None? && !pageCreated && entries == old(entries) && disk == old(disk)
      ensures available ==>
        var loaded := if |old(entries)| == 0 then old(disk).GetOr(map[]) else old(entries);
        var key := CacheKey(title, content);
        if key in loaded && loaded[key] != "" then
          url == Some(loaded[key]) && !pageCreated && entries == loaded && disk == old(disk)
        else
          pageCreated && url == created
          && (created.Some? ==> entries == loaded[key := created.value] && disk == Some(entries))
          && (created.None? ==> entries == loaded && disk == old(disk))
    {
      pageCreated := false;
      if !available {
        return None, false;
      }
      if |entries| == 0 {
        entries := disk.GetOr(map[]);
      }
      var key := CacheKey(title, content);
      if key in entries && entries[key] != "" {
        return Some(entries[key]), false;
      }
      pageCreated := true;
      if created.None? {
        return None, true;
      }
      entries := entries[key := created.value];
      disk := Some(entries);
      url := created;
    }
  }
}
