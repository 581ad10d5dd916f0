/**
 * Argument handling of the two command-line entry points: the article
 * generator (src/cli.js) and the image search test (testImage.js). Both
 * read a flag's value as the argument after its first occurrence and take
 * the first argument that is not a flag as the topic or keyword.
 *
 * What follows the argument handling (configuration loading, provider
 * calls, console output) is reduced to its outcome: a configuration error
 * is an input, and the image providers' health checks are given.
 */
module Cli {
  import opened Wrappers
  import Strs
  import Fallback

  /** `args.indexOf(flag)`: the first position of flag, or -1. */
  function IndexOf(args: seq<string>, flag: string): (r: int)
    ensures -1 <= r < |args|
    ensures r == -1 <==> flag !in args
    ensures r >= 0 ==> args[r] == flag && flag !in args[..r]
    decreases |args|
  {
    if |args| == 0 then -1
    else if args[0] == flag then 0
    else
      var k := IndexOf(args[1..], flag);
      assert k >= 0 ==> args[..k + 1] == [args[0]] + args[1..][..k];
      if k == -1 then -1 else k + 1
  }

  /** getArgValue: the argument after the first occurrence of flag; None is null. */
  function ArgValue(args: seq<string>, flag: string): (r: Option<string>)
    ensures flag !in args ==> r.None?
    ensures r.Some? ==> exists i :: 0 <= i < |args| - 1 && args[i] == flag && flag !in args[..i] && r.value == args[i + 1]
  {
    var index := IndexOf(args, flag);
    if index != -1 && index + 1 < |args| then Some(args[index + 1]) else None
  }

  /**
   * A flag has a value exactly when it occurs before the last position;
   * the value is the argument after its first occurrence.
   */
  lemma ArgValueIff(args: seq<string>, flag: string)
    ensures ArgValue(args, flag).Some? <==> |args| >= 2 && flag in args[..|args| - 1]
    ensures ArgValue(args, flag).Some? ==> exists i :: (0 <= i < |args| - 1 && args[i] == flag
      && flag !in args[..i] && ArgValue(args, flag).value == args[i + 1])
  {
    var index := IndexOf(args, flag);
    if |args| >= 2 && flag in args[..|args| - 1] {
      var j :| 0 <= j < |args| - 1 && args[..|args| - 1][j] == flag;
      assert args[j] == flag;
    }
    if index >= 0 && index + 1 < |args| {
      assert args[..|args| - 1][index] == flag;
    }
  }

  /** A flag given twice takes its value from the first occurrence. */
  lemma FirstOccurrenceWins(pre: seq<string>, flag: string, v: string, post: seq<string>)
    requires flag !in pre
    ensures ArgValue(pre + [flag, v] + post, flag) == Some(v)
  {
    var args := pre + [flag, v] + post;
    assert args[|pre|] == flag && args[|pre| + 1] == v;
    assert args[..|pre|] == pre;
  }

  predicate IsFlag(arg: string)
  {
    Strs.StartsWith(arg, "--")
  }

  /** `args.find(arg => !arg.startsWith('--'))`, as an index. */
  function FirstNonFlag(args: seq<string>): (r: Option<nat>)
    ensures r.None? ==> forall j :: 0 <= j < |args| ==> IsFlag(args[j])
    ensures r.Some? ==> (r.value < |args| && !IsFlag(args[r.value])
      && forall j :: 0 <= j < r.value ==> IsFlag(args[j]))
    decreases |args|
  {
    if |args| == 0 then None
    else if !IsFlag(args[0]) then Some(0)
    else
      match FirstNonFlag(args[1..])
      case None => None
      case Some(k) => Some(k + 1)
  }

  /** `args.find(...) || args[0]`: an empty first match falls back to the first argument; None is undefined. */
  function Topic(args: seq<string>): (r: Option<string>)
    ensures r.Some? <==> |args| > 0
  {
    var found := FirstNonFlag(args);
    if found.Some? && args[found.value] != "" then Some(args[found.value])
    else if |args| > 0 then Some(args[0])
    else None
  }

  /** The topic is the first argument that is neither a flag nor empty, when all before it are flags. */
  lemma TopicIsFirstPlain(flags: seq<string>, topic: string, rest: seq<string>)
    requires forall j :: 0 <= j < |flags| ==> IsFlag(flags[j])
    requires !IsFlag(topic) && topic != ""
    ensures Topic(flags + [topic] + rest) == Some(topic)
  {
    var args := flags + [topic] + rest;
    var found := FirstNonFlag(args);
    assert args[|flags|] == topic;
    assert found.Some?;
  }

  /** When every argument is a flag, the first one is the topic. */
  lemma AllFlagsTopic(args: seq<string>)
    requires |args| > 0 && forall j :: 0 <= j < |args| ==> IsFlag(args[j])
    ensures Topic(args) == Some(args[0])
  {
  }

  /** How src/cli.js ends once its arguments are read; every outcome but Generate exits. */
  datatype GenerateRun =
    | Usage                 // no arguments: usage text, exit 0
    | Help                  // --help anywhere: help text, exit 0
    | ConfigFailed(error: string)  // loadConfig threw: exit 1
    | NoTopic               // the topic is empty: exit 1
    | Generate(topic: string, provider: Option<string>, model: Option<string>)

  function GenerateMain(args: seq<string>, configError: Option<string>): (r: GenerateRun)
    ensures r == Usage <==> args == []
    ensures r == Help <==> args != [] && "--help" in args
  {
    if |args| == 0 then Usage
    else if "--help" in args then Help
    else if configError.Some? then ConfigFailed(configError.value)
    else
      var topic := Topic(args);
      if topic.None? || topic.value == "" then NoTopic
      else Generate(topic.value, ArgValue(args, "--provider"), ArgValue(args, "--model"))
  }

  /**
   * Generation is requested exactly when there are arguments, none is
   * --help, the configuration loaded and the topic is not empty; the
   * provider and model flags are passed on as read, null when missing.
   */
  lemma GenerateIff(args: seq<string>, configError: Option<string>)
    ensures GenerateMain(args, configError).Generate? <==>
      (args != [] && "--help" !in args && configError.None? && Topic(args).value != "")
    ensures GenerateMain(args, configError).Generate? ==>
      (GenerateMain(args, configError).topic == Topic(args).value
       && GenerateMain(args, configError).provider == ArgValue(args, "--provider")
       && GenerateMain(args, configError).model == ArgValue(args, "--model"))
  {
  }

  /** A flag's value written before the topic is taken as the topic. */
  lemma FlagValueTakenAsTopic(value: string, topic: string)
    requires !IsFlag(value) && value != "" && !IsFlag(topic)
    ensures GenerateMain(["--provider", value, topic], None) == Generate(value, Some(value), None)
  {
    var args := ["--provider", value, topic];
    assert IsFlag(args[0]) by { assert args[0][..2] == "--"; }
    assert IsFlag("--help") && IsFlag("--model") by {
      assert "--help"[..2] == "--" && "--model"[..2] == "--";
    }
    assert FirstNonFlag(args) == Some(1);
  }

  /** How testImage.js ends once its arguments are read. */
  datatype ImageRun =
    | ImageUsage            // no arguments: usage text, exit 0
    | NoProviders           // no health check reports an available provider: exit 1
    | Search(keyword: string, provider: string, limit: int, orientation: string)

  /** `value || fallback` on a string that may be null. */
  function OrDefault(v: Option<string>, fallback: string): (r: string)
    ensures v.Some? && v.value != "" ==> r == v.value
    ensures v.None? || v.value == "" ==> r == fallback
  {
    if v.Some? && v.value != "" then v.value else fallback
  }

  /** `parseInt(value) || 5`: null reads as "null", so NaN; NaN and 0 give 5. */
  function Limit(v: Option<string>): (r: int)
    ensures r != 0
  {
    var parsed := if v.None? then Strs.ParseInt("null") else Strs.ParseInt(v.value);
    if parsed.None? || parsed.value == 0 then 5 else parsed.value
  }

  /** A non-zero number written in decimal is the limit; a missing or zero limit gives 5. */
  lemma LimitValues(n: int)
    ensures n != 0 ==> Limit(Some(Strs.IntToString(n))) == n
    ensures Limit(None) == 5 && Limit(Some(Strs.IntToString(0))) == 5
  {
    Strs.ParseIntOfIntToString(n);
    Strs.ParseIntOfIntToString(0);
    NullIsNaN();
  }

  /** `parseInt(null)` reads the text "null", which has no digit. */
  lemma NullIsNaN()
    ensures Strs.ParseInt("null") == None
  {
    assert !Strs.IsDigit('n');
  }

  predicate AnyAvailable(health: seq<Fallback.Health>)
  {
    exists i :: 0 <= i < |health| && health[i].available
  }

  function ImageMain(args: seq<string>, health: seq<Fallback.Health>): (r: ImageRun)
    ensures r == ImageUsage <==> args == []
    ensures r == NoProviders <==> args != [] && !AnyAvailable(health)
  {
    if |args| == 0 then ImageUsage
    else if |health| == 0 || !AnyAvailable(health) then NoProviders
    else
      Search(Topic(args).value,
             OrDefault(ArgValue(args, "--provider"), "unsplash"),
             Limit(ArgValue(args, "--limit")),
             OrDefault(ArgValue(args, "--orientation"), "landscape"))
  }

  /** With only a keyword, the search uses unsplash, 5 images and landscape orientation. */
  lemma ImageDefaults(keyword: string, health: seq<Fallback.Health>)
    requires !IsFlag(keyword) && keyword != ""
    requires AnyAvailable(health)
    ensures ImageMain([keyword], health) == Search(keyword, "unsplash", 5, "landscape")
  {
    assert ArgValue([keyword], "--limit") == None;
    assert Limit(None) == 5 by {
      LimitValues(0);
    }
  }
}
