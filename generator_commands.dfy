/**
 * The content generator's own Telegram command handler: commands and plain
 * messages, the per-user waiting_for_topic state, the article generation
 * reply, the report of a blog sync (at most five files listed) and the
 * publication of a draft by file name.
 *
 * Command parsing and the blank-topic test are those of the bot's handler
 * (module BotCommands). The outcomes of the content generator's calls are
 * parameters; syncWithBlog and publishDraft are taken to hand back the
 * blog integration's results unchanged.
 */
module GeneratorCommands {
  import opened Wrappers
  import Strs
  import BotCommands
  import BlogIntegration
  import Files

  /** What handleGenerate asks the content generator for: the topic, the default template and two variables. */
  datatype GenerationRequest = GenerationRequest(topic: string, template: string, targetAudience: string, style: string)

  function RequestFor(topic: string): (r: GenerationRequest)
    ensures r.topic == topic && r.template == "default"
  {
    GenerationRequest(topic, "default",
      "\U{0448}\U{0438}\U{0440}\U{043E}\U{043A}\U{0430}\U{044F} \U{0430}\U{0443}\U{0434}\U{0438}\U{0442}\U{043E}\U{0440}\U{0438}\U{044F}",
      "\U{0438}\U{043D}\U{0444}\U{043E}\U{0440}\U{043C}\U{0430}\U{0442}\U{0438}\U{0432}\U{043D}\U{044B}\U{0439} \U{0438} \U{0434}\U{043E}\U{0441}\U{0442}\U{0443}\U{043F}\U{043D}\U{044B}\U{0439}")
  }

  /** generateCompleteArticle's answer: success with its figures, failure with an error, or an exception. */
  datatype Generation =
    | Generated(topic: string, filename: string, size: nat, wordCount: nat, readingTime: string, model: Option<string>)
    | NotGenerated(error: string)
    | GenerationThrew(message: string)

  /** syncWithBlog's answer: the blog integration's sync result, a failure, or an exception. */
  datatype SyncOutcome =
    | SyncReturned(result: BlogIntegration.SyncResult)
    | SyncNotOk(error: string)
    | SyncThrew(message: string)

  /** publishDraft's answer: the blog integration's publish result, or an exception. */
  datatype PublishOutcome =
    | PublishReturned(result: BlogIntegration.PublishResult)
    | PublishThrew(message: string)

  datatype Services = Services(
    generate: GenerationRequest -> Generation,
    sync: SyncOutcome,
    publishDraft: string -> PublishOutcome)

  /** What the sync message shows of a successful sync with files. */
  datatype SyncReport =
    | SyncedList(successCount: nat, totalFiles: nat, shown: seq<BlogIntegration.SyncedFile>, more: Option<nat>)
    | NoNewFiles
    | SyncError(error: string)

  datatype Reply =
    | Welcome
    | Templates
    | DraftsInfo
    | Settings
    | Help
    | StatusReport
    | UnknownCommand(command: string)
    | UseCommandsWithExample
    | UseCommands
    | AskTopic
    | Generating(topic: string)
    | ArticleReady(topic: string, filename: string, wordCount: nat, readingTime: string, sizeKb: nat, model: string)
    | GenerationFailed(topic: string, error: string)
    | GenerationCrashed(message: string)
    | Syncing
    | SyncDone(report: SyncReport)
    | SyncCrashed(message: string)
    | AskFileName
    | Publishing(fileName: string)
    | Published(fileName: string)
    | PublishDraftMissing(fileName: string)
    | PublishFailed(ioError: Files.IoError)
    | PublishCrashed(fileName: string, message: string)

  /** The replies, and the calls made to generateCompleteArticle and publishDraft. */
  datatype Output = Output(replies: seq<Reply>, requested: seq<GenerationRequest>, published: seq<string>)

  function Say(replies: seq<Reply>): Output
  {
    Output(replies, [], [])
  }

  /** A user's state; handleGenerate only ever stores waiting_for_topic. */
  datatype UserState = UserState(action: string)

  const WaitingForTopic: string := "waiting_for_topic"

  // ---------------------------------------------------------------------
  // The handlers, as functions of the state map

  /** `Math.round(size / 1024)` for a size in bytes. */
  function RoundKb(size: nat): (r: nat)
    ensures r * 1024 <= size + 512 < r * 1024 + 1024
  {
    (size + 512) / 1024
  }

  function GenerationReply(topic: string, g: Generation): Reply
  {
    match g
    case Generated(t, f, size, words, time, model) =>
      ArticleReady(t, f, words, time, RoundKb(size), if model.Some? && model.value != "" then model.value else "N/A")
    case NotGenerated(e) => GenerationFailed(topic, e)
    case GenerationThrew(msg) => GenerationCrashed(msg)
  }

  /**
   * handleGenerate: a blank topic asks for one and puts the user into
   * waiting_for_topic; any other topic clears the state first and asks the
   * content generator for the article once.
   */
  function GenerateStep(states: map<int, UserState>, userId: int, topic: Option<string>,
                        generate: GenerationRequest -> Generation): (r: (map<int, UserState>, Output))
    ensures userId in r.0 <==> BlankTopic(topic)
    ensures BlankTopic(topic) ==> r.0[userId] == UserState(WaitingForTopic) && r.1 == Say([AskTopic])
    ensures forall v :: v != userId ==> (v in r.0 <==> v in states) && (v in states ==> r.0[v] == states[v])
    ensures !BlankTopic(topic) ==>
      r.1.requested == [RequestFor(topic.value)] && r.1.published == []
      && r.1.replies == [Generating(topic.value), GenerationReply(topic.value, generate(RequestFor(topic.value)))]
  {
    if BlankTopic(topic) then (states[userId := UserState(WaitingForTopic)], Say([AskTopic]))
    else
      var request := RequestFor(topic.value);
      (states - {userId},
       Output([Generating(topic.value), GenerationReply(topic.value, generate(request))], [request], []))
  }

  predicate BlankTopic(topic: Option<string>)
  {
    BotCommands.BlankTopic(topic)
  }

  /**
   * handleRegularMessage: no state gets the hint with an example, the
   * waiting state takes the text as the topic, any other state the plain hint.
   */
  function RegularStep(states: map<int, UserState>, userId: int, text: Option<string>, s: Services)
    : (r: (map<int, UserState>, Output))
    ensures userId !in states ==> r == (states, Say([UseCommandsWithExample]))
    ensures userId in states && states[userId].action == WaitingForTopic ==>
      r == GenerateStep(states, userId, text, s.generate)
    ensures userId in states && states[userId].action != WaitingForTopic ==> r == (states, Say([UseCommands]))
  {
    if userId !in states then (states, Say([UseCommandsWithExample]))
    else if states[userId].action == WaitingForTopic then GenerateStep(states, userId, text, s.generate)
    else (states, Say([UseCommands]))
  }

  function Min(a: nat, b: nat): nat
  {
    if a <= b then a else b
  }

  /** The sync message: at most five files, and how many more there were. */
  function Report(result: BlogIntegration.SyncResult): (r: SyncReport)
    ensures !r.SyncError?
    ensures result.NothingToSync? || result.syncedFiles == [] <==> r == NoNewFiles
    ensures r.SyncedList? ==>
      var files := result.syncedFiles;
      r.shown == files[..Min(5, |files|)] && |r.shown| <= 5
      && (r.more.Some? <==> |files| > 5)
      && (r.more.Some? ==> |r.shown| + r.more.value == |files|)
      && r.successCount == result.successCount && r.totalFiles == result.totalFiles
  {
    match result
    case NothingToSync => NoNewFiles
    case Synced(files, total, count) =>
      if |files| == 0 then NoNewFiles
      else SyncedList(count, total, files[..Min(5, |files|)], if |files| > 5 then Some(|files| - 5) else None)
  }

  /** handleSync: the progress message, then the report, the failure or the exception. */
  function SyncReplies(o: SyncOutcome): (r: seq<Reply>)
    ensures |r| == 2 && r[0] == Syncing
    ensures o.SyncReturned? <==> r[1].SyncDone? && !r[1].report.SyncError?
    ensures o.SyncReturned? ==> r[1] == SyncDone(Report(o.result))
    ensures o.SyncNotOk? ==> r[1] == SyncDone(SyncError(o.error))
    ensures o.SyncThrew? <==> r[1].SyncCrashed?
    ensures o.SyncThrew? ==> r[1].message == o.message
  {
    match o
    case SyncReturned(result) => [Syncing, SyncDone(Report(result))]
    case SyncNotOk(e) => [Syncing, SyncDone(SyncError(e))]
    case SyncThrew(msg) => [Syncing, SyncCrashed(msg)]
  }

  function PublishReply(fileName: string, o: PublishOutcome): Reply
  {
    match o
    case PublishThrew(msg) => PublishCrashed(fileName, msg)
    case PublishReturned(r) =>
      match r
      case PublishedDraft(_, _) => Published(fileName)
      case DraftNotFound => PublishDraftMissing(fileName)
      case PublishFailed(e) => PublishFailed(e)
  }

  /**
   * handlePublish: a blank file name is answered with a prompt and
   * publishDraft is not called; otherwise it is called once with that name.
   */
  function PublishStep(fileName: string, publishDraft: string -> PublishOutcome): (r: Output)
    ensures r.requested == []
    ensures BlankTopic(Some(fileName)) <==> r.published == []
    ensures BlankTopic(Some(fileName)) ==> r.replies == [AskFileName]
    ensures !BlankTopic(Some(fileName)) ==>
      r.published == [fileName] && |r.replies| == 2 && r.replies[0] == Publishing(fileName)
      && (r.replies[1] == PublishDraftMissing(fileName) <==>
            publishDraft(fileName) == PublishReturned(BlogIntegration.DraftNotFound))
    ensures !BlankTopic(Some(fileName)) ==>
      var o := publishDraft(fileName);
      (r.replies[1].Published? <==> o.PublishReturned? && o.result.PublishedDraft?)
      && (r.replies[1].Published? ==> r.replies[1].fileName == fileName)
      && (r.replies[1].PublishFailed? <==> o.PublishReturned? && o.result.PublishFailed?)
      && (r.replies[1].PublishFailed? ==> r.replies[1].ioError == o.result.error)
      && (r.replies[1].PublishCrashed? <==> o.PublishThrew?)
      && (r.replies[1].PublishCrashed? ==> r.replies[1] == PublishCrashed(fileName, o.message))
  {
    if BlankTopic(Some(fileName)) then Say([AskFileName])
    else Output([Publishing(fileName), PublishReply(fileName, publishDraft(fileName))], [], [fileName])
  }

  const KnownCommands: set<string> :=
    {"start", "generate", "templates", "drafts", "settings", "help", "status", "sync", "publish"}

  /** handleCommand: nine commands; any other name gets the unknown-command reply with the command as typed. */
  function CommandStep(states: map<int, UserState>, userId: int, text: string, s: Services)
    : (r: (map<int, UserState>, Output))
    ensures var command := BotCommands.ParseCommand(text).0;
      var args := BotCommands.ParseCommand(text).1;
      var name := BotCommands.DropFirst(command);
      (name !in KnownCommands ==> r == (states, Say([UnknownCommand(command)])))
      && (name == "start" ==> r == (states, Say([Welcome])))
      && (name == "templates" ==> r == (states, Say([Templates])))
      && (name == "drafts" ==> r == (states, Say([DraftsInfo])))
      && (name == "settings" ==> r == (states, Say([Settings])))
      && (name == "help" ==> r == (states, Say([Help])))
      && (name == "status" ==> r == (states, Say([StatusReport])))
      && (name == "generate" ==> r == GenerateStep(states, userId, Some(args), s.generate))
      && (name == "publish" ==> r == (states, PublishStep(args, s.publishDraft)))
      && (name == "sync" ==> r == (states, Say(SyncReplies(s.sync))))
      && (name != "generate" ==> r.0 == states && r.1.requested == [])
      && (name != "publish" ==> r.1.published == [])
  {
    var command := BotCommands.ParseCommand(text).0;
    var args := BotCommands.ParseCommand(text).1;
    var name := BotCommands.DropFirst(command);
    if name == "start" then (states, Say([Welcome]))
    else if name == "generate" then GenerateStep(states, userId, Some(args), s.generate)
    else if name == "templates" then (states, Say([Templates]))
    else if name == "drafts" then (states, Say([DraftsInfo]))
    else if name == "settings" then (states, Say([Settings]))
    else if name == "help" then (states, Say([Help]))
    else if name == "status" then (states, Say([StatusReport]))
    else if name == "sync" then (states, Say(SyncReplies(s.sync)))
    else if name == "publish" then (states, PublishStep(args, s.publishDraft))
    else (states, Say([UnknownCommand(command)]))
  }

  /** handleMessage: text starting with '/' is a command, everything else a plain message. */
  function Dispatch(states: map<int, UserState>, userId: int, text: Option<string>, s: Services)
    : (r: (map<int, UserState>, Output))
    ensures text.Some? && Strs.StartsWith(text.value, "/") ==> r == CommandStep(states, userId, text.value, s)
    ensures !(text.Some? && Strs.StartsWith(text.value, "/")) ==> r == RegularStep(states, userId, text, s)
  {
    if text.Some? && Strs.StartsWith(text.value, "/") then CommandStep(states, userId, text.value, s)
    else RegularStep(states, userId, text, s)
  }

  // ---------------------------------------------------------------------
  // Properties across several messages and modules

  /** After a blank /generate, the next plain message is the topic the article is requested for. */
  lemma BlankGenerateThenTopic(states: map<int, UserState>, userId: int, args: string, topic: string, s: Services)
    requires BlankTopic(Some(args)) && !BlankTopic(Some(topic)) && !Strs.StartsWith(topic, "/")
    ensures var waiting := GenerateStep(states, userId, Some(args), s.generate).0;
      var r := Dispatch(waiting, userId, Some(topic), s);
      r.1.requested == [RequestFor(topic)] && userId !in r.0
  {
  }

  /** "/generate" followed by a space and a topic requests exactly that topic, inner spaces kept. */
  lemma GenerateCommandTopic(states: map<int, UserState>, userId: int, topic: string, s: Services)
    requires !BlankTopic(Some(topic))
    ensures CommandStep(states, userId, "/generate" + " " + topic, s).1.requested == [RequestFor(topic)]
  {
    GenerateCommandName();
    BotCommands.CommandSplitsAtFirstSpace("/generate", topic);
    GenerateCommandRequests(states, userId, "/generate" + " " + topic, topic, s);
  }

  /** "/generate" holds no space and names the generate command. */
  lemma GenerateCommandName()
    ensures ' ' !in "/generate" && BotCommands.DropFirst("/generate") == "generate"
  {
    assert "/generate"[1..] == "generate";
  }

  /** A /generate command line with a non-blank argument text requests that text. */
  lemma GenerateCommandRequests(states: map<int, UserState>, userId: int, text: string, topic: string, s: Services)
    requires BotCommands.ParseCommand(text) == ("/generate", topic) && !BlankTopic(Some(topic))
    ensures CommandStep(states, userId, text, s).1.requested == [RequestFor(topic)]
  {
    GenerateCommandName();
  }

  /** "/publish" with only spaces after it never reaches publishDraft. */
  lemma BlankPublishCallsNothing(states: map<int, UserState>, userId: int, spaces: string, s: Services)
    requires Strs.AllSpace(spaces)
    ensures CommandStep(states, userId, "/publish" + " " + spaces, s).1.published == []
  {
    BotCommands.CommandSplitsAtFirstSpace("/publish", spaces);
    assert BotCommands.DropFirst("/publish") == "publish";
    Strs.TrimEmptyIffAllSpace(spaces);
  }

  /** The files a sync report lists are the first new files, under their own names. */
  lemma ReportListsFirstNewFiles(cfg: BlogIntegration.Config, cwd: Files.Loc, fs: Files.Fs,
                                 files: seq<BlogIntegration.FileEntry>, i: nat)
    requires i < 5 && i < |files|
    ensures var copied := BlogIntegration.CopyAll(BlogIntegration.SyncCopy(cfg, cwd), fs, files).0;
      var r := Report(BlogIntegration.Synced(copied, |files|, BlogIntegration.SuccessCount(copied)));
      r.SyncedList? && i < |r.shown| && r.shown[i].fileName == files[i].name
  {
    BlogIntegration.CopyAllNames(BlogIntegration.SyncCopy(cfg, cwd), fs, files);
  }

  // ---------------------------------------------------------------------
  // The handler object

  class CommandHandler {
    var userStates: map<int, UserState>

    constructor ()
      ensures userStates == map[]
    {
      userStates := map[];
    }

    method HandleGenerate(userId: int, topic: Option<string>, generate: GenerationRequest -> Generation)
      returns (out: Output)
      modifies this
      ensures (userStates, out) == GenerateStep(old(userStates), userId, topic, generate)
    {
      if topic.None? || Strs.IsBlank(topic.value) {
        userStates := userStates[userId := UserState(WaitingForTopic)];
        return Say([AskTopic]);
      }
      userStates := userStates - {userId};
      var request := RequestFor(topic.value);
      var result := generate(request);
      out := Output([Generating(topic.value), GenerationReply(topic.value, result)], [request], []);
    }

    method HandleRegularMessage(userId: int, text: Option<string>, s: Services) returns (out: Output)
      modifies this
      ensures (userStates, out) == RegularStep(old(userStates), userId, text, s)
    {
      if userId !in userStates {
        return Say([UseCommandsWithExample]);
      }
      if userStates[userId].action == WaitingForTopic {
        out := HandleGenerate(userId, text, s.generate);
      } else {
        out := Say([UseCommands]);
      }
    }

    method HandleCommand(userId: int, text: string, s: Services) returns (out: Output)
      modifies this
      ensures (userStates, out) == CommandStep(old(userStates), userId, text, s)
    {
      var command := BotCommands.ParseCommand(text).0;
      var args := BotCommands.ParseCommand(text).1;
      var name := BotCommands.DropFirst(command);
      if name == "generate" {
        out := HandleGenerate(userId, Some(args), s.generate);
      } else if name == "publish" {
        out := PublishStep(args, s.publishDraft);
      } else if name == "sync" {
        out := Say(SyncReplies(s.sync));
      } else if name == "start" {
        out := Say([Welcome]);
      } else if name == "templates" {
        out := Say([Templates]);
      } else if name == "drafts" {
        out := Say([DraftsInfo]);
      } else if name == "settings" {
        out := Say([Settings]);
      } else if name == "help" {
        out := Say([Help]);
      } else if name == "status" {
        out := Say([StatusReport]);
      } else {
        out := Say([UnknownCommand(command)]);
      }
    }

    method HandleMessage(userId: int, text: Option<string>, s: Services) returns (out: Output)
      modifies this
      ensures (userStates, out) == Dispatch(old(userStates), userId, text, s)
    {
      if text.Some? && Strs.StartsWith(text.value, "/") {
        out := HandleCommand(userId, text.value, s);
      } else {
        out := HandleRegularMessage(userId, text, s);
      }
    }
  }
}
