/**
 * The Telegram bot's command handler: who may talk to the bot, the rate
 * limit gate in front of every update, the routing of callbacks, commands
 * and plain messages, the per-user "waiting for a topic" state and the
 * per-user cache of the drafts list with its inline keyboard.
 *
 * Replies are values (what the bot sends, without the Markdown and emoji
 * decoration), and the services the handler calls (article generation,
 * the drafts listing, updateDraft, Telegraph) are given as parameters.
 */
module BotCommands {
  import opened Wrappers
  import Seqs
  import Strs
  import Js
  import BotRateLimiter

  // ---------------------------------------------------------------------
  // Incoming updates

  /** The message a callback query belongs to. */
  datatype CallbackMessage = CallbackMessage(chatId: Option<int>, messageId: int)

  /** An update from Telegram: a plain message, or a callback query with data and its message. */
  datatype Incoming = Incoming(
    data: Option<string>,
    message: Option<CallbackMessage>,
    text: Option<string>,
    fromId: Option<int>,
    chatId: Option<int>)

  /** `!!msg.data && !!msg.message`. */
  predicate IsCallback(m: Incoming)
  {
    m.data.Some? && m.data.value != "" && m.message.Some?
  }

  /** The chat id: from the callback's message for a callback, from the message otherwise. */
  function ChatOf(m: Incoming): Option<int>
  {
    if IsCallback(m) then m.message.value.chatId else m.chatId
  }

  /** Both the user id and the chat id are present and truthy (0 is falsy). */
  predicate Identified(m: Incoming)
  {
    m.fromId.Some? && m.fromId.value != 0 && ChatOf(m).Some? && ChatOf(m).value != 0
  }

  // ---------------------------------------------------------------------
  // Authorization

  /** `ADMIN_TELEGRAM_ID.split(',').map(id => parseInt(id.trim()))`; None is NaN. */
  function AdminIds(env: string): (r: seq<Option<int>>)
    ensures |r| == |Strs.Split(env, ',')|
    ensures forall i :: 0 <= i < |r| ==> r[i] == Strs.ParseInt(Strs.Trim(Strs.Split(env, ',')[i]))
  {
    var parts := Strs.Split(env, ',');
    seq(|parts|, i requires 0 <= i < |parts| => Strs.ParseInt(Strs.Trim(parts[i])))
  }

  /** isAuthorized: nobody when the variable is unset or empty, otherwise the listed ids. */
  predicate IsAuthorized(env: Option<string>, userId: int)
  {
    env.Some? && env.value != "" && Some(userId) in AdminIds(env.value)
  }

  /** The comma-separated list of the given ids, as an administrator writes it. */
  function IdList(ids: seq<int>): (r: seq<string>)
    ensures |r| == |ids|
    ensures forall i :: 0 <= i < |ids| ==> r[i] == Strs.IntToString(ids[i])
  {
    seq(|ids|, i requires 0 <= i < |ids| => Strs.IntToString(ids[i]))
  }

  lemma IntToStringShape(n: int)
    ensures var s := Strs.IntToString(n);
      s != [] && ',' !in s && !Strs.IsSpace(s[0]) && !Strs.IsSpace(s[|s| - 1])
  {
    var d := Strs.NatToString(if n < 0 then -n else n);
    assert Strs.IsDigit(d[|d| - 1]);
    assert forall i :: 0 <= i < |d| ==> d[i] != ',';
    if n < 0 {
      assert Strs.IntToString(n) == "-" + d;
      assert forall i :: 0 <= i < |"-" + d| ==> ("-" + d)[i] != ',' by {
        forall i | 0 <= i < |"-" + d| ensures ("-" + d)[i] != ',' {
          if i > 0 { assert ("-" + d)[i] == d[i - 1]; }
        }
      }
    } else {
      assert Strs.IsDigit(d[0]);
    }
  }

  /** Parsing a written list of ids gives every id back, in order. */
  lemma AdminIdsOfList(ids: seq<int>)
    requires |ids| >= 1
    ensures var env := Strs.Join(IdList(ids), ",");
      env != "" && |AdminIds(env)| == |ids|
      && forall i :: 0 <= i < |ids| ==> AdminIds(env)[i] == Some(ids[i])
  {
    var parts := IdList(ids);
    forall i | 0 <= i < |parts| ensures ',' !in parts[i] { IntToStringShape(ids[i]); }
    Strs.SplitJoin(parts, ',');
    var env := Strs.Join(parts, ",");
    assert Strs.Split(env, ',') == parts;
    forall i | 0 <= i < |ids| ensures AdminIds(env)[i] == Some(ids[i]) {
      IntToStringShape(ids[i]);
      Strs.TrimUnspaced(parts[i]);
      Strs.ParseIntOfIntToString(ids[i]);
    }
    if env == "" {
      assert Strs.Split(env, ',') == [""];
      IntToStringShape(ids[0]);
    }
  }

  /** With ADMIN_TELEGRAM_ID set to a list of ids, exactly the listed users are authorized. */
  lemma AuthorizedIffListed(ids: seq<int>, userId: int)
    requires |ids| >= 1
    ensures IsAuthorized(Some(Strs.Join(IdList(ids), ",")), userId) <==> userId in ids
  {
    AdminIdsOfList(ids);
    var a := AdminIds(Strs.Join(IdList(ids), ","));
    if userId in ids {
      var i :| 0 <= i < |ids| && ids[i] == userId;
      assert a[i] == Some(userId);
    }
    if Some(userId) in a {
      var i :| 0 <= i < |a| && a[i] == Some(userId);
      assert a[i] == Some(ids[i]);
      assert ids[i] == userId;
    }
  }

  // ---------------------------------------------------------------------
  // Drafts, the keyboard and callback data

  /** A cached draft: what the handler reads of it, with frontmatter.publish any JSON value. */
  datatype Draft = Draft(title: string, filename: string, content: string, publish: Js.Value)

  datatype Button = Button(text: string, callbackData: string)

  /** The status shown in front of a draft's title: a check mark once marked for publication. */
  function StatusMark(d: Draft): string
  {
    if Js.Truthy(d.publish) then "\U{2705}" else "\U{1F4DD}"
  }

  const ViewAction: string := "view_draft"
  const MarkAction: string := "mark_publish"

  function CallbackData(action: string, index: nat): string
  {
    action + ":" + Strs.NatToString(index)
  }

  /** One keyboard row per draft: view it, or mark it for publication. */
  function Keyboard(drafts: seq<Draft>): (k: seq<seq<Button>>)
    ensures |k| == |drafts|
    ensures forall i :: 0 <= i < |k| ==> |k[i]| == 2
  {
    seq(|drafts|, i requires 0 <= i < |drafts| =>
      [Button(StatusMark(drafts[i]) + " " + drafts[i].title, CallbackData(ViewAction, i)),
       Button("Mark for Publication", CallbackData(MarkAction, i))])
  }

  /** `data.split(':')`: the action and `parseInt` of the second piece (None when missing or NaN). */
  function ParseCallback(data: string): (r: (string, Option<int>))
    ensures ':' !in r.0
    ensures ':' !in data ==> r == (data, None)
  {
    var parts := Strs.Split(data, ':');
    Strs.NoSepSplit(data, ':');
    (parts[0], if |parts| > 1 then Strs.ParseInt(parts[1]) else None)
  }

  /** The callback data of an action with no colon parses back to that action and index. */
  lemma CallbackDataParses(action: string, index: nat)
    requires ':' !in action
    ensures ParseCallback(CallbackData(action, index)) == (action, Some(index as int))
  {
    var d := Strs.NatToString(index);
    assert ':' !in d by {
      forall i | 0 <= i < |d| ensures d[i] != ':' { assert Strs.IsDigit(d[i]); }
    }
    assert CallbackData(action, index) == action + [':'] + d;
    Strs.SplitAround(action, ':', d);
    Strs.NoSepSplit(d, ':');
    Strs.ParseIntOfIntToString(index);
  }

  /**
   * Every button of the drafts keyboard leads back to its row: row i's
   * buttons carry view_draft:i and mark_publish:i, and the first shows the
   * draft's title after its status mark.
   */
  lemma KeyboardRoundTrip(drafts: seq<Draft>, i: nat)
    requires i < |drafts|
    ensures ParseCallback(Keyboard(drafts)[i][0].callbackData) == (ViewAction, Some(i as int))
    ensures ParseCallback(Keyboard(drafts)[i][1].callbackData) == (MarkAction, Some(i as int))
    ensures Strs.EndsWith(Keyboard(drafts)[i][0].text, drafts[i].title)
    ensures Strs.StartsWith(Keyboard(drafts)[i][0].text, StatusMark(drafts[i]))
  {
    ViewButton(drafts, i);
    MarkButton(drafts, i);
  }

  lemma ViewButton(drafts: seq<Draft>, i: nat)
    requires i < |drafts|
    ensures ParseCallback(Keyboard(drafts)[i][0].callbackData) == (ViewAction, Some(i as int))
    ensures Strs.EndsWith(Keyboard(drafts)[i][0].text, drafts[i].title)
    ensures Strs.StartsWith(Keyboard(drafts)[i][0].text, StatusMark(drafts[i]))
  {
    var row := Keyboard(drafts)[i];
    assert row[0] == Button(StatusMark(drafts[i]) + " " + drafts[i].title, CallbackData(ViewAction, i));
    CallbackDataParses(ViewAction, i);
    MarkThenTitle(StatusMark(drafts[i]), drafts[i].title);
  }

  lemma MarkButton(drafts: seq<Draft>, i: nat)
    requires i < |drafts|
    ensures ParseCallback(Keyboard(drafts)[i][1].callbackData) == (MarkAction, Some(i as int))
  {
    var row := Keyboard(drafts)[i];
    assert row[1].callbackData == CallbackData(MarkAction, i);
    CallbackDataParses(MarkAction, i);
  }

  lemma MarkThenTitle(mark: string, title: string)
    ensures Strs.EndsWith(mark + " " + title, title) && Strs.StartsWith(mark + " " + title, mark)
  {
    var t := mark + " " + title;
    assert t[..|mark|] == mark;
    assert t[|t| - |title|..] == title;
  }

  /** `this.userDrafts[userId]?.[draftIndex]`: present only for a cached list and an index inside it. */
  function DraftAt(cache: map<int, seq<Draft>>, userId: int, index: Option<int>): (r: Option<Draft>)
    ensures r.Some? <==> userId in cache && index.Some? && 0 <= index.value < |cache[userId]|
    ensures r.Some? ==> r.value == cache[userId][index.value]
  {
    if userId in cache && index.Some? && 0 <= index.value < |cache[userId]|
    then Some(cache[userId][index.value]) else None
  }

  /** The text preview: the first 600 characters, and "..." when something was cut. */
  function Preview(content: string): (r: string)
    ensures |content| <= 600 ==> r == content
    ensures |content| > 600 ==> |r| == 603 && r[..600] == content[..600] && r[600..] == "..."
  {
    if |content| > 600 then content[..600] + "..." else content
  }

  // ---------------------------------------------------------------------
  // Replies, services and the handler's state

  datatype Article = Article(title: string, filename: string)

  datatype AnswerText = Ack | NotFoundAlert | AlreadyMarked | MarkedFor(title: string) | MarkFailedAlert

  datatype Reply =
    | NoAccess
    | RateLimited(waitTime: string)
    | ProcessingFailed
    | Welcome
    | Help
    | UnknownCommand(command: string)
    | AskTopic
    | UseCommands
    | Generating
    | Generated(title: string, filename: string)
    | GenerateError(message: string)
    | NoDrafts
    | DraftList(keyboard: seq<seq<Button>>)
    | DraftNotFound
    | DraftPreview(title: string, url: Option<string>, preview: string)
    | PublishStarted
    | EditKeyboard(keyboard: seq<seq<Button>>)
    | Answer(answer: AnswerText)

  /**
   * What the handler gets from the outside: ADMIN_TELEGRAM_ID, the outcome
   * of generateCompleteArticle per topic, what getDrafts returns, whether
   * updateDraft succeeds per file name and the Telegraph URL per title and
   * content (None when the call fails).
   */
  datatype Services = Services(
    adminIds: Option<string>,
    generate: string -> Result<Article, string>,
    drafts: Result<seq<Draft>, string>,
    updateDraft: string -> bool,
    telegraphUrl: (string, string) -> Option<string>)

  datatype UserState = WaitingForTopic

  datatype Session = Session(states: map<int, UserState>, drafts: map<int, seq<Draft>>)

  /**
   * What handling produced besides the new session: the replies, whether an
   * exception reached handleMessage's catch, and the files updateDraft was
   * asked to mark.
   */
  datatype Output = Output(replies: seq<Reply>, failed: bool, updated: seq<string>)

  datatype Effect = Effect(session: Session, out: Output)

  function Say(sess: Session, replies: seq<Reply>): Effect
  {
    Effect(sess, Output(replies, false, []))
  }

  // ---------------------------------------------------------------------
  // The handlers, as functions of the session

  /** `!topic || topic.trim().length === 0`. */
  predicate BlankTopic(topic: Option<string>)
  {
    topic.None? || Strs.IsBlank(topic.value)
  }

  /**
   * handleGenerate: a blank topic puts the user into waiting_for_topic;
   * any other topic is generated and the state is cleared, whatever the
   * outcome.
   */
  function GenerateStep(sess: Session, userId: int, topic: Option<string>,
                        generate: string -> Result<Article, string>): (e: Effect)
    ensures e.session.drafts == sess.drafts && !e.out.failed && e.out.updated == []
    ensures userId in e.session.states <==> BlankTopic(topic)
    ensures forall v :: v != userId ==>
      (v in e.session.states <==> v in sess.states)
    ensures BlankTopic(topic) ==> e.out.replies == [AskTopic]
    ensures !BlankTopic(topic) ==>
      |e.out.replies| == 2 && e.out.replies[0] == Generating
      && (generate(topic.value).Ok? <==> e.out.replies[1].Generated?)
      && (generate(topic.value).Ok? ==>
            e.out.replies[1] == Generated(generate(topic.value).value.title, generate(topic.value).value.filename))
  {
    if BlankTopic(topic) then
      Say(sess.(states := sess.states[userId := WaitingForTopic]), [AskTopic])
    else
      var result := match generate(topic.value)
        case Ok(a) => Generated(a.title, a.filename)
        case Err(msg) => GenerateError(msg);
      Say(sess.(states := sess.states - {userId}), [Generating, result])
  }

  /** How handleRegularMessage treats a message: as the awaited topic, or with a hint. */
  predicate AwaitsTopic(sess: Session, userId: int)
  {
    userId in sess.states && sess.states[userId] == WaitingForTopic
  }

  /** handleRegularMessage: the message text is the topic when one is awaited. */
  function RegularStep(sess: Session, userId: int, text: Option<string>, s: Services): (e: Effect)
    ensures AwaitsTopic(sess, userId) ==> e == GenerateStep(sess, userId, text, s.generate)
    ensures !AwaitsTopic(sess, userId) ==> e == Say(sess, [UseCommands])
  {
    if AwaitsTopic(sess, userId) then GenerateStep(sess, userId, text, s.generate)
    else Say(sess, [UseCommands])
  }

  /** handleDrafts: the listing is cached for the user; a failing listing throws. */
  function DraftsStep(sess: Session, userId: int, listing: Result<seq<Draft>, string>): (e: Effect)
    ensures e.session.states == sess.states && e.out.updated == []
    ensures listing.Err? ==> e.out.failed && e.out.replies == [] && e.session == sess
    ensures listing.Ok? ==> !e.out.failed && e.session.drafts == sess.drafts[userId := listing.value]
    ensures listing.Ok? ==> (e.out.replies == [NoDrafts] <==> listing.value == [])
    ensures listing.Ok? && listing.value != [] ==> e.out.replies == [DraftList(Keyboard(listing.value))]
  {
    match listing
    case Err(_) => Effect(sess, Output([], true, []))
    case Ok(ds) =>
      var next := sess.(drafts := sess.drafts[userId := ds]);
      if ds == [] then Say(next, [NoDrafts]) else Say(next, [DraftList(Keyboard(ds))])
  }

  /** handleViewDraft: the preview, with the Telegraph URL when there is an account and a non-empty URL. */
  function ViewReply(sess: Session, userId: int, index: Option<int>, s: Services, telegraph: bool): (r: Reply)
    ensures DraftAt(sess.drafts, userId, index).None? <==> r == DraftNotFound
    ensures DraftAt(sess.drafts, userId, index).Some? ==>
      var d := DraftAt(sess.drafts, userId, index).value;
      r.DraftPreview? && r.title == d.title && r.preview == Preview(d.content)
      && (r.url.Some? ==> telegraph && r.url == s.telegraphUrl(d.title, d.content) && r.url.value != "")
      && ((telegraph && s.telegraphUrl(d.title, d.content).Some? && s.telegraphUrl(d.title, d.content).value != "")
          ==> r.url == s.telegraphUrl(d.title, d.content))
  {
    match DraftAt(sess.drafts, userId, index)
    case None => DraftNotFound
    case Some(d) =>
      var url := if telegraph then s.telegraphUrl(d.title, d.content) else None;
      DraftPreview(d.title, if url.Some? && url.value != "" then url else None, Preview(d.content))
  }

  /** The cached list with draft i's publish flag set to true. */
  function MarkCached(ds: seq<Draft>, i: nat): (r: seq<Draft>)
    requires i < |ds|
    ensures |r| == |ds| && r[i] == ds[i].(publish := Js.Bool(true))
    ensures forall j :: 0 <= j < |ds| && j != i ==> r[j] == ds[j]
  {
    ds[i := ds[i].(publish := Js.Bool(true))]
  }

  /**
   * handleMarkForPublication: a missing draft gets an alert, an already
   * marked one an answer and no update; otherwise updateDraft is asked to
   * mark the file and, when it succeeds, the cached flag is set and the
   * keyboard redrawn.
   */
  function MarkStep(sess: Session, userId: int, index: Option<int>, update: string -> bool): (e: Effect)
    ensures e.session.states == sess.states && !e.out.failed
    ensures e.session.drafts.Keys == sess.drafts.Keys
    ensures forall v :: v in sess.drafts && v != userId ==> e.session.drafts[v] == sess.drafts[v]
    ensures DraftAt(sess.drafts, userId, index).None? ==>
      e.session == sess && e.out.replies == [Answer(NotFoundAlert)] && e.out.updated == []
    ensures DraftAt(sess.drafts, userId, index).Some? && Js.Truthy(DraftAt(sess.drafts, userId, index).value.publish) ==>
      e.session == sess && e.out.replies == [Answer(AlreadyMarked)] && e.out.updated == []
    ensures var d := DraftAt(sess.drafts, userId, index);
      d.Some? && !Js.Truthy(d.value.publish) ==>
        e.out.updated == [d.value.filename]
        && (update(d.value.filename) <==> e.session != sess)
        && (update(d.value.filename) ==>
              DraftAt(e.session.drafts, userId, index) == Some(d.value.(publish := Js.Bool(true)))
              && e.out.replies == [EditKeyboard(Keyboard(e.session.drafts[userId])), Answer(MarkedFor(d.value.title))])
        && (!update(d.value.filename) ==> e.session == sess && e.out.replies == [Answer(MarkFailedAlert)])
  {
    match DraftAt(sess.drafts, userId, index)
    case None => Say(sess, [Answer(NotFoundAlert)])
    case Some(d) =>
      if Js.Truthy(d.publish) then Say(sess, [Answer(AlreadyMarked)])
      else if update(d.filename) then
        var marked := MarkCached(sess.drafts[userId], index.value);
        assert marked[index.value] != sess.drafts[userId][index.value];
        var next := sess.(drafts := sess.drafts[userId := marked]);
        assert next.drafts[userId] != sess.drafts[userId];
        Effect(next, Output([EditKeyboard(Keyboard(marked)), Answer(MarkedFor(d.title))], false, [d.filename]))
      else Effect(sess, Output([Answer(MarkFailedAlert)], false, [d.filename]))
  }

  /** handleCallbackQuery: only view_draft and mark_publish act; a view is answered as well. */
  function CallbackStep(sess: Session, userId: int, data: string, s: Services, telegraph: bool): (e: Effect)
    ensures var (action, index) := ParseCallback(data);
      (action == ViewAction ==> e == Say(sess, [ViewReply(sess, userId, index, s, telegraph), Answer(Ack)]))
      && (action == MarkAction ==> e == MarkStep(sess, userId, index, s.updateDraft))
      && (action != ViewAction && action != MarkAction ==> e == Say(sess, []))
  {
    var (action, index) := ParseCallback(data);
    if action == ViewAction then Say(sess, [ViewReply(sess, userId, index, s, telegraph), Answer(Ack)])
    else if action == MarkAction then MarkStep(sess, userId, index, s.updateDraft)
    else Say(sess, [])
  }

  /** `command.substring(1)`. */
  function DropFirst(s: string): string
  {
    if |s| > 0 then s[1..] else ""
  }

  /** `const [command, ...args] = text.split(' ')`: the command and its arguments re-joined. */
  function ParseCommand(text: string): (r: (string, string))
    ensures ' ' !in r.0
  {
    var parts := Strs.Split(text, ' ');
    (parts[0], Strs.Join(parts[1..], " "))
  }

  /**
   * The command is the text up to the first space and the re-joined
   * arguments are exactly the rest of the text, runs of spaces included.
   */
  lemma CommandSplitsAtFirstSpace(command: string, rest: string)
    requires ' ' !in command
    ensures ParseCommand(command + " " + rest) == (command, rest)
  {
    assert command + " " + rest == command + [' '] + rest;
    Strs.SplitAround(command, ' ', rest);
    Strs.JoinSplit(rest, ' ');
    assert Strs.Split(command + " " + rest, ' ')[1..] == Strs.Split(rest, ' ');
  }

  /** A text without a space is all command and no arguments. */
  lemma CommandWithoutArguments(text: string)
    requires ' ' !in text
    ensures ParseCommand(text) == (text, "")
  {
    Strs.NoSepSplit(text, ' ');
  }

  /** handleCommand: the five commands; anything else gets the unknown-command reply. */
  function CommandStep(sess: Session, userId: int, text: string, s: Services): (e: Effect)
    ensures var command := ParseCommand(text).0;
      var args := ParseCommand(text).1;
      var name := DropFirst(command);
      (name == "start" ==> e == Say(sess, [Welcome]))
      && (name == "generate" ==> e == GenerateStep(sess, userId, Some(args), s.generate))
      && (name == "drafts" ==> e == DraftsStep(sess, userId, s.drafts))
      && (name == "publish" ==> e == Say(sess, [PublishStarted]))
      && (name == "help" ==> e == Say(sess, [Help]))
      && (name !in {"start", "generate", "drafts", "publish", "help"} ==> e == Say(sess, [UnknownCommand(command)]))
  {
    var command := ParseCommand(text).0;
    var args := ParseCommand(text).1;
    var name := DropFirst(command);
    if name == "start" then Say(sess, [Welcome])
    else if name == "generate" then GenerateStep(sess, userId, Some(args), s.generate)
    else if name == "drafts" then DraftsStep(sess, userId, s.drafts)
    else if name == "publish" then Say(sess, [PublishStarted])
    else if name == "help" then Say(sess, [Help])
    else Say(sess, [UnknownCommand(command)])
  }

  /** The three routes of an admitted update. */
  datatype Route = CallbackRoute | CommandRoute | RegularRoute

  function RouteOf(m: Incoming): (r: Route)
    ensures r == CallbackRoute <==> IsCallback(m)
    ensures r == CommandRoute <==> !IsCallback(m) && m.text.Some? && Strs.StartsWith(m.text.value, "/")
  {
    if IsCallback(m) then CallbackRoute
    else if m.text.Some? && Strs.StartsWith(m.text.value, "/") then CommandRoute
    else RegularRoute
  }

  /** The handler an admitted update goes to: callbacks, then slash commands, then plain messages. */
  function Dispatch(sess: Session, userId: int, m: Incoming, s: Services, telegraph: bool): (e: Effect)
    ensures IsCallback(m) ==> e == CallbackStep(sess, userId, m.data.value, s, telegraph)
    ensures !IsCallback(m) && m.text.Some? && Strs.StartsWith(m.text.value, "/") ==>
              e == CommandStep(sess, userId, m.text.value, s)
    ensures !IsCallback(m) && !(m.text.Some? && Strs.StartsWith(m.text.value, "/")) ==>
              e == RegularStep(sess, userId, m.text, s)
  {
    match RouteOf(m)
    case CallbackRoute => CallbackStep(sess, userId, m.data.value, s, telegraph)
    case CommandRoute => CommandStep(sess, userId, m.text.value, s)
    case RegularRoute => RegularStep(sess, userId, m.text, s)
  }

  /** The wait shown to a throttled user; a NaN reset time prints as "NaN ч". */
  function WaitText(resetIn: Option<int>): (t: string)
    ensures resetIn.Some? ==> Strs.ParseInt(t) == Some(BotRateLimiter.WaitTime(resetIn.value).0)
    ensures resetIn.None? ==> t == "NaN \U{0447}"
  {
    if resetIn.Some? then
      BotRateLimiter.WaitTextReadsBack(resetIn.value);
      BotRateLimiter.FormatWaitTime(resetIn.value)
    else "NaN \U{0447}"
  }

  datatype Outcome = Outcome(session: Session, table: map<int, BotRateLimiter.UserData>, out: Output)

  /**
   * handleMessage: ignore an update without user or chat; refuse an
   * unauthorized user before the rate limiter is consulted; on a rate
   * limit rejection record nothing; otherwise record the request, then
   * dispatch, and turn an exception into the generic error reply.
   */
  function Handle(sess: Session, table: map<int, BotRateLimiter.UserData>, lim: BotRateLimiter.Limits,
                  m: Incoming, s: Services, telegraph: bool, now: int): Outcome
  {
    if !Identified(m) then Outcome(sess, table, Output([], false, []))
    else
      var u := m.fromId.value;
      if !IsAuthorized(s.adminIds, u) then Outcome(sess, table, Output([NoAccess], false, []))
      else
        var (checked, v) := BotRateLimiter.Check(lim, BotRateLimiter.Lookup(table, u), now);
        if v.Rejected? then
          Outcome(sess, table[u := checked], Output([RateLimited(WaitText(v.resetIn))], false, []))
        else
          var e := Dispatch(sess, u, m, s, telegraph);
          Outcome(e.session, table[u := BotRateLimiter.Record(checked, now)],
                  e.out.(replies := e.out.replies + if e.out.failed then [ProcessingFailed] else []))
  }

  /**
   * The gate of handleMessage: an update without user or chat changes
   * nothing; an unauthorized user changes nothing, the rate limiter
   * included; a rejected request only updates the burst counter and the
   * pruned list, recording nothing; an admitted one is recorded and then
   * dispatched, an exception adding the generic error reply.
   */
  lemma GatingOrder(sess: Session, table: map<int, BotRateLimiter.UserData>, lim: BotRateLimiter.Limits,
                    m: Incoming, s: Services, telegraph: bool, now: int)
    ensures !Identified(m) ==> Handle(sess, table, lim, m, s, telegraph, now) == Outcome(sess, table, Output([], false, []))
    ensures Identified(m) && !IsAuthorized(s.adminIds, m.fromId.value) ==>
      Handle(sess, table, lim, m, s, telegraph, now) == Outcome(sess, table, Output([NoAccess], false, []))
    ensures Identified(m) && IsAuthorized(s.adminIds, m.fromId.value) ==>
      var r := Handle(sess, table, lim, m, s, telegraph, now);
      var u := m.fromId.value;
      var prior := BotRateLimiter.Lookup(table, u);
      var (checked, v) := BotRateLimiter.Check(lim, prior, now);
      u in r.table && r.table == table[u := r.table[u]]
      && (v.Rejected? ==>
            r.session == sess && r.out == Output([RateLimited(WaitText(v.resetIn))], false, [])
            && r.table[u] == checked && r.table[u].lastRequest == prior.lastRequest
            && |r.table[u].requests| <= |prior.requests|)
      && (v.Allowed? ==>
            r.table[u] == BotRateLimiter.Record(checked, now)
            && r.table[u].lastRequest == now && r.table[u].requests[|r.table[u].requests| - 1] == now
            && var e := Dispatch(sess, u, m, s, telegraph);
               r.session == e.session
               && r.out == e.out.(replies := e.out.replies + if e.out.failed then [ProcessingFailed] else []))
  {
    if Identified(m) && IsAuthorized(s.adminIds, m.fromId.value) {
      var u := m.fromId.value;
      var prior := BotRateLimiter.Lookup(table, u);
      var (checked, v) := BotRateLimiter.Check(lim, prior, now);
      if v.Rejected? {
        HandleRejected(sess, table, lim, m, s, telegraph, now, checked, v);
        Seqs.Overwrite(table, u, checked, checked);
      } else {
        HandleAdmitted(sess, table, lim, m, s, telegraph, now, checked, v);
        Seqs.Overwrite(table, u, BotRateLimiter.Record(checked, now), BotRateLimiter.Record(checked, now));
      }
    }
  }

  /** A rejected request: the checked record is kept and nothing is dispatched. */
  lemma HandleRejected(sess: Session, table: map<int, BotRateLimiter.UserData>, lim: BotRateLimiter.Limits,
                       m: Incoming, s: Services, telegraph: bool, now: int,
                       checked: BotRateLimiter.UserData, v: BotRateLimiter.Verdict)
    requires Identified(m) && IsAuthorized(s.adminIds, m.fromId.value)
    requires (checked, v) == BotRateLimiter.Check(lim, BotRateLimiter.Lookup(table, m.fromId.value), now)
    requires v.Rejected?
    ensures Handle(sess, table, lim, m, s, telegraph, now)
      == Outcome(sess, table[m.fromId.value := checked], Output([RateLimited(WaitText(v.resetIn))], false, []))
  {
  }

  /** An admitted request: the record and the dispatch, as handleMessage does them. */
  lemma HandleAdmitted(sess: Session, table: map<int, BotRateLimiter.UserData>, lim: BotRateLimiter.Limits,
                       m: Incoming, s: Services, telegraph: bool, now: int,
                       checked: BotRateLimiter.UserData, v: BotRateLimiter.Verdict)
    requires Identified(m) && IsAuthorized(s.adminIds, m.fromId.value)
    requires (checked, v) == BotRateLimiter.Check(lim, BotRateLimiter.Lookup(table, m.fromId.value), now)
    requires v.Allowed?
    ensures var e := Dispatch(sess, m.fromId.value, m, s, telegraph);
      Handle(sess, table, lim, m, s, telegraph, now)
      == Outcome(e.session, table[m.fromId.value := BotRateLimiter.Record(checked, now)],
                 e.out.(replies := e.out.replies + if e.out.failed then [ProcessingFailed] else []))
  {
  }

  // ---------------------------------------------------------------------
  // Properties across several updates

  /** After a blank /generate the user's next plain message is taken as the topic. */
  lemma BlankTopicThenMessage(sess: Session, userId: int, blank: Option<string>, text: Option<string>, s: Services)
    requires BlankTopic(blank)
    ensures var e := GenerateStep(sess, userId, blank, s.generate);
      RegularStep(e.session, userId, text, s) == GenerateStep(e.session, userId, text, s.generate)
  {
  }

  /** Once a topic was tried, successful or not, the next plain message only gets the hint. */
  lemma AttemptClearsWaiting(sess: Session, userId: int, topic: Option<string>, text: Option<string>, s: Services)
    requires !BlankTopic(topic)
    ensures var e := GenerateStep(sess, userId, topic, s.generate);
      RegularStep(e.session, userId, text, s) == Say(e.session, [UseCommands])
  {
    var e := GenerateStep(sess, userId, topic, s.generate);
    assert !AwaitsTopic(e.session, userId);
  }

  /** Pressing row i's view button after /drafts listed drafts previews draft i. */
  lemma ViewAfterListing(sess: Session, userId: int, s: Services, telegraph: bool, i: nat)
    requires s.drafts.Ok? && i < |s.drafts.value|
    ensures var listed := DraftsStep(sess, userId, s.drafts).session;
      var data := Keyboard(s.drafts.value)[i][0].callbackData;
      var e := CallbackStep(listed, userId, data, s, telegraph);
      e.session == listed && |e.out.replies| == 2
      && e.out.replies[0].DraftPreview? && e.out.replies[0].title == s.drafts.value[i].title
      && e.out.replies[0].preview == Preview(s.drafts.value[i].content)
  {
    var listed := DraftsStep(sess, userId, s.drafts).session;
    KeyboardRoundTrip(s.drafts.value, i);
    assert DraftAt(listed.drafts, userId, Some(i)) == Some(s.drafts.value[i]);
  }

  /** Marking the same draft twice calls updateDraft at most once: the second time it is already marked. */
  lemma MarkTwice(sess: Session, userId: int, index: Option<int>, update: string -> bool, update2: string -> bool)
    requires DraftAt(sess.drafts, userId, index).Some?
    ensures var e1 := MarkStep(sess, userId, index, update);
      var e2 := MarkStep(e1.session, userId, index, update2);
      e1.session != sess ==>
        e2.session == e1.session && e2.out.updated == [] && e2.out.replies == [Answer(AlreadyMarked)]
  {
    var e1 := MarkStep(sess, userId, index, update);
    if e1.session != sess {
      var d := DraftAt(sess.drafts, userId, index).value;
      assert DraftAt(e1.session.drafts, userId, index) == Some(d.(publish := Js.Bool(true)));
    }
  }

  // ---------------------------------------------------------------------
  // The handler object

  class CommandHandler {
    const limiter: BotRateLimiter.RateLimiter
    /** Whether createTelegraphAccount succeeded when the handler started. */
    const telegraph: bool
    var userStates: map<int, UserState>
    var userDrafts: map<int, seq<Draft>>

    constructor (limiter: BotRateLimiter.RateLimiter, telegraph: bool)
      ensures this.limiter == limiter && this.telegraph == telegraph
      ensures userStates == map[] && userDrafts == map[]
    {
      this.limiter := limiter;
      this.telegraph := telegraph;
      userStates := map[];
      userDrafts := map[];
    }

    function Current(): Session
      reads this
    {
      Session(userStates, userDrafts)
    }

    method HandleGenerate(userId: int, topic: Option<string>, generate: string -> Result<Article, string>)
      returns (out: Output)
      modifies this
      ensures Effect(Current(), out) == GenerateStep(old(Current()), userId, topic, generate)
    {
      if topic.None? || Strs.IsBlank(topic.value) {
        userStates := userStates[userId := WaitingForTopic];
        return Output([AskTopic], false, []);
      }
      var replies := [Generating];
      var article := generate(topic.value);
      if article.Ok? {
        replies := replies + [Generated(article.value.title, article.value.filename)];
      } else {
        replies := replies + [GenerateError(article.error)];
      }
      userStates := userStates - {userId};
      out := Output(replies, false, []);
    }

    method HandleRegularMessage(userId: int, text: Option<string>, s: Services) returns (out: Output)
      modifies this
      ensures Effect(Current(), out) == RegularStep(old(Current()), userId, text, s)
    {
      if userId in userStates && userStates[userId] == WaitingForTopic {
        out := HandleGenerate(userId, text, s.generate);
      } else {
        out := Output([UseCommands], false, []);
      }
    }

    method HandleDrafts(userId: int, listing: Result<seq<Draft>, string>) returns (out: Output)
      modifies this
      ensures Effect(Current(), out) == DraftsStep(old(Current()), userId, listing)
    {
      if listing.Err? {
        return Output([], true, []);
      }
      var drafts := listing.value;
      userDrafts := userDrafts[userId := drafts];
      if |drafts| == 0 {
        return Output([NoDrafts], false, []);
      }
      out := Output([DraftList(Keyboard(drafts))], false, []);
    }

    method HandleMarkForPublication(userId: int, index: Option<int>, update: string -> bool)
      returns (out: Output)
      modifies this
      ensures Effect(Current(), out) == MarkStep(old(Current()), userId, index, update)
    {
      var draft := DraftAt(userDrafts, userId, index);
      if draft.None? {
        return Output([Answer(NotFoundAlert)], false, []);
      }
      var d := draft.value;
      if Js.Truthy(d.publish) {
        return Output([Answer(AlreadyMarked)], false, []);
      }
      if !update(d.filename) {
        return Output([Answer(MarkFailedAlert)], false, [d.filename]);
      }
      var cached := userDrafts[userId];
      cached := cached[index.value := cached[index.value].(publish := Js.Bool(true))];
      userDrafts := userDrafts[userId := cached];
      out := Output([EditKeyboard(Keyboard(cached)), Answer(MarkedFor(d.title))], false, [d.filename]);
    }

    method HandleCallbackQuery(userId: int, data: string, s: Services) returns (out: Output)
      modifies this
      ensures Effect(Current(), out) == CallbackStep(old(Current()), userId, data, s, telegraph)
    {
      var (action, index) := ParseCallback(data);
      if action == ViewAction {
        out := Output([ViewReply(Current(), userId, index, s, telegraph), Answer(Ack)], false, []);
      } else if action == MarkAction {
        out := HandleMarkForPublication(userId, index, s.updateDraft);
      } else {
        out := Output([], false, []);
      }
    }

    method HandleCommand(userId: int, text: string, s: Services) returns (out: Output)
      modifies this
      ensures Effect(Current(), out) == CommandStep(old(Current()), userId, text, s)
    {
      var command := ParseCommand(text).0;
      var args := ParseCommand(text).1;
      var name := DropFirst(command);
      if name == "start" {
        out := Output([Welcome], false, []);
      } else if name == "generate" {
        out := HandleGenerate(userId, Some(args), s.generate);
      } else if name == "drafts" {
        out := HandleDrafts(userId, s.drafts);
      } else if name == "publish" {
        out := Output([PublishStarted], false, []);
      } else if name == "help" {
        out := Output([Help], false, []);
      } else {
        out := Output([UnknownCommand(command)], false, []);
      }
    }

    /** The dispatch at the end of handleMessage: callback, command or plain message. */
    method Route(userId: int, m: Incoming, s: Services) returns (out: Output)
      modifies this
      ensures Effect(Current(), out) == Dispatch(old(Current()), userId, m, s, telegraph)
    {
      if IsCallback(m) {
        out := HandleCallbackQuery(userId, m.data.value, s);
      } else if m.text.Some? && Strs.StartsWith(m.text.value, "/") {
        out := HandleCommand(userId, m.text.value, s);
      } else {
        out := HandleRegularMessage(userId, m.text, s);
      }
    }

    /** handleMessage: the gate, then exactly one handler. */
    method HandleMessage(m: Incoming, s: Services, now: int) returns (out: Output)
      modifies this, limiter
      ensures Outcome(Current(), limiter.userRequests, out)
        == Handle(old(Current()), old(limiter.userRequests), limiter.limits, m, s, telegraph, now)
    {
      if !Identified(m) {
        return Output([], false, []);
      }
      var userId := m.fromId.value;
      if !IsAuthorized(s.adminIds, userId) {
        return Output([NoAccess], false, []);
      }
      ghost var sess := Current();
      ghost var table := limiter.userRequests;
      var verdict := limiter.CanMakeRequest(userId, now);
      ghost var checked := limiter.userRequests[userId];
      ghost var mid := limiter.userRequests;
      assert (checked, verdict) == BotRateLimiter.Check(limiter.limits, BotRateLimiter.Lookup(table, userId), now);
      if verdict.Rejected? {
        HandleRejected(sess, table, limiter.limits, m, s, telegraph, now, checked, verdict);
        return Output([RateLimited(WaitText(verdict.resetIn))], false, []);
      }
      assert BotRateLimiter.Lookup(mid, userId) == checked;
      limiter.RecordRequest(userId, now);
      assert limiter.userRequests == mid[userId := BotRateLimiter.Record(checked, now)];
      Seqs.Overwrite(table, userId, checked, BotRateLimiter.Record(checked, now));
      HandleAdmitted(sess, table, limiter.limits, m, s, telegraph, now, checked, verdict);
      ghost var e := Dispatch(sess, userId, m, s, telegraph);
      out := Route(userId, m, s);
      assert Effect(Current(), out) == e;
      if out.failed {
        out := out.(replies := out.replies + [ProcessingFailed]);
      }
    }
  }
}
