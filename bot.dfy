/**
 * `TelegramAutoBot`: the automation engine behind the bot's commands and its
 * message handler. The engine's state is a `BotState` value; each command and
 * event is specified by a step function from the old state (and the inputs the
 * outside world supplies: the sender, the date, the random draws, whether a
 * send succeeded) to the new state and the messages the bot sends. The class
 * `AutoBot` keeps the same state in mutable fields and its methods are proved
 * to take exactly those steps.
 */
module Bot {
  import opened Wrappers
  import opened Strings
  import opened Posts

  /** A Telegram user id. */
  type UserId = int
  /** A calendar date as the ISO string `datetime.now().date().isoformat()` yields. */
  type Day = string

  /** The reply templates the bot starts with. */
  const DefaultReplyTemplates: seq<string> := [
    "That's interesting! 🤔",
    "Great point! 👍",
    "I agree with this 💯",
    "Thanks for sharing! 🙏",
    "This is really helpful 💡",
    "Couldn't agree more! ✨",
    "Love this perspective 🔥",
    "So true! 💯"
  ]

  /** The fixed away messages. */
  const AwayMessages: seq<string> := [
    "Hey! I'm currently away but will get back to you soon! 🚀",
    "Thanks for your message! I'll respond when I'm back online 💫",
    "Away from keyboard right now, but I'll catch up with you later! ⚡"
  ]

  const DefaultPostIntervalHours: int := 2
  const DefaultReplyProbability: real := 0.3
  /** `/add_post` echoes this many characters of the new post. */
  const AddedPreviewLength: nat := 50

  /** The three independently switchable features. */
  datatype Feature = AutoPost | ReplyGuy | AwayMode

  /** The figures `/status` reports. */
  datatype StatusReport = StatusReport(
    pendingPosts: nat,
    awayNotified: nat,
    replyTemplates: nat,
    autoPostEnabled: bool,
    postIntervalHours: int,
    replyGuyEnabled: bool)

  /** A message the bot sends; texts that are only templates are represented by their constructor. */
  datatype Message =
    | Unauthorized
    | Toggled(feature: Feature, enabled: bool)
    | MissingPostContent
    | PostAdded(preview: string)
    | MissingReplyTemplate
    | ReplyTemplateAdded(template: string)
    | NoScheduledPosts
    | PostList(lines: seq<PostLine>, more: nat)
    | Status(report: StatusReport)
    | AwayNotice(text: string)
    | AutoReply(text: string)
    | NothingToPost
    | PostedNext
    | ChannelPost(chat: UserId, content: string)

  /** Everything the engine remembers: its `config` entries, posts, templates and away records. */
  datatype BotState = BotState(
    autoPostEnabled: bool,
    replyGuyEnabled: bool,
    awayMessageEnabled: bool,
    postIntervalHours: int,
    replyProbability: real,
    scheduledPosts: seq<ScheduledPost>,
    replyTemplates: seq<string>,
    awayMessageSent: map<UserId, Day>)

  /** The state after a command or event, and what the bot sent while handling it. */
  datatype Step = Step(state: BotState, sent: seq<Message>)

  /**
   * What every reachable state satisfies: the default templates are still the first
   * ones (templates are only ever appended), and each post records a sending time
   * exactly when it was sent.
   */
  predicate Inv(s: BotState) {
    && |DefaultReplyTemplates| <= |s.replyTemplates|
    && s.replyTemplates[..|DefaultReplyTemplates|] == DefaultReplyTemplates
    && forall k :: 0 <= k < |s.scheduledPosts| ==> WellFormed(s.scheduledPosts[k])
  }

  /** The state `__init__` sets up: all features off, no posts, the default templates, no away records. */
  function Initial(): (s: BotState)
    ensures Inv(s)
    ensures !s.autoPostEnabled && !s.replyGuyEnabled && !s.awayMessageEnabled
    ensures s.scheduledPosts == [] && s.awayMessageSent == map[] && |s.replyTemplates| == 8
  {
    BotState(false, false, false, DefaultPostIntervalHours, DefaultReplyProbability,
             [], DefaultReplyTemplates, map[])
  }

  function Enabled(s: BotState, f: Feature): bool {
    match f
    case AutoPost => s.autoPostEnabled
    case ReplyGuy => s.replyGuyEnabled
    case AwayMode => s.awayMessageEnabled
  }

  function Flip(s: BotState, f: Feature): BotState {
    match f
    case AutoPost => s.(autoPostEnabled := !s.autoPostEnabled)
    case ReplyGuy => s.(replyGuyEnabled := !s.replyGuyEnabled)
    case AwayMode => s.(awayMessageEnabled := !s.awayMessageEnabled)
  }

  /** `/toggle_autopost`, `/toggle_replyguy`, `/toggle_away`: silent for anyone but the owner. */
  function OnToggle(s: BotState, owner: UserId, sender: UserId, f: Feature): (r: Step)
    requires Inv(s)
    ensures Inv(r.state)
  {
    if sender != owner then Step(s, [])
    else
      var t := Flip(s, f);
      Step(t, [Toggled(f, Enabled(t, f))])
  }

  /** `/add_post <words>`: appends an unsent post holding the words joined by single spaces. */
  function OnAddPost(s: BotState, owner: UserId, sender: UserId, args: seq<string>, now: Timestamp): (r: Step)
    requires Inv(s)
    ensures Inv(r.state)
  {
    if sender != owner then Step(s, [])
    else if args == [] then Step(s, [MissingPostContent])
    else
      var content := Join(args, ' ');
      Step(s.(scheduledPosts := s.scheduledPosts + [ScheduledPost(content, now, false, None)]),
           [PostAdded(Take(content, AddedPreviewLength))])
  }

  /** `/add_reply <words>`: appends the words joined by single spaces as a reply template. */
  function OnAddReply(s: BotState, owner: UserId, sender: UserId, args: seq<string>): (r: Step)
    requires Inv(s)
    ensures Inv(r.state)
  {
    if sender != owner then Step(s, [])
    else if args == [] then Step(s, [MissingReplyTemplate])
    else
      var template := Join(args, ' ');
      assert (s.replyTemplates + [template])[..|DefaultReplyTemplates|]
          == s.replyTemplates[..|DefaultReplyTemplates|];
      Step(s.(replyTemplates := s.replyTemplates + [template]), [ReplyTemplateAdded(template)])
  }

  /** `/list_posts`: what it shows; it changes nothing. */
  function OnListPosts(s: BotState, owner: UserId, sender: UserId): seq<Message> {
    if sender != owner then []
    else if s.scheduledPosts == [] then [NoScheduledPosts]
    else [PostList(Listing(s.scheduledPosts), Overflow(s.scheduledPosts))]
  }

  /** The figures of `/status`. */
  function Report(s: BotState): StatusReport {
    StatusReport(PendingCount(s.scheduledPosts), |s.awayMessageSent|, |s.replyTemplates|,
                 s.autoPostEnabled, s.postIntervalHours, s.replyGuyEnabled)
  }

  /** `/status`: what it shows; it changes nothing. */
  function OnStatus(s: BotState, owner: UserId, sender: UserId): seq<Message> {
    if sender != owner then [] else [Status(Report(s))]
  }

  /** Away mode is on and `sender` has had no away notice dated `today`. */
  predicate AwayDue(s: BotState, sender: UserId, today: Day) {
    s.awayMessageEnabled && (sender !in s.awayMessageSent || s.awayMessageSent[sender] != today)
  }

  /** The reply gate: reply-guy mode is on and the draw falls below the reply probability. */
  predicate ReplyFires(s: BotState, draw: real) {
    s.replyGuyEnabled && draw < s.replyProbability
  }

  /**
   * `handle_message` for a text message from `sender` on `today`. `draw` is the
   * value of `random.random()`; `awayPick` and `replyPick` stand for the choices of
   * `random.choice` (taken modulo the list length); `awaySendOk` says whether
   * sending the away notice succeeded: when it fails the handler stops there.
   */
  function OnMessage(s: BotState, owner: UserId, sender: UserId, today: Day,
                     awayPick: nat, awaySendOk: bool, draw: real, replyPick: nat): (r: Step)
    requires Inv(s)
    requires 0.0 <= draw < 1.0
    ensures Inv(r.state)
  {
    if sender == owner then Step(s, [])
    else if AwayDue(s, sender, today) && !awaySendOk then Step(s, [])
    else
      var away := if AwayDue(s, sender, today)
                  then [AwayNotice(AwayMessages[awayPick % |AwayMessages|])] else [];
      var next := if AwayDue(s, sender, today)
                  then s.(awayMessageSent := s.awayMessageSent[sender := today]) else s;
      var reply := if ReplyFires(s, draw)
                   then [AutoReply(s.replyTemplates[replyPick % |s.replyTemplates|])] else [];
      Step(next, away + reply)
  }

  /**
   * `auto_post_job` at time `now`: sends the oldest unsent post to the owner's chat
   * and, when the send succeeds, marks it sent. It does not look at `autoPostEnabled`.
   */
  function OnPostJob(s: BotState, owner: UserId, now: Timestamp, sendOk: bool): (r: Step)
    requires Inv(s)
    ensures Inv(r.state)
  {
    if s.scheduledPosts == [] then Step(s, [])
    else match FirstUnposted(s.scheduledPosts)
      case None => Step(s, [])
      case Some(i) =>
        if !sendOk then Step(s, [])
        else
          Step(s.(scheduledPosts := MarkPosted(s.scheduledPosts, i, now)),
               [ChannelPost(owner, s.scheduledPosts[i].content)])
  }

  /**
   * `/post`: runs the post job when something is unsent. The job swallows a failed
   * send, so the owner is told the post went out either way.
   */
  function OnPostCommand(s: BotState, owner: UserId, sender: UserId, now: Timestamp, sendOk: bool): (r: Step)
    requires Inv(s)
    ensures Inv(r.state)
  {
    if sender != owner then Step(s, [Unauthorized])
    else if FirstUnposted(s.scheduledPosts).None? then Step(s, [NothingToPost])
    else
      var job := OnPostJob(s, owner, now, sendOk);
      Step(job.state, job.sent + [PostedNext])
  }

  /** The bot object, its `config` dictionary flattened into fields. */
  class AutoBot {
    const ownerId: UserId
    const awayMessages: seq<string>
    var autoPostEnabled: bool
    var replyGuyEnabled: bool
    var awayMessageEnabled: bool
    var postIntervalHours: int
    var replyProbability: real
    var scheduledPosts: seq<ScheduledPost>
    var replyTemplates: seq<string>
    var awayMessageSent: map<UserId, Day>

    /** The engine state the fields hold. */
    function State(): BotState
      reads this
    {
      BotState(autoPostEnabled, replyGuyEnabled, awayMessageEnabled, postIntervalHours,
               replyProbability, scheduledPosts, replyTemplates, awayMessageSent)
    }

    ghost predicate Valid()
      reads this
    {
      Inv(State()) && awayMessages == AwayMessages
    }

    constructor (ownerId: UserId)
      ensures Valid()
      ensures this.ownerId == ownerId && State() == Initial()
    {
      this.ownerId := ownerId;
      awayMessages := AwayMessages;
      autoPostEnabled, replyGuyEnabled, awayMessageEnabled := false, false, false;
      postIntervalHours := DefaultPostIntervalHours;
      replyProbability := DefaultReplyProbability;
      scheduledPosts := [];
      replyTemplates := DefaultReplyTemplates;
      awayMessageSent := map[];
    }

    method ToggleAutoPost(sender: UserId) returns (sent: seq<Message>)
      requires Valid()
      modifies this
      ensures Valid()
      ensures Step(State(), sent) == OnToggle(old(State()), ownerId, sender, AutoPost)
    {
      if sender != ownerId {
        return [];
      }
      autoPostEnabled := !autoPostEnabled;
      sent := [Toggled(AutoPost, autoPostEnabled)];
    }

    method ToggleReplyGuy(sender: UserId) returns (sent: seq<Message>)
      requires Valid()
      modifies this
      ensures Valid()
      ensures Step(State(), sent) == OnToggle(old(State()), ownerId, sender, ReplyGuy)
    {
      if sender != ownerId {
        return [];
      }
      replyGuyEnabled := !replyGuyEnabled;
      sent := [Toggled(ReplyGuy, replyGuyEnabled)];
    }

    method ToggleAway(sender: UserId) returns (sent: seq<Message>)
      requires Valid()
      modifies this
      ensures Valid()
      ensures Step(State(), sent) == OnToggle(old(State()), ownerId, sender, AwayMode)
    {
      if sender != ownerId {
        return [];
      }
      awayMessageEnabled := !awayMessageEnabled;
      sent := [Toggled(AwayMode, awayMessageEnabled)];
    }

    method AddScheduledPost(sender: UserId, args: seq<string>, now: Timestamp) returns (sent: seq<Message>)
      requires Valid()
      modifies this
      ensures Valid()
      ensures Step(State(), sent) == OnAddPost(old(State()), ownerId, sender, args, now)
    {
      if sender != ownerId {
        return [];
      }
      if args == [] {
        return [MissingPostContent];
      }
      var content := Join(args, ' ');
      scheduledPosts := scheduledPosts + [ScheduledPost(content, now, false, None)];
      sent := [PostAdded(Take(content, AddedPreviewLength))];
    }

    method AddReplyTemplate(sender: UserId, args: seq<string>) returns (sent: seq<Message>)
      requires Valid()
      modifies this
      ensures Valid()
      ensures Step(State(), sent) == OnAddReply(old(State()), ownerId, sender, args)
    {
      if sender != ownerId {
        return [];
      }
      if args == [] {
        return [MissingReplyTemplate];
      }
      var template := Join(args, ' ');
      replyTemplates := replyTemplates + [template];
      sent := [ReplyTemplateAdded(template)];
    }

    method ListPosts(sender: UserId) returns (sent: seq<Message>)
      ensures sent == OnListPosts(State(), ownerId, sender)
    {
      if sender != ownerId {
        return [];
      }
      if scheduledPosts == [] {
        return [NoScheduledPosts];
      }
      var lines := ListLines(scheduledPosts);
      sent := [PostList(lines, Overflow(scheduledPosts))];
    }

    method StatusCommand(sender: UserId) returns (sent: seq<Message>)
      ensures sent == OnStatus(State(), ownerId, sender)
    {
      if sender != ownerId {
        return [];
      }
      var pending := PendingCount(scheduledPosts);
      sent := [Status(StatusReport(pending, |awayMessageSent|, |replyTemplates|,
                                   autoPostEnabled, postIntervalHours, replyGuyEnabled))];
    }

    method HandleMessage(sender: UserId, today: Day, awayPick: nat, awaySendOk: bool,
                         draw: real, replyPick: nat) returns (sent: seq<Message>)
      requires Valid()
      requires 0.0 <= draw < 1.0
      modifies this
      ensures Valid()
      ensures Step(State(), sent)
           == OnMessage(old(State()), ownerId, sender, today, awayPick, awaySendOk, draw, replyPick)
    {
      sent := [];
      if sender == ownerId {
        return;
      }
      if awayMessageEnabled {
        if sender !in awayMessageSent || awayMessageSent[sender] != today {
          var notice := awayMessages[awayPick % |awayMessages|];
          if !awaySendOk {
            return;
          }
          sent := sent + [AwayNotice(notice)];
          awayMessageSent := awayMessageSent[sender := today];
        }
      }
      if replyGuyEnabled && draw < replyProbability {
        var reply := replyTemplates[replyPick % |replyTemplates|];
        sent := sent + [AutoReply(reply)];
      }
    }

    method AutoPostJob(now: Timestamp, sendOk: bool) returns (sent: seq<Message>)
      requires Valid()
      modifies this
      ensures Valid()
      ensures Step(State(), sent) == OnPostJob(old(State()), ownerId, now, sendOk)
    {
      if scheduledPosts == [] {
        return [];
      }
      var next := FirstUnposted(scheduledPosts);
      if next.None? {
        return [];
      }
      var i := next.value;
      if !sendOk {
        return [];
      }
      sent := [ChannelPost(ownerId, scheduledPosts[i].content)];
      scheduledPosts := scheduledPosts[i := scheduledPosts[i].(posted := true, postedAt := Some(now))];
    }

    method PostCommand(sender: UserId, now: Timestamp, sendOk: bool) returns (sent: seq<Message>)
      requires Valid()
      modifies this
      ensures Valid()
      ensures Step(State(), sent) == OnPostCommand(old(State()), ownerId, sender, now, sendOk)
    {
      if sender != ownerId {
        return [Unauthorized];
      }
      if FirstUnposted(scheduledPosts).None? {
        return [NothingToPost];
      }
      var posted := AutoPostJob(now, sendOk);
      sent := posted + [PostedNext];
    }
  }
}
