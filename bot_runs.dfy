/**
 * Runs of the bot: any interleaving of commands, incoming messages and post-job
 * invocations, applied one after another to the engine state. Over a whole run
 * the away notices keep their promise of at most one per sender per day, as
 * long as the dates the messages arrive on never go back to an earlier date.
 */
module BotRuns {
  import opened Wrappers
  import opened Posts
  import opened Bot
  import opened BotProperties

  /** One thing that can happen to the bot, with the inputs the outside world supplies. */
  datatype Event =
    | ToggleCmd(sender: UserId, feature: Feature)
    | AddPostCmd(sender: UserId, args: seq<string>, now: Timestamp)
    | AddReplyCmd(sender: UserId, args: seq<string>)
    | ListPostsCmd(sender: UserId)
    | StatusCmd(sender: UserId)
    | PostCmd(sender: UserId, now: Timestamp, sendOk: bool)
    | Incoming(sender: UserId, today: Day, awayPick: nat, awaySendOk: bool, draw: real, replyPick: nat)
    | ScheduledTick(now: Timestamp, sendOk: bool)

  /** `random.random()` draws from [0, 1). */
  predicate Admissible(e: Event) {
    e.Incoming? ==> 0.0 <= e.draw < 1.0
  }

  predicate AllAdmissible(events: seq<Event>) {
    forall k :: 0 <= k < |events| ==> Admissible(events[k])
  }

  /**
   * A timer tick as the comment in `auto_post_job` says it should behave: the job
   * runs only while auto posting is enabled.
   */
  function OnScheduledTick(s: BotState, owner: UserId, now: Timestamp, sendOk: bool): (r: Step)
    requires Inv(s)
    ensures Inv(r.state)
    ensures !s.autoPostEnabled ==> r == Step(s, [])
    ensures s.autoPostEnabled ==> r == OnPostJob(s, owner, now, sendOk)
  {
    if s.autoPostEnabled then OnPostJob(s, owner, now, sendOk) else Step(s, [])
  }

  /**
   * As written, the scheduler calls `auto_post_job` itself, which never reads the flag:
   * with auto posting disabled and one unsent post, a timer tick still sends and marks it.
   */
  lemma ScheduledJobPostsWhileDisabled(owner: UserId, now: Timestamp, created: Timestamp)
    ensures var s := Initial().(scheduledPosts := [ScheduledPost("hello", created, false, None)]);
      && !s.autoPostEnabled
      && OnPostJob(s, owner, now, true).sent == [ChannelPost(owner, "hello")]
      && OnPostJob(s, owner, now, true).state.scheduledPosts[0].posted
      && OnScheduledTick(s, owner, now, true) == Step(s, [])
  {
    var s := Initial().(scheduledPosts := [ScheduledPost("hello", created, false, None)]);
    assert FirstUnposted(s.scheduledPosts) == Some(0);
  }

  /** The effect of one event on the engine. */
  function Apply(s: BotState, owner: UserId, e: Event): (r: Step)
    requires Inv(s) && Admissible(e)
    ensures Inv(r.state)
  {
    match e
    case ToggleCmd(u, f) => OnToggle(s, owner, u, f)
    case AddPostCmd(u, args, now) => OnAddPost(s, owner, u, args, now)
    case AddReplyCmd(u, args) => OnAddReply(s, owner, u, args)
    case ListPostsCmd(u) => Step(s, OnListPosts(s, owner, u))
    case StatusCmd(u) => Step(s, OnStatus(s, owner, u))
    case PostCmd(u, now, ok) => OnPostCommand(s, owner, u, now, ok)
    case Incoming(u, today, pick, ok, draw, reply) => OnMessage(s, owner, u, today, pick, ok, draw, reply)
    case ScheduledTick(now, ok) => OnScheduledTick(s, owner, now, ok)
  }

  /**
   * `t` keeps the history of `s`: no post is removed, reordered or rewritten and no
   * sent post turns back; templates are only appended; no away record is removed.
   */
  predicate KeepsHistory(s: BotState, t: BotState) {
    && |s.scheduledPosts| <= |t.scheduledPosts|
    && (forall j :: 0 <= j < |s.scheduledPosts| ==>
          && t.scheduledPosts[j].content == s.scheduledPosts[j].content
          && t.scheduledPosts[j].createdAt == s.scheduledPosts[j].createdAt
          && (s.scheduledPosts[j].posted ==> t.scheduledPosts[j] == s.scheduledPosts[j]))
    && s.replyTemplates <= t.replyTemplates
    && s.awayMessageSent.Keys <= t.awayMessageSent.Keys
  }

  /** Every event keeps the history. */
  lemma ApplyKeepsHistory(s: BotState, owner: UserId, e: Event)
    requires Inv(s) && Admissible(e)
    ensures KeepsHistory(s, Apply(s, owner, e).state)
  {
    var t := Apply(s, owner, e).state;
    match e
    case ToggleCmd(u, f) =>
      assert t.scheduledPosts == s.scheduledPosts && t.replyTemplates == s.replyTemplates;
      assert t.awayMessageSent == s.awayMessageSent;
      assert KeepsHistory(s, t);
    case AddPostCmd(u, args, now) =>
      AddPostKeepsHistory(s, owner, u, args, now);
      assert KeepsHistory(s, t);
    case AddReplyCmd(u, args) =>
      AddReplyKeepsHistory(s, owner, u, args);
      assert KeepsHistory(s, t);
    case ListPostsCmd(u) =>
      assert t == s;
    case StatusCmd(u) =>
      assert t == s;
    case PostCmd(u, now, ok) =>
      PostJobKeepsHistory(s, owner, now, ok);
      assert KeepsHistory(s, OnPostJob(s, owner, now, ok).state);
      assert KeepsHistory(s, t);
    case Incoming(u, today, pick, ok, draw, reply) =>
      MessageKeepsHistory(s, owner, u, today, pick, ok, draw, reply);
      assert KeepsHistory(s, t);
    case ScheduledTick(now, ok) =>
      PostJobKeepsHistory(s, owner, now, ok);
      assert KeepsHistory(s, OnPostJob(s, owner, now, ok).state);
      assert KeepsHistory(s, t);
  }

  lemma AddReplyKeepsHistory(s: BotState, owner: UserId, sender: UserId, args: seq<string>)
    requires Inv(s)
    ensures KeepsHistory(s, OnAddReply(s, owner, sender, args).state)
  {
  }

  lemma AddPostKeepsHistory(s: BotState, owner: UserId, sender: UserId, args: seq<string>, now: Timestamp)
    requires Inv(s)
    ensures KeepsHistory(s, OnAddPost(s, owner, sender, args, now).state)
  {
    var t := OnAddPost(s, owner, sender, args, now).state;
    assert t.scheduledPosts[..|s.scheduledPosts|] == s.scheduledPosts;
  }

  lemma MessageKeepsHistory(s: BotState, owner: UserId, sender: UserId, today: Day,
                            awayPick: nat, awaySendOk: bool, draw: real, replyPick: nat)
    requires Inv(s) && 0.0 <= draw < 1.0
    ensures KeepsHistory(s, OnMessage(s, owner, sender, today, awayPick, awaySendOk, draw, replyPick).state)
  {
    AwayNoticeExactly(s, owner, sender, today, awayPick, awaySendOk, draw, replyPick);
  }

  /** An away record changes only when an incoming message got a notice, to that message's date. */
  lemma ApplyAwayRecords(s: BotState, owner: UserId, e: Event)
    requires Inv(s) && Admissible(e)
    ensures var r := Apply(s, owner, e);
      r.state.awayMessageSent
        == if e.Incoming? && HasAwayNotice(r.sent)
           then s.awayMessageSent[e.sender := e.today] else s.awayMessageSent
    ensures var r := Apply(s, owner, e);
      e.Incoming? && HasAwayNotice(r.sent) ==> AwayDue(s, e.sender, e.today)
  {
    if e.Incoming? {
      AwayNoticeExactly(s, owner, e.sender, e.today, e.awayPick, e.awaySendOk, e.draw, e.replyPick);
    }
  }

  /** The dates of the incoming messages of a run, in order. */
  function MessageDays(events: seq<Event>): (days: seq<Day>)
    ensures |days| <= |events|
  {
    if events == [] then []
    else (if events[0].Incoming? then [events[0].today] else []) + MessageDays(events[1..])
  }

  /** Once the date has moved on from a day it never comes back to it. */
  predicate DaysNeverReturn(days: seq<Day>) {
    forall i, j, k :: 0 <= i < j < k < |days| && days[i] == days[k] ==> days[j] == days[i]
  }

  /** The number of away notices a run sends in reply to `u`'s messages dated `d`. */
  function Notices(s: BotState, owner: UserId, events: seq<Event>, u: UserId, d: Day): nat
    requires Inv(s) && AllAdmissible(events)
    decreases |events|
  {
    if events == [] then 0
    else
      var r := Apply(s, owner, events[0]);
      (if events[0].Incoming? && events[0].sender == u && events[0].today == d && HasAwayNotice(r.sent)
       then 1 else 0)
      + Notices(r.state, owner, events[1..], u, d)
  }

  /** No message dated `d`, no notice for `d`. */
  lemma {:induction false} NoticesOffDay(s: BotState, owner: UserId, events: seq<Event>, u: UserId, d: Day)
    requires Inv(s) && AllAdmissible(events)
    requires d !in MessageDays(events)
    ensures Notices(s, owner, events, u, d) == 0
    decreases |events|
  {
    if events != [] {
      var r := Apply(s, owner, events[0]);
      assert MessageDays(events)
          == (if events[0].Incoming? then [events[0].today] else []) + MessageDays(events[1..]);
      AllAdmissibleTail(events);
      NoticesOffDay(r.state, owner, events[1..], u, d);
    }
  }

  /** A date that comes back after the first one must follow it directly. */
  lemma DaysNeverReturnHead(days: seq<Day>)
    requires DaysNeverReturn(days) && |days| >= 1
    ensures DaysNeverReturn(days[1..])
    ensures days[0] in days[1..] ==> days[1] == days[0]
  {
    if days[0] in days[1..] {
      var k :| 1 <= k < |days| && days[k] == days[0];
      if k > 1 {
        assert days[1] == days[0];
      }
    }
    forall i, j, k | 0 <= i < j < k < |days[1..]| && days[1..][i] == days[1..][k]
      ensures days[1..][j] == days[1..][i]
    {
      assert days[i + 1] == days[k + 1];
    }
  }

  /** Every recorded date that still occurs among the run's messages is the run's first date. */
  predicate RecordsFit(s: BotState, events: seq<Event>) {
    forall v :: v in s.awayMessageSent && s.awayMessageSent[v] in MessageDays(events) ==>
      s.awayMessageSent[v] == MessageDays(events)[0]
  }

  /** The rest of an admissible run is admissible. */
  lemma AllAdmissibleTail(events: seq<Event>)
    requires AllAdmissible(events) && events != []
    ensures AllAdmissible(events[1..])
  {
    forall k | 0 <= k < |events[1..]| ensures Admissible(events[1..][k]) {
      assert events[1..][k] == events[k + 1];
    }
  }

  /** After the first event the records still fit the rest of the run, whose dates still never go back. */
  lemma RecordsFitStep(s: BotState, owner: UserId, events: seq<Event>)
    requires Inv(s) && AllAdmissible(events) && events != []
    requires DaysNeverReturn(MessageDays(events))
    requires RecordsFit(s, events)
    ensures DaysNeverReturn(MessageDays(events[1..]))
    ensures RecordsFit(Apply(s, owner, events[0]).state, events[1..])
  {
    var e := events[0];
    var r := Apply(s, owner, e);
    var days, restDays := MessageDays(events), MessageDays(events[1..]);
    ApplyAwayRecords(s, owner, e);
    assert days == (if e.Incoming? then [e.today] else []) + restDays;
    if e.Incoming? {
      DaysNeverReturnHead(days);
      assert restDays == days[1..];
    } else {
      assert restDays == days;
    }
    forall v | v in r.state.awayMessageSent && r.state.awayMessageSent[v] in restDays
      ensures r.state.awayMessageSent[v] == restDays[0]
    {
      var x := r.state.awayMessageSent[v];
      if e.Incoming? {
        assert x in days[1..];
        assert days[0] == e.today;
      }
    }
  }

  /**
   * From a state whose records fit the run, a run whose dates never go back sends at most
   * one notice per sender and date, and none for a date the sender is already recorded with.
   */
  lemma {:induction false} NoticesBound(s: BotState, owner: UserId, events: seq<Event>, u: UserId, d: Day)
    requires Inv(s) && AllAdmissible(events)
    requires DaysNeverReturn(MessageDays(events))
    requires RecordsFit(s, events)
    ensures Notices(s, owner, events, u, d)
         <= if u in s.awayMessageSent && s.awayMessageSent[u] == d then 0 else 1
    decreases |events|
  {
    if events == [] {
      return;
    }
    var e := events[0];
    var r := Apply(s, owner, e);
    var rest := events[1..];
    AllAdmissibleTail(events);
    ApplyAwayRecords(s, owner, e);
    RecordsFitStep(s, owner, events);
    NoticesBound(r.state, owner, rest, u, d);
    var counted := e.Incoming? && e.sender == u && e.today == d && HasAwayNotice(r.sent);
    if !counted && u in s.awayMessageSent && s.awayMessageSent[u] == d
       && !(u in r.state.awayMessageSent && r.state.awayMessageSent[u] == d)
    {
      assert e.Incoming? && e.sender == u && e.today != d;
      assert MessageDays(events) == [e.today] + MessageDays(rest);
      assert d !in MessageDays(rest);
      NoticesOffDay(r.state, owner, rest, u, d);
    }
  }

  /**
   * Starting from a fresh bot, however commands, ticks and messages interleave, a
   * sender gets at most one away notice per date, provided the message dates never
   * go back to an earlier date.
   */
  lemma AwayNoticeOncePerSenderPerDay(owner: UserId, events: seq<Event>, u: UserId, d: Day)
    requires AllAdmissible(events)
    requires DaysNeverReturn(MessageDays(events))
    ensures Notices(Initial(), owner, events, u, d) <= 1
  {
    NoticesBound(Initial(), owner, events, u, d);
  }

  /** The state after a whole run. */
  function Run(s: BotState, owner: UserId, events: seq<Event>): (t: BotState)
    requires Inv(s) && AllAdmissible(events)
    ensures Inv(t)
    decreases |events|
  {
    if events == [] then s
    else
      AllAdmissibleTail(events);
      Run(Apply(s, owner, events[0]).state, owner, events[1..])
  }

  /** An event that neither posts on demand nor touches the auto-post switch. */
  predicate LeavesAutoPostAlone(e: Event) {
    !e.PostCmd? && !(e.ToggleCmd? && e.feature == AutoPost)
  }

  /** Every post sent in `t` already was sent, at the same position, in `s`. */
  predicate NoNewlySent(s: BotState, t: BotState) {
    forall j :: 0 <= j < |t.scheduledPosts| && t.scheduledPosts[j].posted ==>
      j < |s.scheduledPosts| && t.scheduledPosts[j] == s.scheduledPosts[j]
  }

  /** With auto posting off, an event that leaves the switch alone sends no post. */
  lemma QuietEventSendsNoPost(s: BotState, owner: UserId, e: Event)
    requires Inv(s) && Admissible(e) && !s.autoPostEnabled && LeavesAutoPostAlone(e)
    ensures !Apply(s, owner, e).state.autoPostEnabled
    ensures NoNewlySent(s, Apply(s, owner, e).state)
  {
    var t := Apply(s, owner, e).state;
    match e
    case ToggleCmd(u, f) =>
      assert t.scheduledPosts == s.scheduledPosts;
    case AddPostCmd(u, args, now) =>
      AddPostKeepsHistory(s, owner, u, args, now);
    case AddReplyCmd(u, args) =>
    case ListPostsCmd(u) =>
    case StatusCmd(u) =>
    case Incoming(u, today, pick, ok, draw, reply) =>
      AwayNoticeExactly(s, owner, u, today, pick, ok, draw, reply);
    case ScheduledTick(now, ok) =>
  }

  /**
   * With the corrected scheduler, a run that starts with auto posting off and has no
   * `/post` and no auto-post toggle never sends a post: every post sent at the end was
   * already sent, unchanged, at the start.
   */
  lemma {:induction false} DisabledRunSendsNoPost(s: BotState, owner: UserId, events: seq<Event>)
    requires Inv(s) && AllAdmissible(events) && !s.autoPostEnabled
    requires forall k :: 0 <= k < |events| ==> LeavesAutoPostAlone(events[k])
    ensures !Run(s, owner, events).autoPostEnabled
    ensures NoNewlySent(s, Run(s, owner, events))
    decreases |events|
  {
    if events != [] {
      var t := Apply(s, owner, events[0]).state;
      AllAdmissibleTail(events);
      QuietEventSendsNoPost(s, owner, events[0]);
      assert forall k :: 0 <= k < |events[1..]| ==> LeavesAutoPostAlone(events[1..][k]) by {
        forall k | 0 <= k < |events[1..]| ensures LeavesAutoPostAlone(events[1..][k]) {
          assert events[1..][k] == events[k + 1];
        }
      }
      DisabledRunSendsNoPost(t, owner, events[1..]);
      assert Run(s, owner, events) == Run(t, owner, events[1..]);
    }
  }
}
