/**
 * What the bot's commands and events guarantee, stated over the step functions
 * of module `Bot` and so over every `AutoBot` method proved to take those steps.
 */
module BotProperties {
  import opened Wrappers
  import opened Strings
  import opened Posts
  import opened Bot

  predicate HasAwayNotice(sent: seq<Message>) {
    exists k :: 0 <= k < |sent| && sent[k].AwayNotice?
  }

  predicate HasAutoReply(sent: seq<Message>) {
    exists k :: 0 <= k < |sent| && sent[k].AutoReply?
  }

  /** The engine fields other than the three feature flags. */
  predicate SameExceptFlags(s: BotState, t: BotState) {
    && t.postIntervalHours == s.postIntervalHours
    && t.replyProbability == s.replyProbability
    && t.scheduledPosts == s.scheduledPosts
    && t.replyTemplates == s.replyTemplates
    && t.awayMessageSent == s.awayMessageSent
  }

  // ---------------------------------------------------------------- toggles

  /** A toggle by the owner flips its own flag, reports the new value and changes nothing else. */
  lemma ToggleFlipsOnlyItsFeature(s: BotState, owner: UserId, f: Feature)
    requires Inv(s)
    ensures forall g :: Enabled(OnToggle(s, owner, owner, f).state, g)
                     == if g == f then !Enabled(s, g) else Enabled(s, g)
    ensures SameExceptFlags(s, OnToggle(s, owner, owner, f).state)
    ensures OnToggle(s, owner, owner, f).sent == [Toggled(f, !Enabled(s, f))]
  {
  }

  /** Toggling the same feature twice restores the state. */
  lemma ToggleTwiceRestores(s: BotState, owner: UserId, f: Feature)
    requires Inv(s)
    ensures OnToggle(OnToggle(s, owner, owner, f).state, owner, owner, f).state == s
  {
  }

  // ---------------------------------------------------------------- authorization

  /** Every privileged command from someone other than the owner leaves the state as it was. */
  lemma NonOwnerCommandsChangeNothing(s: BotState, owner: UserId, sender: UserId, f: Feature,
                                      args: seq<string>, now: Timestamp, sendOk: bool)
    requires Inv(s) && sender != owner
    ensures OnToggle(s, owner, sender, f) == Step(s, [])
    ensures OnAddPost(s, owner, sender, args, now) == Step(s, [])
    ensures OnAddReply(s, owner, sender, args) == Step(s, [])
    ensures OnListPosts(s, owner, sender) == []
    ensures OnStatus(s, owner, sender) == []
    ensures OnPostCommand(s, owner, sender, now, sendOk) == Step(s, [Unauthorized])
  {
  }

  // ---------------------------------------------------------------- adding posts and templates

  /**
   * `/add_post` without words changes nothing; with words it appends exactly one
   * unsent post at the end holding the words joined by single spaces, created `now`,
   * and leaves the earlier posts and everything else alone.
   */
  lemma AddPostAppendsOne(s: BotState, owner: UserId, args: seq<string>, now: Timestamp)
    requires Inv(s)
    ensures args == [] ==> OnAddPost(s, owner, owner, args, now) == Step(s, [MissingPostContent])
    ensures args != [] ==>
      var t := OnAddPost(s, owner, owner, args, now).state;
      && |t.scheduledPosts| == |s.scheduledPosts| + 1
      && t.scheduledPosts[..|s.scheduledPosts|] == s.scheduledPosts
      && t.scheduledPosts[|s.scheduledPosts|] == ScheduledPost(Join(args, ' '), now, false, None)
      && t == s.(scheduledPosts := t.scheduledPosts)
      && PendingCount(t.scheduledPosts) == PendingCount(s.scheduledPosts) + 1
  {
    if args != [] {
      var t := OnAddPost(s, owner, owner, args, now).state;
      PendingAppend(s.scheduledPosts, ScheduledPost(Join(args, ' '), now, false, None));
      assert t.scheduledPosts[..|s.scheduledPosts|] == s.scheduledPosts;
    }
  }

  /** The stored post splits back on spaces into the command's words (which never contain a space). */
  lemma AddedPostKeepsWords(s: BotState, owner: UserId, args: seq<string>, now: Timestamp)
    requires Inv(s) && args != []
    requires forall k :: 0 <= k < |args| ==> ' ' !in args[k]
    ensures var t := OnAddPost(s, owner, owner, args, now).state;
      Split(t.scheduledPosts[|t.scheduledPosts| - 1].content, ' ') == args
  {
    SplitJoin(args, ' ');
  }

  /**
   * `/add_reply` without words changes nothing; with words it appends exactly one
   * template at the end and leaves the rest alone.
   */
  lemma AddReplyAppendsOne(s: BotState, owner: UserId, args: seq<string>)
    requires Inv(s)
    ensures args == [] ==> OnAddReply(s, owner, owner, args) == Step(s, [MissingReplyTemplate])
    ensures args != [] ==>
      var t := OnAddReply(s, owner, owner, args).state;
      && t.replyTemplates == s.replyTemplates + [Join(args, ' ')]
      && t == s.(replyTemplates := t.replyTemplates)
  {
  }

  // ---------------------------------------------------------------- the post job

  /**
   * A successful post job sends the oldest unsent post to the owner's chat, marks
   * exactly that post sent at `now` and changes no other post and no other field.
   */
  lemma PostJobSendsOldestUnsent(s: BotState, owner: UserId, now: Timestamp)
    requires Inv(s) && FirstUnposted(s.scheduledPosts).Some?
    ensures var i := FirstUnposted(s.scheduledPosts).value;
      var r := OnPostJob(s, owner, now, true);
      var before, after := s.scheduledPosts, r.state.scheduledPosts;
      && (forall j :: 0 <= j < i ==> before[j].posted)
      && !before[i].posted
      && |after| == |before|
      && after[i] == before[i].(posted := true, postedAt := Some(now))
      && (forall j :: 0 <= j < |after| && j != i ==> after[j] == before[j])
      && r.state == s.(scheduledPosts := after)
      && r.sent == [ChannelPost(owner, before[i].content)]
  {
  }

  /** The post job behaves the same whether or not auto posting is enabled. */
  lemma PostJobIgnoresAutoPostFlag(s: BotState, owner: UserId, now: Timestamp, sendOk: bool, on: bool)
    requires Inv(s)
    ensures var r := OnPostJob(s, owner, now, sendOk);
      OnPostJob(s.(autoPostEnabled := on), owner, now, sendOk)
        == Step(r.state.(autoPostEnabled := on), r.sent)
  {
  }

  /** With nothing unsent (an empty list included), or when the send fails, the job changes and sends nothing. */
  lemma PostJobNoOp(s: BotState, owner: UserId, now: Timestamp, sendOk: bool)
    requires Inv(s)
    requires FirstUnposted(s.scheduledPosts).None? || !sendOk
    ensures OnPostJob(s, owner, now, sendOk) == Step(s, [])
  {
  }

  /** The job removes no post, rewrites no content and never turns a sent post back. */
  lemma PostJobKeepsHistory(s: BotState, owner: UserId, now: Timestamp, sendOk: bool)
    requires Inv(s)
    ensures var after := OnPostJob(s, owner, now, sendOk).state.scheduledPosts;
      && |after| == |s.scheduledPosts|
      && forall j :: 0 <= j < |after| ==>
           && after[j].content == s.scheduledPosts[j].content
           && after[j].createdAt == s.scheduledPosts[j].createdAt
           && (s.scheduledPosts[j].posted ==> after[j] == s.scheduledPosts[j])
  {
  }

  /** After a successful job the next job picks a later post, or none: no post is sent twice. */
  lemma PostJobNeverResends(s: BotState, owner: UserId, now: Timestamp)
    requires Inv(s) && FirstUnposted(s.scheduledPosts).Some?
    ensures var i := FirstUnposted(s.scheduledPosts).value;
      var next := FirstUnposted(OnPostJob(s, owner, now, true).state.scheduledPosts);
      next.None? || next.value > i
  {
  }

  /** A successful job lowers the `/status` pending count by one. */
  lemma PostJobLowersPending(s: BotState, owner: UserId, now: Timestamp)
    requires Inv(s) && FirstUnposted(s.scheduledPosts).Some?
    ensures Report(OnPostJob(s, owner, now, true).state).pendingPosts
         == Report(s).pendingPosts - 1
  {
    MarkPostedPending(s.scheduledPosts, FirstUnposted(s.scheduledPosts).value, now);
  }

  /**
   * `/post` by the owner with something unsent runs the job even when auto posting
   * is off, and tells the owner the post went out even when the send failed.
   */
  lemma PostCommandRunsJob(s: BotState, owner: UserId, now: Timestamp, sendOk: bool)
    requires Inv(s) && FirstUnposted(s.scheduledPosts).Some?
    ensures var i := FirstUnposted(s.scheduledPosts).value;
      var r := OnPostCommand(s, owner, owner, now, sendOk);
      && (sendOk ==> r.state.scheduledPosts[i].posted
                     && r.sent == [ChannelPost(owner, s.scheduledPosts[i].content), PostedNext])
      && (!sendOk ==> r == Step(s, [PostedNext]))
  {
  }

  /** `/post` with nothing unsent only says so. */
  lemma PostCommandNothingToPost(s: BotState, owner: UserId, now: Timestamp, sendOk: bool)
    requires Inv(s) && FirstUnposted(s.scheduledPosts).None?
    ensures OnPostCommand(s, owner, owner, now, sendOk) == Step(s, [NothingToPost])
  {
  }

  // ---------------------------------------------------------------- incoming messages

  /** The owner's own messages trigger nothing. */
  lemma OwnerMessagesIgnored(s: BotState, owner: UserId, today: Day, awayPick: nat, awaySendOk: bool,
                             draw: real, replyPick: nat)
    requires Inv(s) && 0.0 <= draw < 1.0
    ensures OnMessage(s, owner, owner, today, awayPick, awaySendOk, draw, replyPick) == Step(s, [])
  {
  }

  /**
   * An away notice goes out exactly when the sender is not the owner, away mode is on,
   * the sender has no notice dated today, and the send succeeds; the notice is one of
   * the away messages, and afterwards the sender's record is today's date while all
   * other records stay as they were.
   */
  lemma AwayNoticeExactly(s: BotState, owner: UserId, sender: UserId, today: Day,
                          awayPick: nat, awaySendOk: bool, draw: real, replyPick: nat)
    requires Inv(s) && 0.0 <= draw < 1.0
    ensures var r := OnMessage(s, owner, sender, today, awayPick, awaySendOk, draw, replyPick);
      && (HasAwayNotice(r.sent) <==> sender != owner && AwayDue(s, sender, today) && awaySendOk)
      && (forall k :: 0 <= k < |r.sent| && r.sent[k].AwayNotice? ==> r.sent[k].text in AwayMessages)
      && (HasAwayNotice(r.sent) ==>
            r.state.awayMessageSent == s.awayMessageSent[sender := today]
            && r.state == s.(awayMessageSent := r.state.awayMessageSent))
      && (!HasAwayNotice(r.sent) ==> r.state == s)
  {
    var r := OnMessage(s, owner, sender, today, awayPick, awaySendOk, draw, replyPick);
    if sender != owner && AwayDue(s, sender, today) && awaySendOk {
      assert r.sent[0].AwayNotice?;
    }
  }

  /** After a delivered notice a second message from the same sender the same day gets none. */
  lemma AwayAtMostOncePerDay(s: BotState, owner: UserId, sender: UserId, today: Day,
                             pick1: nat, draw1: real, reply1: nat,
                             pick2: nat, ok2: bool, draw2: real, reply2: nat)
    requires Inv(s) && 0.0 <= draw1 < 1.0 && 0.0 <= draw2 < 1.0
    ensures var s1 := OnMessage(s, owner, sender, today, pick1, true, draw1, reply1).state;
      !HasAwayNotice(OnMessage(s1, owner, sender, today, pick2, ok2, draw2, reply2).sent)
  {
    var s1 := OnMessage(s, owner, sender, today, pick1, true, draw1, reply1).state;
    AwayNoticeExactly(s1, owner, sender, today, pick2, ok2, draw2, reply2);
  }

  /** On a later day the same sender is notified again. */
  lemma AwayAgainAnotherDay(s: BotState, owner: UserId, sender: UserId, day1: Day, day2: Day,
                            pick1: nat, draw1: real, reply1: nat, pick2: nat, draw2: real, reply2: nat)
    requires Inv(s) && 0.0 <= draw1 < 1.0 && 0.0 <= draw2 < 1.0
    requires sender != owner && s.awayMessageEnabled && day1 != day2
    ensures var s1 := OnMessage(s, owner, sender, day1, pick1, true, draw1, reply1).state;
      HasAwayNotice(OnMessage(s1, owner, sender, day2, pick2, true, draw2, reply2).sent)
  {
    var s1 := OnMessage(s, owner, sender, day1, pick1, true, draw1, reply1).state;
    AwayNoticeExactly(s, owner, sender, day1, pick1, true, draw1, reply1);
    AwayNoticeExactly(s1, owner, sender, day2, pick2, true, draw2, reply2);
  }

  /**
   * A reply goes out exactly when the sender is not the owner, reply-guy mode is on,
   * the draw is below the reply probability and the handler was not stopped by a
   * failed away notice; the reply is one of the templates, so the choice never
   * meets an empty list.
   */
  lemma AutoReplyExactly(s: BotState, owner: UserId, sender: UserId, today: Day,
                         awayPick: nat, awaySendOk: bool, draw: real, replyPick: nat)
    requires Inv(s) && 0.0 <= draw < 1.0
    ensures |s.replyTemplates| >= 8
    ensures var r := OnMessage(s, owner, sender, today, awayPick, awaySendOk, draw, replyPick);
      && (HasAutoReply(r.sent) <==>
            sender != owner && ReplyFires(s, draw) && !(AwayDue(s, sender, today) && !awaySendOk))
      && (forall k :: 0 <= k < |r.sent| && r.sent[k].AutoReply? ==> r.sent[k].text in s.replyTemplates)
  {
    var r := OnMessage(s, owner, sender, today, awayPick, awaySendOk, draw, replyPick);
    if HasAutoReply(r.sent) {
      var k :| 0 <= k < |r.sent| && r.sent[k].AutoReply?;
    }
    if sender != owner && ReplyFires(s, draw) && !(AwayDue(s, sender, today) && !awaySendOk) {
      assert r.sent[|r.sent| - 1].AutoReply?;
    }
  }

  /** Whether a reply fires does not depend on away mode, once away notices are delivered. */
  lemma ReplyIndependentOfAway(s: BotState, owner: UserId, sender: UserId, today: Day,
                               awayPick: nat, draw: real, replyPick: nat, away: bool)
    requires Inv(s) && 0.0 <= draw < 1.0
    ensures HasAutoReply(OnMessage(s, owner, sender, today, awayPick, true, draw, replyPick).sent)
        == HasAutoReply(OnMessage(s.(awayMessageEnabled := away), owner, sender, today, awayPick, true, draw, replyPick).sent)
  {
    AutoReplyExactly(s, owner, sender, today, awayPick, true, draw, replyPick);
    AutoReplyExactly(s.(awayMessageEnabled := away), owner, sender, today, awayPick, true, draw, replyPick);
  }

  /** A reply probability of 0 never replies; 1 always replies when reply-guy mode is on. */
  lemma ReplyGateExtremes(s: BotState, draw: real)
    requires 0.0 <= draw < 1.0
    ensures s.replyProbability == 0.0 ==> !ReplyFires(s, draw)
    ensures s.replyProbability == 1.0 ==> (ReplyFires(s, draw) <==> s.replyGuyEnabled)
  {
  }

  /** `/status`'s "away messages sent" counts each notified sender once, however often notified. */
  lemma AwayCountIsDistinctSenders(s: BotState, owner: UserId, sender: UserId, today: Day,
                                   awayPick: nat, awaySendOk: bool, draw: real, replyPick: nat)
    requires Inv(s) && 0.0 <= draw < 1.0
    ensures var r := OnMessage(s, owner, sender, today, awayPick, awaySendOk, draw, replyPick);
      Report(r.state).awayNotified
        == Report(s).awayNotified
           + (if HasAwayNotice(r.sent) && sender !in s.awayMessageSent then 1 else 0)
  {
    AwayNoticeExactly(s, owner, sender, today, awayPick, awaySendOk, draw, replyPick);
  }

  // ---------------------------------------------------------------- listing

  /** `/list_posts` shows the first ten posts in order and counts the rest. */
  lemma ListPostsShowsFirstTen(s: BotState, owner: UserId)
    requires s.scheduledPosts != []
    ensures var shown := OnListPosts(s, owner, owner);
      && |shown| == 1 && shown[0].PostList?
      && |shown[0].lines| == (if |s.scheduledPosts| < ListLimit then |s.scheduledPosts| else ListLimit)
      && (forall k :: 0 <= k < |shown[0].lines| ==>
            shown[0].lines[k].number == k + 1
            && shown[0].lines[k].posted == s.scheduledPosts[k].posted
            && shown[0].lines[k].preview == Preview(s.scheduledPosts[k].content))
      && shown[0].more == (if |s.scheduledPosts| > ListLimit then |s.scheduledPosts| - ListLimit else 0)
  {
  }

  /**
   * Adding posts "A", "B", "C", then `/post`: "A" goes out, and the listing shows
   * "A" sent and "B", "C" pending, in that order, with no overflow line.
   */
  lemma QueueScenario(owner: UserId, t1: Timestamp, t2: Timestamp, t3: Timestamp, now: Timestamp)
    ensures var s1 := OnAddPost(Initial(), owner, owner, ["A"], t1).state;
      var s2 := OnAddPost(s1, owner, owner, ["B"], t2).state;
      var s3 := OnAddPost(s2, owner, owner, ["C"], t3).state;
      var p := OnPostCommand(s3, owner, owner, now, true);
      && p.sent == [ChannelPost(owner, "A"), PostedNext]
      && OnListPosts(p.state, owner, owner)
         == [PostList([PostLine(1, "A", true), PostLine(2, "B", false), PostLine(3, "C", false)], 0)]
  {
    var s1 := OnAddPost(Initial(), owner, owner, ["A"], t1).state;
    var s2 := OnAddPost(s1, owner, owner, ["B"], t2).state;
    var s3 := OnAddPost(s2, owner, owner, ["C"], t3).state;
    assert s3.scheduledPosts == [ScheduledPost("A", t1, false, None), ScheduledPost("B", t2, false, None),
                                 ScheduledPost("C", t3, false, None)];
    assert FirstUnposted(s3.scheduledPosts) == Some(0);
    var p := OnPostCommand(s3, owner, owner, now, true);
    var posts := p.state.scheduledPosts;
    assert posts == [ScheduledPost("A", t1, true, Some(now)), ScheduledPost("B", t2, false, None),
                     ScheduledPost("C", t3, false, None)];
    assert Listing(posts) == [PostLine(1, "A", true), PostLine(2, "B", false), PostLine(3, "C", false)];
  }
}
