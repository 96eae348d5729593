/**
 * A run in which a processed report is continued again.  Codex answers another report by publishing its id once
 * more, this time for a reply file.  Its first comment is then deleted, and the published one, which has a listed
 * type, is edited to an unlisted one.
 */
module BusExample {
  import opened Prelude
  import opened DayModels
  import opened ReviewerReports
  import opened ReviewerBus
  import opened BusProperties
  import opened BusReopening

  const X := Own(0)
  const Y := Own(1)
  const XReport := Comment(1, Some(X), Some(PROGRESS_UPDATE), [], false, None, true, false)
  const XReply := Comment(2, None, None, [X], false, None, true, false)
  const YReport := Comment(3, Some(Y), Some(PROGRESS_UPDATE), [], false, None, true, false)
  const YReply := Comment(4, None, None, [Y], false, None, true, false)

  const FirstComments := [XReport, XReply]
  const SecondComments := [XReport, XReply, YReport, YReply]
  const First := Fetched(FirstComments, map[], 0, false, EndsWithoutReport(false), None)
  const Second := Fetched(SecondComments, map[], 0, false, Posts(X, true, Some(5)), None)

  const XApplied := Entry(1, APPLIED, Some(true), Some(ByComment), None, false, None, None)
  const YApplied := Entry(3, APPLIED, Some(true), Some(ByComment), None, false, None, None)
  const XWaiting := Entry(5, WAITING_RESPONSE, Some(true), Some(ByFile), None, false, None, None)

  const FirstSynced := FRESH.(registry := Some(map[X := XApplied.(state := RESPONSE_RECEIVED)]))
  const AfterFirst := Bus(Some(map[X := XApplied]), {X}, {}, None, None, None, None, Some(X), NoReport)
  const SecondSynced := AfterFirst.(registry := Some(map[X := XApplied, Y := YApplied.(state := RESPONSE_RECEIVED)]))
  const AfterSecond := Bus(Some(map[X := XWaiting, Y := YApplied]), {X, Y}, {}, Some(X), None, None, None, Some(X), PostReport)

  /** An entry for a report that a comment of this poll answers. */
  lemma Answered(b: Bus, comments: seq<Comment>, c: Comment, reply: Comment)
    requires c.reportId.Some? && c.reportId.value !in b.processed && b.nonControlling == {} && c.responseRequired && !c.byFile
    requires reply in comments && reply.id > c.id && reply.targets == [c.reportId.value]
    ensures var e := Defaulted(NewEntry(b, c, c.reportId, c.id), c);
            Refreshed(b, comments, c.reportId.value, e) == Entry(c.id, RESPONSE_RECEIVED, Some(true), Some(ByComment), None, false, None, None)
  {
    assert RepliesTo(reply, c.reportId.value, c.id);
  }

  lemma FirstSync()
    ensures Synced(FRESH, FirstComments) == FirstSynced
  {
    var comments := FirstComments;
    assert comments[..1] == [XReport] && LatestReport(comments[..1]) == Some(XReport);
    assert !IsReport(comments[1]) && LatestReport(comments) == Some(XReport);
    assert Anchor(FRESH, comments) == Some(X) && AnchorComment(comments, Some(X)) == 1;
    Answered(FRESH, comments, XReport, XReply);
    hide Anchor, AnchorComment, Refreshed;
    assert SyncedUpTo(FRESH, comments, 0) == map[];
    assert SyncedUpTo(FRESH, comments, 1) == FirstSynced.Known();
    assert SyncedUpTo(FRESH, comments, 2) == FirstSynced.Known();
  }

  lemma FirstPoll()
    ensures Polled(FRESH, First) == Result(AfterFirst, Some(HandedComment(X, 2)))
  {
    hide Synced;
    FirstSync();
    assert FilesSynced(FirstSynced, FirstComments, map[], 0).registry.value == FirstSynced.Known();
    assert CurrentReport(FirstSynced, FirstComments, 0) == Some(XReport);
    assert FirstComments[1..] == [XReply];
    assert FirstReply([XReply], X, 1) == Some(XReply);
    assert FirstReply(FirstComments, X, 1) == Some(XReply);
    FirstContinued();
  }

  lemma FirstContinued()
    ensures HandOver(FirstSynced, HandedComment(X, 2), First) == Result(AfterFirst, Some(HandedComment(X, 2)))
  {
    var taken := Taken(FirstSynced, HandedComment(X, 2));
    assert taken.Known() == map[X := XApplied.(state := APPLYING)];
    assert MarkedApplied(taken.(lastAction := NoReport), X, None, None).Known() == map[X := XApplied];
  }

  lemma SecondSync()
    ensures Synced(AfterFirst, SecondComments) == SecondSynced
  {
    var comments := SecondComments;
    assert comments[..3] == [XReport, XReply, YReport] && comments[..3][..2] == comments[..2];
    assert LatestReport(comments[..3]) == Some(YReport);
    assert Anchor(AfterFirst, comments) == Some(Y);
    assert comments[1..] == [XReply, YReport, YReply] && comments[1..][1..] == [YReport, YReply];
    assert AnchorComment([YReport, YReply], Some(Y)) == 3;
    assert AnchorComment(comments[1..], Some(Y)) == 3;
    assert AnchorComment(comments, Some(Y)) == 3;
    assert YReply in comments;
    Answered(AfterFirst, comments, YReport, YReply);
    assert Refreshed(AfterFirst, comments, X, Defaulted(XApplied, XReport)) == XApplied;
    hide Anchor, AnchorComment, LatestReport, Refreshed;
    assert SyncedUpTo(AfterFirst, comments, 0) == map[X := XApplied];
    assert SyncedUpTo(AfterFirst, comments, 1) == map[X := XApplied];
    assert SyncedUpTo(AfterFirst, comments, 2) == map[X := XApplied];
    assert SyncedUpTo(AfterFirst, comments, 3) == SecondSynced.Known();
    assert SyncedUpTo(AfterFirst, comments, 4) == SecondSynced.Known();
    LatestExists(comments, 2);
  }

  lemma SecondChoice()
    ensures CurrentReport(SecondSynced, SecondComments, 0) == Some(YReport)
  {
    assert !Eligible(SecondSynced, XReport, 0, true) && !Eligible(SecondSynced, XReply, 0, true);
    assert Eligible(SecondSynced, YReport, 0, true);
    hide Eligible;
    assert SecondComments[1..] == [XReply, YReport, YReply] && SecondComments[1..][1..] == [YReport, YReply];
    assert FirstEligible(SecondSynced, [YReport, YReply], 0, true) == Some(YReport);
    assert FirstEligible(SecondSynced, [XReply, YReport, YReply], 0, true) == Some(YReport);
  }

  lemma SecondReply()
    ensures PendingOrMatching(SecondSynced, SecondComments, YReport, Y) == CommentReply(SecondSynced, Some(YReply), false)
  {
    assert SecondComments[1..] == [XReply, YReport, YReply] && SecondComments[1..][1..] == [YReport, YReply];
    assert [YReport, YReply][1..] == [YReply];
    assert FirstReply([YReply], Y, 3) == Some(YReply);
    assert FirstReply([YReport, YReply], Y, 3) == Some(YReply);
    assert FirstReply([XReply, YReport, YReply], Y, 3) == Some(YReply);
  }

  lemma SecondContinued()
    ensures HandOver(SecondSynced, HandedComment(Y, 4), Second) == Result(AfterSecond, Some(HandedComment(Y, 4)))
  {
    var taken := Taken(SecondSynced, HandedComment(Y, 4));
    assert taken.Known() == map[X := XApplied, Y := YApplied.(state := APPLYING)];
    var published := Published(taken.(lastAction := PostReport), X, true, 5);
    assert published.Known() == map[X := XWaiting, Y := YApplied.(state := APPLYING)];
    assert MarkedApplied(published, Y, None, Some(X)).Known() == map[X := XWaiting, Y := YApplied];
  }

  lemma SecondPoll()
    ensures Polled(AfterFirst, Second) == Result(AfterSecond, Some(HandedComment(Y, 4)))
  {
    hide Synced, CurrentReport, HandOver, PendingOrMatching, FileVisitOf;
    SecondSync();
    assert FilesSynced(SecondSynced, SecondComments, map[], 0) == SecondSynced by { SecondFiles(); }
    SecondChoice();
    SecondReply();
    SecondContinued();
  }

  lemma SecondFiles()
    ensures FilesSynced(SecondSynced, SecondComments, map[], 0) == SecondSynced
  {
    assert FilesSynced(SecondSynced, SecondComments, map[], 0).registry.value == SecondSynced.Known();
  }

  /** Both polls are read as they are; `X` is processed by then, and a third poll continues it once more. */
  lemma ProcessedReportIsContinued()
    ensures var events := [PollNow(First), PollNow(Second)];
            && X in AfterAll(events).processed && Reopenable(AfterAll(events), X, 0)
            && Continues(AfterAll(events), X, 0, ReopeningPoll(AfterAll(events), X, 0))
            && ReopeningPoll(AfterAll(events), X, 0).comments == [Comment(5, Some(X), Some(Unlisted(0)), [], true,
                 Some(Binding(0, None, None, Some(Unlisted(0)), 0, 0)), true, false)]
  {
    hide Polled;
    FirstPoll();
    SecondPoll();
    var events := [PollNow(First), PollNow(Second)];
    assert events[..1] == [PollNow(First)] && events[..1][..0] == [];
    assert AfterAll(events[..1]) == AfterFirst;
    assert AfterAll(events) == AfterSecond;
    ReopenableContinues(AfterSecond, X, 0);
  }
}
