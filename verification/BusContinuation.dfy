/** What becomes of a reply that was handed to Codex: its report is processed, or the same reply is handed over again. */
module BusContinuation {
  import opened Prelude
  import opened DayModels
  import opened ReviewerReports
  import opened ReviewerBus
  import opened BusProperties
  import opened BusReopening

  /** Codex ended without a report, or its report was delivered. */
  predicate Delivers(codex: CodexAnswer) {
    codex.EndsWithoutReport? || (codex.Posts? && codex.comment.Some?)
  }

  /** The continuation itself failed; otherwise what it wanted to do could not be done. */
  predicate Fails(codex: CodexAnswer) { codex == CodexFailed || codex == EnvelopeInvalid }

  // ----- one poll -----

  lemma ContinuedProcesses(b: Bus, id: ReportId, codex: CodexAnswer, resolves: Option<ReportId>)
    ensures Continued(b, id, codex, resolves).processed == if Delivers(codex) then b.processed + {id} else b.processed
  {
  }

  lemma HandOverProcesses(b: Bus, h: Handed, p: Poll)
    requires p.Fetched?
    ensures var r := HandOver(b, h, p);
            && (r.handed.Some? ==> r.handed == Some(h))
            && r.bus.processed == if r.handed.Some? && Delivers(p.codex) then b.processed + {h.report} else b.processed
  {
    hide Continued;
    ContinuedProcesses(Taken(b, h), h.report, p.codex, p.resolves);
  }

  /** A report is processed in a poll exactly when its reply was handed over and Codex delivered. */
  lemma PollProcesses(b: Bus, p: Poll)
    ensures var r := Polled(b, p);
            r.bus.processed == if r.handed.Some? && p.Fetched? && Delivers(p.codex) then b.processed + {r.handed.value.report} else b.processed
  {
    hide Synced, FilesSynced, CurrentReport, HandOver, PendingFileValid, FileReplyOf, FirstReply, CommentById;
    if p.Fetched? {
      var synced := Synced(b, p.comments);
      var read := FilesSynced(synced, p.comments, p.files, p.now);
      KeepsProcessed(b, p.comments, p.files, p.now);
      var report := CurrentReport(read, p.comments, p.now);
      if report.Some? && report.value.reportId.Some? {
        var id := report.value.reportId.value;
        var source := FileReplyOf(synced, id, p.comments, p.files);
        if source.Some? { HandOverProcesses(read, HandedFile(id, source.value), p); }
        var c := PendingOrMatching(read, p.comments, report.value, id);
        if c.reply.Some? { HandOverProcesses(c.bus, HandedComment(id, c.reply.value.id), p); }
      }
    }
  }

  /** Over any events: what is processed was handed over, in a poll in which Codex delivered. */
  ghost predicate ProcessedIn(events: seq<Event>, k: nat, id: ReportId)
    requires k < |events|
  {
    && events[k].PollNow? && events[k].poll.Fetched? && Delivers(events[k].poll.codex)
    && var r := Polled(AfterAll(events[..k]), events[k].poll); r.handed.Some? && r.handed.value.report == id
  }

  lemma {:induction false} ProcessedExactly(events: seq<Event>, id: ReportId)
    ensures id in AfterAll(events).processed <==> exists k: nat :: k < |events| && ProcessedIn(events, k, id)
  {
    hide Polled;
    if events != [] {
      var n := |events| - 1;
      var before := events[..n];
      ProcessedExactly(before, id);
      if events[n].PollNow? { PollProcesses(AfterAll(before), events[n].poll); }
      forall k: nat | k < n ensures ProcessedIn(events, k, id) <==> ProcessedIn(before, k, id) { assert before[..k] == events[..k]; }
      if id in AfterAll(before).processed {
        var k: nat :| k < n && ProcessedIn(before, k, id);
        assert ProcessedIn(events, k, id);
      } else if id in AfterAll(events).processed {
        assert ProcessedIn(events, n, id);
      }
    }
  }

  // ----- what a reply leaves when it was not delivered -----

  /** The reply is still pending, and its report is the one that is waited for. */
  predicate StillPending(b: Bus, h: Handed) {
    && b.outstanding == Some(h.report) && b.pendingReport == Some(h.report) && h.report in b.Known()
    && b.pendingComment == (if h.HandedComment? then Some(h.comment) else None)
    && b.pendingFile == (if h.HandedFile? then Some(h.source) else None)
  }

  lemma UndeliveredLeaves(b: Bus, h: Handed, p: Poll)
    requires p.Fetched? && !p.confirmationFails && !Delivers(p.codex)
    ensures var r := HandOver(b, h, p).bus;
            && StillPending(r, h) && r.registry.Some? && r.processed == b.processed && r.nonControlling == b.nonControlling
            && r.Known().Keys == b.Known().Keys + {h.report}
            && (forall id :: id in b.Known() && id != h.report ==> r.Known()[id] == b.Known()[id])
            && (h.report in b.Known() ==>
                  r.Known()[h.report] == b.Known()[h.report].(state := r.Known()[h.report].state, responseFile := r.Known()[h.report].responseFile))
            && (h.report !in b.Known() ==>
                  r.Known()[h.report] == Entry(0, r.Known()[h.report].state, None, None, None, false, r.Known()[h.report].responseFile, None))
            && r.Known()[h.report].state == (if Fails(p.codex) then CONTINUATION_FAILED else APPLYING)
            && r.lastReport == Some(h.report)
            && r.lastAction == (if Fails(p.codex) then b.lastAction else if p.codex.Posts? then PostReport else NoAction)
  {
  }

  /** A delivered reply settles its report, and nothing is pending any more. */
  lemma DeliveredLeaves(b: Bus, h: Handed, p: Poll)
    requires p.Fetched? && !p.confirmationFails && Delivers(p.codex)
    ensures var r := HandOver(b, h, p).bus;
            && r.pendingReport == None && r.pendingComment == None && r.pendingFile == None && h.report in r.Known()
            && r.Known()[h.report].state == (if p.codex == EndsWithoutReport(true) then HUMAN_REQUIRED else APPLIED)
            && r.outstanding == (if p.codex.Posts? then Some(p.codex.report) else None)
            && r.lastReport == Some(if p.codex.Posts? then p.codex.report else h.report)
            && r.lastAction == (if p.codex.Posts? then PostReport else if p.codex == EndsWithoutReport(true) then HumanRequired else NoReport)
            && (p.codex.Posts? && p.codex.report != h.report ==>
                  && p.codex.report in r.Known() && r.Known()[p.codex.report].state == WAITING_RESPONSE
                  && r.Known()[p.codex.report].transport == Some(if p.codex.byFile then ByFile else ByComment)
                  && r.Known()[p.codex.report].commentId == p.codex.comment.value)
  {
  }

  // ----- handing it over again -----

  /** Comments have distinct ids. */
  predicate DistinctIds(comments: seq<Comment>) {
    forall i, j :: 0 <= i < j < |comments| ==> comments[i].id != comments[j].id
  }

  lemma {:induction false} FoundById(comments: seq<Comment>, k: nat)
    requires k < |comments| && DistinctIds(comments)
    ensures CommentById(comments, comments[k].id) == Some(comments[k])
  {
    if k > 0 { FoundById(comments[1..], k - 1); }
  }

  lemma {:induction false} LastIsFound(b: Bus, comments: seq<Comment>, id: ReportId, now: Time, k: nat)
    requires k < |comments| && MayControl(b, comments[k], now) && comments[k].reportId == Some(id)
    ensures LastOf(b, comments, Some(id), now).Some?
  {
    hide MayControl;
    if k < |comments| - 1 { LastIsFound(b, comments[..|comments| - 1], id, now, k); }
  }

  /** Synchronizing gives every listed report its transport and says whether it is required. */
  lemma {:induction false} SyncedIsComplete(b: Bus, comments: seq<Comment>, n: nat, id: ReportId)
    requires n <= |comments|
    requires exists k :: 0 <= k < n && IsReport(comments[k]) && comments[k].reportId == Some(id)
    ensures id in SyncedUpTo(b, comments, n)
    ensures SyncedUpTo(b, comments, n)[id].transport.Some? && SyncedUpTo(b, comments, n)[id].required.Some?
  {
    hide Anchor, AnchorComment, NewEntry;
    if exists k :: 0 <= k < n - 1 && IsReport(comments[k]) && comments[k].reportId == Some(id) { SyncedIsComplete(b, comments, n - 1, id); }
  }

  /** A complete entry that takes a file is not touched by synchronizing again. */
  lemma {:induction false} SyncedAgain(b: Bus, comments: seq<Comment>, n: nat, id: ReportId)
    requires n <= |comments| && id in b.Known() && b.Known()[id].transport == Some(ByFile)
    requires id !in b.processed && id !in b.nonControlling
    requires b.Known()[id].required.Some? || forall k :: 0 <= k < n ==> !(IsReport(comments[k]) && comments[k].reportId == Some(id))
    ensures id in SyncedUpTo(b, comments, n) && SyncedUpTo(b, comments, n)[id] == b.Known()[id]
  {
    hide Anchor, AnchorComment, NewEntry;
    if n > 0 { SyncedAgain(b, comments, n - 1, id); }
  }

  lemma SyncedBlocks(b: Bus, comments: seq<Comment>, id: ReportId, now: Time)
    ensures Blocked(Synced(b, comments).Known(), id, now) == Blocked(b.Known(), id, now)
  {
    hide SyncedUpTo;
    SyncedUpToKeeps(b, comments, |comments|);
    SyncKeepsBlocks(b, comments, id, now);
  }

  /** What both synchronizations do to the report that is waited for. */
  lemma PendingControls(b: Bus, h: Handed, report: Comment, q: Poll)
    requires q.Fetched? && StillPending(b, h) && b.registry.Some? && h.report !in b.nonControlling
    requires report in q.comments && report.Typed() && report.reportId == Some(h.report)
    requires var read := FilesSynced(Synced(b, q.comments), q.comments, q.files, q.now);
             read.pendingReport == b.pendingReport && read.pendingComment == b.pendingComment && read.pendingFile == b.pendingFile
    ensures var current := CurrentReport(FilesSynced(Synced(b, q.comments), q.comments, q.files, q.now), q.comments, q.now);
            && (current.Some? <==> !Blocked(b.Known(), h.report, q.now))
            && (current.Some? ==> current.value.reportId == Some(h.report))
  {
    hide SyncedUpTo, FileRead, FileVisitOf, Blocked;
    var synced := Synced(b, q.comments);
    var read := FilesSynced(synced, q.comments, q.files, q.now);
    KeepsProcessed(b, q.comments, q.files, q.now);
    SyncedBlocks(b, q.comments, h.report, q.now);
    FilesKeepBlocks(synced, q.comments, q.files, h.report, q.now);
    var k :| 0 <= k < |q.comments| && q.comments[k] == report;
    if !Blocked(b.Known(), h.report, q.now) { LastIsFound(read, q.comments, h.report, q.now, k); }
    LastIsThere(read, q.comments, Some(h.report), q.now);
  }

  lemma CommentAgain(b: Bus, h: Handed, report: Comment, reply: Comment, q: Poll)
    requires q.Fetched? && h.HandedComment? && StillPending(b, h) && b.registry.Some? && h.report !in b.nonControlling
    requires report in q.comments && report.Typed() && report.reportId == Some(h.report)
    requires reply in q.comments && reply.id == h.comment && Target(reply) == Some(h.report)
    requires DistinctIds(q.comments) && h.report !in b.processed
    requires h.report in Synced(b, q.comments).Known() && Synced(b, q.comments).Known()[h.report].transport != Some(ByFile)
    ensures Polled(b, q).handed == Some(h) <==> !q.confirmationFails && !Blocked(b.Known(), h.report, q.now)
  {
    hide SyncedUpTo, FileRead, FileVisitOf, CurrentReport, Continued, Taken, Blocked, FirstReply;
    var synced := Synced(b, q.comments);
    var read := FilesSynced(synced, q.comments, q.files, q.now);
    KeepsProcessed(b, q.comments, q.files, q.now);
    FilesKeepPending(synced, q.comments, q.files, q.now);
    FilesKeepOutstanding(synced, q.comments, q.files, q.now);
    SyncedUpToKeeps(b, q.comments, |q.comments|);
    VisitKeeps(synced, h.report, synced.Known()[h.report], q.comments, q.files, q.now);
    PendingControls(b, h, report, q);
    var k :| 0 <= k < |q.comments| && q.comments[k] == reply;
    FoundById(q.comments, k);
  }

  lemma FilesKeepOutstanding(b: Bus, comments: seq<Comment>, files: map<ReportId, FileAnswer>, now: Time)
    ensures var read := FilesSynced(b, comments, files, now);
            && read.outstanding == b.outstanding && read.pendingComment == b.pendingComment
            && (b.pendingFile == None ==> read.pendingReport == b.pendingReport)
            && (forall id :: id in b.Known() ==> id in read.Known() && read.Known()[id] == FileRead(b, id, b.Known()[id], comments, files, now))
  {
    hide FileRead, FileVisitOf;
  }

  /** The entry of a report whose reply file was read, after the reply was handed over. */
  predicate StillReadable(b: Bus, h: Handed, comments: seq<Comment>) {
    && h.HandedFile? && StillPending(b, h) && b.registry.Some? && h.report !in b.processed && h.report !in b.nonControlling
    && (var e := b.Known()[h.report];
        && e.transport == Some(ByFile) && e.Required() && e.recovery == None && !FileSettled(e.state)
        && e.pin.Some? && e.pin.value.path == h.source.path && PinFor(comments, h.report, e) == e.pin
        && (e.required.Some? || forall c :: c in comments ==> !(IsReport(c) && c.reportId == Some(h.report))))
  }

  lemma FileIsReadAgain(b: Bus, h: Handed, q: Poll)
    requires q.Fetched? && StillReadable(b, h, q.comments) && h.report in q.files && q.files[h.report] == Reply(h.source.id)
    ensures var synced := Synced(b, q.comments);
            var read := FilesSynced(synced, q.comments, q.files, q.now);
            && PendingFileValid(synced) && FileReplyOf(synced, h.report, q.comments, q.files) == Some(h.source)
            && read.pendingReport == b.pendingReport && read.pendingComment == b.pendingComment && read.pendingFile == b.pendingFile
            && h.report in read.Known() && read.Known()[h.report].transport == Some(ByFile)
  {
    hide SyncedUpTo, PinFor, FileSettled;
    assert forall k :: 0 <= k < |q.comments| ==> q.comments[k] in q.comments;
    SyncedAgain(b, q.comments, |q.comments|, h.report);
    var synced := Synced(b, q.comments);
    assert synced.Known()[h.report] == b.Known()[h.report];
    assert FileVisitOf(synced, h.report, b.Known()[h.report], q.comments, q.files) == RepliedBy(h.source);
    FilesKeepOutstanding(synced, q.comments, q.files, q.now);
    VisitKeeps(synced, h.report, synced.Known()[h.report], q.comments, q.files, q.now);
  }

  lemma FileAgain(b: Bus, h: Handed, report: Comment, q: Poll)
    requires q.Fetched? && StillReadable(b, h, q.comments) && h.report in q.files && q.files[h.report] == Reply(h.source.id)
    requires report in q.comments && report.Typed() && report.reportId == Some(h.report)
    ensures Polled(b, q).handed == Some(h) <==> !q.confirmationFails && !Blocked(b.Known(), h.report, q.now)
  {
    hide Synced, FilesSynced, FileVisitOf, FileReplyOf, CurrentReport, Continued, Taken, Blocked, FirstReply, PinFor, PendingFileValid;
    FileIsReadAgain(b, h, q);
    PendingControls(b, h, report, q);
  }

  // ----- from one poll to the next -----

  /** Where a handed reply comes from. */
  lemma HandedFrom(b: Bus, p: Poll) returns (report: Comment)
    requires Polled(b, p).handed.Some?
    ensures p.Fetched? && !p.confirmationFails
    ensures var h := Polled(b, p).handed.value;
            var synced := Synced(b, p.comments);
            var read := FilesSynced(synced, p.comments, p.files, p.now);
            && report in p.comments && MayControl(read, report, p.now) && report.reportId == Some(h.report)
            && PendingFileValid(synced) && Polled(b, p).bus == HandOver(read, h, p).bus
            && (h.HandedFile? ==>
                  && h.report in read.Known() && read.Known()[h.report].transport == Some(ByFile)
                  && FileReplyOf(synced, h.report, p.comments, p.files) == Some(h.source))
            && (h.HandedComment? ==>
                  && (h.report in read.Known() ==> read.Known()[h.report].transport != Some(ByFile))
                  && exists c :: c in p.comments && c.id == h.comment && Target(c) == Some(h.report))
  {
    hide Synced, FilesSynced, CurrentReport, PendingFileValid, Continued, Taken, WithState, FileReplyOf, MayControl;
    var synced := Synced(b, p.comments);
    var read := FilesSynced(synced, p.comments, p.files, p.now);
    report := CurrentReport(read, p.comments, p.now).value;
    CurrentIsThere(read, p.comments, p.now);
    var id := report.reportId.value;
    ReplyFound(p.comments, id, report.id);
    if read.pendingComment.Some? { CommentFound(p.comments, read.pendingComment.value); }
  }

  /** The same comments, and for a reply file the same file. */
  predicate SameInputs(p: Poll, q: Poll, h: Handed) {
    && p.Fetched? && q.Fetched? && q.comments == p.comments
    && (h.HandedFile? ==> h.report in q.files && h.report in p.files && q.files[h.report] == p.files[h.report])
  }

  lemma FileStaysReadable(b: Bus, p: Poll)
    requires Polled(b, p).handed.Some? && Polled(b, p).handed.value.HandedFile? && p.Fetched? && !Delivers(p.codex)
    requires Polled(b, p).handed.value.report !in b.processed
    ensures StillReadable(Polled(b, p).bus, Polled(b, p).handed.value, p.comments)
    ensures var h := Polled(b, p).handed.value; h.report in p.files && p.files[h.report] == Reply(h.source.id)
  {
    hide Polled, SyncedUpTo, FilesSynced, HandOver, Blocked;
    var h := Polled(b, p).handed.value;
    var report := HandedFrom(b, p);
    var synced := Synced(b, p.comments);
    var read := FilesSynced(synced, p.comments, p.files, p.now);
    UndeliveredLeaves(read, h, p);
    KeepsProcessed(b, p.comments, p.files, p.now);
    FilesKeepOutstanding(synced, p.comments, p.files, p.now);
    var e := synced.Known()[h.report];
    assert FileVisitOf(synced, h.report, e, p.comments, p.files) == RepliedBy(h.source);
    assert read.Known()[h.report] == Pinned(e, PinFor(p.comments, h.report, e)).(fileError := false, state := RESPONSE_RECEIVED);
    RequiredOrUnlisted(b, p.comments, h.report);
  }

  lemma RequiredOrUnlisted(b: Bus, comments: seq<Comment>, id: ReportId)
    ensures (exists c :: c in comments && IsReport(c) && c.reportId == Some(id)) ==>
              var synced := Synced(b, comments);
              id in synced.Known() && synced.Known()[id].transport.Some? && synced.Known()[id].required.Some?
  {
    hide SyncedUpTo;
    if c :| c in comments && IsReport(c) && c.reportId == Some(id) {
      var k :| 0 <= k < |comments| && comments[k] == c;
      SyncedIsComplete(b, comments, |comments|, id);
      LatestExists(comments, k);
    }
  }

  lemma CommentStaysComment(b: Bus, p: Poll)
    requires Polled(b, p).handed.Some? && Polled(b, p).handed.value.HandedComment? && p.Fetched? && !Delivers(p.codex)
    ensures var h, b' := Polled(b, p).handed.value, Polled(b, p).bus;
            && h.report in Synced(b', p.comments).Known() && Synced(b', p.comments).Known()[h.report].transport != Some(ByFile)
  {
    hide Polled, SyncedUpTo, FilesSynced, HandOver, Blocked;
    var h, b' := Polled(b, p).handed.value, Polled(b, p).bus;
    var report := HandedFrom(b, p);
    var synced := Synced(b, p.comments);
    var read := FilesSynced(synced, p.comments, p.files, p.now);
    UndeliveredLeaves(read, h, p);
    FilesKeepOutstanding(synced, p.comments, p.files, p.now);
    if h.report in synced.Known() { VisitKeeps(synced, h.report, synced.Known()[h.report], p.comments, p.files, p.now); }
    KeepsKnown(b, p);
    RequiredOrUnlisted(b, p.comments, h.report);
    SyncedUpToKeeps(b', p.comments, |p.comments|);
    if forall k :: 0 <= k < |p.comments| ==> !(IsReport(p.comments[k]) && p.comments[k].reportId == Some(h.report)) {
      SyncedLeaves(b', p.comments, |p.comments|, h.report);
    }
  }

  lemma KeepsKnown(b: Bus, p: Poll)
    requires p.Fetched?
    ensures FilesSynced(Synced(b, p.comments), p.comments, p.files, p.now).Known().Keys == Synced(b, p.comments).Known().Keys
  {
    hide SyncedUpTo, FileRead, FileVisitOf;
  }

  lemma PendingOfProcessedIsDropped(b: Bus, h: Handed, q: Poll)
    requires h.HandedFile? && StillPending(b, h) && h.report in b.processed
    ensures Polled(b, q).handed == None
  {
    hide SyncedUpTo, FilesSynced, CurrentReport;
  }

  /**
   * After any events: a reply that was handed over and not delivered stays pending, its report is
   * CONTINUATION_FAILED if Codex failed, and the next poll that finds the same comments, and the same reply file,
   * hands the same reply over again, unless its confirmation fails, a repair blocks the report by then, or the
   * report was processed before, which only a report published again can be.
   */
  lemma UndeliveredIsHandedAgain(events: seq<Event>, p: Poll, q: Poll)
    requires Polled(AfterAll(events), p).handed.Some? && p.Fetched? && !Delivers(p.codex)
    requires SameInputs(p, q, Polled(AfterAll(events), p).handed.value) && DistinctIds(p.comments)
    ensures var r := Polled(AfterAll(events), p);
            var h := r.handed.value;
            && StillPending(r.bus, h) && r.bus.processed == AfterAll(events).processed
            && r.bus.Known()[h.report].state == (if Fails(p.codex) then CONTINUATION_FAILED else APPLYING)
            && (Polled(r.bus, q).handed == Some(h) <==>
                  !q.confirmationFails && !Blocked(r.bus.Known(), h.report, q.now) && h.report !in r.bus.processed)
  {
    hide Polled, AfterAll, FilesSynced, Synced, HandOver, Blocked, FileReplyOf, PendingFileValid;
    var b := AfterAll(events);
    var r := Polled(b, p);
    var h := r.handed.value;
    var report := HandedFrom(b, p);
    var read := FilesSynced(Synced(b, p.comments), p.comments, p.files, p.now);
    UndeliveredLeaves(read, h, p);
    PollProcesses(b, p);
    KeepsProcessed(b, p.comments, p.files, p.now);
    if h.report in b.processed {
      ProcessedReportsAreNotContinued(events, p);
      PendingOfProcessedIsDropped(r.bus, h, q);
    } else if h.HandedFile? {
      FileStaysReadable(b, p);
      FileAgain(r.bus, h, report, q);
    } else {
      CommentStaysComment(b, p);
      var reply :| reply in p.comments && reply.id == h.comment && Target(reply) == Some(h.report);
      CommentAgain(r.bus, h, report, reply, q);
    }
  }

  /** After any events: a delivered reply settles its report, and what Codex published is waited for next. */
  lemma DeliveredIsSettled(events: seq<Event>, p: Poll)
    requires Polled(AfterAll(events), p).handed.Some? && p.Fetched? && Delivers(p.codex)
    ensures var r := Polled(AfterAll(events), p);
            var id := r.handed.value.report;
            && r.bus.pendingReport == None && r.bus.pendingComment == None && r.bus.pendingFile == None && id in r.bus.Known()
            && r.bus.Known()[id].state == (if p.codex == EndsWithoutReport(true) then HUMAN_REQUIRED else APPLIED)
            && r.bus.outstanding == (if p.codex.Posts? then Some(p.codex.report) else None)
            && r.bus.lastReport == Some(if p.codex.Posts? then p.codex.report else id)
            && r.bus.lastAction == (if p.codex.Posts? then PostReport else if p.codex == EndsWithoutReport(true) then HumanRequired else NoReport)
            && (p.codex.Posts? && p.codex.report != id ==>
                  && p.codex.report in r.bus.Known() && r.bus.Known()[p.codex.report].state == WAITING_RESPONSE
                  && r.bus.Known()[p.codex.report].transport == Some(if p.codex.byFile then ByFile else ByComment)
                  && r.bus.Known()[p.codex.report].commentId == p.codex.comment.value)
  {
    hide Polled, AfterAll, FilesSynced, Synced, HandOver, FileReplyOf, PendingFileValid;
    var report := HandedFrom(AfterAll(events), p);
    DeliveredLeaves(FilesSynced(Synced(AfterAll(events), p.comments), p.comments, p.files, p.now), Polled(AfterAll(events), p).handed.value, p);
  }
}
