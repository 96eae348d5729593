/** The watcher as it runs: every poll changes its state in place, as `ReviewerBus.Polled` says. */
module BusWatcher {
  import opened Prelude
  import opened DayModels
  import opened ReviewerReports
  import opened ReviewerBus

  class ReviewerBusWatcher {
    var registry: Option<Registry>
    var processed: set<ReportId>
    var nonControlling: set<ReportId>
    var outstanding: Option<ReportId>
    var pendingReport: Option<ReportId>
    var pendingComment: Option<nat>
    var pendingFile: Option<FileSource>
    var lastReport: Option<ReportId>
    var lastAction: Action
    /** Every reply handed to Codex, oldest first. */
    var handed: seq<Handed>

    function View(): Bus reads this {
      Bus(registry, processed, nonControlling, outstanding, pendingReport, pendingComment, pendingFile, lastReport, lastAction)
    }

    constructor ()
      ensures View() == FRESH && handed == []
    {
      registry, processed, nonControlling, outstanding := None, {}, {}, None;
      pendingReport, pendingComment, pendingFile, lastReport, lastAction, handed := None, None, None, None, NoAction, [];
    }

    /** Every listed report gets an entry, and every entry is brought up to date with the comments. */
    method SyncReportRegistry(comments: seq<Comment>)
      modifies this`registry
      ensures View() == Synced(old(View()), comments)
    {
      hide Refreshed, Anchor, AnchorComment;
      var before := View();
      if LatestReport(comments) == None { return; }
      var anchor := Anchor(before, comments);
      var anchorComment := AnchorComment(comments, anchor);
      var reports: Registry := before.Known();
      var i := 0;
      while i < |comments|
        invariant 0 <= i <= |comments| && reports == SyncedUpTo(before, comments, i)
      {
        var c := comments[i];
        if IsReport(c) {
          var id := c.reportId.value;
          var e := if id in reports then reports[id] else NewEntry(before, c, anchor, anchorComment);
          reports := reports[id := Refreshed(before, comments, id, Defaulted(e, c))];
        }
        i := i + 1;
      }
      registry := Some(reports);
    }

    /** Reads the reply file of every report that takes one; `replies` are the ones to hand over. */
    method SyncFileResponses(comments: seq<Comment>, files: map<ReportId, FileAnswer>, now: Time)
      returns (replies: map<ReportId, FileSource>)
      modifies this`registry, this`pendingFile, this`pendingReport
      ensures View() == FilesSynced(old(View()), comments, files, now)
      ensures forall id :: (if id in replies then Some(replies[id]) else None) == FileReplyOf(old(View()), id, comments, files)
    {
      hide FileVisitOf, FileVisited, PinFor;
      replies := map[];
      var before := View();
      if registry == None { return; }
      var reports := registry.value;
      var dropped := false;
      var left := reports.Keys;
      while left != {}
        invariant View() == before && left <= before.registry.value.Keys == reports.Keys
        invariant forall id :: id in reports ==>
                    reports[id] == if id in left then before.registry.value[id]
                                   else FileRead(before, id, before.registry.value[id], comments, files, now)
        invariant forall id :: id in reports && id !in left ==>
                    (if id in replies then Some(replies[id]) else None) == FileReplyOf(before, id, comments, files)
        invariant replies.Keys <= reports.Keys - left
        invariant dropped <==> exists id :: id in reports && id !in left && PendingFor(before, id)
                                            && FileVisitOf(before, id, before.registry.value[id], comments, files) == Erred(false)
        decreases left
      {
        var id :| id in left;
        var e := reports[id];
        var pin := FindPin(comments, id, e);
        var v := FileVisitOf(before, id, e, comments, files);
        if v.RepliedBy? { replies := replies[id := v.source]; }
        dropped := dropped || (PendingFor(before, id) && v == Erred(false));
        reports := reports[id := FileVisited(before, id, e, v, pin, now)];
        left := left - {id};
      }
      registry := Some(reports);
      assert reports == FilesSynced(before, comments, files, now).registry.value;
      if dropped { pendingFile, pendingReport := None, None; }
    }

    /** The binding of the report's first comment, if every other one and the stored one agree with it. */
    method FindPin(comments: seq<Comment>, id: ReportId, e: Entry) returns (pin: Option<Binding>)
      ensures pin == PinFor(comments, id, e)
    {
      var first: Option<Comment> := None;
      for k := 0 to |comments|
        invariant first == None ==> FirstOf(comments, id) == FirstOf(comments[k..], id) && forall j :: 0 <= j < k ==> comments[j].reportId != Some(id)
        invariant first.Some? ==> FirstOf(comments, id) == first && first.value.Pin().Some?
        invariant first.Some? ==> forall j :: 0 <= j < k && comments[j].reportId == Some(id) ==> comments[j].Pin() == first.value.Pin()
      {
        if comments[k].reportId == Some(id) {
          if first == None {
            first := Some(comments[k]);
            if comments[k].Pin() == None { return None; }
          } else if comments[k].Pin() != first.value.Pin() {
            return None;
          }
        }
      }
      if first == None || (e.pin.Some? && e.pin != first.value.Pin()) { return None; }
      return first.value.Pin();
    }

    method FindLast(comments: seq<Comment>, id: Option<ReportId>, now: Time) returns (found: Option<Comment>)
      ensures found == LastOf(View(), comments, id, now)
    {
      hide MayControl;
      if id == None { return None; }
      var i := |comments|;
      assert comments[..i] == comments;
      while i > 0
        invariant 0 <= i <= |comments| && LastOf(View(), comments, id, now) == LastOf(View(), comments[..i], id, now)
      {
        i := i - 1;
        assert comments[..i + 1][..i] == comments[..i];
        if MayControl(View(), comments[i], now) && comments[i].reportId == id { return Some(comments[i]); }
      }
      return None;
    }

    method FindEligible(comments: seq<Comment>, now: Time, ready: bool) returns (found: Option<Comment>)
      ensures found == FirstEligible(View(), comments, now, ready)
    {
      hide Eligible;
      var i := 0;
      while i < |comments|
        invariant 0 <= i <= |comments|
        invariant FirstEligible(View(), comments, now, ready) == FirstEligible(View(), comments[i..], now, ready)
      {
        if Eligible(View(), comments[i], now, ready) { return Some(comments[i]); }
        i := i + 1;
      }
      return None;
    }

    method SelectReport(comments: seq<Comment>, now: Time) returns (report: Option<Comment>)
      ensures report == CurrentReport(View(), comments, now)
    {
      hide LastOf, FirstEligible;
      var expected := if outstanding.Some? then outstanding else pendingReport;
      if registry.Some? {
        if pendingComment.Some? || pendingFile.Some? {
          report := FindLast(comments, expected, now);
          return;
        }
        report := FindEligible(comments, now, true);
        if report == None { report := FindEligible(comments, now, false); }
        return;
      }
      if expected.Some? {
        report := FindLast(comments, expected, now);
        return;
      }
      report := LatestTyped(View(), comments, now);
      if report.Some? && report.value.reportId.Some? && report.value.reportId.value in processed { report := None; }
    }

    /** The pending comment, if it still holds, or the first reply that names this report alone. */
    method FindReply(comments: seq<Comment>, report: Comment, id: ReportId) returns (reply: Option<Comment>, invalidated: bool)
      modifies this`pendingComment, this`pendingReport, this`outstanding
      ensures CommentReply(View(), reply, invalidated) == PendingOrMatching(old(View()), comments, report, id)
    {
      if pendingComment.Some? {
        var pending := CommentById(comments, pendingComment.value);
        if PendingHolds(View(), pending, id) { return pending, false; }
        pendingComment, pendingReport, outstanding := None, None, Some(id);
        return None, true;
      }
      if id in processed { return None, false; }
      return FirstReply(comments, id, report.id), false;
    }

    method UpdateState(id: ReportId, state: ReportState)
      modifies this`registry
      ensures View() == WithState(old(View()), id, state)
    {
      var reports := if registry.Some? then registry.value else map[];
      var e := if id in reports then reports[id] else Entry(0, state, None, None, None, false, None, None);
      registry := Some(reports[id := e.(state := state)]);
    }

    method MarkResponseApplied(id: ReportId, resolves: Option<ReportId>, next: Option<ReportId>)
      modifies this`registry, this`processed, this`outstanding, this`pendingReport, this`pendingComment, this`pendingFile
      ensures View() == MarkedApplied(old(View()), id, resolves, next)
    {
      if lastAction != HumanRequired && resolves.Some? && resolves != Some(id) && registry.Some?
         && resolves.value in registry.value && registry.value[resolves.value].state == HUMAN_REQUIRED {
        UpdateState(resolves.value, RESOLVED_BY_CONFIRMATION);
      }
      UpdateState(id, if lastAction == HumanRequired then HUMAN_REQUIRED else APPLIED);
      processed := processed + {id};
      outstanding, pendingReport, pendingComment, pendingFile := next, None, None, None;
    }

    /** Hands one reply to Codex and applies what comes back. */
    method Continue(h: Handed, p: Poll)
      requires p.Fetched?
      modifies this
      ensures var r := HandOver(old(View()), h, p);
              View() == r.bus && handed == (if r.handed.Some? then old(handed) + [r.handed.value] else old(handed))
    {
      hide MarkedApplied, WithState;
      if p.confirmationFails {
        UpdateState(h.report, CONFIRMATION_BLOCKED);
        return;
      }
      Take(h);
      handed := handed + [h];
      match p.codex
      case CodexFailed => UpdateState(h.report, CONTINUATION_FAILED);
      case EnvelopeInvalid => UpdateState(h.report, CONTINUATION_FAILED);
      case ActionInvalid => lastAction := NoAction;
      case EndsWithoutReport(human) =>
        lastAction := if human then HumanRequired else NoReport;
        MarkResponseApplied(h.report, p.resolves, None);
      case Posts(report, byFile, comment) =>
        lastAction := PostReport;
        if comment.Some? {
          Publish(report, byFile, comment.value);
          MarkResponseApplied(h.report, p.resolves, Some(report));
          lastReport := Some(report);
        }
    }

    method Take(h: Handed)
      modifies this`registry, this`pendingReport, this`outstanding, this`lastReport, this`pendingComment, this`pendingFile
      ensures View() == Taken(old(View()), h)
    {
      UpdateState(h.report, APPLYING);
      var source := if h.HandedFile? then Some(h.source) else None;
      registry := Some(registry.value[h.report := registry.value[h.report].(responseFile := source)]);
      pendingReport, outstanding, lastReport := Some(h.report), Some(h.report), Some(h.report);
      pendingComment, pendingFile := if h.HandedComment? then Some(h.comment) else None, source;
    }

    method Publish(id: ReportId, byFile: bool, comment: nat)
      modifies this`registry
      ensures View() == Published(old(View()), id, byFile, comment)
    {
      var reports := if registry.Some? then registry.value else map[];
      var e := if id in reports then reports[id] else Entry(comment, WAITING_RESPONSE, None, None, None, false, None, None);
      registry := Some(reports[id := e.(state := WAITING_RESPONSE, commentId := comment,
                                        transport := Some(if byFile then ByFile else ByComment))]);
    }

    /** One poll: read, choose one report, and hand its reply over if there is one. */
    method RunOnce(p: Poll)
      modifies this
      ensures var r := Polled(old(View()), p);
              View() == r.bus && handed == (if r.handed.Some? then old(handed) + [r.handed.value] else old(handed))
    {
      hide Synced, FilesSynced, PendingFileDropped, HandOver, CurrentReport, FileReplyOf, PendingOrMatching, PendingFileValid, Unmatched;
      if p.FetchFailed? { return; }
      SyncReportRegistry(p.comments);
      ghost var synced := View();
      if !PendingFileValid(View()) {
        var dropped := PendingFileDropped(View(), p.now);
        registry, pendingFile, pendingReport, pendingComment := dropped.registry, None, None, None;
        DroppedIs(synced, p.now);
        return;
      }
      var replies := SyncFileResponses(p.comments, p.files, p.now);
      var report := SelectReport(p.comments, p.now);
      if report == None || report.value.reportId == None { return; }
      var id := report.value.reportId.value;
      ghost var read := View();
      if registry.Some? && id in registry.value && registry.value[id].transport == Some(ByFile) {
        assert (if id in replies then Some(replies[id]) else None) == FileReplyOf(synced, id, p.comments, p.files);
        if id in replies { Continue(HandedFile(id, replies[id]), p); }
        return;
      }
      var reply, invalidated := FindReply(p.comments, report.value, id);
      if reply.Some? {
        Continue(HandedComment(id, reply.value.id), p);
      } else if !invalidated && exists c :: c in p.comments && Unmatched(View(), c, report.value, id) {
        NotInvalidated(read, p.comments, report.value, id);
        outstanding := Some(id);
      } else if !invalidated {
        NotInvalidated(read, p.comments, report.value, id);
      }
    }
  }

  lemma DroppedIs(b: Bus, now: Time)
    ensures PendingFileDropped(b, now) == b.(registry := PendingFileDropped(b, now).registry, pendingFile := None, pendingReport := None, pendingComment := None)
  {
  }

  lemma NotInvalidated(b: Bus, comments: seq<Comment>, report: Comment, id: ReportId)
    ensures !PendingOrMatching(b, comments, report, id).invalidated ==> PendingOrMatching(b, comments, report, id).bus == b
  {
  }
}
