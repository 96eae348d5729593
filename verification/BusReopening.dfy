/** Exactly when a report that was already processed can be continued again. */
module BusReopening {
  import opened Prelude
  import opened DayModels
  import opened ReviewerReports
  import opened ReviewerBus
  import opened BusProperties

  /** This poll, at this time, hands over a reply of this report. */
  ghost predicate Continues(b: Bus, id: ReportId, now: Time, p: Poll) {
    p.Fetched? && p.now == now && Polled(b, p).handed.Some? && Polled(b, p).handed.value.report == id
  }

  /** A required report whose reply file would be read. */
  predicate Readable(b: Bus, id: ReportId) {
    && id in b.Known() && b.Known()[id].transport == Some(ByFile) && b.Known()[id].Required()
    && !FileSettled(b.Known()[id].state) && b.Known()[id].recovery == None
  }

  /** The report was never read as a file, or under a type that is not one of the listed ones. */
  predicate PinnedUnlisted(e: Entry) {
    e.pin.Some? ==> e.pin.value.reportType.Some? && e.pin.value.reportType.value.Unlisted?
  }

  /** Nothing else is pending, or what is pending can be dropped in the same poll. */
  predicate PendingAllows(b: Bus, id: ReportId) {
    if b.pendingFile.Some? then
      PendingFileValid(b) && !FileSettled(b.Known()[b.pendingReport.value].state) && b.Known()[b.pendingReport.value].recovery == None
    else b.pendingComment == None || Expected(b) == Some(id)
  }

  predicate Reopenable(b: Bus, id: ReportId, now: Time) {
    && Readable(b, id) && PinnedUnlisted(b.Known()[id]) && PendingAllows(b, id)
    && id !in b.nonControlling && !Blocked(b.Known(), id, now)
  }

  /** A binding is stored only for a report whose transport is known. */
  predicate PinsHaveTransport(b: Bus) {
    b.registry.Some? ==> AllHaveTransport(b.registry.value)
  }

  predicate AllHaveTransport(registry: Registry) {
    forall id :: id in registry && registry[id].pin.Some? ==> registry[id].transport.Some?
  }

  // ----- a poll that does it -----

  /** The report's comment as it has to read: of the binding it was first read under, and of an unlisted type. */
  function Republished(id: ReportId, e: Entry): Comment {
    var t := if e.pin.Some? then e.pin.value.reportType else Some(Unlisted(0));
    Comment(e.commentId, Some(id), t, [], true, if e.pin.Some? then e.pin else Some(Binding(0, None, None, t, 0, 0)), true, false)
  }

  function ReopeningPoll(b: Bus, id: ReportId, now: Time): Poll
    requires id in b.Known()
  {
    Fetched([Republished(id, b.Known()[id])], map[id := Reply(0)], now, false, CodexFailed, None)
  }

  lemma ReopenedIsVisited(b: Bus, id: ReportId, now: Time)
    requires id in b.processed && Reopenable(b, id, now)
    ensures var p, e := ReopeningPoll(b, id, now), b.Known()[id];
            && PendingFileValid(b) && FileVisitOf(b, id, e, p.comments, p.files).RepliedBy?
            && FileRead(b, id, e, p.comments, p.files, now).state == RESPONSE_RECEIVED
            && FileRead(b, id, e, p.comments, p.files, now).recovery == None
            && FileRead(b, id, e, p.comments, p.files, now).transport == Some(ByFile)
  {
    hide Blocked, FileSettled;
    var c, e := Republished(id, b.Known()[id]), b.Known()[id];
    assert FirstOf([c], id) == Some(c);
    assert PinFor([c], id, e) == c.Pin();
    assert !PendingFor(b, id);
  }

  lemma ReopenedIsRead(b: Bus, id: ReportId, now: Time)
    requires id in b.processed && Reopenable(b, id, now)
    ensures var p := ReopeningPoll(b, id, now);
            var read := FilesSynced(b, p.comments, p.files, now);
            && Synced(b, p.comments) == b && PendingFileValid(b)
            && FileReplyOf(b, id, p.comments, p.files).Some?
            && id in read.Known() && read.Known()[id].state == RESPONSE_RECEIVED
            && read.Known()[id].recovery == None && read.Known()[id].transport == Some(ByFile)
  {
    hide Blocked, FileVisitOf, FileRead, PendingFileValid, PendingAllows;
    ReopenedIsVisited(b, id, now);
    var p := ReopeningPoll(b, id, now);
    assert !IsReport(p.comments[0]) && p.comments[..0] == [];
    assert LatestReport(p.comments) == None;
    var read := FilesSynced(b, p.comments, p.files, now);
    assert id in read.Known() && read.Known()[id] == FileRead(b, id, b.Known()[id], p.comments, p.files, now);
  }

  lemma ReopenedIsCurrent(b: Bus, id: ReportId, now: Time)
    requires id in b.processed && Reopenable(b, id, now)
    ensures var p := ReopeningPoll(b, id, now);
            CurrentReport(FilesSynced(b, p.comments, p.files, now), p.comments, now) == Some(p.comments[0])
  {
    hide FileSettled;
    var p := ReopeningPoll(b, id, now);
    var c, read := p.comments[0], FilesSynced(b, p.comments, p.files, now);
    ReopenedIsRead(b, id, now);
    FilesKeepBlocks(b, p.comments, p.files, id, now);
    assert MayControl(read, c, now) && Eligible(read, c, now, true);
    if b.pendingFile.Some? {
      PendingIsDropped(b, id, now);
    } else {
      FilesKeepPending(b, p.comments, p.files, now);
    }
  }

  /** Reading files blocks no report and unblocks none. */
  lemma FilesKeepBlocks(b: Bus, comments: seq<Comment>, files: map<ReportId, FileAnswer>, id: ReportId, now: Time)
    ensures Blocked(FilesSynced(b, comments, files, now).Known(), id, now) == Blocked(b.Known(), id, now)
  {
    var after := FilesSynced(b, comments, files, now).Known();
    forall r | r in b.Known()
      ensures r in after && (b.Known()[r].recovery.Some? ==> after[r].recovery == b.Known()[r].recovery)
      ensures b.Known()[r].recovery == None && after[r].recovery.Some? ==> after[r].recovery.value.child == None
    {
      assert after[r] == FileRead(b, r, b.Known()[r], comments, files, now);
    }
    hide FileRead, FileSettled;
  }

  lemma FilesKeepPending(b: Bus, comments: seq<Comment>, files: map<ReportId, FileAnswer>, now: Time)
    requires b.pendingFile == None
    ensures var read := FilesSynced(b, comments, files, now);
            && read.pendingFile == None && read.pendingComment == b.pendingComment && Expected(read) == Expected(b)
            && (read.registry.Some? <==> b.registry.Some?)
  {
    hide FileRead, FileVisitOf;
  }

  lemma PendingIsDropped(b: Bus, id: ReportId, now: Time)
    requires id in b.processed && Reopenable(b, id, now) && b.pendingFile.Some?
    ensures var p := ReopeningPoll(b, id, now);
            var read := FilesSynced(b, p.comments, p.files, now);
            read.pendingFile == None && read.pendingComment == None && read.registry.Some?
  {
    hide FileRead, Blocked, FileSettled;
    var p, pending := ReopeningPoll(b, id, now), b.pendingReport.value;
    assert p.comments[1..] == [];
    assert FirstOf(p.comments, pending) == None;
    assert FileVisitOf(b, pending, b.Known()[pending], p.comments, p.files) == Erred(false);
  }

  lemma ReopenableContinues(b: Bus, id: ReportId, now: Time)
    requires id in b.processed && Reopenable(b, id, now)
    ensures Continues(b, id, now, ReopeningPoll(b, id, now))
  {
    hide Synced, FilesSynced, FileReplyOf, CurrentReport, PendingFileValid, Reopenable, Taken, Continued;
    ReopenedIsRead(b, id, now);
    ReopenedIsCurrent(b, id, now);
  }

  // ----- and nothing else does -----

  lemma {:induction false} SyncedLeaves(b: Bus, comments: seq<Comment>, n: nat, id: ReportId)
    requires n <= |comments| && forall k :: 0 <= k < n ==> !(IsReport(comments[k]) && comments[k].reportId == Some(id))
    ensures id in SyncedUpTo(b, comments, n) <==> id in b.Known()
    ensures id in b.Known() ==> SyncedUpTo(b, comments, n)[id] == b.Known()[id]
  {
    hide Refreshed, Anchor, AnchorComment;
    if n > 0 { SyncedLeaves(b, comments, n - 1, id); }
  }

  /** A report that takes a file and is not processed keeps its pin, and is not unsettled by synchronizing. */
  lemma {:induction false} SyncedKeepsFile(b: Bus, comments: seq<Comment>, n: nat, id: ReportId)
    requires n <= |comments| && id !in b.processed && id in b.Known() && b.Known()[id].transport == Some(ByFile)
    ensures var after := SyncedUpTo(b, comments, n);
            && id in after && after[id].pin == b.Known()[id].pin && after[id].transport == Some(ByFile)
            && after[id].recovery == b.Known()[id].recovery
            && (FileSettled(b.Known()[id].state) ==> FileSettled(after[id].state))
  {
    hide Anchor, AnchorComment;
    if n > 0 { SyncedKeepsFile(b, comments, n - 1, id); }
  }

  lemma {:induction false} SyncedKeepsPin(b: Bus, comments: seq<Comment>, n: nat, id: ReportId)
    requires n <= |comments| && id in b.Known()
    ensures id in SyncedUpTo(b, comments, n) && SyncedUpTo(b, comments, n)[id].pin == b.Known()[id].pin
  {
    hide Anchor, AnchorComment;
    if n > 0 { SyncedKeepsPin(b, comments, n - 1, id); }
  }

  lemma {:induction false} NewHasNoPin(b: Bus, comments: seq<Comment>, n: nat, id: ReportId)
    requires n <= |comments| && id !in b.Known()
    ensures id in SyncedUpTo(b, comments, n) ==> SyncedUpTo(b, comments, n)[id].pin == None
  {
    hide Anchor, AnchorComment;
    if n > 0 { NewHasNoPin(b, comments, n - 1, id); }
  }

  lemma {:induction false} FoundIsThere(b: Bus, comments: seq<Comment>, id: Option<ReportId>, now: Time, ready: bool)
    ensures var r := FirstEligible(b, comments, now, ready); r.Some? ==> r.value in comments && MayControl(b, r.value, now)
    decreases |comments|, 0
  {
    if comments != [] && !Eligible(b, comments[0], now, ready) { FoundIsThere(b, comments[1..], id, now, ready); }
  }

  lemma {:induction false} LastIsThere(b: Bus, comments: seq<Comment>, id: Option<ReportId>, now: Time)
    ensures var r := LastOf(b, comments, id, now); r.Some? ==> r.value in comments && MayControl(b, r.value, now) && r.value.reportId == id
    ensures var r := LatestTyped(b, comments, now); r.Some? ==> r.value in comments && MayControl(b, r.value, now)
  {
    if comments != [] { LastIsThere(b, comments[..|comments| - 1], id, now); }
  }

  lemma CurrentIsThere(b: Bus, comments: seq<Comment>, now: Time)
    ensures var r := CurrentReport(b, comments, now); r.Some? ==> r.value in comments && MayControl(b, r.value, now)
    ensures var r := CurrentReport(b, comments, now);
            r.Some? && b.registry.Some? && (b.pendingComment.Some? || b.pendingFile.Some?) ==> r.value.reportId == Expected(b)
  {
    hide MayControl, Eligible;
    FoundIsThere(b, comments, None, now, true);
    FoundIsThere(b, comments, None, now, false);
    LastIsThere(b, comments, Expected(b), now);
  }

  lemma {:induction false} FirstIsThere(comments: seq<Comment>, id: ReportId)
    ensures var r := FirstOf(comments, id); r.Some? ==> r.value in comments && r.value.reportId == Some(id)
  {
    if comments != [] { FirstIsThere(comments[1..], id); }
  }

  /** A pin that was found is carried by every comment of the report, and is the stored one if there is one. */
  lemma PinIsShared(comments: seq<Comment>, id: ReportId, e: Entry, c: Comment)
    requires PinFor(comments, id, e).Some? && c in comments && c.reportId == Some(id)
    ensures c.Pin() == PinFor(comments, id, e) && (e.pin.Some? ==> e.pin == c.Pin())
  {
  }

  /** Only the reply file of a processed report can be handed over, after no listed comment showed the report. */
  lemma ContinuedIsRead(b: Bus, id: ReportId, now: Time, p: Poll)
    requires id in b.processed && Continues(b, id, now, p)
    ensures var synced := Synced(b, p.comments);
            var read := FilesSynced(synced, p.comments, p.files, now);
            var report := CurrentReport(read, p.comments, now);
            && PendingFileValid(synced) && FileReplyOf(synced, id, p.comments, p.files).Some?
            && report.Some? && report.value in p.comments && report.value.reportId == Some(id) && MayControl(read, report.value, now)
  {
    hide Synced, FilesSynced, FileReplyOf, CurrentReport, PendingFileValid, Continued, Taken, WithState, FirstReply, MayControl;
    var synced := Synced(b, p.comments);
    var read := FilesSynced(synced, p.comments, p.files, now);
    KeepsProcessed(b, p.comments, p.files, now);
    CurrentIsThere(read, p.comments, now);
  }

  lemma KeepsProcessed(b: Bus, comments: seq<Comment>, files: map<ReportId, FileAnswer>, now: Time)
    ensures var synced := Synced(b, comments);
            && synced == b.(registry := synced.registry)
            && FilesSynced(synced, comments, files, now).processed == b.processed
            && FilesSynced(synced, comments, files, now).nonControlling == b.nonControlling
            && (FilesSynced(synced, comments, files, now).registry.Some? <==> synced.registry.Some?)
  {
    hide SyncedUpTo, FileRead, FileVisitOf;
  }

  lemma ContinuedWasReadable(b: Bus, id: ReportId, now: Time, p: Poll)
    requires id in b.processed && Continues(b, id, now, p)
    ensures Readable(b, id) && PinnedUnlisted(b.Known()[id])
  {
    hide Polled, SyncedUpTo, FilesSynced, CurrentReport, FileSettled;
    ContinuedIsRead(b, id, now, p);
    var synced := Synced(b, p.comments);
    var report := CurrentReport(FilesSynced(synced, p.comments, p.files, now), p.comments, now).value;
    if exists c :: c in p.comments && c.Listed() && c.reportId == Some(id) { SyncedListed(b, p.comments, id); }
    SyncedLeaves(b, p.comments, |p.comments|, id);
    assert synced.Known()[id] == b.Known()[id];
    PinIsShared(p.comments, id, b.Known()[id], report);
  }

  lemma ContinuedWasAllowed(b: Bus, id: ReportId, now: Time, p: Poll)
    requires PinsHaveTransport(b) && id in b.processed && Continues(b, id, now, p)
    ensures PendingAllows(b, id) && id !in b.nonControlling && !Blocked(b.Known(), id, now)
  {
    hide Polled, SyncedUpTo, FileRead, CurrentReport, FileSettled, LastOf;
    ContinuedIsRead(b, id, now, p);
    var synced := Synced(b, p.comments);
    var read := FilesSynced(synced, p.comments, p.files, now);
    KeepsProcessed(b, p.comments, p.files, now);
    FilesKeepBlocks(synced, p.comments, p.files, id, now);
    SyncKeepsBlocks(b, p.comments, id, now);
    CurrentIsThere(read, p.comments, now);
    if b.pendingFile.Some? {
      var pending := b.pendingReport.value;
      if pending in b.Known() && b.Known()[pending].transport == Some(ByFile) {
        SyncedKeepsFile(b, p.comments, |p.comments|, pending);
      } else {
        PendingWasKnown(b, p.comments, pending);
      }
    } else {
      FilesKeepPending(synced, p.comments, p.files, now);
    }
  }

  /** A pending file is valid after synchronizing only if its report already took a file. */
  lemma PendingWasKnown(b: Bus, comments: seq<Comment>, id: ReportId)
    requires PinsHaveTransport(b)
    requires b.pendingFile.Some? && b.pendingReport == Some(id) && PendingFileValid(Synced(b, comments))
    ensures id in b.Known() && b.Known()[id].transport == Some(ByFile)
  {
    hide SyncedUpTo;
    if id in b.Known() {
      SyncedUpToKeeps(b, comments, |comments|);
      SyncedKeepsPin(b, comments, |comments|, id);
    } else {
      NewHasNoPin(b, comments, |comments|, id);
    }
  }

  lemma SyncKeepsBlocks(b: Bus, comments: seq<Comment>, id: ReportId, now: Time)
    ensures Blocked(b.Known(), id, now) ==> Blocked(Synced(b, comments).Known(), id, now)
  {
    hide SyncedUpTo;
    SyncedUpToKeeps(b, comments, |comments|);
  }

  /**
   * A processed report can be continued again exactly when it takes a reply file that was never read, or was
   * read under an unlisted type, and nothing holds it back: it is required, unsettled, without a recovery of its
   * own and not blocked by one it replaces, it may control, and nothing else is pending that cannot be dropped.
   */
  lemma ProcessedReportMayBeContinued(b: Bus, id: ReportId, now: Time)
    requires PinsHaveTransport(b) && id in b.processed
    ensures (exists p :: Continues(b, id, now, p)) <==> Reopenable(b, id, now)
  {
    hide Continues, Readable, PinnedUnlisted, PendingAllows, Blocked;
    if Reopenable(b, id, now) { ReopenableContinues(b, id, now); }
    if p :| Continues(b, id, now, p) {
      ContinuedWasReadable(b, id, now, p);
      ContinuedWasAllowed(b, id, now, p);
    }
  }

  // ----- over any sequence of polls -----

  lemma {:induction false} SyncKeepsPins(b: Bus, comments: seq<Comment>, n: nat)
    requires PinsHaveTransport(b) && n <= |comments|
    ensures PinsHaveTransport(b.(registry := Some(SyncedUpTo(b, comments, n))))
  {
    hide Refreshed, Anchor, AnchorComment;
    if n > 0 {
      SyncKeepsPins(b, comments, n - 1);
      var before, c := SyncedUpTo(b, comments, n - 1), comments[n - 1];
      if IsReport(c) {
        var id := c.reportId.value;
        var anchor := Anchor(b, comments);
        var e := if id in before then before[id] else NewEntry(b, c, anchor, AnchorComment(comments, anchor));
        RefreshedKeeps(b, comments, id, Defaulted(e, c));
      }
    }
  }

  lemma FilesKeepPins(b: Bus, comments: seq<Comment>, files: map<ReportId, FileAnswer>, now: Time)
    requires PinsHaveTransport(b)
    ensures PinsHaveTransport(FilesSynced(b, comments, files, now))
  {
    forall id | id in b.Known()
      ensures var e := FileRead(b, id, b.Known()[id], comments, files, now);
              e.transport == b.Known()[id].transport && (e.pin.Some? ==> b.Known()[id].pin.Some? || e.transport.Some?)
    {
    }
    hide FileRead, FileVisitOf;
  }

  lemma StateKeepsPins(b: Bus, id: ReportId, state: ReportState)
    requires PinsHaveTransport(b)
    ensures PinsHaveTransport(WithState(b, id, state))
  {
  }

  lemma MarkKeepsPins(b: Bus, id: ReportId, resolves: Option<ReportId>, next: Option<ReportId>)
    requires PinsHaveTransport(b)
    ensures PinsHaveTransport(MarkedApplied(b, id, resolves, next))
  {
    hide WithState, PinsHaveTransport;
    var resolved := if resolves.Some? then WithState(b, resolves.value, RESOLVED_BY_CONFIRMATION) else b;
    if resolves.Some? { StateKeepsPins(b, resolves.value, RESOLVED_BY_CONFIRMATION); }
    var final := if b.lastAction == HumanRequired then HUMAN_REQUIRED else APPLIED;
    StateKeepsPins(b, id, final);
    StateKeepsPins(resolved, id, final);
    SameRegistryKeepsPins(WithState(b, id, final), MarkedApplied(b, id, resolves, next));
    SameRegistryKeepsPins(WithState(resolved, id, final), MarkedApplied(b, id, resolves, next));
  }

  lemma SameRegistryKeepsPins(a: Bus, b: Bus)
    requires PinsHaveTransport(a)
    ensures a.registry == b.registry ==> PinsHaveTransport(b)
  {
  }

  lemma TakeKeepsPins(b: Bus, h: Handed)
    requires PinsHaveTransport(b)
    ensures PinsHaveTransport(Taken(b, h))
  {
    StateKeepsPins(b, h.report, APPLYING);
  }

  lemma PublishKeepsPins(b: Bus, id: ReportId, byFile: bool, comment: nat)
    requires PinsHaveTransport(b)
    ensures PinsHaveTransport(Published(b, id, byFile, comment))
  {
  }

  lemma HandOverKeepsPins(b: Bus, h: Handed, p: Poll)
    requires p.Fetched? && PinsHaveTransport(b)
    ensures PinsHaveTransport(HandOver(b, h, p).bus)
  {
    hide Taken, WithState, MarkedApplied, Published, PinsHaveTransport;
    StateKeepsPins(b, h.report, CONFIRMATION_BLOCKED);
    TakeKeepsPins(b, h);
    var taken := Taken(b, h);
    StateKeepsPins(taken, h.report, CONTINUATION_FAILED);
    match p.codex
    case CodexFailed =>
    case EnvelopeInvalid =>
    case ActionInvalid => SameRegistryKeepsPins(taken, taken.(lastAction := NoAction));
    case EndsWithoutReport(human) =>
      var acting := taken.(lastAction := if human then HumanRequired else NoReport);
      SameRegistryKeepsPins(taken, acting);
      MarkKeepsPins(acting, h.report, p.resolves, None);
    case Posts(report, byFile, comment) =>
      var acting := taken.(lastAction := PostReport);
      SameRegistryKeepsPins(taken, acting);
      if comment.Some? {
        PublishKeepsPins(acting, report, byFile, comment.value);
        var marked := MarkedApplied(Published(acting, report, byFile, comment.value), h.report, p.resolves, Some(report));
        MarkKeepsPins(Published(acting, report, byFile, comment.value), h.report, p.resolves, Some(report));
        SameRegistryKeepsPins(marked, marked.(lastReport := Some(report)));
      }
  }

  lemma PollKeepsPins(b: Bus, p: Poll)
    requires PinsHaveTransport(b)
    ensures PinsHaveTransport(Polled(b, p).bus)
  {
    hide SyncedUpTo, FilesSynced, HandOver, CurrentReport, FileReplyOf, FirstReply, PendingFileValid;
    if p.Fetched? {
      var synced := Synced(b, p.comments);
      SyncKeepsPins(b, p.comments, |p.comments|);
      DropKeepsPins(synced, p.now);
      var read := FilesSynced(synced, p.comments, p.files, p.now);
      FilesKeepPins(synced, p.comments, p.files, p.now);
      var report := CurrentReport(read, p.comments, p.now);
      if report.Some? && report.value.reportId.Some? {
        var id := report.value.reportId.value;
        var source, r := FileReplyOf(synced, id, p.comments, p.files), PendingOrMatching(read, p.comments, report.value, id);
        if source.Some? { HandOverKeepsPins(read, HandedFile(id, source.value), p); }
        if r.reply.Some? { HandOverKeepsPins(r.bus, HandedComment(id, r.reply.value.id), p); }
      }
    }
  }

  lemma DropKeepsPins(b: Bus, now: Time)
    requires PinsHaveTransport(b)
    ensures PinsHaveTransport(PendingFileDropped(b, now))
  {
  }

  lemma {:induction false} EventsKeepPins(events: seq<Event>)
    ensures PinsHaveTransport(AfterAll(events))
  {
    hide Polled;
    if events != [] {
      var before, e := events[..|events| - 1], events[|events| - 1];
      EventsKeepPins(before);
      if e.PollNow? { PollKeepsPins(AfterAll(before), e.poll); }
    }
  }

  /**
   * In every reachable state, then: a processed report can be continued again exactly under that condition, and
   * only if Codex has published it again for a file reply.
   */
  lemma ReachableReopening(events: seq<Event>, id: ReportId, now: Time)
    requires id in AfterAll(events).processed
    ensures (exists p :: Continues(AfterAll(events), id, now, p)) <==> Reopenable(AfterAll(events), id, now)
    ensures Reopenable(AfterAll(events), id, now) ==> id in Reopened(events)
  {
    hide AfterAll, Reopened, Polled, Reopenable, PinsHaveTransport;
    EventsKeepPins(events);
    ProcessedReportMayBeContinued(AfterAll(events), id, now);
    if p :| Continues(AfterAll(events), id, now, p) { ProcessedReportsAreNotContinued(events, p); }
  }
}
