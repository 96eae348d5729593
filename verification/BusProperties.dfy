/** Which replies the watcher hands to Codex, over any sequence of polls. */
module BusProperties {
  import opened Prelude
  import opened DayModels
  import opened ReviewerReports
  import opened ReviewerBus

  // ----- one poll -----

  lemma {:induction false} CommentFound(comments: seq<Comment>, id: nat)
    ensures CommentById(comments, id).Some? ==> CommentById(comments, id).value in comments && CommentById(comments, id).value.id == id
  {
    if comments != [] { CommentFound(comments[1..], id); }
  }

  lemma {:induction false} ReplyFound(comments: seq<Comment>, id: ReportId, after: nat)
    ensures var r := FirstReply(comments, id, after); r.Some? ==> r.value in comments && RepliesTo(r.value, id, after)
  {
    if comments != [] { ReplyFound(comments[1..], id, after); }
  }

  lemma {:induction false} EligibleFound(b: Bus, comments: seq<Comment>, now: Time, ready: bool)
    ensures var r := FirstEligible(b, comments, now, ready); r.Some? ==> Eligible(b, r.value, now, ready)
  {
    if comments != [] { EligibleFound(b, comments[1..], now, ready); }
  }

  lemma {:induction false} LastFound(b: Bus, comments: seq<Comment>, id: Option<ReportId>, now: Time)
    ensures var r := LastOf(b, comments, id, now); r.Some? ==> r.value.reportId == id
  {
    if comments != [] { LastFound(b, comments[..|comments| - 1], id, now); }
  }

  /** A comment handed over for a report replies to that report and to no other. */
  lemma HandedCommentReplies(b: Bus, p: Poll)
    requires p.Fetched? && Polled(b, p).handed.Some? && Polled(b, p).handed.value.HandedComment?
    ensures var h := Polled(b, p).handed.value;
            exists c :: c in p.comments && c.id == h.comment && c.targets == [h.report]
  {
    hide Synced, FilesSynced, CurrentReport, PendingFileDropped, PendingFileValid, Continued, Taken, WithState, FileReplyOf;
    var read := FilesSynced(Synced(b, p.comments), p.comments, p.files, p.now);
    var report := CurrentReport(read, p.comments, p.now).value;
    var id := report.reportId.value;
    ReplyFound(p.comments, id, report.id);
    if read.pendingComment.Some? { CommentFound(p.comments, read.pendingComment.value); }
    var reply := PendingOrMatching(read, p.comments, report, id).reply.value;
    assert reply in p.comments && Target(reply) == Some(id);
    assert reply.targets == [id];
  }

  // ----- what synchronizing keeps -----

  /** Entries are never lost and keep their recovery and their transport once they have one. */
  ghost predicate SyncKeeps(before: Registry, after: Registry) {
    && before.Keys <= after.Keys
    && (forall id :: id in before ==> after[id].recovery == before[id].recovery
                                      && (before[id].transport.Some? ==> after[id].transport == before[id].transport))
    && (forall id :: id in after && id !in before ==> after[id].recovery == None)
  }

  lemma {:induction false} SyncedUpToKeeps(b: Bus, comments: seq<Comment>, n: nat)
    requires n <= |comments|
    ensures SyncKeeps(b.Known(), SyncedUpTo(b, comments, n))
  {
    hide Refreshed, Anchor, AnchorComment;
    if n > 0 {
      SyncedUpToKeeps(b, comments, n - 1);
      var before, c := SyncedUpTo(b, comments, n - 1), comments[n - 1];
      if IsReport(c) {
        var id := c.reportId.value;
        var anchor := Anchor(b, comments);
        var e := if id in before then before[id] else NewEntry(b, c, anchor, AnchorComment(comments, anchor));
        RefreshedKeeps(b, comments, id, Defaulted(e, c));
      }
    }
  }

  lemma RefreshedKeeps(b: Bus, comments: seq<Comment>, id: ReportId, e: Entry)
    ensures Refreshed(b, comments, id, e) == e.(state := Refreshed(b, comments, id, e).state)
    ensures id in b.processed ==> FileSettled(Refreshed(b, comments, id, e).state) || e.transport == Some(ByComment)
  {
  }

  /** A processed report with a listed comment is settled again by every synchronization, or takes comments. */
  lemma {:induction false} SyncedSettles(b: Bus, comments: seq<Comment>, n: nat, id: ReportId)
    requires n <= |comments| && id in b.processed
    ensures var after := SyncedUpTo(b, comments, n);
            && (id in b.Known() && id in after && !FileSettled(after[id].state) && after[id].transport != Some(ByComment) ==>
                  after[id].state == b.Known()[id].state)
            && (forall k :: 0 <= k < n && IsReport(comments[k]) && comments[k].reportId == Some(id) ==>
                  id in after && (FileSettled(after[id].state) || after[id].transport == Some(ByComment)))
  {
    hide Refreshed, Anchor, AnchorComment, FileSettled;
    if n > 0 {
      SyncedSettles(b, comments, n - 1, id);
      var before, c := SyncedUpTo(b, comments, n - 1), comments[n - 1];
      if IsReport(c) {
        var anchor := Anchor(b, comments);
        var x := c.reportId.value;
        var e := if x in before then before[x] else NewEntry(b, c, anchor, AnchorComment(comments, anchor));
        RefreshedKeeps(b, comments, x, Defaulted(e, c));
      }
    }
  }

  // ----- the invariant over polls -----

  /** A processed report stays settled, unless it only takes comments or was published again for a file reply. */
  ghost predicate ProcessedOk(b: Bus, reopened: set<ReportId>) {
    forall id :: id in b.processed ==>
      id in b.Known() && (FileSettled(b.Known()[id].state) || b.Known()[id].transport == Some(ByComment) || id in reopened)
  }

  /** A pending comment is for a report without a recovery, unless that report takes a file. */
  ghost predicate PendingOk(b: Bus) {
    b.pendingComment.Some? && b.pendingReport.Some? && b.pendingReport.value in b.Known()
    && b.Known()[b.pendingReport.value].transport != Some(ByFile) ==>
      b.Known()[b.pendingReport.value].recovery == None
  }

  ghost predicate BusOk(b: Bus, reopened: set<ReportId>) { ProcessedOk(b, reopened) && PendingOk(b) }

  lemma SyncedOk(b: Bus, comments: seq<Comment>, reopened: set<ReportId>)
    requires BusOk(b, reopened)
    ensures var b' := Synced(b, comments);
            && b' == b.(registry := b'.registry) && SyncKeeps(b.Known(), b'.Known()) && BusOk(b', reopened)
  {
    hide SyncedUpTo, FileSettled;
    SyncedUpToKeeps(b, comments, |comments|);
    forall id | id in b.processed
      ensures var after := Synced(b, comments).Known();
              id in after && (FileSettled(after[id].state) || after[id].transport == Some(ByComment) || id in reopened)
    {
      SyncedSettles(b, comments, |comments|, id);
    }
  }

  lemma SyncedListed(b: Bus, comments: seq<Comment>, id: ReportId)
    requires id in b.processed && exists c :: c in comments && c.Listed() && c.reportId == Some(id)
    ensures var after := Synced(b, comments).Known();
            id in after && (FileSettled(after[id].state) || after[id].transport == Some(ByComment))
  {
    var c :| c in comments && c.Listed() && c.reportId == Some(id);
    var k :| 0 <= k < |comments| && comments[k] == c;
    SyncedSettles(b, comments, |comments|, id);
    LatestExists(comments, k);
  }

  lemma {:induction false} LatestExists(comments: seq<Comment>, k: nat)
    requires k < |comments| && IsReport(comments[k])
    ensures LatestReport(comments).Some?
  {
    if k < |comments| - 1 && !IsReport(comments[|comments| - 1]) { LatestExists(comments[..|comments| - 1], k); }
  }

  lemma FilesOk(b: Bus, comments: seq<Comment>, files: map<ReportId, FileAnswer>, now: Time, reopened: set<ReportId>)
    requires BusOk(b, reopened)
    ensures var b' := FilesSynced(b, comments, files, now);
            && BusOk(b', reopened)
            && b'.processed == b.processed && b'.pendingComment == b.pendingComment && b'.outstanding == b.outstanding
            && b'.Known().Keys == b.Known().Keys && (b'.registry.Some? <==> b.registry.Some?)
            && (forall id :: id in b.Known() ==>
                  && b'.Known()[id].transport == b.Known()[id].transport
                  && (b.Known()[id].transport != Some(ByFile) ==> b'.Known()[id] == b.Known()[id])
                  && (b'.Known()[id].recovery == None ==> b.Known()[id].recovery == None))
            && (b'.pendingFile.Some? ==> b'.pendingFile == b.pendingFile && b'.pendingReport == b.pendingReport)
            && (b'.pendingReport.Some? ==> b'.pendingReport == b.pendingReport)
  {
    forall id | id in b.Known()
      ensures var e, e' := b.Known()[id], FileRead(b, id, b.Known()[id], comments, files, now);
              && e'.transport == e.transport && (e.transport != Some(ByFile) || FileSettled(e.state) ==> e' == e)
              && (e'.recovery == None ==> e.recovery == None)
    {
      VisitKeeps(b, id, b.Known()[id], comments, files, now);
    }
    hide FileRead, FileVisitOf, FileSettled;
  }

  lemma VisitKeeps(b: Bus, id: ReportId, e: Entry, comments: seq<Comment>, files: map<ReportId, FileAnswer>, now: Time)
    ensures var e' := FileRead(b, id, e, comments, files, now);
            && e'.transport == e.transport && (e.transport != Some(ByFile) || FileSettled(e.state) ==> e' == e)
            && (e'.recovery == None ==> e.recovery == None)
  {
  }

  lemma DroppedOk(b: Bus, now: Time, reopened: set<ReportId>)
    requires BusOk(b, reopened)
    ensures BusOk(PendingFileDropped(b, now), reopened)
  {
  }

  // ----- what may be handed over -----

  /** The report of a reply that is about to be handed over. */
  ghost predicate MayHand(b: Bus, reopened: set<ReportId>, h: Handed) {
    && (h.report in b.processed ==> h.HandedFile? && h.report in reopened)
    && (h.report in b.Known() ==> b.Known()[h.report].recovery == None)
  }

  lemma WithStateOk(b: Bus, id: ReportId, state: ReportState, reopened: set<ReportId>)
    requires BusOk(b, reopened) && (id in b.processed ==> FileSettled(state) || id in reopened)
    ensures var b' := WithState(b, id, state);
            && BusOk(b', reopened) && b' == b.(registry := b'.registry) && b'.registry.Some? && id in b'.Known()
            && b'.Known()[id].recovery == (if id in b.Known() then b.Known()[id].recovery else None)
            && b'.Known()[id].state == state
  {
    hide FileSettled;
  }

  lemma TakenOk(b: Bus, h: Handed, reopened: set<ReportId>)
    requires BusOk(b, reopened) && MayHand(b, reopened, h)
    ensures BusOk(Taken(b, h), reopened) && Taken(b, h).processed == b.processed
  {
    WithStateOk(b, h.report, APPLYING, reopened);
    hide FileSettled, WithState;
  }

  lemma PublishedOk(b: Bus, id: ReportId, byFile: bool, comment: nat, reopened: set<ReportId>)
    requires ProcessedOk(b, reopened) && (byFile && id in b.processed ==> id in reopened)
    ensures ProcessedOk(Published(b, id, byFile, comment), reopened)
    ensures Published(b, id, byFile, comment).processed == b.processed
  {
    hide FileSettled;
  }

  lemma MarkedOk(b: Bus, id: ReportId, resolves: Option<ReportId>, next: Option<ReportId>, reopened: set<ReportId>)
    requires ProcessedOk(b, reopened)
    ensures BusOk(MarkedApplied(b, id, resolves, next), reopened)
    ensures MarkedApplied(b, id, resolves, next).processed == b.processed + {id}
  {
    SettledStates();
    hide FileSettled;
  }

  lemma ContinuedOk(b: Bus, h: Handed, p: Poll, reopened: set<ReportId>)
    requires p.Fetched? && BusOk(b, reopened) && MayHand(b, reopened, h)
    requires HandOver(b, h, p).handed == None ==> h.report !in b.processed || h.report in reopened
    ensures BusOk(HandOver(b, h, p).bus, ReopenedBy(b, p, HandOver(b, h, p), reopened))
    ensures b.processed <= HandOver(b, h, p).bus.processed
  {
    WithStateOk(b, h.report, CONFIRMATION_BLOCKED, reopened);
    TakenOk(b, h, reopened);
    var taken := Taken(b, h);
    var after := ReopenedBy(b, p, HandOver(b, h, p), reopened);
    WithStateOk(taken, h.report, CONTINUATION_FAILED, reopened);
    hide FileSettled, Taken, WithState, Published, MarkedApplied, ProcessedOk;
    if p.confirmationFails {
    } else {
      match p.codex
      case CodexFailed =>
      case EnvelopeInvalid =>
      case ActionInvalid => ActionOk(taken, NoAction, reopened);
      case EndsWithoutReport(human) =>
        var acting := taken.(lastAction := if human then HumanRequired else NoReport);
        ActionOk(taken, acting.lastAction, reopened);
        MarkedOk(acting, h.report, p.resolves, None, reopened);
      case Posts(report, byFile, comment) =>
        var acting := taken.(lastAction := PostReport);
        ActionOk(taken, PostReport, reopened);
        if comment.Some? {
          WiderOk(acting, reopened, after);
          PublishedOk(acting, report, byFile, comment.value, after);
          MarkedOk(Published(acting, report, byFile, comment.value), h.report, p.resolves, Some(report), after);
          LastReportOk(MarkedApplied(Published(acting, report, byFile, comment.value), h.report, p.resolves, Some(report)), report, after);
        }
    }
  }

  lemma ActionOk(b: Bus, a: Action, reopened: set<ReportId>)
    requires BusOk(b, reopened)
    ensures BusOk(b.(lastAction := a), reopened)
  {
  }

  lemma LastReportOk(b: Bus, id: ReportId, reopened: set<ReportId>)
    requires BusOk(b, reopened)
    ensures BusOk(b.(lastReport := Some(id)), reopened)
  {
  }

  lemma WiderOk(b: Bus, some: set<ReportId>, more: set<ReportId>)
    requires BusOk(b, some) && some <= more
    ensures BusOk(b, more)
  {
  }

  lemma SettledStates()
    ensures FileSettled(APPLIED) && FileSettled(HUMAN_REQUIRED) && FileSettled(RESOLVED_BY_CONFIRMATION)
  {
  }

  /** The processed reports that a poll published again for a file reply. */
  function ReopenedBy(b: Bus, p: Poll, r: Result, reopened: set<ReportId>): set<ReportId> {
    if r.handed.Some? && p.Fetched? && p.codex.Posts? && p.codex.comment.Some? && p.codex.byFile && p.codex.report in b.processed
    then reopened + {p.codex.report} else reopened
  }

  lemma FileReplyMayBeHanded(b: Bus, p: Poll, id: ReportId, reopened: set<ReportId>)
    requires p.Fetched? && BusOk(b, reopened) && FileReplyOf(b, id, p.comments, p.files).Some?
    ensures var read := FilesSynced(b, p.comments, p.files, p.now);
            && MayHand(read, reopened, HandedFile(id, FileReplyOf(b, id, p.comments, p.files).value))
            && !FileSettled(b.Known()[id].state) && b.Known()[id].recovery == None
  {
    var e := b.Known()[id];
    assert FilesSynced(b, p.comments, p.files, p.now).Known()[id] == FileRead(b, id, e, p.comments, p.files, p.now);
    FilesOk(b, p.comments, p.files, p.now, reopened);
  }

  lemma CommentReplyMayBeHanded(b: Bus, p: Poll, report: Comment, id: ReportId, reopened: set<ReportId>)
    requires p.Fetched? && BusOk(b, reopened) && CurrentReport(b, p.comments, p.now) == Some(report) && report.reportId == Some(id)
    requires id in b.Known() ==> b.Known()[id].transport != Some(ByFile)
    requires b.pendingFile.Some? ==> Expected(b).Some? && Expected(b).value in b.Known() && b.Known()[Expected(b).value].transport == Some(ByFile)
    requires PendingOrMatching(b, p.comments, report, id).reply.Some?
    ensures var reply := PendingOrMatching(b, p.comments, report, id).reply.value;
            MayHand(b, reopened, HandedComment(id, reply.id)) && id !in b.processed
    ensures PendingOrMatching(b, p.comments, report, id).bus == b
  {
    hide FileSettled, ProcessedOk;
    EligibleFound(b, p.comments, p.now, true);
    EligibleFound(b, p.comments, p.now, false);
    LastFound(b, p.comments, Expected(b), p.now);
  }

  /** One poll keeps the invariant, and hands over only what it may. */
  lemma PollOk(b: Bus, p: Poll, reopened: set<ReportId>)
    requires BusOk(b, reopened)
    ensures var r := Polled(b, p);
            && BusOk(r.bus, ReopenedBy(b, p, r, reopened)) && b.processed <= r.bus.processed
            && (r.handed.Some? ==>
                  && (r.handed.value.report in b.processed ==>
                        && r.handed.value.HandedFile? && r.handed.value.report in reopened
                        && forall c :: c in p.comments && c.reportId == Some(r.handed.value.report) ==> !c.Listed())
                  && (r.handed.value.report in b.Known() ==> b.Known()[r.handed.value.report].recovery == None))
  {
    hide Synced, FilesSynced, PendingFileDropped, HandOver, CurrentReport, FileReplyOf, PendingOrMatching, FileSettled,
         ProcessedOk, PendingOk;
    if p.Fetched? {
      SyncedOk(b, p.comments, reopened);
      var synced := Synced(b, p.comments);
      DroppedOk(synced, p.now, reopened);
      DroppedProcessed(synced, p.now);
      FilesOk(synced, p.comments, p.files, p.now, reopened);
      var read := FilesSynced(synced, p.comments, p.files, p.now);
      var report := CurrentReport(read, p.comments, p.now);
      if PendingFileValid(synced) && report.Some? && report.value.reportId.Some? {
        ControlledOk(b, synced, p, report.value, report.value.reportId.value, reopened);
      }
    }
  }

  lemma DroppedProcessed(b: Bus, now: Time)
    ensures PendingFileDropped(b, now).processed == b.processed
  {
  }

  lemma ControlledOk(b: Bus, synced: Bus, p: Poll, report: Comment, id: ReportId, reopened: set<ReportId>)
    requires p.Fetched? && BusOk(b, reopened) && synced == Synced(b, p.comments) && PendingFileValid(synced)
    requires CurrentReport(FilesSynced(synced, p.comments, p.files, p.now), p.comments, p.now) == Some(report) && report.reportId == Some(id)
    ensures var r := Controlled(FilesSynced(synced, p.comments, p.files, p.now), synced, report, id, p);
            && BusOk(r.bus, ReopenedBy(b, p, r, reopened)) && b.processed <= r.bus.processed
            && (r.handed.Some? ==>
                  && (r.handed.value.report in b.processed ==>
                        && r.handed.value.HandedFile? && r.handed.value.report in reopened
                        && forall c :: c in p.comments && c.reportId == Some(r.handed.value.report) ==> !c.Listed())
                  && (r.handed.value.report in b.Known() ==> b.Known()[r.handed.value.report].recovery == None))
  {
    hide Synced, FilesSynced, CurrentReport, FileReplyOf, PendingOrMatching, FileSettled, Continued, Taken, WithState,
         ProcessedOk, PendingOk, FileVisitOf;
    SyncedOk(b, p.comments, reopened);
    FilesOk(synced, p.comments, p.files, p.now, reopened);
    var read := FilesSynced(synced, p.comments, p.files, p.now);
    if id in read.Known() && read.Known()[id].transport == Some(ByFile) {
      var source := FileReplyOf(synced, id, p.comments, p.files);
      if source.Some? {
        FileReplyMayBeHanded(synced, p, id, reopened);
        if id in b.processed && exists c :: c in p.comments && c.Listed() && c.reportId == Some(id) { SyncedListed(b, p.comments, id); }
        ContinuedOk(read, HandedFile(id, source.value), p, reopened);
        HandedIs(read, HandedFile(id, source.value), p);
      }
    } else {
      ExpectedTakesFile(synced, p, reopened);
      var r := PendingOrMatching(read, p.comments, report, id);
      if r.reply.Some? {
        CommentReplyMayBeHanded(read, p, report, id, reopened);
        ContinuedOk(read, HandedComment(id, r.reply.value.id), p, reopened);
        HandedIs(read, HandedComment(id, r.reply.value.id), p);
      } else {
        NoReplyOk(read, p, report, id, reopened);
      }
    }
  }

  lemma HandedIs(b: Bus, h: Handed, p: Poll)
    requires p.Fetched?
    ensures HandOver(b, h, p).handed.Some? ==> HandOver(b, h, p).handed == Some(h)
  {
  }

  lemma ExpectedTakesFile(synced: Bus, p: Poll, reopened: set<ReportId>)
    requires p.Fetched? && BusOk(synced, reopened) && PendingFileValid(synced)
    ensures var read := FilesSynced(synced, p.comments, p.files, p.now);
            read.pendingFile.Some? ==>
              Expected(read).Some? && Expected(read).value in read.Known() && read.Known()[Expected(read).value].transport == Some(ByFile)
  {
    FilesOk(synced, p.comments, p.files, p.now, reopened);
    hide FilesSynced, BusOk;
  }

  lemma NoReplyOk(b: Bus, p: Poll, report: Comment, id: ReportId, reopened: set<ReportId>)
    requires p.Fetched? && BusOk(b, reopened) && PendingOrMatching(b, p.comments, report, id).reply == None
    ensures BusOk(PendingOrMatching(b, p.comments, report, id).bus, reopened) && BusOk(b.(outstanding := Some(id)), reopened)
    ensures PendingOrMatching(b, p.comments, report, id).bus.processed == b.processed
  {
    hide FileSettled;
  }

  // ----- any sequence of polls -----

  /** A poll, or the recovery worker moving the recoveries there are. */
  datatype Event = PollNow(poll: Poll) | MoveRecoveries(registry: Registry)

  predicate MovesRecoveries(before: Registry, after: Registry) {
    && after.Keys == before.Keys
    && forall id :: id in before ==>
         && after[id] == before[id].(recovery := after[id].recovery)
         && (after[id].recovery.Some? <==> before[id].recovery.Some?)
  }

  function After(b: Bus, e: Event): Result {
    match e
    case PollNow(p) => Polled(b, p)
    case MoveRecoveries(registry) =>
      Result(if b.registry.Some? && MovesRecoveries(b.registry.value, registry) then b.(registry := Some(registry)) else b, None)
  }

  function AfterAll(events: seq<Event>): Bus {
    if events == [] then FRESH else After(AfterAll(events[..|events| - 1]), events[|events| - 1]).bus
  }

  /** The reports that were published again, for a file reply, after they had been processed. */
  function Reopened(events: seq<Event>): set<ReportId> {
    if events == [] then {}
    else
      var b, e := AfterAll(events[..|events| - 1]), events[|events| - 1];
      if e.PollNow? then ReopenedBy(b, e.poll, Polled(b, e.poll), Reopened(events[..|events| - 1])) else Reopened(events[..|events| - 1])
  }

  lemma MoveOk(b: Bus, registry: Registry, reopened: set<ReportId>)
    requires BusOk(b, reopened)
    ensures BusOk(After(b, MoveRecoveries(registry)).bus, reopened)
  {
    hide FileSettled;
  }

  lemma {:induction false} EventsOk(events: seq<Event>)
    ensures BusOk(AfterAll(events), Reopened(events))
  {
    hide Polled, BusOk, ReopenedBy;
    if events == [] {
      FreshOk();
    } else {
      var b, e := AfterAll(events[..|events| - 1]), events[|events| - 1];
      EventsOk(events[..|events| - 1]);
      match e
      case PollNow(p) => PollOk(b, p, Reopened(events[..|events| - 1]));
      case MoveRecoveries(registry) => MoveOk(b, registry, Reopened(events[..|events| - 1]));
    }
  }

  lemma FreshOk()
    ensures BusOk(FRESH, {})
  {
  }

  /**
   * After any polls: the reply of a report that was already processed is handed over only as a file, only if
   * Codex published that report again for a file reply since, and only while no comment shows its type.
   */
  lemma ProcessedReportsAreNotContinued(events: seq<Event>, p: Poll)
    requires Polled(AfterAll(events), p).handed.Some?
    ensures var b, h := AfterAll(events), Polled(AfterAll(events), p).handed.value;
            h.report in b.processed ==>
              && h.HandedFile? && h.report in Reopened(events) && p.Fetched?
              && forall c :: c in p.comments && c.reportId == Some(h.report) ==> !c.Listed()
  {
    hide Polled, BusOk, ReopenedBy;
    EventsOk(events);
    PollOk(AfterAll(events), p, Reopened(events));
    HandedWasFetched(AfterAll(events), p);
  }

  lemma HandedWasFetched(b: Bus, p: Poll)
    ensures Polled(b, p).handed.Some? ==> p.Fetched?
  {
  }

  /** After any polls: a report with a transport recovery never has its own reply handed over. */
  lemma RecoveredReportsAreNotContinued(events: seq<Event>, p: Poll)
    requires Polled(AfterAll(events), p).handed.Some?
    ensures var b, h := AfterAll(events), Polled(AfterAll(events), p).handed.value;
            h.report in b.Known() ==> b.Known()[h.report].recovery == None
  {
    hide Polled, BusOk, ReopenedBy;
    EventsOk(events);
    PollOk(AfterAll(events), p, Reopened(events));
  }

  /** What was reopened had been processed, was published by Codex in an earlier poll, and takes a file. */
  lemma {:induction false} ReopenedWasPublished(events: seq<Event>, id: ReportId) returns (k: nat)
    requires id in Reopened(events)
    ensures k < |events| && events[k].PollNow? && events[k].poll.Fetched? && events[k].poll.codex.Posts?
    ensures events[k].poll.codex.report == id && events[k].poll.codex.byFile && events[k].poll.codex.comment.Some?
    ensures id in AfterAll(events[..k]).processed
  {
    hide Polled;
    var n := |events| - 1;
    if id in Reopened(events[..n]) {
      k := ReopenedWasPublished(events[..n], id);
      assert events[..n][..k] == events[..k];
    } else {
      k := n;
    }
  }
}
