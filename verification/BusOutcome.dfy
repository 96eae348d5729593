/** What one poll makes of the registry: of every listed report, of every reply file, and of a poll that hands nothing over. */
module BusOutcome {
  import opened Prelude
  import opened DayModels
  import opened ReviewerReports
  import opened ReviewerBus
  import opened BusProperties
  import opened BusReopening
  import opened BusContinuation

  // ----- listed reports -----

  /** Comment `k` is the first that lists this report. */
  predicate FirstListed(comments: seq<Comment>, id: ReportId, k: nat) {
    && k < |comments| && IsReport(comments[k]) && comments[k].reportId == Some(id)
    && forall j :: 0 <= j < k ==> !(IsReport(comments[j]) && comments[j].reportId == Some(id))
  }

  predicate LastListed(comments: seq<Comment>, k: nat) {
    k < |comments| && IsReport(comments[k]) && forall j :: k < j < |comments| ==> !IsReport(comments[j])
  }

  /** The report whose reply is waited for when a registry is first made. */
  ghost predicate IsAnchor(b: Bus, comments: seq<Comment>, id: ReportId) {
    if b.outstanding.Some? then b.outstanding == Some(id)
    else if b.pendingReport.Some? then b.pendingReport == Some(id)
    else exists k: nat :: LastListed(comments, k) && comments[k].reportId == Some(id)
  }

  /** On the first load a report from before the anchor's comment is history. */
  ghost predicate IsHistory(b: Bus, comments: seq<Comment>, c: Comment) {
    b.registry == None && exists a, k: nat :: IsAnchor(b, comments, a) && FirstListed(comments, a, k) && c.id < comments[k].id
  }

  lemma {:induction false} LatestIsLast(comments: seq<Comment>)
    ensures var c := LatestReport(comments);
            && (c.Some? ==> exists k: nat :: LastListed(comments, k) && comments[k] == c.value)
            && (c == None ==> forall k :: 0 <= k < |comments| ==> !IsReport(comments[k]))
  {
    if comments != [] {
      var n := |comments| - 1;
      if IsReport(comments[n]) {
        assert LastListed(comments, n);
      } else {
        LatestIsLast(comments[..n]);
        if LatestReport(comments).Some? {
          var k: nat :| LastListed(comments[..n], k) && comments[..n][k] == LatestReport(comments).value;
          assert LastListed(comments, k);
        }
      }
    }
  }

  lemma AnchorIs(b: Bus, comments: seq<Comment>, id: ReportId)
    ensures Anchor(b, comments) == Some(id) <==> IsAnchor(b, comments, id)
  {
    hide IsReport;
    LatestIsLast(comments);
    if b.outstanding == None && b.pendingReport == None {
      if k: nat :| LastListed(comments, k) && comments[k].reportId == Some(id) {
        if j: nat :| LastListed(comments, j) && comments[j] == LatestReport(comments).value { assert j == k; }
      }
      ReportHasId(comments);
    }
  }

  lemma ReportHasId(comments: seq<Comment>)
    ensures forall c :: c in comments && IsReport(c) ==> c.reportId.Some?
  {
  }

  lemma {:induction false} AnchorCommentIs(comments: seq<Comment>, id: ReportId)
    ensures AnchorComment(comments, Some(id)) > 0 ==> exists k: nat :: FirstListed(comments, id, k) && comments[k].id == AnchorComment(comments, Some(id))
    ensures forall k: nat :: FirstListed(comments, id, k) ==> comments[k].id == AnchorComment(comments, Some(id))
  {
    hide IsReport;
    if comments != [] && !(IsReport(comments[0]) && comments[0].reportId == Some(id)) {
      AnchorCommentIs(comments[1..], id);
      if AnchorComment(comments, Some(id)) > 0 {
        var k: nat :| FirstListed(comments[1..], id, k) && comments[1..][k].id == AnchorComment(comments, Some(id));
        assert FirstListed(comments, id, k + 1) by { assert forall j :: 1 <= j < k + 1 ==> comments[j] == comments[1..][j - 1]; }
      }
      forall k: nat | FirstListed(comments, id, k) ensures comments[k].id == AnchorComment(comments, Some(id)) {
        assert k > 0;
        assert FirstListed(comments[1..], id, k - 1) by { assert forall j :: 0 <= j < k - 1 ==> comments[1..][j] == comments[j + 1]; }
      }
    } else if comments != [] {
      assert FirstListed(comments, id, 0);
    }
  }

  /** The entry before its state is looked at: what is known, completed by the report, or a new one. */
  ghost predicate Listed(b: Bus, comments: seq<Comment>, id: ReportId, c: Comment, e: Entry) {
    && (id in b.Known() ==>
          e == b.Known()[id].(required := if b.Known()[id].required == None then Some(c.responseRequired) else b.Known()[id].required,
                              transport := if b.Known()[id].transport == None then Some(if c.byFile then ByFile else ByComment) else b.Known()[id].transport))
    && (id !in b.Known() ==>
          && e == Entry(c.id, e.state, Some(c.responseRequired), Some(if c.byFile then ByFile else ByComment), None, false, None, None)
          && (e.state == WAITING_RESPONSE <==> IsAnchor(b, comments, id))
          && (e.state == HISTORICAL_NOT_REPLAYED <==> !IsAnchor(b, comments, id) && IsHistory(b, comments, c))
          && e.state in {WAITING_RESPONSE, HISTORICAL_NOT_REPLAYED, QUEUED})
  }

  /** A later comment that names this report, and only this one, as what it replies to. */
  predicate IsReply(c: Comment, id: ReportId, e: Entry) { c.id > e.commentId && c.targets == [id] }

  /** Why a synchronization sets a state, in the order in which the reasons count. */
  predicate Discounted(b: Bus, id: ReportId) { id in b.nonControlling }

  predicate Done(b: Bus, id: ReportId, e: Entry) { id in b.processed && e.state != HUMAN_REQUIRED && e.state != RESOLVED_BY_CONFIRMATION }

  predicate AsksNothing(e: Entry) { e.required == Some(false) && e.transport == Some(ByComment) && e.state != HISTORICAL_NOT_REPLAYED }

  predicate Answered(comments: seq<Comment>, id: ReportId, e: Entry) {
    && e.transport == Some(ByComment) && (e.state == QUEUED || e.state == WAITING_RESPONSE || e.state == RESPONSE_RECEIVED)
    && exists c :: c in comments && IsReply(c, id, e)
  }

  predicate StateAfter(b: Bus, comments: seq<Comment>, id: ReportId, e: Entry, s: ReportState) {
    && (Discounted(b, id) ==> s == NON_CONTROLLING)
    && (!Discounted(b, id) && Done(b, id, e) ==>
          s == if b.lastAction == HumanRequired && b.lastReport == Some(id) then HUMAN_REQUIRED else APPLIED)
    && (!Discounted(b, id) && !Done(b, id, e) && AsksNothing(e) ==>
          s == if exists c :: c in comments && IsReply(c, id, e) && c.acknowledges then ACKNOWLEDGED else NOT_REQUIRED)
    && (!Discounted(b, id) && !Done(b, id, e) && !AsksNothing(e) ==> s == if Answered(comments, id, e) then RESPONSE_RECEIVED else e.state)
  }

  /** A processed report that asks for no reply, and for which a person was asked: it changes each time it is listed. */
  predicate Flickers(b: Bus, id: ReportId, e: Entry) {
    && !Discounted(b, id) && id in b.processed && e.required == Some(false) && e.transport == Some(ByComment)
    && (e.state == HUMAN_REQUIRED || e.state == RESOLVED_BY_CONFIRMATION || (b.lastAction == HumanRequired && b.lastReport == Some(id)))
  }

  lemma RefreshedState(b: Bus, comments: seq<Comment>, id: ReportId, e: Entry)
    ensures var r := Refreshed(b, comments, id, e);
            && r == e.(state := r.state) && StateAfter(b, comments, id, e, r.state)
            && (!Flickers(b, id, e) ==> Refreshed(b, comments, id, r) == r)
  {
    assert forall c: Comment :: IsReply(c, id, e) <==> RepliesTo(c, id, e.commentId);
    var r := Refreshed(b, comments, id, e);
    assert forall c: Comment :: IsReply(c, id, r) <==> RepliesTo(c, id, r.commentId);
  }

  /** Comment `k` is the only one of the first `n` that lists the report. */
  predicate NotAgain(comments: seq<Comment>, n: nat, id: ReportId, k: nat)
    requires n <= |comments|
  {
    forall j :: k < j < n ==> !(IsReport(comments[j]) && comments[j].reportId == Some(id))
  }

  lemma NewIsListed(b: Bus, comments: seq<Comment>, id: ReportId, c: Comment)
    requires id !in b.Known() && IsReport(c) && c.reportId == Some(id)
    ensures var anchor := Anchor(b, comments);
            Listed(b, comments, id, c, Defaulted(NewEntry(b, c, anchor, AnchorComment(comments, anchor)), c))
  {
    hide IsAnchor, IsReport;
    AnchorIs(b, comments, id);
    var anchor := Anchor(b, comments);
    if anchor.Some? {
      AnchorIs(b, comments, anchor.value);
      AnchorCommentIs(comments, anchor.value);
    } else {
      NoAnchorComment(comments);
    }
    forall a ensures IsAnchor(b, comments, a) <==> anchor == Some(a) { AnchorIs(b, comments, a); }
    if anchor.Some? && c.id < AnchorComment(comments, anchor) {
      var k: nat :| FirstListed(comments, anchor.value, k) && comments[k].id == AnchorComment(comments, Some(anchor.value));
      assert IsAnchor(b, comments, anchor.value) && c.id < comments[k].id;
    }
  }

  lemma {:induction false} NoAnchorComment(comments: seq<Comment>)
    ensures AnchorComment(comments, None) == 0
  {
    if comments != [] { NoAnchorComment(comments[1..]); }
  }

  /** However often a report is listed, its entry is the one its first comment gives it, with its state brought up to date. */
  lemma {:induction false} SyncedEntry(b: Bus, comments: seq<Comment>, n: nat, id: ReportId, k: nat) returns (e: Entry)
    requires n <= |comments| && FirstListed(comments, id, k) && k < n
    ensures Listed(b, comments, id, comments[k], e) && id in SyncedUpTo(b, comments, n)
    ensures var r := SyncedUpTo(b, comments, n)[id];
            && r == e.(state := r.state) && r.required.Some? && r.transport.Some?
            && (!Flickers(b, id, e) || NotAgain(comments, n, id, k) ==> r == Refreshed(b, comments, id, e))
  {
    hide Anchor, AnchorComment, NewEntry, Refreshed, IsReport, Listed;
    var c := comments[n - 1];
    ReportHasId(comments);
    if k == n - 1 {
      NotListedYet(b, comments, n - 1, id);
      var anchor := Anchor(b, comments);
      e := Defaulted(if id in b.Known() then b.Known()[id] else NewEntry(b, c, anchor, AnchorComment(comments, anchor)), c);
      if id !in b.Known() { NewIsListed(b, comments, id, c); } else { KnownIsListed(b, comments, id, c); }
      RefreshedState(b, comments, id, e);
    } else {
      e := SyncedEntry(b, comments, n - 1, id, k);
      RefreshedState(b, comments, id, e);
      RefreshedState(b, comments, id, SyncedUpTo(b, comments, n - 1)[id]);
    }
  }

  lemma KnownIsListed(b: Bus, comments: seq<Comment>, id: ReportId, c: Comment)
    requires id in b.Known()
    ensures Listed(b, comments, id, c, Defaulted(b.Known()[id], c))
  {
  }

  lemma NotListedYet(b: Bus, comments: seq<Comment>, n: nat, id: ReportId)
    requires n < |comments| && FirstListed(comments, id, n)
    ensures id in SyncedUpTo(b, comments, n) <==> id in b.Known()
    ensures id in b.Known() ==> SyncedUpTo(b, comments, n)[id] == b.Known()[id]
  {
    SyncedLeaves(b, comments, n, id);
  }

  /** What synchronizing makes of a listed report, and that it leaves every other one alone. */
  lemma SynchronizedReport(b: Bus, comments: seq<Comment>, id: ReportId, k: nat) returns (e: Entry)
    requires FirstListed(comments, id, k)
    ensures Listed(b, comments, id, comments[k], e) && id in Synced(b, comments).Known()
    ensures var r := Synced(b, comments).Known()[id];
            r == e.(state := r.state) && (!Flickers(b, id, e) || NotAgain(comments, |comments|, id, k) ==> StateAfter(b, comments, id, e, r.state))
  {
    hide SyncedUpTo, Refreshed, IsReport, Listed, StateAfter;
    e := SyncedEntry(b, comments, |comments|, id, k);
    RefreshedState(b, comments, id, e);
    LatestExists(comments, k);
  }

  lemma UnlistedIsLeft(b: Bus, comments: seq<Comment>, id: ReportId)
    requires forall k: nat :: !FirstListed(comments, id, k)
    ensures id in Synced(b, comments).Known() <==> id in b.Known()
    ensures id in b.Known() ==> Synced(b, comments).Known()[id] == b.Known()[id]
    ensures Synced(b, comments) == b.(registry := Synced(b, comments).registry)
  {
    hide SyncedUpTo, IsReport;
    if k :| 0 <= k < |comments| && IsReport(comments[k]) && comments[k].reportId == Some(id) { ListedFirst(comments, id, k); }
    SyncedLeaves(b, comments, |comments|, id);
  }

  lemma {:induction false} ListedFirst(comments: seq<Comment>, id: ReportId, k: nat)
    requires k < |comments| && IsReport(comments[k]) && comments[k].reportId == Some(id)
    ensures exists j: nat :: FirstListed(comments, id, j)
    decreases k
  {
    if j :| 0 <= j < k && IsReport(comments[j]) && comments[j].reportId == Some(id) {
      ListedFirst(comments, id, j);
    } else {
      assert FirstListed(comments, id, k);
    }
  }

  // ----- reply files -----

  /** All comments of the report carry one binding, and it is the one the report was first read under. */
  ghost predicate SharedPin(comments: seq<Comment>, id: ReportId, e: Entry, pin: Binding) {
    && (exists c :: c in comments && c.reportId == Some(id))
    && (forall c :: c in comments && c.reportId == Some(id) ==> c.Pin() == Some(pin))
    && (e.pin.Some? ==> e.pin == Some(pin))
  }

  lemma PinIs(comments: seq<Comment>, id: ReportId, e: Entry, pin: Binding)
    ensures PinFor(comments, id, e) == Some(pin) <==> SharedPin(comments, id, e, pin)
  {
    FirstIsThere(comments, id);
    FirstIsFound(comments, id);
  }

  lemma {:induction false} FirstIsFound(comments: seq<Comment>, id: ReportId)
    ensures FirstOf(comments, id) == None <==> forall c :: c in comments ==> c.reportId != Some(id)
  {
    if comments != [] && comments[0].reportId != Some(id) { FirstIsFound(comments[1..], id); }
  }

  /** Reports whose reply file is read in this poll. */
  predicate TakesFile(e: Entry) {
    && e.transport == Some(ByFile) && e.recovery == None
    && e.state !in {APPLIED, ACKNOWLEDGED, HUMAN_REQUIRED, RESOLVED_BY_CONFIRMATION, NON_CONTROLLING, HISTORICAL_NOT_REPLAYED, FILE_RESPONSE_INVALIDATED}
  }

  /** A reply of this report is pending, and the file is not the one it was read from, or it may not be continued. */
  predicate PendingLost(b: Bus, id: ReportId, answer: FileAnswer) {
    && b.pendingFile.Some? && b.pendingReport == Some(id)
    && (answer.NoReply? || (answer.Reply? && answer.file != b.pendingFile.value.id) || b.outstanding != Some(id) || id in b.processed)
  }

  /** The file, or what it is bound to, is not in order: this opens a recovery. */
  ghost predicate OutOfOrder(b: Bus, id: ReportId, e: Entry, comments: seq<Comment>, answer: FileAnswer) {
    || (forall pin :: !SharedPin(comments, id, e, pin))
    || answer == ReadError(false)
    || (!answer.ReadError? && PendingLost(b, id, answer))
  }

  ghost predicate FileOutcome(b: Bus, id: ReportId, e: Entry, comments: seq<Comment>, answer: FileAnswer, now: Time, r: Entry) {
    && (!TakesFile(e) ==> r == e)
    && (TakesFile(e) ==> forall pin :: SharedPin(comments, id, e, pin) ==> r.pin == Some(pin))
    && (TakesFile(e) && OutOfOrder(b, id, e, comments, answer) ==>
          && r.fileError && r.recovery == Some(Recovery(DETECTED, OtherReason(0), now + 600, 0, None, None))
          && r.state == (if b.pendingFile.Some? && b.pendingReport == Some(id) then FILE_RESPONSE_INVALIDATED else e.state))
    && (TakesFile(e) && !OutOfOrder(b, id, e, comments, answer) ==>
          match answer
          case ReadError(_) => r.fileError && r.state == e.state && r.recovery == None
          case NoReply =>
            !r.fileError && r.recovery == None && r.state == (if e.required == Some(false) then NOT_REQUIRED else WAITING_RESPONSE)
          case Reply(file) =>
            && !r.fileError && r.recovery == None
            && (if e.required == Some(false) then r.state == ACKNOWLEDGED && r.responseFile.Some? && r.responseFile.value.id == file
                else r.state == RESPONSE_RECEIVED))
  }

  lemma FileReadOutcome(b: Bus, id: ReportId, e: Entry, comments: seq<Comment>, files: map<ReportId, FileAnswer>, now: Time)
    ensures FileOutcome(b, id, e, comments, if id in files then files[id] else ReadError(true), now, FileRead(b, id, e, comments, files, now))
  {
    hide PinFor, SharedPin;
    forall pin ensures PinFor(comments, id, e) == Some(pin) <==> SharedPin(comments, id, e, pin) { PinIs(comments, id, e, pin); }
    if PinFor(comments, id, e).Some? { assert SharedPin(comments, id, e, PinFor(comments, id, e).value); }
  }

  /** Reading the files: every entry by its own answer, and the pending reply is dropped exactly when its file is out of order. */
  lemma FilesOutcome(b: Bus, comments: seq<Comment>, files: map<ReportId, FileAnswer>, now: Time)
    ensures var r := FilesSynced(b, comments, files, now);
            && r.Known().Keys == b.Known().Keys
            && (forall id :: id in b.Known() ==>
                  FileOutcome(b, id, b.Known()[id], comments, if id in files then files[id] else ReadError(true), now, r.Known()[id]))
            && r.outstanding == b.outstanding && r.pendingComment == b.pendingComment && r.processed == b.processed
            && (r.pendingFile != b.pendingFile || r.pendingReport != b.pendingReport ==> PendingDropped(b, comments, files) && r.pendingFile == None && r.pendingReport == None)
            && (PendingDropped(b, comments, files) ==> r.pendingFile == None && r.pendingReport == None)
  {
    hide FileRead, FileOutcome, FileVisitOf, OutOfOrder;
    FilesKeepOutstanding(b, comments, files, now);
    forall id | id in b.Known()
      ensures FileOutcome(b, id, b.Known()[id], comments, if id in files then files[id] else ReadError(true), now,
                          FileRead(b, id, b.Known()[id], comments, files, now))
    {
      FileReadOutcome(b, id, b.Known()[id], comments, files, now);
    }
    if b.pendingFile.Some? && b.pendingReport.Some? && b.pendingReport.value in b.Known() {
      ErredIs(b, b.pendingReport.value, b.Known()[b.pendingReport.value], comments, files);
    }
  }

  ghost predicate PendingDropped(b: Bus, comments: seq<Comment>, files: map<ReportId, FileAnswer>) {
    && b.pendingFile.Some? && b.pendingReport.Some? && b.pendingReport.value in b.Known() && TakesFile(b.Known()[b.pendingReport.value])
    && OutOfOrder(b, b.pendingReport.value, b.Known()[b.pendingReport.value], comments,
                  if b.pendingReport.value in files then files[b.pendingReport.value] else ReadError(true))
  }

  lemma ErredIs(b: Bus, id: ReportId, e: Entry, comments: seq<Comment>, files: map<ReportId, FileAnswer>)
    ensures FileVisitOf(b, id, e, comments, files) == Erred(false) <==>
              TakesFile(e) && OutOfOrder(b, id, e, comments, if id in files then files[id] else ReadError(true))
  {
    hide PinFor, SharedPin;
    forall pin ensures PinFor(comments, id, e) == Some(pin) <==> SharedPin(comments, id, e, pin) { PinIs(comments, id, e, pin); }
    if PinFor(comments, id, e).Some? { assert SharedPin(comments, id, e, PinFor(comments, id, e).value); }
  }

  /** A pending file that no longer belongs to what is waited for is dropped, and every report it was read for starts a recovery. */
  lemma InvalidPendingIsDropped(b: Bus, p: Poll)
    requires p.Fetched? && !PendingFileValid(Synced(b, p.comments))
    ensures var synced, r := Synced(b, p.comments), Polled(b, p);
            && r.handed == None && r.bus.pendingFile == None && r.bus.pendingReport == None && r.bus.pendingComment == None
            && r.bus.processed == b.processed && r.bus.outstanding == b.outstanding && r.bus.Known().Keys == synced.Known().Keys
            && forall id :: id in synced.Known() ==>
                 var e := synced.Known()[id];
                 if e.responseFile == b.pendingFile && e.transport == Some(ByFile) then
                   && r.bus.Known()[id].state == FILE_RESPONSE_INVALIDATED && r.bus.Known()[id].fileError
                   && r.bus.Known()[id].recovery == (if e.recovery.Some? then e.recovery else Some(Recovery(DETECTED, OtherReason(0), p.now + 600, 0, None, None)))
                 else r.bus.Known()[id] == e
  {
    hide SyncedUpTo, PendingFileValid, FilesSynced, CurrentReport;
  }

  // ----- the report whose turn it is -----

  /** A repair of an earlier transport that failed or is overdue holds back the report that replaces it. */
  ghost predicate HeldBack(b: Bus, id: ReportId, now: Time) {
    exists r, v :: r in b.Known() && b.Known()[r].recovery == Some(v) && v.child == Some(id)
                   && (v.phase == ESCALATED || (v.phase != RESOLVED && now >= v.deadline))
  }

  ghost predicate MayTurn(b: Bus, c: Comment, now: Time) {
    && c.reportId.Some? && c.reportType.Some? && c.reportId.value !in b.nonControlling && !HeldBack(b, c.reportId.value, now)
    && c.reportId.value in b.Known() && b.Known()[c.reportId.value].recovery == None
  }

  ghost predicate HasReply(b: Bus, c: Comment, now: Time) { MayTurn(b, c, now) && b.Known()[c.reportId.value].state == RESPONSE_RECEIVED }

  ghost predicate Waits(b: Bus, c: Comment, now: Time) {
    MayTurn(b, c, now) && b.Known()[c.reportId.value].state in {QUEUED, WAITING_RESPONSE, CONTINUATION_FAILED, RESPONSE_RECEIVED}
  }

  lemma EligibleIs(b: Bus, c: Comment, now: Time, ready: bool)
    requires b.registry.Some?
    ensures Eligible(b, c, now, ready) <==> if ready then HasReply(b, c, now) else Waits(b, c, now)
  {
    if c.reportId.Some? { BlockedIs(b, c.reportId.value, now); }
    hide Blocked, HeldBack;
  }

  lemma BlockedIs(b: Bus, id: ReportId, now: Time)
    ensures Blocked(b.Known(), id, now) <==> HeldBack(b, id, now)
  {
    if r :| r in b.Known() && b.Known()[r].recovery.Some? && b.Known()[r].recovery.value.child == Some(id)
            && b.Known()[r].recovery.value.phase != RESOLVED
            && (b.Known()[r].recovery.value.phase == ESCALATED || now >= b.Known()[r].recovery.value.deadline) {
      assert b.Known()[r].recovery == Some(b.Known()[r].recovery.value);
    }
  }

  lemma {:induction false} FirstEligibleIs(b: Bus, comments: seq<Comment>, now: Time, ready: bool)
    ensures var c := FirstEligible(b, comments, now, ready);
            && (c == None <==> forall k :: 0 <= k < |comments| ==> !Eligible(b, comments[k], now, ready))
            && (c.Some? ==> exists k :: 0 <= k < |comments| && comments[k] == c.value && Eligible(b, c.value, now, ready)
                                        && forall j :: 0 <= j < k ==> !Eligible(b, comments[j], now, ready))
  {
    hide Eligible;
    if comments != [] && !Eligible(b, comments[0], now, ready) {
      FirstEligibleIs(b, comments[1..], now, ready);
      if c :| FirstEligible(b, comments, now, ready) == Some(c) {
        var k :| 0 <= k < |comments| - 1 && comments[1..][k] == c && Eligible(b, c, now, ready)
                 && forall j :: 0 <= j < k ==> !Eligible(b, comments[1..][j], now, ready);
        assert comments[k + 1] == c && forall j :: 1 <= j < k + 1 ==> comments[j] == comments[1..][j - 1];
      }
    }
  }

  /** The first, by comment, of those `which` holds for. */
  ghost predicate FirstThat(comments: seq<Comment>, c: Comment, which: Comment -> bool) {
    exists k :: 0 <= k < |comments| && comments[k] == c && which(c) && forall j :: 0 <= j < k ==> !which(comments[j])
  }

  /** With nothing pending the first report that has its reply is taken, and only if there is none the first that waits for one. */
  lemma TurnIs(b: Bus, comments: seq<Comment>, now: Time)
    requires b.registry.Some? && b.pendingComment == None && b.pendingFile == None
    ensures var report := CurrentReport(b, comments, now);
            && (report.Some? ==>
                  if exists c :: c in comments && HasReply(b, c, now) then FirstThat(comments, report.value, c => HasReply(b, c, now))
                  else FirstThat(comments, report.value, c => Waits(b, c, now)))
            && (report == None <==> forall c :: c in comments ==> !Waits(b, c, now))
  {
    hide Eligible, HasReply, Waits, FirstEligible;
    forall c, ready ensures Eligible(b, c, now, ready) <==> if ready then HasReply(b, c, now) else Waits(b, c, now) { EligibleIs(b, c, now, ready); }
    FirstEligibleIs(b, comments, now, true);
    FirstEligibleIs(b, comments, now, false);
    forall c ensures HasReply(b, c, now) ==> Waits(b, c, now) { ReplyWaits(b, c, now); }
  }

  lemma ReplyWaits(b: Bus, c: Comment, now: Time)
    ensures HasReply(b, c, now) ==> Waits(b, c, now)
  {
  }

  // ----- polls that hand nothing over -----

  /** A reply that is pending was not found again, or is for another report. */
  predicate PendingGone(b: Bus, comments: seq<Comment>, id: ReportId) {
    && b.pendingComment.Some?
    && (id in b.processed || b.pendingReport != Some(id) || (b.outstanding.Some? && b.outstanding != Some(id))
        || CommentById(comments, b.pendingComment.value) == None
        || CommentById(comments, b.pendingComment.value).value.targets != [id])
  }

  /** A comment after the report replies to something that nobody knows. */
  predicate StrayReply(b: Bus, comments: seq<Comment>, report: Comment, id: ReportId) {
    exists c :: c in comments && c.id > report.id && c.targets != [] && c.targets[0] != id && c.targets[0] !in b.processed && c.targets[0] !in b.Known()
  }

  /**
   * When the report whose turn it is takes comments, and no reply is handed over: a failed confirmation blocks it,
   * a pending reply that is gone is dropped, and a stray reply makes it the one that is waited for.
   */
  lemma NothingHanded(b: Bus, before: Bus, report: Comment, id: ReportId, p: Poll)
    requires p.Fetched? && (id in b.Known() ==> b.Known()[id].transport != Some(ByFile)) && report.reportId == Some(id)
    requires Controlled(b, before, report, id, p).handed == None
    ensures var r := Controlled(b, before, report, id, p).bus;
            if PendingGone(b, p.comments, id) then r == b.(pendingComment := None, pendingReport := None, outstanding := Some(id))
            else if b.pendingComment.Some? || (id !in b.processed && exists c :: c in p.comments && c.id > report.id && c.targets == [id]) then
              && p.confirmationFails && id in r.Known() && r.Known()[id].state == CONFIRMATION_BLOCKED
              && r == b.(registry := r.registry) && r.Known().Keys == b.Known().Keys + {id}
              && (forall x :: x in b.Known() && x != id ==> r.Known()[x] == b.Known()[x])
            else r == b.(outstanding := if StrayReply(b, p.comments, report, id) then Some(id) else b.outstanding)
  {
    hide Continued, Taken;
    ReplyExists(p.comments, id, report.id);
    assert forall c: Comment :: RepliesTo(c, id, report.id) <==> c.id > report.id && c.targets == [id];
    if b.pendingComment.Some? { CommentFound(p.comments, b.pendingComment.value); }
  }

  lemma {:induction false} ReplyExists(comments: seq<Comment>, id: ReportId, after: nat)
    ensures FirstReply(comments, id, after) == None <==> forall c :: c in comments ==> !RepliesTo(c, id, after)
  {
    if comments != [] && !RepliesTo(comments[0], id, after) { ReplyExists(comments[1..], id, after); }
  }

  /** For a report that takes a file: its reply, if one was read, is handed over, unless its confirmation fails. */
  lemma FileHanded(b: Bus, before: Bus, report: Comment, id: ReportId, p: Poll)
    requires p.Fetched? && id in b.Known() && b.Known()[id].transport == Some(ByFile)
    ensures var r, source := Controlled(b, before, report, id, p), FileReplyOf(before, id, p.comments, p.files);
            && (r.handed.Some? <==> source.Some? && !p.confirmationFails)
            && (r.handed.Some? ==> r.handed == Some(HandedFile(id, source.value)))
            && (source == None ==> r.bus == b)
            && (source.Some? && p.confirmationFails ==>
                  r.bus == b.(registry := Some(b.Known()[id := b.Known()[id].(state := CONFIRMATION_BLOCKED)])))
  {
    hide Continued, Taken, FileReplyOf;
  }

  // ----- a confirmation that closes a wait -----

  /**
   * A delivered reply closes the wait that it confirms, if that report was waiting for a person and Codex does not
   * ask for one again; apart from its own report and the one Codex published nothing else changes.
   */
  lemma DeliveryCloses(b: Bus, h: Handed, p: Poll, id: ReportId)
    requires p.Fetched? && !p.confirmationFails && Delivers(p.codex) && id in b.Known() && id != h.report
    requires p.codex.Posts? ==> id != p.codex.report
    ensures var r := HandOver(b, h, p).bus;
            && id in r.Known()
            && r.Known()[id] == if p.resolves == Some(id) && b.Known()[id].state == HUMAN_REQUIRED && p.codex != EndsWithoutReport(true)
                                then b.Known()[id].(state := RESOLVED_BY_CONFIRMATION) else b.Known()[id]
  {
  }

  /** A poll that cannot fetch does nothing; otherwise it synchronizes, reads the files, and deals with the report whose turn it is. */
  lemma PollStages(b: Bus, p: Poll)
    ensures p.FetchFailed? ==> Polled(b, p) == Result(b, None)
    ensures p.Fetched? && PendingFileValid(Synced(b, p.comments)) ==>
              var synced := Synced(b, p.comments);
              var read := FilesSynced(synced, p.comments, p.files, p.now);
              var report := CurrentReport(read, p.comments, p.now);
              && (report == None ==> Polled(b, p) == Result(read, None))
              && (report.Some? && report.value.reportId.Some? ==>
                    Polled(b, p) == Controlled(read, synced, report.value, report.value.reportId.value, p))
  {
    hide Synced, FilesSynced, CurrentReport, PendingFileValid, Controlled;
  }

  /** A pending file belongs to the report that is waited for, was read under its binding, and was not applied. */
  lemma PendingFileIsValid(b: Bus)
    requires b.pendingFile.Some?
    ensures PendingFileValid(b) <==>
              exists id, pin :: b.pendingReport == Some(id) && b.outstanding == Some(id) && id !in b.processed && b.pendingComment == None
                                && id in b.Known() && b.Known()[id].transport == Some(ByFile) && b.Known()[id].pin == Some(pin)
                                && pin.path == b.pendingFile.value.path
  {
    if PendingFileValid(b) {
      var id := b.pendingReport.value;
      assert b.Known()[id].pin == Some(b.Known()[id].pin.value);
    }
  }

  /** Before any report is registered: the report that is waited for, and if none is, the latest one, unless it is processed. */
  lemma TurnWithoutRegistry(b: Bus, comments: seq<Comment>, now: Time)
    requires b.registry == None
    ensures var report := CurrentReport(b, comments, now);
            var expected := if b.outstanding.Some? then b.outstanding else b.pendingReport;
            && (expected.Some? ==> if report == None then forall c :: c in comments && MayControl(b, c, now) ==> c.reportId != expected
                                   else LastThat(comments, report.value, c => MayControl(b, c, now) && c.reportId == expected))
            && (expected == None && report.Some? ==>
                  LastThat(comments, report.value, c => MayControl(b, c, now)) && report.value.reportId.Some? && report.value.reportId.value !in b.processed)
            && (expected == None && report == None ==>
                  || (forall c :: c in comments ==> !MayControl(b, c, now))
                  || exists c :: LastThat(comments, c, c => MayControl(b, c, now)) && c.reportId.Some? && c.reportId.value in b.processed)
  {
    hide MayControl;
    MayControlNames(b, comments, now);
    if Expected(b).Some? { LastOfIs(b, comments, Expected(b), now); }
    LatestTypedIs(b, comments, now);
  }

  lemma MayControlNames(b: Bus, comments: seq<Comment>, now: Time)
    ensures forall c :: c in comments && MayControl(b, c, now) ==> c.reportId.Some?
  {
  }

  /** The last, by comment, of those `which` holds for. */
  ghost predicate LastThat(comments: seq<Comment>, c: Comment, which: Comment -> bool) {
    exists k :: 0 <= k < |comments| && comments[k] == c && which(c) && forall j :: k < j < |comments| ==> !which(comments[j])
  }

  lemma {:induction false} LastOfIs(b: Bus, comments: seq<Comment>, id: Option<ReportId>, now: Time)
    requires id.Some?
    ensures var c := LastOf(b, comments, id, now);
            if c == None then forall x :: x in comments && MayControl(b, x, now) ==> x.reportId != id
            else LastThat(comments, c.value, x => MayControl(b, x, now) && x.reportId == id)
  {
    hide MayControl;
    if comments != [] {
      var n := |comments| - 1;
      if MayControl(b, comments[n], now) && comments[n].reportId == id {
        assert LastThat(comments, comments[n], x => MayControl(b, x, now) && x.reportId == id);
      } else {
        LastOfIs(b, comments[..n], id, now);
        if c :| LastOf(b, comments, id, now) == Some(c) { OneMoreComment(comments, c, x => MayControl(b, x, now) && x.reportId == id); }
      }
    }
  }

  lemma {:induction false} LatestTypedIs(b: Bus, comments: seq<Comment>, now: Time)
    ensures var c := LatestTyped(b, comments, now);
            if c == None then forall x :: x in comments ==> !MayControl(b, x, now) else LastThat(comments, c.value, x => MayControl(b, x, now))
  {
    hide MayControl;
    if comments != [] {
      var n := |comments| - 1;
      if MayControl(b, comments[n], now) {
        assert LastThat(comments, comments[n], x => MayControl(b, x, now));
      } else {
        LatestTypedIs(b, comments[..n], now);
        if c :| LatestTyped(b, comments, now) == Some(c) { OneMoreComment(comments, c, x => MayControl(b, x, now)); }
      }
    }
  }

  lemma OneMoreComment(comments: seq<Comment>, c: Comment, which: Comment -> bool)
    requires comments != [] && LastThat(comments[..|comments| - 1], c, which) && !which(comments[|comments| - 1])
    ensures LastThat(comments, c, which)
  {
    var n := |comments| - 1;
    var k :| 0 <= k < n && comments[..n][k] == c && which(c) && forall j :: k < j < n ==> !which(comments[..n][j]);
    assert comments[k] == c && forall j :: k < j < n ==> comments[j] == comments[..n][j];
  }
}
