/**
 * The reviewer-bus watcher: one poll over the comments of the pull request and the reply files, the choice
 * of the report whose reply is handed to Codex, and what the continuation leaves behind.
 */
module ReviewerBus {
  import opened Prelude
  import opened DayModels
  import opened ReviewerReports

  datatype Transport = ByComment | ByFile

  datatype FileSource = FileSource(id: Id, path: Id)

  /**
   * A comment by its fields: `targets` are all its IN_REPLY_TO lines, in order; `file` its file binding, which is
   * absent when that does not parse.
   */
  datatype Comment = Comment(
    id: nat, reportId: Option<ReportId>, reportType: Option<ReportType>, targets: seq<ReportId>, byFile: bool,
    file: Option<Binding>, responseRequired: bool, acknowledges: bool)
  {
    predicate Typed() { reportType.Some? }
    predicate Listed() { reportType.Some? && !reportType.value.Unlisted? }

    /** The binding repeats the type line. */
    function Pin(): Option<Binding> {
      if file == None then None else Some(file.value.(reportType := reportType))
    }
  }

  /** `pin`: the file binding the report was first read under. */
  datatype Entry = Entry(
    commentId: nat, state: ReportState, required: Option<bool>, transport: Option<Transport>, pin: Option<Binding>, fileError: bool,
    responseFile: Option<FileSource>, recovery: Option<Recovery>)
  {
    predicate Required() { required != Some(false) }
  }

  type Registry = map<ReportId, Entry>

  datatype Action = NoAction | PostReport | NoReport | HumanRequired

  /** `registry` is `None` until the first report is seen. */
  datatype Bus = Bus(
    registry: Option<Registry>, processed: set<ReportId>, nonControlling: set<ReportId>, outstanding: Option<ReportId>,
    pendingReport: Option<ReportId>, pendingComment: Option<nat>, pendingFile: Option<FileSource>,
    lastReport: Option<ReportId>, lastAction: Action)
  {
    function Known(): Registry { if registry.Some? then registry.value else map[] }
  }

  const FRESH := Bus(None, {}, {}, None, None, None, None, None, NoAction)

  /** What reading the reply file of one report answers; an error may be the transport's own. */
  datatype FileAnswer = NoReply | Reply(file: Id) | ReadError(unavailable: bool)

  datatype CodexAnswer =
    | CodexFailed | EnvelopeInvalid | ActionInvalid
    | EndsWithoutReport(human: bool)
    | Posts(report: ReportId, byFile: bool, comment: Option<nat>)

  /** What the environment answers during one poll; `resolves` is the wait that a confirmation closes. */
  datatype Poll =
    | FetchFailed
    | Fetched(comments: seq<Comment>, files: map<ReportId, FileAnswer>, now: Time, confirmationFails: bool,
              codex: CodexAnswer, resolves: Option<ReportId>)

  datatype Handed = HandedComment(report: ReportId, comment: nat) | HandedFile(report: ReportId, source: FileSource)

  /** `handed`: the reply that was handed to Codex in this poll. */
  datatype Result = Result(bus: Bus, handed: Option<Handed>)

  // ----- the registry of reports -----

  predicate IsReport(c: Comment) { c.reportId.Some? && c.Listed() }

  /** The only report a comment replies to. */
  function Target(c: Comment): Option<ReportId> {
    if |c.targets| == 1 then Some(c.targets[0]) else None
  }

  predicate RepliesTo(c: Comment, id: ReportId, after: nat) { c.id > after && Target(c) == Some(id) }

  /** The last of these comments that is a report; comments come in the order of their ids. */
  function LatestReport(comments: seq<Comment>): Option<Comment> {
    if comments == [] then None
    else if IsReport(comments[|comments| - 1]) then Some(comments[|comments| - 1])
    else LatestReport(comments[..|comments| - 1])
  }

  function Anchor(b: Bus, comments: seq<Comment>): Option<ReportId> {
    if b.outstanding.Some? then b.outstanding
    else if b.pendingReport.Some? then b.pendingReport
    else if LatestReport(comments).Some? then LatestReport(comments).value.reportId
    else None
  }

  function AnchorComment(comments: seq<Comment>, anchor: Option<ReportId>): nat {
    if comments == [] then 0
    else if IsReport(comments[0]) && comments[0].reportId == anchor then comments[0].id
    else AnchorComment(comments[1..], anchor)
  }

  function TransportOf(c: Comment): Transport { if c.byFile then ByFile else ByComment }

  /** What an entry that was written without them takes from the report. */
  function Defaulted(e: Entry, c: Comment): Entry {
    e.(required := if e.required == None then Some(c.responseRequired) else e.required,
       transport := if e.transport == None then Some(TransportOf(c)) else e.transport)
  }

  function NewEntry(b: Bus, c: Comment, anchor: Option<ReportId>, anchorComment: nat): Entry {
    var state := if c.reportId == anchor then WAITING_RESPONSE
                 else if b.registry == None && c.id < anchorComment then HISTORICAL_NOT_REPLAYED
                 else QUEUED;
    Entry(c.id, state, Some(c.responseRequired), Some(TransportOf(c)), None, false, None, None)
  }

  function Refreshed(b: Bus, comments: seq<Comment>, id: ReportId, e: Entry): Entry {
    if id in b.nonControlling then e.(state := NON_CONTROLLING)
    else if id in b.processed && e.state != HUMAN_REQUIRED && e.state != RESOLVED_BY_CONFIRMATION then
      e.(state := if b.lastReport == Some(id) && b.lastAction == HumanRequired then HUMAN_REQUIRED else APPLIED)
    else if !e.Required() && e.state != HISTORICAL_NOT_REPLAYED && e.transport == Some(ByComment) then
      e.(state := if exists c :: c in comments && RepliesTo(c, id, e.commentId) && c.acknowledges then ACKNOWLEDGED else NOT_REQUIRED)
    else if (e.state == QUEUED || e.state == WAITING_RESPONSE || e.state == RESPONSE_RECEIVED) && e.transport == Some(ByComment)
            && exists c :: c in comments && RepliesTo(c, id, e.commentId) then
      e.(state := RESPONSE_RECEIVED)
    else e
  }

  /** The registry once the first `n` comments are seen. */
  function SyncedUpTo(b: Bus, comments: seq<Comment>, n: nat): Registry
    requires n <= |comments|
  {
    if n == 0 then b.Known()
    else
      var before, c := SyncedUpTo(b, comments, n - 1), comments[n - 1];
      if !IsReport(c) then before
      else
        var id := c.reportId.value;
        var anchor := Anchor(b, comments);
        var e := if id in before then before[id] else NewEntry(b, c, anchor, AnchorComment(comments, anchor));
        before[id := Refreshed(b, comments, id, Defaulted(e, c))]
  }

  function Synced(b: Bus, comments: seq<Comment>): Bus {
    if LatestReport(comments) == None then b else b.(registry := Some(SyncedUpTo(b, comments, |comments|)))
  }

  // ----- reply files -----

  predicate PendingFileValid(b: Bus) {
    b.pendingFile == None
    || (&& b.pendingReport.Some? && b.pendingReport.value in b.Known()
        && b.Known()[b.pendingReport.value].transport == Some(ByFile)
        && b.Known()[b.pendingReport.value].pin.Some? && b.Known()[b.pendingReport.value].pin.value.path == b.pendingFile.value.path
        && b.outstanding == b.pendingReport && b.pendingReport.value !in b.processed && b.pendingComment == None)
  }

  function Rejected(e: Entry, now: Time): Entry {
    if e.recovery.Some? then e
    else e.(recovery := Some(Recovery(DETECTED, OtherReason(0), now + 600, 0, None, None)))
  }

  function PendingFileDropped(b: Bus, now: Time): Bus {
    b.(registry := if b.registry == None then None
                   else Some(map id | id in b.registry.value ::
                     if b.registry.value[id].responseFile == b.pendingFile && b.registry.value[id].transport == Some(ByFile)
                     then Rejected(b.registry.value[id].(state := FILE_RESPONSE_INVALIDATED, fileError := true), now)
                     else b.registry.value[id]),
       pendingFile := None, pendingReport := None, pendingComment := None)
  }

  predicate FileSettled(s: ReportState) {
    s == APPLIED || s == ACKNOWLEDGED || s == HUMAN_REQUIRED || s == RESOLVED_BY_CONFIRMATION || s == NON_CONTROLLING
    || s == HISTORICAL_NOT_REPLAYED || s == FILE_RESPONSE_INVALIDATED
  }

  datatype FileVisit = Skipped | NothingYet | AcknowledgedBy(source: FileSource) | RepliedBy(source: FileSource) | Erred(unavailable: bool)

  predicate PendingFor(b: Bus, id: ReportId) { b.pendingFile.Some? && b.pendingReport == Some(id) }

  function FirstOf(comments: seq<Comment>, id: ReportId): Option<Comment> {
    if comments == [] then None
    else if comments[0].reportId == Some(id) then Some(comments[0])
    else FirstOf(comments[1..], id)
  }

  /** The binding every comment of the report carries, if it is the one the report was first read under. */
  function PinFor(comments: seq<Comment>, id: ReportId, e: Entry): Option<Binding> {
    var first := FirstOf(comments, id);
    if first == None || first.value.Pin() == None then None
    else if exists c :: c in comments && c.reportId == Some(id) && c.Pin() != first.value.Pin() then None
    else if e.pin.Some? && e.pin != first.value.Pin() then None
    else first.value.Pin()
  }

  function FileVisitOf(b: Bus, id: ReportId, e: Entry, comments: seq<Comment>, files: map<ReportId, FileAnswer>): FileVisit {
    if e.transport != Some(ByFile) || FileSettled(e.state) || e.recovery.Some? then Skipped
    else
      var pin := PinFor(comments, id, e);
      var answer := if id in files then files[id] else ReadError(true);
      if pin == None then Erred(false)
      else if answer.ReadError? then Erred(answer.unavailable)
      else if PendingFor(b, id)
              && (answer.NoReply? || answer.file != b.pendingFile.value.id || b.outstanding != Some(id) || id in b.processed) then
        Erred(false)
      else if answer.NoReply? then NothingYet
      else
        var source := FileSource(answer.file, pin.value.path);
        if !e.Required() then AcknowledgedBy(source) else RepliedBy(source)
  }

  /** The binding is stored as soon as it is found, whatever reading the file answers. */
  function Pinned(e: Entry, pin: Option<Binding>): Entry {
    if pin.Some? then e.(pin := pin) else e
  }

  function FileVisited(b: Bus, id: ReportId, e: Entry, v: FileVisit, pin: Option<Binding>, now: Time): Entry {
    var read := Pinned(e, pin);
    match v
    case Skipped => e
    case NothingYet => read.(fileError := false, state := if e.Required() then WAITING_RESPONSE else NOT_REQUIRED)
    case AcknowledgedBy(source) => read.(fileError := false, responseFile := Some(source), state := ACKNOWLEDGED)
    case RepliedBy(source) => read.(fileError := false, state := RESPONSE_RECEIVED)
    case Erred(unavailable) =>
      if unavailable then read.(fileError := true)
      else Rejected(read.(fileError := true, state := if PendingFor(b, id) then FILE_RESPONSE_INVALIDATED else e.state), now)
  }

  function FileRead(b: Bus, id: ReportId, e: Entry, comments: seq<Comment>, files: map<ReportId, FileAnswer>, now: Time): Entry {
    FileVisited(b, id, e, FileVisitOf(b, id, e, comments, files), PinFor(comments, id, e), now)
  }

  function FilesSynced(b: Bus, comments: seq<Comment>, files: map<ReportId, FileAnswer>, now: Time): Bus {
    if b.registry == None then b
    else
      var registry := map id | id in b.registry.value :: FileRead(b, id, b.registry.value[id], comments, files, now);
      var dropped := exists id :: id in b.registry.value && PendingFor(b, id)
                                  && FileVisitOf(b, id, b.registry.value[id], comments, files) == Erred(false);
      if dropped then b.(registry := Some(registry), pendingFile := None, pendingReport := None) else b.(registry := Some(registry))
  }

  /** The reply that was read for a report, if one is to be handed over. */
  function FileReplyOf(b: Bus, id: ReportId, comments: seq<Comment>, files: map<ReportId, FileAnswer>): Option<FileSource> {
    if id !in b.Known() then None
    else
      var v := FileVisitOf(b, id, b.Known()[id], comments, files);
      if v.RepliedBy? then Some(v.source) else None
  }

  // ----- the report whose turn it is -----

  /** A failed or overdue repair blocks the report that replaced the rejected one. */
  predicate Blocked(registry: Registry, id: ReportId, now: Time) {
    exists r :: r in registry && registry[r].recovery.Some? && registry[r].recovery.value.child == Some(id)
                && registry[r].recovery.value.phase != RESOLVED
                && (registry[r].recovery.value.phase == ESCALATED || now >= registry[r].recovery.value.deadline)
  }

  predicate MayControl(b: Bus, c: Comment, now: Time) {
    c.reportId.Some? && c.Typed() && c.reportId.value !in b.nonControlling
    && (b.registry.Some? ==> !Blocked(b.registry.value, c.reportId.value, now))
  }

  function Expected(b: Bus): Option<ReportId> { if b.outstanding.Some? then b.outstanding else b.pendingReport }

  function LastOf(b: Bus, comments: seq<Comment>, id: Option<ReportId>, now: Time): Option<Comment> {
    if comments == [] || id == None then None
    else if MayControl(b, comments[|comments| - 1], now) && comments[|comments| - 1].reportId == id then Some(comments[|comments| - 1])
    else LastOf(b, comments[..|comments| - 1], id, now)
  }

  predicate Eligible(b: Bus, c: Comment, now: Time, ready: bool) {
    && MayControl(b, c, now) && c.reportId.value in b.Known()
    && (var e := b.Known()[c.reportId.value];
        && e.recovery == None
        && (e.state == RESPONSE_RECEIVED
            || (!ready && (e.state == QUEUED || e.state == WAITING_RESPONSE || e.state == CONTINUATION_FAILED))))
  }

  function FirstEligible(b: Bus, comments: seq<Comment>, now: Time, ready: bool): Option<Comment> {
    if comments == [] then None
    else if Eligible(b, comments[0], now, ready) then Some(comments[0])
    else FirstEligible(b, comments[1..], now, ready)
  }

  function LatestTyped(b: Bus, comments: seq<Comment>, now: Time): Option<Comment> {
    if comments == [] then None
    else if MayControl(b, comments[|comments| - 1], now) then Some(comments[|comments| - 1])
    else LatestTyped(b, comments[..|comments| - 1], now)
  }

  /** Comments come in the order of their ids, so the first eligible one has the least id. */
  function CurrentReport(b: Bus, comments: seq<Comment>, now: Time): Option<Comment> {
    if b.registry.Some? then
      if b.pendingComment.Some? || b.pendingFile.Some? then LastOf(b, comments, Expected(b), now)
      else if FirstEligible(b, comments, now, true).Some? then FirstEligible(b, comments, now, true)
      else FirstEligible(b, comments, now, false)
    else if Expected(b).Some? then LastOf(b, comments, Expected(b), now)
    else
      var latest := LatestTyped(b, comments, now);
      if latest.Some? && latest.value.reportId.Some? && latest.value.reportId.value in b.processed then None else latest
  }

  // ----- the reply to it -----

  function CommentById(comments: seq<Comment>, id: nat): Option<Comment> {
    if comments == [] then None else if comments[0].id == id then Some(comments[0]) else CommentById(comments[1..], id)
  }

  function FirstReply(comments: seq<Comment>, id: ReportId, after: nat): Option<Comment> {
    if comments == [] then None
    else if RepliesTo(comments[0], id, after) then Some(comments[0])
    else FirstReply(comments[1..], id, after)
  }

  predicate PendingHolds(b: Bus, pending: Option<Comment>, id: ReportId) {
    && id !in b.processed && pending.Some? && b.pendingReport == Some(id) && Target(pending.value) == Some(id)
    && (b.outstanding == None || b.outstanding == Some(id))
  }

  datatype CommentReply = CommentReply(bus: Bus, reply: Option<Comment>, invalidated: bool)

  function PendingOrMatching(b: Bus, comments: seq<Comment>, report: Comment, id: ReportId): CommentReply {
    if b.pendingComment.Some? then
      var pending := CommentById(comments, b.pendingComment.value);
      if PendingHolds(b, pending, id) then CommentReply(b, pending, false)
      else CommentReply(b.(pendingComment := None, pendingReport := None, outstanding := Some(id)), None, true)
    else if id in b.processed then CommentReply(b, None, false)
    else CommentReply(b, FirstReply(comments, id, report.id), false)
  }

  predicate Unmatched(b: Bus, c: Comment, report: Comment, id: ReportId) {
    c.id > report.id && c.targets != [] && c.targets[0] != id && c.targets[0] !in b.processed && c.targets[0] !in b.Known()
  }

  // ----- the continuation -----

  function WithState(b: Bus, id: ReportId, state: ReportState): Bus {
    var e := if id in b.Known() then b.Known()[id] else Entry(0, state, None, None, None, false, None, None);
    b.(registry := Some(b.Known()[id := e.(state := state)]))
  }

  function Taken(b: Bus, h: Handed): Bus {
    var marked := WithState(b, h.report, APPLYING);
    var e := marked.Known()[h.report];
    var source := if h.HandedFile? then Some(h.source) else None;
    marked.(registry := Some(marked.Known()[h.report := e.(responseFile := source)]),
            pendingReport := Some(h.report), outstanding := Some(h.report), lastReport := Some(h.report),
            pendingComment := if h.HandedComment? then Some(h.comment) else None, pendingFile := source)
  }

  function MarkedApplied(b: Bus, id: ReportId, resolves: Option<ReportId>, next: Option<ReportId>): Bus {
    var closed := if b.lastAction != HumanRequired && resolves.Some? && resolves != Some(id) && resolves.value in b.Known()
                     && b.Known()[resolves.value].state == HUMAN_REQUIRED
                  then WithState(b, resolves.value, RESOLVED_BY_CONFIRMATION) else b;
    WithState(closed, id, if b.lastAction == HumanRequired then HUMAN_REQUIRED else APPLIED).(
      processed := b.processed + {id}, outstanding := next, pendingReport := None, pendingComment := None, pendingFile := None)
  }

  /** A report that Codex published is waited for, whether or not its id is new. */
  function Published(b: Bus, id: ReportId, byFile: bool, comment: nat): Bus {
    var e := if id in b.Known() then b.Known()[id] else Entry(comment, WAITING_RESPONSE, None, None, None, false, None, None);
    b.(registry := Some(b.Known()[id := e.(state := WAITING_RESPONSE, commentId := comment,
                                           transport := Some(if byFile then ByFile else ByComment))]))
  }

  function Continued(b: Bus, id: ReportId, codex: CodexAnswer, resolves: Option<ReportId>): Bus {
    match codex
    case CodexFailed => WithState(b, id, CONTINUATION_FAILED)
    case EnvelopeInvalid => WithState(b, id, CONTINUATION_FAILED)
    case ActionInvalid => b.(lastAction := NoAction)
    case EndsWithoutReport(human) => MarkedApplied(b.(lastAction := if human then HumanRequired else NoReport), id, resolves, None)
    case Posts(report, byFile, comment) =>
      var acting := b.(lastAction := PostReport);
      if comment == None then acting
      else MarkedApplied(Published(acting, report, byFile, comment.value), id, resolves, Some(report)).(lastReport := Some(report))
  }

  function HandOver(b: Bus, h: Handed, p: Poll): Result
    requires p.Fetched?
  {
    if p.confirmationFails then Result(WithState(b, h.report, CONFIRMATION_BLOCKED), None)
    else Result(Continued(Taken(b, h), h.report, p.codex, p.resolves), Some(h))
  }

  function Controlled(b: Bus, before: Bus, report: Comment, id: ReportId, p: Poll): Result
    requires p.Fetched?
  {
    if id in b.Known() && b.Known()[id].transport == Some(ByFile) then
      var source := FileReplyOf(before, id, p.comments, p.files);
      if source == None then Result(b, None) else HandOver(b, HandedFile(id, source.value), p)
    else
      var r := PendingOrMatching(b, p.comments, report, id);
      if r.reply.Some? then HandOver(r.bus, HandedComment(id, r.reply.value.id), p)
      else if !r.invalidated && exists c :: c in p.comments && Unmatched(b, c, report, id) then Result(b.(outstanding := Some(id)), None)
      else Result(r.bus, None)
  }

  /** One poll. */
  function Polled(b: Bus, p: Poll): Result {
    if p.FetchFailed? then Result(b, None)
    else
      var synced := Synced(b, p.comments);
      if !PendingFileValid(synced) then Result(PendingFileDropped(synced, p.now), None)
      else
        var read := FilesSynced(synced, p.comments, p.files, p.now);
        var report := CurrentReport(read, p.comments, p.now);
        if report == None || report.value.reportId == None then Result(read, None)
        else Controlled(read, synced, report.value, report.value.reportId.value, p)
  }
}
