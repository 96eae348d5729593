/**
 * The bounded repair of a rejected reviewer transport: at most two preparations and one publication for
 * each rejected report, whatever the repository answers and wherever the process dies.
 */
module TransportRecovery {
  import opened Prelude
  import opened DayModels
  import opened ReviewerReports

  const MAX_ATTEMPTS := 2
  const DEADLINE_SECONDS := 600

  /** A comment of the pull request, by the fields the worker reads. */
  datatype Comment = Comment(reportId: Option<ReportId>, replacing: Option<ReportId>, recoveryOf: Option<ReportId>, pin: Binding)

  datatype Request = Request(recoveryOf: Option<ReportId>, authority: Option<Id>, supported: bool, fields: Binding)

  /** The answer to reading one file: the transport failed, the content is refused, or it was read. */
  datatype FileAnswer = Unavailable | Refused | Found(request: Request)

  /** The answer to publishing the replacement request and reading it back. */
  datatype Delivery = DeliveryUnavailable | DeliveryRefused | Delivered(commit: Id)

  datatype Look = Look(replacement: FileAnswer, request: FileAnswer, delivery: Delivery)

  /** One report of the registry; the registry keeps them in the order they were first seen. */
  datatype Entry = Entry(id: ReportId, state: ReportState, fileError: bool, recovery: Option<Recovery>)

  function Find(registry: seq<Entry>, id: Option<ReportId>): Option<Entry> {
    if registry == [] || id == None then None
    else if registry[0].id == id.value then Some(registry[0])
    else Find(registry[1..], id)
  }

  function Select(comments: seq<Comment>, p: Comment -> bool): seq<Comment> {
    if comments == [] then []
    else (if p(comments[0]) then [comments[0]] else []) + Select(comments[1..], p)
  }

  predicate Applied(target: Option<Entry>) {
    target.Some? && (target.value.state == APPLIED || target.value.state == ACKNOWLEDGED || target.value.state == RESOLVED_BY_CONFIRMATION)
  }

  predicate Failed(target: Option<Entry>) {
    target.Some? && (target.value.fileError || target.value.state == HUMAN_REQUIRED || target.value.state == CONTINUATION_FAILED
                     || target.value.state == CONFIRMATION_BLOCKED)
  }

  /** What processing one record leaves, and the trigger that is posted, if any. */
  datatype Visit = Visit(recovery: Recovery, post: Option<Trigger>)

  function Escalated(r: Recovery): Visit { Visit(r.(phase := ESCALATED), None) }

  /** An error: an unavailable transport is retried while attempts remain, everything else escalates. */
  function Errored(r: Recovery, unavailable: bool): Visit {
    if unavailable && r.attempts < MAX_ATTEMPTS then Visit(r, None) else Escalated(r)
  }

  datatype Check = CheckUnavailable | CheckRefused | Repairable(commit: Id)

  /** Whether the rejection is exactly the one that can be repaired deterministically. */
  function Checked(rid: ReportId, r: Recovery, comments: seq<Comment>, request: FileAnswer): Check {
    var reports := Select(comments, (c: Comment) => c.reportId == Some(rid));
    if r.reason != AuthorityRecordMismatch then CheckRefused
    else if |reports| != 1 || reports[0].recoveryOf.Some? then CheckRefused
    else if request == Unavailable then CheckUnavailable
    else if request == Refused || request.request.recoveryOf.Some? then CheckRefused
    else
      var pin, q := reports[0].pin, request.request;
      if pin.authority.Some? || q.authority == None || !q.supported then CheckRefused
      else if q.fields != pin.(authority := q.fields.authority, commit := q.fields.commit) then CheckRefused
      else if pin.reviewedCommit == None then CheckRefused
      else Repairable(pin.commit)
  }

  /** One preparation and, if it succeeds, the publication: POSTING is saved before the trigger is posted. */
  function Prepared(rid: ReportId, r: Recovery, commit: Id, delivery: Delivery): Visit {
    var child := RepairOf(rid, commit);
    var preparing := r.(phase := PREPARING, child := Some(child), attempts := r.attempts + 1);
    match delivery
    case DeliveryUnavailable => Errored(preparing, true)
    case DeliveryRefused => Errored(preparing, false)
    case Delivered(stored) =>
      var trigger := Trigger(child, rid, stored);
      Visit(preparing.(phase := POSTING, trigger := Some(trigger)), Some(trigger))
  }

  predicate PostedOnce(comments: seq<Comment>, trigger: Option<Trigger>, child: Option<ReportId>) {
    var matches := Select(comments, (c: Comment) => c.reportId == child);
    |matches| == 1 && trigger.Some? && matches[0].recoveryOf == Some(trigger.value.recoveryOf) && matches[0].pin.commit == trigger.value.commit
  }

  /** The part of a visit that reads comments and files. */
  function Worked(rid: ReportId, r: Recovery, comments: seq<Comment>, look: Look): Visit {
    var replacements := Select(comments, (c: Comment) => c.replacing == Some(rid));
    if replacements != [] && r.child == None then
      if |replacements| != 1 then Errored(r, false)
      else if !look.replacement.Found? then Errored(r, look.replacement == Unavailable)
      else Visit(r.(phase := AWAITING, child := replacements[0].reportId), None)
    else if r.phase == POSTING then
      if PostedOnce(comments, r.trigger, r.child) then Visit(r.(phase := AWAITING), None) else Escalated(r)
    else if r.attempts >= MAX_ATTEMPTS then Escalated(r)
    else
      match Checked(rid, r, comments, look.request)
      case CheckUnavailable => Errored(r, true)
      case CheckRefused => Errored(r, false)
      case Repairable(commit) => Prepared(rid, r, commit, look.delivery)
  }

  /** Processing one record whose phase is not terminal. */
  function Visited(rid: ReportId, r: Recovery, target: Option<Entry>, comments: Option<seq<Comment>>, look: Look, now: Time): Visit {
    if Applied(target) then Visit(r.(phase := RESOLVED), None)
    else if r.child.Some? && Failed(target) then Escalated(r)
    else if now >= r.deadline then Escalated(r)
    else if comments == None then Visit(r, None)
    else if r.phase == AWAITING || r.phase == RECEIVED then
      if target.Some? && (target.value.state == RESPONSE_RECEIVED || target.value.state == APPLYING) then Visit(r.(phase := RECEIVED), None)
      else Visit(r, None)
    else Worked(rid, r, comments.value, look)
  }

  /** What a tick does to entry `i`; `snapshot` is the registry as the tick found it. */
  function VisitAt(snapshot: seq<Entry>, i: nat, comments: Option<seq<Comment>>, looks: seq<Look>, now: Time): Option<Visit>
    requires i < |snapshot| == |looks|
  {
    var e := snapshot[i];
    if e.recovery == None || e.recovery.value.Terminal() then None
    else Some(Visited(e.id, e.recovery.value, Find(snapshot, e.recovery.value.child), comments, looks[i], now))
  }

  function Put(registry: seq<Entry>, i: nat, v: Option<Visit>): seq<Entry>
    requires i < |registry|
  {
    if v == None then registry else registry[i := registry[i].(recovery := Some(v.value.recovery))]
  }

  /** The registry after a tick has processed the entries before `n`, or stopped at the one it posted for. */
  datatype Ticked = Ticked(registry: seq<Entry>, post: Option<Trigger>)

  function TickUpTo(snapshot: seq<Entry>, n: nat, comments: Option<seq<Comment>>, looks: seq<Look>, now: Time): (t: Ticked)
    requires n <= |snapshot| == |looks|
    ensures |t.registry| == |snapshot|
  {
    if n == 0 then Ticked(snapshot, None)
    else
      var before := TickUpTo(snapshot, n - 1, comments, looks, now);
      if before.post.Some? then before
      else
        var v := VisitAt(snapshot, n - 1, comments, looks, now);
        Ticked(Put(before.registry, n - 1, v), if v.Some? then v.value.post else None)
  }

  class TransportRecoveryWorker {
    var registry: seq<Entry>
    /** Every trigger handed to the pull request, oldest first. */
    var posts: seq<Trigger>

    constructor (registry: seq<Entry>)
      ensures this.registry == registry && posts == []
    {
      this.registry, posts := registry, [];
    }

    /** One poll: processes the records in order, and ends after the first publication. */
    method Tick(comments: Option<seq<Comment>>, looks: seq<Look>, now: Time)
      requires |looks| == |registry|
      modifies this
      ensures var t := TickUpTo(old(registry), |old(registry)|, comments, looks, now);
              registry == t.registry && posts == (if t.post.Some? then old(posts) + [t.post.value] else old(posts))
    {
      hide Visited;
      var snapshot := registry;
      var i := 0;
      while i < |snapshot|
        invariant 0 <= i <= |snapshot| == |looks| && posts == old(posts)
        invariant TickUpTo(snapshot, i, comments, looks, now) == Ticked(registry, None)
      {
        var e := snapshot[i];
        if e.recovery.Some? && !e.recovery.value.Terminal() {
          var v := Visited(e.id, e.recovery.value, Find(snapshot, e.recovery.value.child), comments, looks[i], now);
          SameUntilVisited(snapshot, i, comments, looks, now);
          registry := registry[i := registry[i].(recovery := Some(v.recovery))];
          if v.post.Some? {
            posts := posts + [v.post.value];
            PostEndsTick(snapshot, i + 1, |snapshot|, comments, looks, now);
            return;
          }
        }
        i := i + 1;
      }
    }

    /** A rejection opens a recovery once; a report that has one keeps it. */
    method Reject(i: nat, reason: RejectReason, now: Time)
      requires i < |registry|
      modifies this`registry
      ensures registry == Rejected(old(registry), i, reason, now)
    {
      if registry[i].recovery.Some? { return; }
      registry := registry[i := registry[i].(recovery := Some(Recovery(DETECTED, reason, now + DEADLINE_SECONDS, 0, None, None)))];
    }
  }

  function Rejected(registry: seq<Entry>, i: nat, reason: RejectReason, now: Time): seq<Entry>
    requires i < |registry|
  {
    if registry[i].recovery.Some? then registry
    else registry[i := registry[i].(recovery := Some(Recovery(DETECTED, reason, now + DEADLINE_SECONDS, 0, None, None)))]
  }

  lemma {:induction false} SameUntilVisited(snapshot: seq<Entry>, n: nat, comments: Option<seq<Comment>>, looks: seq<Look>, now: Time)
    requires n <= |snapshot| == |looks|
    ensures forall k :: n <= k < |snapshot| ==> TickUpTo(snapshot, n, comments, looks, now).registry[k] == snapshot[k]
    ensures forall k :: 0 <= k < |snapshot| ==>
              TickUpTo(snapshot, n, comments, looks, now).registry[k].(recovery := None) == snapshot[k].(recovery := None)
  {
    hide Visited;
    if n > 0 { SameUntilVisited(snapshot, n - 1, comments, looks, now); }
  }

  lemma {:induction false} PostEndsTick(snapshot: seq<Entry>, i: nat, n: nat, comments: Option<seq<Comment>>, looks: seq<Look>, now: Time)
    requires i <= n <= |snapshot| == |looks| && TickUpTo(snapshot, i, comments, looks, now).post.Some?
    ensures TickUpTo(snapshot, n, comments, looks, now) == TickUpTo(snapshot, i, comments, looks, now)
  {
    hide Visited;
    if i < n { PostEndsTick(snapshot, i, n - 1, comments, looks, now); }
  }
}
