/** Each transport recovery publishes at most once and ends; no repair is ever repaired. */
module RecoveryProperties {
  import opened Prelude
  import opened DayModels
  import opened ReviewerReports
  import opened TransportRecovery

  // ----- one visit -----

  /** Before anything was published. */
  predicate Early(r: Recovery) { r.phase == DETECTED || r.phase == PREPARING }

  /** What any visit, or a part of one that was saved, may make of a record. */
  predicate Follows(r: Recovery, r': Recovery) {
    && r'.deadline == r.deadline && r'.reason == r.reason
    && (Early(r') ==> Early(r))
    && (r.attempts <= MAX_ATTEMPTS ==> r'.attempts <= MAX_ATTEMPTS)
  }

  lemma VisitFollows(rid: ReportId, r: Recovery, target: Option<Entry>, comments: Option<seq<Comment>>, look: Look, now: Time)
    requires !r.Terminal()
    ensures var v := Visited(rid, r, target, comments, look, now);
            && Follows(r, v.recovery)
            && (now >= r.deadline ==> v.recovery.Terminal() && v.post == None)
            && (v.post.Some? ==> Early(r) && v.recovery.phase == POSTING && v.post.value.recoveryOf == rid
                                 && v.recovery.trigger == v.post && v.recovery.child == Some(v.post.value.reportId)
                                 && v.post.value.reportId.RepairOf? && v.post.value.reportId.parent == rid)
  {
    hide Select, Checked, PostedOnce;
  }

  /** A report whose comment or request already is a repair is never repaired again. */
  lemma RepairsAreNotRepaired(rid: ReportId, r: Recovery, target: Option<Entry>, comments: seq<Comment>, look: Look, now: Time)
    requires !r.Terminal()
    requires (exists c :: c in comments && c.reportId == Some(rid) && c.recoveryOf.Some?)
             || (look.request.Found? && look.request.request.recoveryOf.Some?)
    ensures Visited(rid, r, target, Some(comments), look, now).post == None
  {
    hide PostedOnce;
    if exists c :: c in comments && c.reportId == Some(rid) && c.recoveryOf.Some? {
      var c :| c in comments && c.reportId == Some(rid) && c.recoveryOf.Some?;
      SelectHolds(comments, (c: Comment) => c.reportId == Some(rid), c);
    }
  }

  lemma {:induction false} SelectHolds(comments: seq<Comment>, p: Comment -> bool, c: Comment)
    requires c in comments && p(c)
    ensures c in Select(comments, p)
  {
    if c != comments[0] { SelectHolds(comments[1..], p, c); }
  }

  // ----- ticks, deaths inside a tick, rejections and everything else -----

  /** What was durable when the process died while it worked on one record. */
  datatype Cut = NothingSaved | PreparationSaved | PostingSaved

  /**
   * `Other` is any change by the watcher: it may add reports and change their states, but touches no recovery.
   */
  datatype Event =
    | Tick(comments: Option<seq<Comment>>, looks: seq<Look>, now: Time)
    | Death(comments: Option<seq<Comment>>, looks: seq<Look>, now: Time, at: nat, cut: Cut)
    | Reject(entry: nat, reason: RejectReason, now: Time)
    | Other(registry: seq<Entry>)

  datatype World = World(registry: seq<Entry>, posts: seq<Trigger>)

  /** The record as it is saved when the process dies before posting. */
  function CutRecovery(rid: ReportId, r: Recovery, v: Visit, cut: Cut): Recovery {
    match cut
    case NothingSaved => r
    case PreparationSaved =>
      if v.post.Some? then r.(phase := PREPARING, child := v.recovery.child, attempts := v.recovery.attempts) else v.recovery
    case PostingSaved => v.recovery
  }

  predicate KeepsRecoveries(before: seq<Entry>, after: seq<Entry>) {
    && |before| <= |after|
    && (forall i :: 0 <= i < |before| ==> after[i].id == before[i].id && after[i].recovery == before[i].recovery)
    && (forall i :: |before| <= i < |after| ==> after[i].recovery == None)
    && (forall i, j :: 0 <= i < j < |after| ==> after[i].id != after[j].id)
  }

  function After(w: World, e: Event): World {
    match e
    case Tick(comments, looks, now) =>
      if |looks| != |w.registry| then w
      else
        var t := TickUpTo(w.registry, |w.registry|, comments, looks, now);
        World(t.registry, if t.post.Some? then w.posts + [t.post.value] else w.posts)
    case Death(comments, looks, now, at, cut) =>
      if |looks| != |w.registry| || at >= |w.registry| then w
      else
        var t := TickUpTo(w.registry, at, comments, looks, now);
        var v := VisitAt(w.registry, at, comments, looks, now);
        if t.post.Some? then World(t.registry, w.posts + [t.post.value])
        else if v == None then World(t.registry, w.posts)
        else
          World(t.registry[at := t.registry[at].(recovery := Some(CutRecovery(w.registry[at].id, w.registry[at].recovery.value, v.value, cut)))],
                w.posts)
    case Reject(i, reason, now) => if i < |w.registry| then w.(registry := Rejected(w.registry, i, reason, now)) else w
    case Other(registry) => if KeepsRecoveries(w.registry, registry) then w.(registry := registry) else w
  }

  function AfterAll(w: World, events: seq<Event>): World {
    if events == [] then w else After(AfterAll(w, events[..|events| - 1]), events[|events| - 1])
  }

  predicate Distinct(registry: seq<Entry>) {
    forall i, j :: 0 <= i < j < |registry| ==> registry[i].id != registry[j].id
  }

  /** The published recoveries of the registry are past their preparation. */
  predicate Past(registry: seq<Entry>, id: ReportId) {
    exists i :: 0 <= i < |registry| && registry[i].id == id && registry[i].recovery.Some? && !Early(registry[i].recovery.value)
  }

  predicate WorldOk(w: World) {
    && Distinct(w.registry)
    && (forall i :: 0 <= i < |w.registry| && w.registry[i].recovery.Some? ==> w.registry[i].recovery.value.attempts <= MAX_ATTEMPTS)
    && (forall k :: 0 <= k < |w.posts| ==> Past(w.registry, w.posts[k].recoveryOf))
    && (forall j, k :: 0 <= j < k < |w.posts| ==> w.posts[j].recoveryOf != w.posts[k].recoveryOf)
  }

  /** How every entry may differ after a step: its id stays, and its recovery is kept, opened or carried on. */
  predicate EntryFollows(e: Entry, e': Entry) {
    && e'.id == e.id
    && (match e.recovery
        case None => e'.recovery.Some? ==> e'.recovery.value.phase == DETECTED && e'.recovery.value.attempts == 0
        case Some(r) => e'.recovery.Some? && Follows(r, e'.recovery.value) && (r.Terminal() ==> e'.recovery.value == r))
  }

  predicate RegistryFollows(before: seq<Entry>, after: seq<Entry>) {
    && |before| <= |after|
    && (forall i :: 0 <= i < |before| ==> EntryFollows(before[i], after[i]))
    && (forall i :: |before| <= i < |after| ==> after[i].recovery == None)
  }

  lemma {:induction false} TickFollows(snapshot: seq<Entry>, n: nat, comments: Option<seq<Comment>>, looks: seq<Look>, now: Time)
    requires n <= |snapshot| == |looks|
    ensures var t := TickUpTo(snapshot, n, comments, looks, now);
            && (forall i :: 0 <= i < |snapshot| ==> EntryFollows(snapshot[i], t.registry[i]))
            && (t.post.Some? ==> exists i :: 0 <= i < |snapshot| && PostedBy(snapshot[i], t.registry[i], t.post.value))
  {
    hide Visited;
    if n > 0 {
      TickFollows(snapshot, n - 1, comments, looks, now);
      SameUntilVisited(snapshot, n - 1, comments, looks, now);
      var before, t := TickUpTo(snapshot, n - 1, comments, looks, now), TickUpTo(snapshot, n, comments, looks, now);
      var e := snapshot[n - 1];
      if before.post == None && e.recovery.Some? && !e.recovery.value.Terminal() {
        VisitFollows(e.id, e.recovery.value, Find(snapshot, e.recovery.value.child), comments, looks[n - 1], now);
        assert t.post.Some? ==> PostedBy(snapshot[n - 1], t.registry[n - 1], t.post.value);
      }
    }
  }

  /** The trigger was posted for this entry, which had published nothing before. */
  predicate PostedBy(e: Entry, e': Entry, t: Trigger) {
    && e.id == t.recoveryOf && e.recovery.Some? && Early(e.recovery.value)
    && e'.id == e.id && e'.recovery.Some? && !Early(e'.recovery.value)
  }

  lemma StepFollows(w: World, e: Event)
    requires Distinct(w.registry)
    ensures var w' := After(w, e);
            && RegistryFollows(w.registry, w'.registry) && Distinct(w'.registry)
            && (w'.posts == w.posts
                || (exists t, i :: 0 <= i < |w.registry| && PostedBy(w.registry[i], w'.registry[i], t) && w'.posts == w.posts + [t]))
  {
    hide Visited, TickUpTo;
    match e
    case Tick(comments, looks, now) =>
      if |looks| == |w.registry| { TickFollows(w.registry, |w.registry|, comments, looks, now); }
    case Death(comments, looks, now, at, cut) =>
      if |looks| == |w.registry| && at < |w.registry| {
        TickFollows(w.registry, at, comments, looks, now);
        SameUntilVisited(w.registry, at, comments, looks, now);
        var x := w.registry[at];
        if x.recovery.Some? && !x.recovery.value.Terminal() {
          VisitFollows(x.id, x.recovery.value, Find(w.registry, x.recovery.value.child), comments, looks[at], now);
        }
      }
    case Reject(_, _, _) =>
    case Other(_) =>
  }

  lemma PastStays(before: seq<Entry>, after: seq<Entry>, id: ReportId)
    requires RegistryFollows(before, after) && Past(before, id)
    ensures Past(after, id)
  {
    var i :| 0 <= i < |before| && before[i].id == id && before[i].recovery.Some? && !Early(before[i].recovery.value);
    assert EntryFollows(before[i], after[i]);
  }

  lemma StepKeepsWorld(w: World, e: Event)
    requires WorldOk(w)
    ensures WorldOk(After(w, e))
  {
    hide After, Past, Follows;
    StepFollows(w, e);
    var w' := After(w, e);
    forall k | 0 <= k < |w.posts| ensures Past(w'.registry, w.posts[k].recoveryOf) { PastStays(w.registry, w'.registry, w.posts[k].recoveryOf); }
    forall i | 0 <= i < |w'.registry| && w'.registry[i].recovery.Some? ensures w'.registry[i].recovery.value.attempts <= MAX_ATTEMPTS {
      if i < |w.registry| { AttemptsStayBounded(w.registry[i], w'.registry[i]); }
    }
    if w'.posts != w.posts {
      var t, i :| 0 <= i < |w.registry| && PostedBy(w.registry[i], w'.registry[i], t) && w'.posts == w.posts + [t];
      NewPost(w, w'.registry, i, t);
    }
  }

  lemma AttemptsStayBounded(e: Entry, e': Entry)
    requires EntryFollows(e, e') && (e.recovery.Some? ==> e.recovery.value.attempts <= MAX_ATTEMPTS)
    ensures e'.recovery.Some? ==> e'.recovery.value.attempts <= MAX_ATTEMPTS
  {
  }

  lemma NewPost(w: World, after: seq<Entry>, i: nat, t: Trigger)
    requires WorldOk(w) && i < |w.registry| <= |after| && PostedBy(w.registry[i], after[i], t)
    ensures Past(after, t.recoveryOf) && forall k :: 0 <= k < |w.posts| ==> w.posts[k].recoveryOf != t.recoveryOf
  {
    forall k | 0 <= k < |w.posts| ensures w.posts[k].recoveryOf != t.recoveryOf {
      assert Past(w.registry, w.posts[k].recoveryOf);
      var j :| 0 <= j < |w.registry| && w.registry[j].id == w.posts[k].recoveryOf && w.registry[j].recovery.Some?
               && !Early(w.registry[j].recovery.value);
      assert i < j || j < i || i == j;
    }
  }

  /**
   * Whatever the repository answers and wherever processes die: each rejected report is published a
   * replacement for at most once, in at most two preparations, and a recovery that ended stays as it is.
   */
  lemma {:induction false} RecoveriesAreBounded(registry: seq<Entry>, events: seq<Event>)
    requires Distinct(registry) && forall i :: 0 <= i < |registry| ==> registry[i].recovery == None
    ensures WorldOk(AfterAll(World(registry, []), events))
  {
    hide After;
    if events != [] {
      RecoveriesAreBounded(registry, events[..|events| - 1]);
      StepKeepsWorld(AfterAll(World(registry, []), events[..|events| - 1]), events[|events| - 1]);
    }
  }

  /** RESOLVED and ESCALATED are absorbing. */
  lemma EndedRecoveriesStay(w: World, e: Event, i: nat)
    requires Distinct(w.registry) && i < |w.registry| && w.registry[i].recovery.Some? && w.registry[i].recovery.value.Terminal()
    ensures i < |After(w, e).registry| && After(w, e).registry[i].recovery == w.registry[i].recovery
  {
    hide After;
    StepFollows(w, e);
    assert EntryFollows(w.registry[i], After(w, e).registry[i]);
  }

  // ----- deadlines -----

  /** How many entries before `i` can still publish, and so end a tick before it reaches `i`. */
  function CanPost(registry: seq<Entry>, i: nat): nat
    requires i <= |registry|
  {
    if i == 0 then 0
    else CanPost(registry, i - 1) + if registry[i - 1].recovery.Some? && Early(registry[i - 1].recovery.value) then 1 else 0
  }

  predicate Ended(registry: seq<Entry>, i: nat) {
    i < |registry| && registry[i].recovery.Some? && registry[i].recovery.value.Terminal()
  }

  lemma {:induction false} CanPostFalls(before: seq<Entry>, after: seq<Entry>, i: nat, j: nat)
    requires i <= |before| == |after| && j < i && PostedEntry(before, after, j)
    requires forall k :: 0 <= k < |before| ==> EntryFollows(before[k], after[k]) && (before[k].recovery == None ==> after[k].recovery == None)
    ensures CanPost(after, i) < CanPost(before, i)
  {
    hide Follows;
    EarlyOnlyFalls(before[i - 1], after[i - 1]);
    if j < i - 1 { CanPostFalls(before, after, i - 1, j); } else { CanPostShrinks(before, after, i - 1); }
  }

  predicate PostedEntry(before: seq<Entry>, after: seq<Entry>, j: nat) {
    && j < |before| == |after| && before[j].recovery.Some? && Early(before[j].recovery.value)
    && after[j].recovery.Some? && !Early(after[j].recovery.value)
  }

  lemma EarlyOnlyFalls(e: Entry, e': Entry)
    requires EntryFollows(e, e') && (e.recovery == None ==> e'.recovery == None)
    ensures e'.recovery.Some? && Early(e'.recovery.value) ==> e.recovery.Some? && Early(e.recovery.value)
  {
  }

  lemma {:induction false} CanPostShrinks(before: seq<Entry>, after: seq<Entry>, i: nat)
    requires i <= |before| == |after|
    requires forall k :: 0 <= k < |before| ==> EntryFollows(before[k], after[k]) && (before[k].recovery == None ==> after[k].recovery == None)
    ensures CanPost(after, i) <= CanPost(before, i)
  {
    hide Follows;
    if i > 0 {
      EarlyOnlyFalls(before[i - 1], after[i - 1]);
      CanPostShrinks(before, after, i - 1);
    }
  }

  lemma {:induction false} TickReaches(snapshot: seq<Entry>, n: nat, i: nat, comments: Option<seq<Comment>>, looks: seq<Look>, now: Time)
    requires i < n <= |snapshot| == |looks|
    requires snapshot[i].recovery.Some? && !snapshot[i].recovery.value.Terminal() && now >= snapshot[i].recovery.value.deadline
    ensures var t := TickUpTo(snapshot, n, comments, looks, now);
            Ended(t.registry, i) || exists j :: 0 <= j < i && PostedEntry(snapshot, t.registry, j)
  {
    hide Visited;
    SameUntilVisited(snapshot, n - 1, comments, looks, now);
    var e := snapshot[n - 1];
    var before, t := TickUpTo(snapshot, n - 1, comments, looks, now), TickUpTo(snapshot, n, comments, looks, now);
    if e.recovery.Some? && !e.recovery.value.Terminal() {
      VisitFollows(e.id, e.recovery.value, Find(snapshot, e.recovery.value.child), comments, looks[n - 1], now);
    }
    if i < n - 1 {
      TickReaches(snapshot, n - 1, i, comments, looks, now);
      if j :| 0 <= j < i && PostedEntry(snapshot, before.registry, j) { assert PostedEntry(snapshot, t.registry, j); }
    } else if before.post.Some? {
      TickPosts(snapshot, n - 1, comments, looks, now);
      var j :| 0 <= j < n - 1 && PostedEntry(snapshot, before.registry, j);
      assert PostedEntry(snapshot, t.registry, j);
    }
  }

  lemma {:induction false} TickPosts(snapshot: seq<Entry>, n: nat, comments: Option<seq<Comment>>, looks: seq<Look>, now: Time)
    requires n <= |snapshot| == |looks| && TickUpTo(snapshot, n, comments, looks, now).post.Some?
    ensures exists j :: 0 <= j < n && PostedEntry(snapshot, TickUpTo(snapshot, n, comments, looks, now).registry, j)
  {
    hide Visited;
    var before, t := TickUpTo(snapshot, n - 1, comments, looks, now), TickUpTo(snapshot, n, comments, looks, now);
    if before.post.Some? {
      TickPosts(snapshot, n - 1, comments, looks, now);
    } else {
      var e := snapshot[n - 1];
      VisitFollows(e.id, e.recovery.value, Find(snapshot, e.recovery.value.child), comments, looks[n - 1], now);
      assert PostedEntry(snapshot, t.registry, n - 1);
    }
  }

  /**
   * Ticks while no known report is rejected: between them the watcher may register further reports, which
   * come last, and change what it likes about the known ones, but not their recoveries.
   */
  datatype Poll = Poll(comments: Option<seq<Comment>>, looks: seq<Look>, now: Time, changed: seq<Entry>)

  predicate Proper(registry: seq<Entry>, p: Poll) {
    && |registry| <= |p.changed| == |p.looks|
    && forall i :: 0 <= i < |registry| ==> p.changed[i].id == registry[i].id && p.changed[i].recovery == registry[i].recovery
  }

  function Polled(registry: seq<Entry>, polls: seq<Poll>): seq<Entry>
    decreases |polls|
  {
    if polls == [] || !Proper(registry, polls[0]) then registry
    else Polled(TickUpTo(polls[0].changed, |polls[0].changed|, polls[0].comments, polls[0].looks, polls[0].now).registry, polls[1..])
  }

  predicate AllProper(registry: seq<Entry>, polls: seq<Poll>)
    decreases |polls|
  {
    polls == [] || (Proper(registry, polls[0])
      && AllProper(TickUpTo(polls[0].changed, |polls[0].changed|, polls[0].comments, polls[0].looks, polls[0].now).registry, polls[1..]))
  }

  lemma {:induction false} SameCanPost(a: seq<Entry>, b: seq<Entry>, i: nat)
    requires i <= |a| <= |b| && forall k :: 0 <= k < |a| ==> b[k].recovery == a[k].recovery
    ensures CanPost(a, i) == CanPost(b, i)
  {
    if i > 0 { SameCanPost(a, b, i - 1); }
  }

  lemma {:induction false} EndedStays(registry: seq<Entry>, polls: seq<Poll>, i: nat)
    requires AllProper(registry, polls) && Ended(registry, i)
    ensures Ended(Polled(registry, polls), i)
    decreases |polls|
  {
    hide TickUpTo;
    if polls != [] {
      var p := polls[0];
      TickFollows(p.changed, |p.changed|, p.comments, p.looks, p.now);
      var next := TickUpTo(p.changed, |p.changed|, p.comments, p.looks, p.now).registry;
      assert EntryFollows(p.changed[i], next[i]);
      EndedStays(next, polls[1..], i);
    }
  }

  /** Past its deadline a recovery has ended after as many polls as records before it can publish, and one more. */
  lemma {:induction false} OverdueRecoveryEnds(registry: seq<Entry>, polls: seq<Poll>, i: nat)
    requires AllProper(registry, polls) && i < |registry| && registry[i].recovery.Some?
    requires forall k :: 0 <= k < |polls| ==> polls[k].now >= registry[i].recovery.value.deadline
    requires |polls| > CanPost(registry, i)
    ensures Ended(Polled(registry, polls), i)
    decreases |polls|
  {
    hide TickUpTo, Follows, CanPost;
    if Ended(registry, i) {
      EndedStays(registry, polls, i);
    } else {
      var p := polls[0];
      var next := TickUpTo(p.changed, |p.changed|, p.comments, p.looks, p.now).registry;
      TickFollows(p.changed, |p.changed|, p.comments, p.looks, p.now);
      TickReaches(p.changed, |p.changed|, i, p.comments, p.looks, p.now);
      NoneOpened(p.changed, |p.changed|, p.comments, p.looks, p.now);
      SameCanPost(registry, p.changed, i);
      if Ended(next, i) {
        EndedStays(next, polls[1..], i);
      } else {
        var j :| 0 <= j < i && PostedEntry(p.changed, next, j);
        CanPostFalls(p.changed, next, i, j);
        DeadlineKept(p.changed[i], next[i]);
        OverdueRecoveryEnds(next, polls[1..], i);
      }
    }
  }

  lemma DeadlineKept(e: Entry, e': Entry)
    requires EntryFollows(e, e') && e.recovery.Some?
    ensures e'.recovery.Some? && e'.recovery.value.deadline == e.recovery.value.deadline
  {
  }

  lemma {:induction false} NoneOpened(snapshot: seq<Entry>, n: nat, comments: Option<seq<Comment>>, looks: seq<Look>, now: Time)
    requires n <= |snapshot| == |looks|
    ensures forall k :: 0 <= k < |snapshot| && snapshot[k].recovery == None ==>
              TickUpTo(snapshot, n, comments, looks, now).registry[k].recovery == None
  {
    hide Visited;
    if n > 0 { NoneOpened(snapshot, n - 1, comments, looks, now); }
  }

  /** In particular it has ended after as many polls as there are reports up to its own. */
  lemma {:induction false} CanPostBound(registry: seq<Entry>, i: nat)
    requires i <= |registry|
    ensures CanPost(registry, i) <= i
  {
    if i > 0 { CanPostBound(registry, i - 1); }
  }
}
