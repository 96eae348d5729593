/** The append-only, optimistic-concurrency run store. */
module RunStore {
  import opened Prelude
  import opened DayModels

  datatype UpdateResult =
    | Updated | IdentityMismatch | RunMissing | IntentImmutable | StaleUpdate | TimeNotAdvancing
    | HistoryNotAppended | HistoryFileExists

  /** The directory: one current file per run, and retained versions in the order written. */
  datatype Store = Store(files: map<Id, RunRecord>, retained: map<Id, seq<RunRecord>>) {
    function Past(run: Id): seq<RunRecord> {
      if run in retained then retained[run] else []
    }

    function Chain(run: Id): seq<RunRecord>
      requires run in files
    {
      Past(run) + [files[run]]
    }
  }

  function StatesOf(versions: seq<RunRecord>): seq<DayState> {
    seq(|versions|, i requires 0 <= i < |versions| => versions[i].control.state)
  }

  /** One intent, strictly increasing times, and every version remembers exactly the earlier states. */
  ghost predicate VersionChain(run: Id, versions: seq<RunRecord>) {
    && (forall i :: 0 <= i < |versions| ==>
          versions[i].intent == versions[0].intent && versions[i].SameIdentity() && versions[i].intent.runId == run)
    && (forall i, j :: 0 <= i < j < |versions| ==> versions[i].control.updatedAt < versions[j].control.updatedAt)
    && (forall k :: 0 <= k < |versions| ==> versions[k].control.history == StatesOf(versions[..k]))
  }

  ghost predicate StoreOk(s: Store) {
    && s.retained.Keys <= s.files.Keys
    && forall run :: run in s.files ==> VersionChain(run, s.Chain(run))
  }

  predicate VersionRetained(s: Store, run: Id, at: Time) {
    exists v :: v in s.Past(run) && v.control.updatedAt == at
  }

  /** The checks of an update, in the order they are made; `Updated` when all pass. */
  function CheckUpdate(s: Store, record: RunRecord, expected: Time): UpdateResult {
    var run := record.intent.runId;
    if !record.SameIdentity() then IdentityMismatch
    else if run !in s.files then RunMissing
    else
      var current := s.files[run];
      if current.intent != record.intent then IntentImmutable
      else if current.control.updatedAt != expected then StaleUpdate
      else if record.control.updatedAt <= current.control.updatedAt then TimeNotAdvancing
      else if record.control.history != current.control.history + [current.control.state] then HistoryNotAppended
      else if VersionRetained(s, run, current.control.updatedAt) then HistoryFileExists
      else Updated
  }

  /** The directory once the old version is retained but the current file is not yet replaced. */
  function Retain(s: Store, run: Id): Store
    requires run in s.files
  {
    s.(retained := s.retained[run := s.Chain(run)])
  }

  function UpdateSpec(s: Store, record: RunRecord, expected: Time): Store {
    if CheckUpdate(s, record, expected) == Updated then
      Retain(s, record.intent.runId).(files := s.files[record.intent.runId := record])
    else s
  }

  function CreateSpec(s: Store, record: RunRecord): Store {
    if record.SameIdentity() && record.intent.runId !in s.files then
      s.(files := s.files[record.intent.runId := record])
    else s
  }

  // ----- what every store operation keeps -----

  lemma SingleVersionChain(record: RunRecord)
    requires record.SameIdentity() && record.control.history == []
    ensures VersionChain(record.intent.runId, [record])
  {
    assert StatesOf([record][..0]) == [];
  }

  lemma CreateKeepsStore(s: Store, record: RunRecord)
    requires StoreOk(s) && record.control.history == []
    ensures StoreOk(CreateSpec(s, record))
  {
    var s' := CreateSpec(s, record);
    forall run | run in s'.files ensures VersionChain(run, s'.Chain(run)) {
      if run in s.files {
        assert s'.Chain(run) == s.Chain(run);
      } else {
        assert s'.Chain(run) == [record];
        SingleVersionChain(record);
      }
    }
  }

  lemma ChainExtends(run: Id, chain: seq<RunRecord>, record: RunRecord)
    requires chain != [] && VersionChain(run, chain)
    requires var last := chain[|chain| - 1];
             && record.SameIdentity() && record.intent == last.intent
             && last.control.updatedAt < record.control.updatedAt
             && record.control.history == last.control.history + [last.control.state]
    ensures VersionChain(run, chain + [record])
  {
    var after, n := chain + [record], |chain|;
    assert StatesOf(chain) == StatesOf(chain[..n - 1]) + [chain[n - 1].control.state];
    forall k | 0 <= k < |after| ensures after[k].control.history == StatesOf(after[..k]) {
      if k < n { assert after[..k] == chain[..k]; } else { assert after[..k] == chain; }
    }
  }

  lemma UpdateKeepsStore(s: Store, record: RunRecord, expected: Time)
    requires StoreOk(s)
    ensures var s' := UpdateSpec(s, record, expected);
            && StoreOk(s')
            && (forall run :: run in s.files ==> run in s'.files && s.Chain(run) <= s'.Chain(run))
  {
    if CheckUpdate(s, record, expected) == Updated {
      var s', target := UpdateSpec(s, record, expected), record.intent.runId;
      assert s'.Chain(target) == s.Chain(target) + [record];
      assert VersionChain(target, s'.Chain(target)) by { ChainExtends(target, s.Chain(target), record); }
      forall run | run in s'.files
        ensures run in s.files && s.Chain(run) <= s'.Chain(run) && VersionChain(run, s'.Chain(run))
      {
        if run != target { assert s'.Chain(run) == s.Chain(run); }
      }
    }
  }

  /**
   * The exact refusal condition.  In a store without a crash the last check never fires, so an update is
   * accepted precisely when it carries the current intent, the current time and the appended history.
   */
  lemma UpdateAccepted(s: Store, record: RunRecord, expected: Time)
    requires StoreOk(s) && record.SameIdentity() && record.intent.runId in s.files
    ensures CheckUpdate(s, record, expected) == Updated <==>
            var current := s.files[record.intent.runId];
            && record.intent == current.intent
            && expected == current.control.updatedAt < record.control.updatedAt
            && record.control.history == current.control.history + [current.control.state]
  {
    var run := record.intent.runId;
    var chain := s.Chain(run);
    forall v | v in s.Past(run) ensures v.control.updatedAt < s.files[run].control.updatedAt {
      var i :| 0 <= i < |s.Past(run)| && s.Past(run)[i] == v;
      assert chain[i] == v && chain[|chain| - 1] == s.files[run];
    }
  }

  // ----- the crash between retaining the old version and replacing the current file -----

  /**
   * After such a crash the current version is also in the history, and no update of that run is
   * accepted again: its history file already exists.  The other runs are not affected.
   */
  lemma CrashFreezesRun(s: Store, crashed: Id, record: RunRecord, expected: Time)
    requires crashed in s.files && VersionRetained(s, crashed, s.files[crashed].control.updatedAt)
    ensures record.intent.runId == crashed ==> CheckUpdate(s, record, expected) != Updated
    ensures var s' := UpdateSpec(s, record, expected);
            && crashed in s'.files && s'.files[crashed] == s.files[crashed]
            && VersionRetained(s', crashed, s'.files[crashed].control.updatedAt)
  {
    var s' := UpdateSpec(s, record, expected);
    assert s'.Past(crashed) == s.Past(crashed);
  }

  lemma CrashDuplicatesVersion(s: Store, run: Id)
    requires StoreOk(s) && run in s.files
    ensures var s' := Retain(s, run);
            && s'.Chain(run) == s.Chain(run) + [s.files[run]]
            && VersionRetained(s', run, s'.files[run].control.updatedAt)
            && !StoreOk(s')
  {
    var s' := Retain(s, run);
    var past, chain := s'.Past(run), s'.Chain(run);
    assert past[|past| - 1] == s.files[run];
    assert chain[|past| - 1].control.updatedAt == chain[|past|].control.updatedAt;
    assert !VersionChain(run, chain);
  }

  // ----- reading versions back -----

  function InsertByTime(v: RunRecord, sorted: seq<RunRecord>): seq<RunRecord> {
    if sorted == [] || v.control.updatedAt < sorted[0].control.updatedAt then [v] + sorted
    else [sorted[0]] + InsertByTime(v, sorted[1..])
  }

  /** A stable sort by update time. */
  function SortByTime(listing: seq<RunRecord>): seq<RunRecord> {
    if listing == [] then []
    else InsertByTime(listing[|listing| - 1], SortByTime(listing[..|listing| - 1]))
  }

  predicate Ascending(s: seq<RunRecord>) {
    forall i, j :: 0 <= i < j < |s| ==> s[i].control.updatedAt <= s[j].control.updatedAt
  }

  lemma {:induction false} InsertKeeps(v: RunRecord, s: seq<RunRecord>)
    ensures multiset(InsertByTime(v, s)) == multiset(s) + multiset{v}
  {
    if s == [] || v.control.updatedAt < s[0].control.updatedAt {
    } else {
      InsertKeeps(v, s[1..]);
      assert s == [s[0]] + s[1..];
    }
  }

  lemma {:induction false} InsertSorts(v: RunRecord, s: seq<RunRecord>)
    requires Ascending(s)
    ensures Ascending(InsertByTime(v, s))
  {
    if s == [] || v.control.updatedAt < s[0].control.updatedAt {
    } else {
      InsertSorts(v, s[1..]);
      var rest := InsertByTime(v, s[1..]);
      forall i | 0 <= i < |rest| ensures s[0].control.updatedAt <= rest[i].control.updatedAt {
        InsertKeeps(v, s[1..]);
        assert rest[i] in multiset(s[1..]) + multiset{v};
        assert rest[i] == v || rest[i] in s[1..];
      }
    }
  }

  lemma {:induction false} SortSorts(s: seq<RunRecord>)
    ensures Ascending(SortByTime(s)) && multiset(SortByTime(s)) == multiset(s)
  {
    if s != [] {
      SortSorts(s[..|s| - 1]);
      InsertSorts(s[|s| - 1], SortByTime(s[..|s| - 1]));
      InsertKeeps(s[|s| - 1], SortByTime(s[..|s| - 1]));
      assert s == s[..|s| - 1] + [s[|s| - 1]];
    }
  }

  lemma SameOldest(a: seq<RunRecord>, chain: seq<RunRecord>)
    requires a != [] && chain != [] && Ascending(a) && a[0] in chain && chain[0] in a
    requires forall j :: 0 < j < |chain| ==> chain[0].control.updatedAt < chain[j].control.updatedAt
    ensures a[0] == chain[0]
  {
    var i :| 0 <= i < |a| && a[i] == chain[0];
    var j :| 0 <= j < |chain| && chain[j] == a[0];
    assert a[0].control.updatedAt <= a[i].control.updatedAt;
  }

  /** A strictly increasing chain is the only ascending arrangement of its elements. */
  lemma {:induction false} AscendingUnique(a: seq<RunRecord>, chain: seq<RunRecord>)
    requires Ascending(a) && multiset(a) == multiset(chain)
    requires forall i, j :: 0 <= i < j < |chain| ==> chain[i].control.updatedAt < chain[j].control.updatedAt
    ensures a == chain
  {
    PermutationElements(a, chain);
    if a != [] {
      assert a[0] in chain && chain[0] in a;
      SameOldest(a, chain);
      SameTails(a, chain);
      AscendingUnique(a[1..], chain[1..]);
      assert a == [a[0]] + a[1..] && chain == [a[0]] + chain[1..];
    }
  }

  lemma SameTails(a: seq<RunRecord>, b: seq<RunRecord>)
    requires multiset(a) == multiset(b) && a != [] && b != [] && a[0] == b[0]
    ensures multiset(a[1..]) == multiset(b[1..])
  {
    assert a == [a[0]] + a[1..] && b == [a[0]] + b[1..];
    assert multiset(a) - multiset{a[0]} == multiset(a[1..]);
    assert multiset(b) - multiset{a[0]} == multiset(b[1..]);
  }

  // ----- the newest run -----

  predicate Before(a: RunRecord, b: RunRecord) {
    a.intent.goAt < b.intent.goAt || (a.intent.goAt == b.intent.goAt && a.intent.runId < b.intent.runId)
  }

  predicate IsCurrent(s: Store, run: Id) {
    run in s.files && forall r :: r in s.files && r != run ==> Before(s.files[r], s.files[run])
  }

  lemma CurrentUnique(s: Store, a: Id, b: Id)
    requires IsCurrent(s, a) && IsCurrent(s, b)
    ensures a == b
  {
    assert a == b || Before(s.files[a], s.files[b]);
  }

  /** An update never changes which run is the current one. */
  lemma UpdateKeepsCurrent(s: Store, record: RunRecord, expected: Time, run: Id)
    ensures IsCurrent(UpdateSpec(s, record, expected), run) <==> IsCurrent(s, run)
  {
    var s' := UpdateSpec(s, record, expected);
    assert s'.files.Keys == s.files.Keys;
    assert forall r :: r in s.files ==> s'.files[r].intent == s.files[r].intent;
    if IsCurrent(s', run) {
      forall r | r in s.files && r != run ensures Before(s.files[r], s.files[run]) {
        assert Before(s'.files[r], s'.files[run]);
      }
    }
    if IsCurrent(s, run) {
      forall r | r in s'.files && r != run ensures Before(s'.files[r], s'.files[run]) {
        assert Before(s.files[r], s.files[run]);
      }
    }
  }

  class JsonRunStore {
    var files: map<Id, RunRecord>
    var retained: map<Id, seq<RunRecord>>

    function State(): Store reads this { Store(files, retained) }

    constructor ()
      ensures State() == Store(map[], map[]) && StoreOk(State())
    {
      files, retained := map[], map[];
    }

    /** Exclusive create: an existing run is never overwritten. */
    method Create(record: RunRecord) returns (created: bool)
      modifies this
      ensures created <==> record.SameIdentity() && record.intent.runId !in old(files)
      ensures State() == CreateSpec(old(State()), record)
    {
      if !record.SameIdentity() || record.intent.runId in files {
        return false;
      }
      files := files[record.intent.runId := record];
      return true;
    }

    function Get(run: Id): (r: Option<RunRecord>)
      reads this
      ensures r.Some? <==> run in files
    {
      if run in files then Some(files[run]) else None
    }

    method Update(record: RunRecord, expected: Time) returns (result: UpdateResult)
      modifies this
      ensures result == CheckUpdate(old(State()), record, expected)
      ensures State() == UpdateSpec(old(State()), record, expected)
      ensures old(StoreOk(State())) ==> StoreOk(State())
    {
      if old(StoreOk(State())) { UpdateKeepsStore(State(), record, expected); }
      if !record.SameIdentity() { return IdentityMismatch; }
      var run := record.intent.runId;
      var found := Get(run);
      if found == None { return RunMissing; }
      var current := found.value;
      if current.intent != record.intent { return IntentImmutable; }
      if current.control.updatedAt != expected { return StaleUpdate; }
      if record.control.updatedAt <= current.control.updatedAt { return TimeNotAdvancing; }
      if record.control.history != current.control.history + [current.control.state] { return HistoryNotAppended; }
      var kept := WriteHistory(current);
      if !kept { return HistoryFileExists; }
      files := files[run := record];
      return Updated;
    }

    /** Exclusive create of the history file of one version, named by its update time. */
    method WriteHistory(version: RunRecord) returns (written: bool)
      modifies this`retained
      ensures written <==> !old(VersionRetained(State(), version.intent.runId, version.control.updatedAt))
      ensures retained == if written
                          then old(retained)[version.intent.runId := old(State()).Past(version.intent.runId) + [version]]
                          else old(retained)
    {
      var run := version.intent.runId;
      var past := State().Past(run);
      var i := 0;
      while i < |past|
        invariant 0 <= i <= |past|
        invariant forall k :: 0 <= k < i ==> past[k].control.updatedAt != version.control.updatedAt
      {
        if past[i].control.updatedAt == version.control.updatedAt {
          assert past[i] in past;
          return false;
        }
        i := i + 1;
      }
      retained := retained[run := past + [version]];
      return true;
    }

    /** All versions, oldest first, whatever order the directory lists its files in. */
    method Versions(run: Id, listing: seq<RunRecord>) returns (versions: seq<RunRecord>)
      requires multiset(listing) == multiset(State().Past(run))
      ensures StoreOk(State()) ==> versions == if run in files then State().Chain(run) else []
    {
      if run !in files {
        return [];
      }
      versions := SortByTime(listing + [files[run]]);
      ghost var chain := State().Chain(run);
      if StoreOk(State()) {
        SortSorts(listing + [files[run]]);
        assert multiset(chain) == multiset(listing + [files[run]]);
        AscendingUnique(versions, chain);
      }
    }

    /** The run with the latest (go time, run id). */
    method Current() returns (r: Option<Id>)
      requires forall run :: run in files ==> files[run].intent.runId == run
      ensures r.None? <==> files == map[]
      ensures r.Some? ==> IsCurrent(State(), r.value)
    {
      var left := files.Keys;
      r := None;
      while left != {}
        invariant left <= files.Keys
        invariant r.None? <==> left == files.Keys
        invariant r.Some? ==> r.value in files && r.value !in left
        invariant r.Some? ==> forall x :: x in files && x !in left && x != r.value ==> Before(files[x], files[r.value])
        decreases left
      {
        var run :| run in left;
        if r.None? || Before(files[r.value], files[run]) {
          r := Some(run);
        }
        left := left - {run};
      }
      assert files.Keys == {} ==> files == map[];
    }
  }
}
