/** Selection of one logical reasoning profile from trusted configuration, and the tokens charged to profiles. */
module ModelRouter {
  import opened Prelude
  import opened TokenUsage

  datatype Role = ARCHITECT | EVALUATOR | CODEX
  datatype Complexity = SIMPLE | NORMAL | COMPLEX
  datatype Failure =
    | REASONING | UNKNOWN
    | NETWORK | MISSING_DEPENDENCY | SANDBOX | PERMISSION | ENVIRONMENT | INVALID_CONFIGURATION | SCOPE_GUARD | GIT_SAFETY
  datatype ProfileId = ECONOMICAL | STANDARD | DEEP
  datatype Provider = Mock | Codex | Named(name: string)

  /** The concrete transport of a profile: model, effort, timeout and output bound. */
  type Settings = nat

  datatype Profile = Profile(provider: Provider, own: Settings, input: nat, output: nat, mapped: map<Provider, Settings>)

  /** The three profiles every registry must hold. */
  datatype Registry = Registry(economical: Profile, standard: Profile, deep: Profile) {
    function Get(p: ProfileId): Profile {
      match p case ECONOMICAL => economical case STANDARD => standard case DEEP => deep
    }
  }

  datatype Policy = Policy(allowed: set<ProfileId>, downgrade: bool, maxEscalation: nat)

  datatype Remaining = Remaining(roleInput: nat, roleOutput: nat, dayInput: nat, dayOutput: nat)

  datatype Request = Request(
    role: Role, provider: Provider, complexity: Complexity, failure: Option<Failure>, remaining: Remaining, policy: Policy)

  datatype ReviewReason = ProfileNotAllowed | EscalationExhausted | BudgetExceeded | NoProviderMapping

  datatype Decision =
    | Selected(role: Role, profile: Option<ProfileId>, provider: Provider, settings: Option<Settings>, level: nat)
    | Review(role: Role, reason: ReviewReason, level: nat)

  function Rank(p: ProfileId): nat { match p case ECONOMICAL => 0 case STANDARD => 1 case DEEP => 2 }

  function AtRank(n: nat): ProfileId { if n == 0 then ECONOMICAL else if n == 1 then STANDARD else DEEP }

  predicate NonEscalatable(f: Option<Failure>) {
    f.Some? && f.value != REASONING && f.value != UNKNOWN
  }

  function Base(req: Request): ProfileId {
    match req.complexity case SIMPLE => ECONOMICAL case NORMAL => STANDARD case COMPLEX => DEEP
  }

  /** The preferred profile and the escalation level it is held to. */
  function Preferred(req: Request): (ProfileId, nat) {
    var base := Base(req);
    if NonEscalatable(req.failure) then (base, 0)
    else if req.failure.Some? then
      var next := if Rank(base) < 2 then Rank(base) + 1 else 2;
      (AtRank(next), next)
    else (base, Rank(base))
  }

  predicate WithinBudget(p: Profile, r: Remaining) {
    && p.input <= r.roleInput && p.output <= r.roleOutput
    && p.input <= r.dayInput && p.output <= r.dayOutput
  }

  /** The first profile below rank `n`, from the top, that policy and budget admit. */
  function Lower(registry: Registry, n: nat, req: Request): Option<ProfileId>
    requires n <= 2
  {
    if n == 0 then None
    else if AtRank(n - 1) in req.policy.allowed && WithinBudget(registry.Get(AtRank(n - 1)), req.remaining) then Some(AtRank(n - 1))
    else Lower(registry, n - 1, req)
  }

  function Chosen(registry: Registry, req: Request): Option<ProfileId> {
    var preferred := Preferred(req).0;
    if WithinBudget(registry.Get(preferred), req.remaining) then Some(preferred)
    else if req.policy.downgrade then Lower(registry, Rank(preferred), req)
    else None
  }

  /** A mock provider takes any profile; any other needs the profile's own transport or a mapped one. */
  function Resolved(p: Profile, provider: Provider): Option<Settings> {
    if provider == p.provider then Some(p.own)
    else if provider in p.mapped then Some(p.mapped[provider])
    else None
  }

  function Select(registry: Registry, req: Request): Decision {
    var (preferred, level) := Preferred(req);
    if preferred !in req.policy.allowed then Review(req.role, ProfileNotAllowed, level)
    else if level > req.policy.maxEscalation then Review(req.role, EscalationExhausted, level)
    else
      var chosen := Chosen(registry, req);
      if chosen == None then Review(req.role, BudgetExceeded, level)
      else if req.provider == Mock then Selected(req.role, chosen, Mock, None, level)
      else
        var settings := Resolved(registry.Get(chosen.value), req.provider);
        if settings == None then Review(req.role, NoProviderMapping, level)
        else Selected(req.role, chosen, req.provider, settings, level)
  }

  predicate Admitted(registry: Registry, req: Request, p: ProfileId) {
    p in req.policy.allowed && WithinBudget(registry.Get(p), req.remaining)
  }

  /** The strongest admitted profile that is not stronger than the preferred one. */
  predicate Strongest(registry: Registry, req: Request, p: ProfileId) {
    && Admitted(registry, req, p) && Rank(p) <= Rank(Preferred(req).0)
    && forall q: ProfileId :: Rank(p) < Rank(q) <= Rank(Preferred(req).0) ==> !Admitted(registry, req, q)
  }

  lemma {:induction false} LowerIsStrongest(registry: Registry, n: nat, req: Request)
    requires n <= 2
    ensures var r := Lower(registry, n, req);
            && (r.Some? ==> Rank(r.value) < n && Admitted(registry, req, r.value))
            && forall q: ProfileId :: Rank(q) < n && (r.Some? ==> Rank(r.value) < Rank(q)) ==> !Admitted(registry, req, q)
  {
    if n > 0 { LowerIsStrongest(registry, n - 1, req); }
  }

  /**
   * A profile is selected exactly when the preferred one is allowed within the escalation limit and it is
   * the strongest one that policy and every remaining budget admit, a weaker one only if policy downgrades.
   */
  lemma SelectedIsStrongest(registry: Registry, req: Request, p: ProfileId)
    ensures (Select(registry, req).Selected? && Select(registry, req).profile == Some(p)) <==>
            && Preferred(req).0 in req.policy.allowed && Preferred(req).1 <= req.policy.maxEscalation
            && Strongest(registry, req, p) && (p == Preferred(req).0 || req.policy.downgrade)
            && (req.provider == Mock || Resolved(registry.Get(p), req.provider).Some?)
  {
    LowerIsStrongest(registry, Rank(Preferred(req).0), req);
    assert forall a: ProfileId, b: ProfileId :: Rank(a) == Rank(b) ==> a == b;
  }

  /** A failure after which a stronger profile may help. */
  predicate Escalates(f: Option<Failure>) { f == Some(REASONING) || f == Some(UNKNOWN) }

  /** The profile a request calls for, by its complexity and the failure before it; its role plays no part. */
  predicate CallsFor(req: Request, p: ProfileId) {
    match p
    case ECONOMICAL => req.complexity == SIMPLE && !Escalates(req.failure)
    case STANDARD => if Escalates(req.failure) then req.complexity == SIMPLE else req.complexity == NORMAL
    case DEEP => req.complexity == COMPLEX || (req.complexity == NORMAL && Escalates(req.failure))
  }

  /** After a failure that cannot escalate no escalation is counted. */
  function LevelOf(req: Request, p: ProfileId): nat {
    if req.failure == None || Escalates(req.failure) then Rank(p) else 0
  }

  /** What a call for this profile ends with: every refusal and the selection, with its transport, each exactly when. */
  lemma SelectedByRequest(registry: Registry, req: Request, p: ProfileId)
    requires CallsFor(req, p)
    ensures var d := Select(registry, req);
            var level := LevelOf(req, p);
            var open := p in req.policy.allowed && level <= req.policy.maxEscalation;
            var weaker := req.policy.downgrade && exists q: ProfileId :: Rank(q) < Rank(p) && Admitted(registry, req, q);
            && (d == Review(req.role, ProfileNotAllowed, level) <==> p !in req.policy.allowed)
            && (d == Review(req.role, EscalationExhausted, level) <==> p in req.policy.allowed && level > req.policy.maxEscalation)
            && (d == Review(req.role, BudgetExceeded, level) <==> open && !Admitted(registry, req, p) && !weaker)
            && (open && Admitted(registry, req, p) && req.provider == Mock ==> d == Selected(req.role, Some(p), Mock, None, level))
            && (d.Selected? ==>
                  && d.role == req.role && d.provider == req.provider && d.level == level && d.profile.Some?
                  && (d.profile.value == p || (!Admitted(registry, req, p) && weaker && Rank(d.profile.value) < Rank(p)))
                  && d.settings == (if req.provider == Mock then None
                                    else if req.provider == registry.Get(d.profile.value).provider then Some(registry.Get(d.profile.value).own)
                                    else if req.provider in registry.Get(d.profile.value).mapped
                                         then Some(registry.Get(d.profile.value).mapped[req.provider]) else None)
                  && (req.provider == Mock || d.settings.Some?))
  {
    assert Preferred(req) == (p, LevelOf(req, p));
    LowerIsStrongest(registry, Rank(p), req);
    assert forall a: ProfileId, b: ProfileId :: Rank(a) == Rank(b) ==> a == b;
  }

  /** The escalation limit caps the selected profile, unless the last failure cannot escalate: then it plays no part. */
  lemma EscalationIsCapped(registry: Registry, req: Request, limit: nat)
    ensures Select(registry, req).Selected? && Select(registry, req).profile.Some? && !NonEscalatable(req.failure) ==>
              Rank(Select(registry, req).profile.value) <= req.policy.maxEscalation
    ensures NonEscalatable(req.failure) ==>
              Select(registry, req) == Select(registry, req.(policy := req.policy.(maxEscalation := limit)))
  {
    LowerIsStrongest(registry, Rank(Preferred(req).0), req);
    if NonEscalatable(req.failure) {
      LowerIgnoresLimit(registry, Rank(Preferred(req).0), req, limit);
    }
  }

  lemma {:induction false} LowerIgnoresLimit(registry: Registry, n: nat, req: Request, limit: nat)
    requires n <= 2
    ensures Lower(registry, n, req) == Lower(registry, n, req.(policy := req.policy.(maxEscalation := limit)))
  {
    if n > 0 { LowerIgnoresLimit(registry, n - 1, req, limit); }
  }

  // ----- tokens charged to profiles -----

  datatype Tally = Tally(gross: nat, cached: nat, uncached: nat, output: nat) {
    function Plus(other: Tally): Tally {
      Tally(gross + other.gross, cached + other.cached, uncached + other.uncached, output + other.output)
    }
  }

  const EmptyTally := Tally(0, 0, 0, 0)

  function TallyOf(u: Usage): Tally { Tally(u.Gross(), u.cached, u.Uncached(), u.output) }

  datatype ProfileUsage = ProfileUsage(economical: Tally, standard: Tally, deep: Tally) {
    function Total(): Tally { economical.Plus(standard).Plus(deep) }
  }

  function Charged(usage: ProfileUsage, p: ProfileId, u: Usage): ProfileUsage {
    match p
    case ECONOMICAL => usage.(economical := usage.economical.Plus(TallyOf(u)))
    case STANDARD => usage.(standard := usage.standard.Plus(TallyOf(u)))
    case DEEP => usage.(deep := usage.deep.Plus(TallyOf(u)))
  }

  function ShareOf(usage: ProfileUsage, p: ProfileId): Tally {
    match p case ECONOMICAL => usage.economical case STANDARD => usage.standard case DEEP => usage.deep
  }

  /** A charge is to one profile: its gross, cached, uncached and output tokens grow by the report, and no other's change. */
  lemma ChargedExactly(usage: ProfileUsage, p: ProfileId, u: Usage, q: ProfileId)
    ensures var before, after := ShareOf(usage, q), ShareOf(Charged(usage, p, u), q);
            if q == p then
              && after.gross == before.gross + u.input && after.cached == before.cached + u.cached && after.output == before.output + u.output
              && after.uncached == before.uncached + if u.cached < u.input then u.input - u.cached else 0
            else after == before
  {
  }
}
