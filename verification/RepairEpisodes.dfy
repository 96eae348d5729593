/**
 * One engineering repair episode: local proposals, one expert attempt, at most one external review, and the
 * single retry of that review an operator may authorize.
 *
 * The episode is a state machine over the atomic steps of the supervisor.  A crash may happen between any
 * two of them; it loses the episode in memory and keeps the durable copy.
 */
module RepairEpisodes {
  import opened Prelude
  import opened DayModels

  const MAX_LOCAL_PROPOSALS := 3

  datatype ProposalOutcome = NO_PROPOSAL | DUPLICATE | PREFILTER_REJECTED | VERIFIED | REJECTED

  datatype Proposal = Proposal(fingerprint: Option<Fingerprint>, outcome: ProposalOutcome)

  datatype ExpertOutcome = ExpertVerified | ExpertFailed

  datatype Phase = NoPhase | SUBMISSION_STARTED | ARTIFACT_RECORDED | BUILDER_STARTED | BUILDER_VERIFIED | BUILDER_FAILED

  /** `Recoverable` stands for the provider failures an operator may retry. */
  datatype ProviderFailure = Recoverable(code: Id) | NotRecoverable(code: Id)

  datatype FailureCode = Provider(failure: ProviderFailure) | SubmissionUncertain

  datatype FinalOutcome =
    | LOCAL_VERIFIED | CODEX_VERIFIED | EXTERNAL_REVIEW_VERIFIED
    | EXTERNAL_REVIEW_NOT_ELIGIBLE | EXTERNAL_REVIEW_UNRESOLVED | EXTERNAL_REVIEW_BUILDER_FAILED

  datatype Episode = Episode(
    proposals: seq<Proposal>, expert: Option<ExpertOutcome>, artifact: Option<Id>, phase: Phase,
    failure: Option<FailureCode>, final: Option<FinalOutcome>, resumes: nat, interrupted: bool, deadline: Time)

  /** What a submitted review comes back with. */
  datatype Review = Guidance | NoGuidance(failure: Option<ProviderFailure>) {
    function Failure(): Option<FailureCode> {
      if NoGuidance? && failure.Some? then Some(Provider(failure.value)) else None
    }
  }

  /** Where the supervisor is between two atomic steps; `Idle` outside it, `Down` after a crash. */
  datatype Point =
    | Idle | Down | LocalLoop | AskExpert | AskReviewer | Submitting
    | Recording(artifact: Id, review: Review) | Reviewed(guided: bool) | Building

  /** The durable copy, the copy in memory, and how many reviews were ever submitted for the episode. */
  datatype Supervision = Supervision(saved: Episode, live: Episode, at: Point, submissions: nat)

  datatype ProposalAnswer = NothingProposed | Proposed(fingerprint: Fingerprint, inScope: bool, verified: bool)

  datatype Step =
    | Enter
    | Propose(answer: ProposalAnswer, now: Time)
    | LeaveLoop(now: Time)
    | Expert(verified: bool)
    | Prepare(eligible: bool, loaded: bool, guided: bool)
    | Submit(artifact: Id, review: Review)
    | Record
    | Judge
    | Builder(verified: bool)
    | Raise
    | Crash
    | Restart(supervising: bool)
    | OperatorResume

  function New(deadline: Time): Episode {
    Episode([], None, None, NoPhase, None, None, 0, false, deadline)
  }

  predicate CanPropose(e: Episode, now: Time) {
    e.expert == None && |e.proposals| < MAX_LOCAL_PROPOSALS && now < e.deadline
  }

  predicate Seen(e: Episode, fingerprint: Fingerprint) {
    exists p :: p in e.proposals && p.fingerprint == Some(fingerprint)
  }

  function OutcomeOf(e: Episode, answer: ProposalAnswer): ProposalOutcome {
    if answer.NothingProposed? then NO_PROPOSAL
    else if Seen(e, answer.fingerprint) then DUPLICATE
    else if !answer.inScope then PREFILTER_REJECTED
    else if answer.verified then VERIFIED
    else REJECTED
  }

  function WithProposal(e: Episode, answer: ProposalAnswer): Episode {
    var outcome := OutcomeOf(e, answer);
    var fingerprint := if answer.Proposed? then Some(answer.fingerprint) else None;
    e.(proposals := e.proposals + [Proposal(fingerprint, outcome)],
       final := if outcome == VERIFIED then Some(LOCAL_VERIFIED) else e.final)
  }

  /** Both copies become `e`, and the supervisor moves on to `at`. */
  function Saved(s: Supervision, e: Episode, at: Point): Supervision {
    Supervision(e, e, at, s.submissions)
  }

  predicate Open(p: Phase) {
    p == SUBMISSION_STARTED || p == ARTIFACT_RECORDED || p == BUILDER_STARTED
  }

  function Prepared(s: Supervision, eligible: bool, loaded: bool, guided: bool): Supervision {
    var e := s.live;
    var has := e.artifact.Some? && loaded;
    if !eligible then Saved(s, e.(final := Some(EXTERNAL_REVIEW_NOT_ELIGIBLE)), Idle)
    else if has then s.(at := Reviewed(guided))
    else if Open(e.phase) then
      Saved(s, e.(failure := Some(SubmissionUncertain), final := Some(EXTERNAL_REVIEW_UNRESOLVED)), Idle)
    else Saved(s, e.(phase := SUBMISSION_STARTED), Submitting)
  }

  predicate OperatorMayResume(e: Episode) {
    e.failure.Some? && e.failure.value.Provider? && e.failure.value.failure.Recoverable? && e.resumes < 1
  }

  function Resumed(e: Episode): Episode {
    e.(resumes := e.resumes + 1, artifact := None, failure := None, phase := NoPhase, final := None, interrupted := true)
  }

  function After(s: Supervision, step: Step): Supervision {
    var e := s.live;
    match step
    case Enter => if s.at == Idle && e.final == None then Saved(s, e.(interrupted := false), LocalLoop) else s
    case Propose(answer, now) =>
      if s.at != LocalLoop || !CanPropose(e, now) then s
      else
        var next := match OutcomeOf(e, answer)
                    case VERIFIED => Idle
                    case REJECTED => LocalLoop
                    case _ => AskExpert;
        Saved(s, WithProposal(e, answer), next)
    case LeaveLoop(now) => if s.at == LocalLoop && !CanPropose(e, now) then s.(at := AskExpert) else s
    case Expert(verified) =>
      if s.at != AskExpert then s
      else if e.expert.Some? then s.(at := AskReviewer)
      else if verified then Saved(s, e.(expert := Some(ExpertVerified), final := Some(CODEX_VERIFIED)), Idle)
      else Saved(s, e.(expert := Some(ExpertFailed)), AskReviewer)
    case Prepare(eligible, loaded, guided) => if s.at == AskReviewer then Prepared(s, eligible, loaded, guided) else s
    case Submit(artifact, review) =>
      if s.at == Submitting then s.(at := Recording(artifact, review), submissions := s.submissions + 1) else s
    case Record =>
      if !s.at.Recording? then s
      else
        Saved(s, e.(artifact := Some(s.at.artifact), phase := ARTIFACT_RECORDED,
                    failure := s.at.review.Failure()),
              Reviewed(s.at.review.Guidance?))
    case Judge =>
      if !s.at.Reviewed? then s
      else if !s.at.guided then Saved(s, e.(final := Some(EXTERNAL_REVIEW_UNRESOLVED)), Idle)
      else Saved(s, e.(phase := BUILDER_STARTED), Building)
    case Builder(verified) =>
      if s.at != Building then s
      else if verified then Saved(s, e.(phase := BUILDER_VERIFIED, final := Some(EXTERNAL_REVIEW_VERIFIED)), Idle)
      else Saved(s, e.(phase := BUILDER_FAILED, final := Some(EXTERNAL_REVIEW_BUILDER_FAILED)), Idle)
    case Raise => if s.at == Down then s else s.(at := Idle)
    case Crash => s.(at := Down)
    case Restart(supervising) =>
      if s.at == Down then Saved(s, s.saved.(interrupted := s.saved.interrupted || supervising), Idle) else s
    case OperatorResume => if s.at == Idle && OperatorMayResume(e) then Saved(s, Resumed(e), Idle) else s
  }

  function AfterAll(s: Supervision, steps: seq<Step>): Supervision {
    if steps == [] then s else After(AfterAll(s, steps[..|steps| - 1]), steps[|steps| - 1])
  }

  lemma AfterOneMore(s: Supervision, steps: seq<Step>, step: Step)
    ensures AfterAll(s, steps + [step]) == After(AfterAll(s, steps), step)
  {
    assert (steps + [step])[..|steps|] == steps;
  }

  // ----- bounds over any run, with any crashes -----

  /** What is true of either copy of an episode, given how many reviews were submitted. */
  predicate EpisodeOk(e: Episode, submissions: nat) {
    && |e.proposals| <= MAX_LOCAL_PROPOSALS && e.resumes <= 1
    && submissions <= e.resumes + 1
    && (e.phase == NoPhase ==> submissions <= e.resumes && e.artifact == None)
    && (e.phase == SUBMISSION_STARTED ==> e.artifact == None)
    && (e.phase == NoPhase || e.phase == SUBMISSION_STARTED ==> e.failure in {None, Some(SubmissionUncertain)})
    && (e.phase == BUILDER_VERIFIED || e.phase == BUILDER_FAILED ==> e.final.Some?)
    && (e.failure == Some(SubmissionUncertain) ==> Open(e.phase) && e.final.Some?)
  }

  predicate Working(at: Point) { at != Idle && at != Down }

  predicate SupervisionOk(s: Supervision) {
    && EpisodeOk(s.saved, s.submissions) && EpisodeOk(s.live, s.submissions)
    && (Working(s.at) ==> s.live.final == None && s.saved == s.live)
    && (s.at == Submitting ==> s.live.phase == SUBMISSION_STARTED && s.submissions <= s.live.resumes)
    && (s.at.Recording? ==> s.live.phase == SUBMISSION_STARTED)
    && (s.at.Reviewed? || s.at == Building ==> s.live.artifact.Some?)
    && (s.at == Idle ==> s.live == s.saved || s.live.final == None)
  }

  lemma StepKeepsSupervision(s: Supervision, step: Step)
    requires SupervisionOk(s)
    ensures SupervisionOk(After(s, step))
  {
    if step.Propose? && s.at == LocalLoop && CanPropose(s.live, step.now) {
      ProposalKeepsEpisode(s.live, step.answer, s.submissions);
    }
  }

  lemma ProposalKeepsEpisode(e: Episode, answer: ProposalAnswer, submissions: nat)
    requires EpisodeOk(e, submissions) && |e.proposals| < MAX_LOCAL_PROPOSALS && e.final == None
    ensures EpisodeOk(WithProposal(e, answer), submissions)
  {
  }

  /**
   * From a new episode, through any crashes, restarts and operator resumes: at most three local proposals
   * are recorded, at most one operator retry is granted, and at most two reviews are submitted.
   */
  lemma {:induction false} EpisodeIsBounded(deadline: Time, steps: seq<Step>)
    ensures var s := AfterAll(Supervision(New(deadline), New(deadline), Idle, 0), steps);
            && SupervisionOk(s)
            && |s.saved.proposals| <= MAX_LOCAL_PROPOSALS && s.submissions <= s.saved.resumes + 1 <= 2
  {
    if steps != [] {
      EpisodeIsBounded(deadline, steps[..|steps| - 1]);
      StepKeepsSupervision(AfterAll(Supervision(New(deadline), New(deadline), Idle, 0), steps[..|steps| - 1]), steps[|steps| - 1]);
    }
  }

  /** A submission was started and nothing durable says how it ended. */
  predicate UnknownOutcome(s: Supervision) {
    && s.saved.phase == SUBMISSION_STARTED
    && (s.at != Down ==> s.live.phase == SUBMISSION_STARTED)
    && s.at != Submitting && !s.at.Recording?
  }

  lemma UnknownStep(s: Supervision, step: Step)
    requires SupervisionOk(s) && UnknownOutcome(s)
    ensures UnknownOutcome(After(s, step)) && After(s, step).submissions == s.submissions
  {
  }

  /** Such a submission is never repeated, neither by a restart nor by an operator. */
  lemma {:induction false} UnknownOutcomeIsNeverResubmitted(s: Supervision, steps: seq<Step>)
    requires SupervisionOk(s) && UnknownOutcome(s)
    ensures SupervisionOk(AfterAll(s, steps)) && UnknownOutcome(AfterAll(s, steps))
    ensures AfterAll(s, steps).submissions == s.submissions
  {
    if steps != [] {
      UnknownOutcomeIsNeverResubmitted(s, steps[..|steps| - 1]);
      StepKeepsSupervision(AfterAll(s, steps[..|steps| - 1]), steps[|steps| - 1]);
      UnknownStep(AfterAll(s, steps[..|steps| - 1]), steps[|steps| - 1]);
    }
  }

  /** A crash between starting a submission and recording its artifact leaves exactly that state. */
  lemma CrashWhileSubmitting(s: Supervision)
    requires SupervisionOk(s) && (s.at == Submitting || s.at.Recording?)
    ensures UnknownOutcome(After(s, Crash)) && SupervisionOk(After(s, Crash))
  {
  }

  // ----- the supervisor as it runs -----

  class RepairSupervisor {
    var saved: Episode
    var live: Episode
    var submissions: nat

    ghost function At(p: Point): Supervision reads this { Supervision(saved, live, p, submissions) }

    /** Saves the episode in memory. */
    method Save()
      modifies this`saved
      ensures saved == live
    {
      saved := live;
    }

    /**
     * The bounded control loop, from local proposals to the external review.  It always ends the episode, and
     * the steps it takes are steps of the machine above, so it may be cut off by a crash at any of them.
     */
    method SuperviseRepair(eligible: bool) returns (repaired: bool, ghost steps: seq<Step>)
      requires live.final == None
      modifies this
      ensures AfterAll(old(At(Idle)), steps) == At(Idle)
      ensures live.final.Some?
      ensures repaired <==> live.final.value in {LOCAL_VERIFIED, CODEX_VERIFIED, EXTERNAL_REVIEW_VERIFIED}
    {
      live := live.(interrupted := false);
      Save();
      steps := [Enter];
      AfterOneMore(old(At(Idle)), [], Enter);
      assert [] + [Enter] == [Enter];
      ghost var more;
      repaired, more := ProposeLocally(old(At(Idle)), steps);
      steps := more;
      if repaired { return; }
      var expert: bool := *;
      steps := steps + [Expert(expert)];
      AfterOneMore(old(At(Idle)), more, Expert(expert));
      if live.expert == None {
        if expert {
          live := live.(expert := Some(ExpertVerified), final := Some(CODEX_VERIFIED));
          Save();
          return true, steps;
        }
        live := live.(expert := Some(ExpertFailed));
        Save();
      }
      repaired, more := RequestExternalRepairGuidance(eligible, old(At(Idle)), steps);
      steps := more;
    }

    /** Up to three local proposals before the deadline; a missing, repeated or out-of-scope one ends the loop. */
    method ProposeLocally(ghost start: Supervision, ghost before: seq<Step>) returns (repaired: bool, ghost steps: seq<Step>)
      requires live.final == None && AfterAll(start, before) == At(LocalLoop)
      modifies this`live, this`saved
      ensures AfterAll(start, steps) == At(if repaired then Idle else AskExpert)
      ensures repaired ==> live.final == Some(LOCAL_VERIFIED)
      ensures !repaired ==> live.final == None
    {
      steps := before;
      while true
        invariant live.final == None && AfterAll(start, steps) == At(LocalLoop)
        decreases MAX_LOCAL_PROPOSALS - |live.proposals|
      {
        var now: Time := *;
        if !CanPropose(live, now) {
          AfterOneMore(start, steps, LeaveLoop(now));
          steps := steps + [LeaveLoop(now)];
          return false, steps;
        }
        var answer: ProposalAnswer := *;
        var outcome := OutcomeOf(live, answer);
        AfterOneMore(start, steps, Propose(answer, now));
        steps := steps + [Propose(answer, now)];
        live := live.(proposals := live.proposals + [Proposal(if answer.Proposed? then Some(answer.fingerprint) else None, outcome)]);
        if outcome == VERIFIED {
          live := live.(final := Some(LOCAL_VERIFIED));
          Save();
          return true, steps;
        }
        Save();
        if outcome != REJECTED { return false, steps; }
      }
    }

    /** One advisory review: the submission is recorded as started before it is made. */
    method RequestExternalRepairGuidance(eligible: bool, ghost start: Supervision, ghost before: seq<Step>)
      returns (repaired: bool, ghost steps: seq<Step>)
      requires live.final == None && AfterAll(start, before) == At(AskReviewer)
      modifies this
      ensures AfterAll(start, steps) == At(Idle)
      ensures live.final.Some? && (repaired <==> live.final == Some(EXTERNAL_REVIEW_VERIFIED))
      ensures !repaired ==> live.final.value !in {LOCAL_VERIFIED, CODEX_VERIFIED}
    {
      var loaded: bool := *;
      var guided: bool := *;
      steps := before + [Prepare(eligible, loaded, guided)];
      AfterOneMore(start, before, Prepare(eligible, loaded, guided));
      if !eligible {
        live := live.(final := Some(EXTERNAL_REVIEW_NOT_ELIGIBLE));
        Save();
        return false, steps;
      }
      if live.artifact == None || !loaded {
        if live.phase == SUBMISSION_STARTED || live.phase == ARTIFACT_RECORDED || live.phase == BUILDER_STARTED {
          live := live.(failure := Some(SubmissionUncertain), final := Some(EXTERNAL_REVIEW_UNRESOLVED));
          Save();
          return false, steps;
        }
        live := live.(phase := SUBMISSION_STARTED);
        Save();
        var artifact: Id := *;
        var review: Review := *;
        AfterOneMore(start, steps, Submit(artifact, review));
        steps := steps + [Submit(artifact, review)];
        submissions := submissions + 1;
        AfterOneMore(start, steps, Record);
        steps := steps + [Record];
        live := live.(artifact := Some(artifact), phase := ARTIFACT_RECORDED,
                      failure := review.Failure());
        Save();
        guided := review.Guidance?;
      }
      repaired, steps := BuildFromGuidance(guided, start, steps);
    }

    method BuildFromGuidance(guided: bool, ghost start: Supervision, ghost before: seq<Step>)
      returns (repaired: bool, ghost steps: seq<Step>)
      requires live.final == None && AfterAll(start, before) == At(Reviewed(guided))
      modifies this`live, this`saved
      ensures AfterAll(start, steps) == At(Idle)
      ensures live.final.Some? && (repaired <==> live.final == Some(EXTERNAL_REVIEW_VERIFIED))
      ensures !repaired ==> live.final.value !in {LOCAL_VERIFIED, CODEX_VERIFIED}
    {
      AfterOneMore(start, before, Judge);
      steps := before + [Judge];
      if !guided {
        live := live.(final := Some(EXTERNAL_REVIEW_UNRESOLVED));
        Save();
        return false, steps;
      }
      live := live.(phase := BUILDER_STARTED);
      Save();
      var verified: bool := *;
      AfterOneMore(start, steps, Builder(verified));
      steps := steps + [Builder(verified)];
      if verified {
        live := live.(phase := BUILDER_VERIFIED, final := Some(EXTERNAL_REVIEW_VERIFIED));
      } else {
        live := live.(phase := BUILDER_FAILED, final := Some(EXTERNAL_REVIEW_BUILDER_FAILED));
      }
      Save();
      repaired := verified;
    }

    /** One more review, authorized by an operator after a recoverable provider failure. */
    method BeginOperatorResume() returns (granted: bool)
      modifies this`live, this`saved
      ensures At(Idle) == After(old(At(Idle)), OperatorResume)
      ensures granted == OperatorMayResume(old(live))
    {
      if !OperatorMayResume(live) { return false; }
      live := live.(resumes := live.resumes + 1, artifact := None, failure := None, phase := NoPhase, final := None,
                    interrupted := true);
      Save();
      return true;
    }
  }
}
