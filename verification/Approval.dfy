/** The decision on one tool call: agent-core/src/policy.rs, agent-core/src/reviewer.rs and the
    clamp of agent-core/src/core.rs:744-756. */
module Approval {
  import opened Wrappers

  datatype Decision = Auto | Prompt | Review | Deny
  datatype ApprovalMode = UnlessTrusted | OnRequest | Granular | Never
  datatype Risk = LowRisk | HighRisk | CriticalRisk
  datatype Authorization = HighAuth | MediumAuth | LowAuth | UnknownAuth
  datatype Assessment = Assessment(band: Risk, authorization: Authorization)

  datatype ReviewDecision = Approved | ApprovedForSession | Denied | Abort
  datatype GateOutcome = Decided(decision: ReviewDecision) | Suspended(ticket: nat)

  predicate IsApproval(o: GateOutcome) {
    o.Decided? && (o.decision == Approved || o.decision == ApprovedForSession)
  }

  /** `TrustedAutoApprovePolicy::decide_sync` */
  function DecideSync(mode: ApprovalMode, trusted: bool): Decision {
    if trusted then Auto
    else match mode
         case Never => Deny
         case UnlessTrusted => Prompt
         case OnRequest => Review
         case Granular => Review
  }

  function MapRisk(risk: Risk): Decision {
    match risk
    case LowRisk => Auto
    case HighRisk => Prompt
    case CriticalRisk => Deny
  }

  function ApplyAuthorization(band: Risk, authz: Authorization, base: Decision): Decision {
    match band
    case CriticalRisk => if base == Auto then Prompt else base
    case HighRisk =>
      if authz == HighAuth || authz == MediumAuth then
        (if base == Prompt then Auto else base)
      else (if base == Auto then Prompt else base)
    case LowRisk => if authz == UnknownAuth && base == Auto then Prompt else base
  }

  /** Admin overrides per band; a band left out keeps the default ladder. */
  datatype Reviewer = Reviewer(overrides: map<Risk, Decision>) {

    function Resolve(risk: Risk): Decision {
      if risk in overrides then overrides[risk] else MapRisk(risk)
    }

    function Decide(a: Assessment): Decision {
      ApplyAuthorization(a.band, a.authorization, Resolve(a.band))
    }

    /** A classifier error denies. */
    function ReviewCall(assessed: Result<Assessment, string>): Decision {
      match assessed
      case Ok(a) => Decide(a)
      case Err(_) => Deny
    }
  }

  function ClampReviewerDecision(trusted: bool, reviewed: Decision): Decision {
    if !trusted && reviewed == Auto then Prompt else reviewed
  }

  /** The decision the loop acts on, given the policy's. */
  function Resolved(
      policy: Decision, trusted: bool, reviewer: Option<Reviewer>, assessed: Result<Assessment, string>): Decision {
    if policy != Review then policy
    else match reviewer
         case None => Prompt
         case Some(rev) => ClampReviewerDecision(trusted, rev.ReviewCall(assessed))
  }

  // ----- what the decisions come to -----

  /** The decision for a band: the admin's, or else the default. */
  function Ladder(overrides: map<Risk, Decision>, band: Risk): Decision {
    if band in overrides then overrides[band]
    else match band case LowRisk => Auto case HighRisk => Prompt case CriticalRisk => Deny
  }

  /** A reviewed call is automatic exactly if its risk is low, the ladder lets that pass and the
      user's authorization is known, or if its risk is high, the ladder at least asks and the
      authorization is at least medium. Otherwise the ladder's decision stands, but for an
      automatic one, which becomes a question. */
  lemma ReviewedIsAuto(rev: Reviewer, a: Assessment)
    ensures var base, d := Ladder(rev.overrides, a.band), rev.Decide(a);
            && (d == Auto <==>
                  || (a.band == LowRisk && base == Auto && a.authorization != UnknownAuth)
                  || (a.band == HighRisk && base in {Auto, Prompt} && a.authorization in {HighAuth, MediumAuth}))
            && (d != Auto ==> d == if base == Auto then Prompt else base)
  {
  }

  /** A decision that lets a call pass where the ladder would not: just the one for a risky call that
      the ladder asks about, whether by default or because the admin said so, when the user's
      authorization is at least medium. */
  lemma LoosensExactly(rev: Reviewer, a: Assessment)
    ensures var base := Ladder(rev.overrides, a.band);
            base != Auto && rev.Decide(a) == Auto <==>
              a.band == HighRisk && base == Prompt && a.authorization in {HighAuth, MediumAuth}
  {
    ReviewedIsAuto(rev, a);
  }

  /** Under the trusted-auto policy: a trusted call is automatic in every mode, and another one is
      denied, asked about or reviewed; the review of an untrusted call never makes it automatic,
      and a classifier that fails denies. */
  lemma DecisionTable(
      mode: ApprovalMode, trusted: bool, reviewer: Option<Reviewer>, assessed: Result<Assessment, string>)
    ensures var d := Resolved(DecideSync(mode, trusted), trusted, reviewer, assessed);
            if trusted then d == Auto
            else match mode
                 case Never => d == Deny
                 case UnlessTrusted => d == Prompt
                 case _ =>
                   if reviewer.None? then d == Prompt
                   else if assessed.Err? then d == Deny
                   else
                     var reviewed := reviewer.value.Decide(assessed.value);
                     d == if reviewed == Auto then Prompt else reviewed
  {
  }
}
