/**
 * The Defense flow: a cursor over its seven screens and the session record
 * that the screens update by merging partial records into it.
 */
module DefenseMode {
  import opened Wrappers
  import opened Rounding
  import opened Steps

  datatype DefenseStep = Welcome | Mission | Resources | Ritual | Study | Log | Exit

  const DefenseSteps: seq<DefenseStep> := [Welcome, Mission, Resources, Ritual, Study, Log, Exit]

  datatype DefenseSession = DefenseSession(
    subject: string,
    unit: string,
    topic: string,
    targetHours: int,
    pyqRelevance: int,
    energyLevel: int,
    resources: seq<string>,
    studyTime: int,
    learnings: string,
    confusions: string,
    reviewItems: seq<string>,
    topicStatus: string)

  const InitialSession := DefenseSession("", "", "", 2, 3, 50, [], 0, "", "", [], "")

  /** A partial session record: the fields it carries overwrite the session's, the others are absent. */
  datatype SessionPatch = SessionPatch(
    subject: Option<string>,
    unit: Option<string>,
    topic: Option<string>,
    targetHours: Option<int>,
    pyqRelevance: Option<int>,
    energyLevel: Option<int>,
    resources: Option<seq<string>>,
    studyTime: Option<int>,
    learnings: Option<string>,
    confusions: Option<string>,
    reviewItems: Option<seq<string>>,
    topicStatus: Option<string>)

  const EmptyPatch := SessionPatch(None, None, None, None, None, None, None, None, None, None, None, None)

  /** `{ ...prev, ...data }`: each field present in the patch replaces the session's; every other field is kept. */
  function Merge(s: DefenseSession, p: SessionPatch): (r: DefenseSession)
    ensures Overlaid(p.subject, s.subject, r.subject)
    ensures Overlaid(p.unit, s.unit, r.unit)
    ensures Overlaid(p.topic, s.topic, r.topic)
    ensures Overlaid(p.targetHours, s.targetHours, r.targetHours)
    ensures Overlaid(p.pyqRelevance, s.pyqRelevance, r.pyqRelevance)
    ensures Overlaid(p.energyLevel, s.energyLevel, r.energyLevel)
    ensures Overlaid(p.resources, s.resources, r.resources)
    ensures Overlaid(p.studyTime, s.studyTime, r.studyTime)
    ensures Overlaid(p.learnings, s.learnings, r.learnings)
    ensures Overlaid(p.confusions, s.confusions, r.confusions)
    ensures Overlaid(p.reviewItems, s.reviewItems, r.reviewItems)
    ensures Overlaid(p.topicStatus, s.topicStatus, r.topicStatus)
  {
    DefenseSession(
      p.subject.GetOr(s.subject),
      p.unit.GetOr(s.unit),
      p.topic.GetOr(s.topic),
      p.targetHours.GetOr(s.targetHours),
      p.pyqRelevance.GetOr(s.pyqRelevance),
      p.energyLevel.GetOr(s.energyLevel),
      p.resources.GetOr(s.resources),
      p.studyTime.GetOr(s.studyTime),
      p.learnings.GetOr(s.learnings),
      p.confusions.GetOr(s.confusions),
      p.reviewItems.GetOr(s.reviewItems),
      p.topicStatus.GetOr(s.topicStatus))
  }

  /** Merging an empty record changes nothing. */
  lemma MergeEmpty(s: DefenseSession)
    ensures Merge(s, EmptyPatch) == s
  {
  }

  /** Merging the same record twice is merging it once. */
  lemma MergeIdempotent(s: DefenseSession, p: SessionPatch)
    ensures Merge(Merge(s, p), p) == Merge(s, p)
  {
  }

  /** The flow's state: which screen is shown and the session record. */
  class DefenseFlow {
    var currentStep: DefenseStep
    var sessionData: DefenseSession

    constructor ()
      ensures currentStep == Welcome && sessionData == InitialSession
    {
      currentStep := Welcome;
      sessionData := InitialSession;
    }

    method UpdateSessionData(p: SessionPatch)
      modifies this
      ensures sessionData == Merge(old(sessionData), p)
      ensures currentStep == old(currentStep)
    {
      sessionData := Merge(sessionData, p);
    }

    method NextStep()
      modifies this
      ensures currentStep == Next(DefenseSteps, old(currentStep))
      ensures sessionData == old(sessionData)
    {
      var i := IndexOf(DefenseSteps, currentStep);
      if i < |DefenseSteps| - 1 {
        currentStep := DefenseSteps[i + 1];
      }
    }

    method GoToStep(step: DefenseStep)
      modifies this
      ensures currentStep == step && sessionData == old(sessionData)
    {
      currentStep := step;
    }

    /** The exit screen's "return to defense" button. */
    method ReturnToDefense()
      modifies this
      ensures currentStep == Study && sessionData == old(sessionData)
    {
      GoToStep(Study);
    }
  }

  /** `nextStep` moves one place along welcome, mission, resources, ritual, study, log, exit, and stays on exit. */
  lemma DefenseNextStep()
    ensures Next(DefenseSteps, Welcome) == Mission && Next(DefenseSteps, Mission) == Resources
    ensures Next(DefenseSteps, Resources) == Ritual && Next(DefenseSteps, Ritual) == Study
    ensures Next(DefenseSteps, Study) == Log && Next(DefenseSteps, Log) == Exit
    ensures Next(DefenseSteps, Exit) == Exit
  {
    assert Distinct(DefenseSteps);
    NextMovesOnePlace(DefenseSteps, 0);
    NextMovesOnePlace(DefenseSteps, 1);
    NextMovesOnePlace(DefenseSteps, 2);
    NextMovesOnePlace(DefenseSteps, 3);
    NextMovesOnePlace(DefenseSteps, 4);
    NextMovesOnePlace(DefenseSteps, 5);
    NextMovesOnePlace(DefenseSteps, 6);
  }

  /** After `k` calls from the welcome screen the flow is at position min(k, 6): it never passes the seventh step. */
  lemma DefenseAdvance(k: nat)
    ensures Advance(DefenseSteps, Welcome, k) == DefenseSteps[Min(k, 6)]
  {
    assert Distinct(DefenseSteps);
    AdvanceFrom(DefenseSteps, 0, k);
  }
}
