/**
  Ordering utilities over the workshop progression stages: a strict
  "earlier than" comparison computed from positions in the enum's value
  list, the comparisons derived from it, a three-way status classifier,
  and the neighbour functions that step one stage forward or back and
  stay put at the two ends of the workflow.
*/
module ProgressionStatus {
  import opened Models

  /** The status a stage has, seen from the evaluation's current stage. */
  datatype Status = Complete | InProgress | Awaiting

  /**
    `Array.prototype.indexOf`: the position of the first occurrence of
    `p` in `s`, or -1 when `p` does not occur.
  */
  function IndexOf(s: seq<Progression>, p: Progression): (i: int)
    ensures -1 <= i < |s|
    ensures i >= 0 ==> s[i] == p && forall j :: 0 <= j < i ==> s[j] != p
    ensures i == -1 <==> p !in s
  {
    if s == [] then -1
    else if s[0] == p then 0
    else
      var k := IndexOf(s[1..], p);
      if k == -1 then -1 else k + 1
  }

  /**
    The position of a stage in the workflow, 0 for Nomination up to 4 for
    FollowUp; it is where the stage sits in the enum's value list.
  */
  function Ordinal(p: Progression): (n: nat)
    ensures n < |Values()| && Values()[n] == p
  {
    match p
    case Nomination => 0
    case IndividualAssessment => 1
    case Preparation => 2
    case Workshop => 3
    case FollowUp => 4
  }

  /** Distinct stages sit at distinct positions. */
  lemma OrdinalInjective(p1: Progression, p2: Progression)
    ensures Ordinal(p1) == Ordinal(p2) <==> p1 == p2
  {
  }

  /** Looking a stage up in the value list finds it, at its ordinal. */
  lemma IndexOfValues(p: Progression)
    ensures IndexOf(Values(), p) == Ordinal(p)
  {
  }

  /** No stage is missing from the value list, so indexOf never yields -1. */
  lemma IndexOfNeverMissing(p: Progression)
    ensures IndexOf(Values(), p) >= 0
  {
  }

  /** `p1` comes strictly before `p2`: their positions in the value list compare. */
  function ProgressionLessThan(p1: Progression, p2: Progression): (r: bool)
    ensures r <==> Ordinal(p1) < Ordinal(p2)
  {
    var progressionValues := Values();
    var p1i := IndexOf(progressionValues, p1);
    var p2i := IndexOf(progressionValues, p2);
    p1i < p2i
  }

  /** `p1` comes strictly after `p2`. */
  function ProgressionGreaterThan(p1: Progression, p2: Progression): (r: bool)
    ensures r <==> Ordinal(p2) < Ordinal(p1)
  {
    if p1 == p2 then false
    else !ProgressionLessThan(p1, p2)
  }

  /** `p1` is `p2` or comes after it. */
  function ProgressionGreaterThanOrEqual(p1: Progression, p2: Progression): (r: bool)
    ensures r <==> Ordinal(p2) <= Ordinal(p1)
  {
    if p1 == p2 then true
    else ProgressionGreaterThan(p1, p2)
  }

  /**
    The status of `progressionToEvaluate` while the evaluation is at
    `currentProgression`: still to come, the current one, or done.
  */
  function CalcProgressionStatus(currentProgression: Progression, progressionToEvaluate: Progression): (r: Status)
    ensures r == Awaiting <==> Ordinal(currentProgression) < Ordinal(progressionToEvaluate)
    ensures r == Complete <==> Ordinal(progressionToEvaluate) < Ordinal(currentProgression)
    ensures r == InProgress <==> currentProgression == progressionToEvaluate
  {
    if ProgressionLessThan(currentProgression, progressionToEvaluate) then Awaiting
    else if ProgressionLessThan(progressionToEvaluate, currentProgression) then Complete
    else InProgress
  }

  /** The stage after `progression`; FollowUp, the last one, is its own successor. */
  function GetNextProgression(progression: Progression): (r: Progression)
    ensures progression == FollowUp ==> r == FollowUp
    ensures progression != FollowUp ==> Ordinal(r) == Ordinal(progression) + 1
  {
    match progression
    case Nomination => IndividualAssessment
    case IndividualAssessment => Preparation
    case Preparation => Workshop
    case Workshop => FollowUp
    case FollowUp => FollowUp
  }

  /** The stage before `progression`; Nomination, the first one, is its own predecessor. */
  function GetLastProgression(progression: Progression): (r: Progression)
    ensures progression == Nomination ==> r == Nomination
    ensures progression != Nomination ==> Ordinal(r) + 1 == Ordinal(progression)
  {
    match progression
    case Nomination => Nomination
    case IndividualAssessment => Nomination
    case Preparation => IndividualAssessment
    case Workshop => Preparation
    case FollowUp => Workshop
  }
}
