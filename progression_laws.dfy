/**
  What the ordering utilities promise: "earlier than" is a strict total
  order on the stages, the derived comparisons are its reverse and its
  reflexive reverse, the status classifier picks exactly one status, and
  the neighbour functions step by one, stay put only at the ends, undo
  each other and keep the order.
*/
module ProgressionLaws {
  import opened Models
  import opened ProgressionStatus

  ghost predicate Irreflexive(lt: (Progression, Progression) -> bool) {
    forall p :: !lt(p, p)
  }

  ghost predicate Transitive(lt: (Progression, Progression) -> bool) {
    forall p1, p2, p3 :: lt(p1, p2) && lt(p2, p3) ==> lt(p1, p3)
  }

  /** Of two distinct stages exactly one comes first. */
  ghost predicate Trichotomous(lt: (Progression, Progression) -> bool) {
    forall p1, p2 :: p1 != p2 ==> (lt(p1, p2) <==> !lt(p2, p1))
  }

  ghost predicate StrictTotalOrder(lt: (Progression, Progression) -> bool) {
    Irreflexive(lt) && Transitive(lt) && Trichotomous(lt)
  }

  /** Every stage occurs in the enum's value list. */
  lemma ValuesComplete(p: Progression)
    ensures p in Values()
  {
  }

  lemma LessThanIrreflexive(p: Progression)
    ensures !ProgressionLessThan(p, p)
  {
  }

  lemma LessThanTransitive(p1: Progression, p2: Progression, p3: Progression)
    requires ProgressionLessThan(p1, p2) && ProgressionLessThan(p2, p3)
    ensures ProgressionLessThan(p1, p3)
  {
  }

  lemma LessThanTrichotomy(p1: Progression, p2: Progression)
    ensures p1 != p2 ==> (ProgressionLessThan(p1, p2) <==> !ProgressionLessThan(p2, p1))
    ensures p1 == p2 ==> !ProgressionLessThan(p1, p2) && !ProgressionLessThan(p2, p1)
  {
  }

  /** The three laws together, for the comparison as a relation. */
  lemma LessThanIsStrictTotalOrder()
    ensures StrictTotalOrder(ProgressionLessThan)
  {
  }

  /** The equality short-circuit and the negated "earlier than" give exactly the reversed order. */
  lemma GreaterThanIsReversedLessThan(p1: Progression, p2: Progression)
    ensures ProgressionGreaterThan(p1, p2) == ProgressionLessThan(p2, p1)
  {
  }

  /** "At least as late" is "not earlier", and holds of every stage and itself. */
  lemma GreaterThanOrEqualIsNotLessThan(p1: Progression, p2: Progression)
    ensures ProgressionGreaterThanOrEqual(p1, p2) == !ProgressionLessThan(p1, p2)
    ensures ProgressionGreaterThanOrEqual(p1, p1)
  {
  }

  /** Each status is returned under exactly one condition on the comparison. */
  lemma CalcProgressionStatusCases(current: Progression, toEvaluate: Progression)
    ensures CalcProgressionStatus(current, toEvaluate) == Awaiting <==> ProgressionLessThan(current, toEvaluate)
    ensures CalcProgressionStatus(current, toEvaluate) == Complete <==> ProgressionLessThan(toEvaluate, current)
    ensures CalcProgressionStatus(current, toEvaluate) == InProgress <==> current == toEvaluate
  {
  }

  lemma CalcProgressionStatusExamples()
    ensures CalcProgressionStatus(Preparation, Workshop) == Awaiting
    ensures CalcProgressionStatus(Workshop, Preparation) == Complete
    ensures CalcProgressionStatus(Workshop, Workshop) == InProgress
  {
  }

  /** FollowUp is the only stage the successor leaves in place; every other moves strictly later. */
  lemma NextProgressionFixedPoint(p: Progression)
    ensures GetNextProgression(p) == p <==> p == FollowUp
    ensures p != FollowUp ==> ProgressionLessThan(p, GetNextProgression(p))
  {
  }

  /** Nomination is the only stage the predecessor leaves in place; every other moves strictly earlier. */
  lemma LastProgressionFixedPoint(p: Progression)
    ensures GetLastProgression(p) == p <==> p == Nomination
    ensures p != Nomination ==> ProgressionLessThan(GetLastProgression(p), p)
  {
  }

  lemma NeighbourExamples()
    ensures GetNextProgression(Nomination) == IndividualAssessment
    ensures GetNextProgression(FollowUp) == FollowUp
    ensures GetLastProgression(FollowUp) == Workshop
    ensures GetLastProgression(Nomination) == Nomination
  {
  }

  /** Stepping back after stepping forward returns to the start, except from FollowUp. */
  lemma LastAfterNext(p: Progression)
    requires p != FollowUp
    ensures GetLastProgression(GetNextProgression(p)) == p
  {
  }

  /** Stepping forward after stepping back returns to the start, except from Nomination. */
  lemma NextAfterLast(p: Progression)
    requires p != Nomination
    ensures GetNextProgression(GetLastProgression(p)) == p
  {
  }

  /** The successor keeps the order: a stage no earlier than another has a successor no earlier. */
  lemma NextProgressionMonotone(p1: Progression, p2: Progression)
    requires !ProgressionLessThan(p2, p1)
    ensures !ProgressionLessThan(GetNextProgression(p2), GetNextProgression(p1))
  {
  }

  /** The predecessor keeps the order in the same way. */
  lemma LastProgressionMonotone(p1: Progression, p2: Progression)
    requires !ProgressionLessThan(p2, p1)
    ensures !ProgressionLessThan(GetLastProgression(p2), GetLastProgression(p1))
  {
  }
}
