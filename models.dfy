/**
  The workshop progression stages of an evaluation, as the API models
  declare them. The declaration order is the order of the workflow:
  a workshop moves from nomination, through individual assessment,
  preparation and the workshop itself, to follow-up.
*/
module Models {

  /** The closed set of five stages; no other value can be represented. */
  datatype Progression =
    | Nomination
    | IndividualAssessment
    | Preparation
    | Workshop
    | FollowUp

  /**
    The enum's values in declaration order, as `Object.values(Progression)`
    lists them for a string enum: five stages, none twice.
  */
  function Values(): (vs: seq<Progression>)
    ensures |vs| == 5
    ensures forall i, j :: 0 <= i < j < |vs| ==> vs[i] != vs[j]
  {
    [Nomination, IndividualAssessment, Preparation, Workshop, FollowUp]
  }
}
