# Workshop progression ordering

A model of the progression-ordering utility of the Barrier Management Tool
frontend (`frontend/src/utils/ProgressionStatus.ts`). An evaluation moves
through five fixed stages — Nomination, IndividualAssessment, Preparation,
Workshop, FollowUp — and the utility answers three questions about them:
whether one stage comes before another, what status a stage has from the
point of view of the evaluation's current stage (Awaiting, In Progress or
Complete), and which stage comes next or came last.

Files:

- `models.dfy` (module `Models`): the `Progression` enum as a closed
  datatype, and `Values()`, the enum's values in declaration order, which is
  what `Object.values(Progression)` returns for a string enum. The enum's declaration
  (`../api/models`) is not part of this model; its order is taken from the
  successor and predecessor tables of `ProgressionStatus.ts`, which agree
  with each other.
- `progression_status.dfy` (module `ProgressionStatus`): the `ProgressionStatus`
  enum (here `Status`), `indexOf` on the value list, each stage's position
  (`Ordinal`, 0 to 4), and the six exported functions of the source file.
  "Earlier than" is computed as the source computes it, by comparing the
  two `indexOf` results on the value list; its contract states it as a
  comparison of positions.
- `progression_laws.dfy` (module `ProgressionLaws`): the laws the utility
  promises, stated over the source's own comparisons.

## Model

The datatypes carry no contract of their own: `Models.Progression` stands
for the enum imported at `frontend/src/utils/ProgressionStatus.ts:1`, and
`ProgressionStatus.Status` models the `ProgressionStatus` enum at
`frontend/src/utils/ProgressionStatus.ts:3-7`, with its constructors in the
source's order.

| member | source | states |
|---|---|---|
| Models.Values | frontend/src/utils/ProgressionStatus.ts:16 | the value list has the five stages, none twice |
| ProgressionStatus.IndexOf | frontend/src/utils/ProgressionStatus.ts:17-18 | the result is -1 exactly when the stage is absent, otherwise a position holding the stage with no earlier occurrence |
| ProgressionStatus.Ordinal | frontend/src/utils/ProgressionStatus.ts:32-50 | each stage's position 0..4 is the place where the value list holds that stage |
| ProgressionStatus.OrdinalInjective | frontend/src/utils/ProgressionStatus.ts:32-50 | two stages have the same position exactly when they are the same stage |
| ProgressionStatus.IndexOfValues | frontend/src/utils/ProgressionStatus.ts:16-18 | looking a stage up in the value list yields its position |
| ProgressionStatus.IndexOfNeverMissing | frontend/src/utils/ProgressionStatus.ts:17-18 | the lookup never yields -1, so the comparison never sees a missing stage |
| ProgressionStatus.ProgressionLessThan | frontend/src/utils/ProgressionStatus.ts:15-20 | true exactly when the first stage's position is smaller than the second's |
| ProgressionStatus.ProgressionGreaterThan | frontend/src/utils/ProgressionStatus.ts:22-25 | true exactly when the first stage's position is larger than the second's |
| ProgressionStatus.ProgressionGreaterThanOrEqual | frontend/src/utils/ProgressionStatus.ts:27-30 | true exactly when the first stage's position is at least the second's |
| ProgressionStatus.CalcProgressionStatus | frontend/src/utils/ProgressionStatus.ts:9-13 | Awaiting exactly when the current stage is earlier, Complete exactly when it is later, In Progress exactly when they are equal |
| ProgressionStatus.GetNextProgression | frontend/src/utils/ProgressionStatus.ts:32-40 | FollowUp maps to itself; any other stage maps to the stage one position later |
| ProgressionStatus.GetLastProgression | frontend/src/utils/ProgressionStatus.ts:42-50 | Nomination maps to itself; any other stage maps to the stage one position earlier |
| ProgressionLaws.ValuesComplete | frontend/src/utils/ProgressionStatus.ts:16 | every stage occurs in the value list |
| ProgressionLaws.LessThanIrreflexive | frontend/src/utils/ProgressionStatus.ts:15-20 | no stage is earlier than itself |
| ProgressionLaws.LessThanTransitive | frontend/src/utils/ProgressionStatus.ts:15-20 | earlier than an earlier stage is earlier |
| ProgressionLaws.LessThanTrichotomy | frontend/src/utils/ProgressionStatus.ts:15-20 | of two distinct stages exactly one is earlier; of equal stages neither |
| ProgressionLaws.LessThanIsStrictTotalOrder | frontend/src/utils/ProgressionStatus.ts:15-20 | the comparison, as a relation, is irreflexive, transitive and trichotomous |
| ProgressionLaws.GreaterThanIsReversedLessThan | frontend/src/utils/ProgressionStatus.ts:22-25 | "later than" is "earlier than" with the arguments swapped, for all pairs |
| ProgressionLaws.GreaterThanOrEqualIsNotLessThan | frontend/src/utils/ProgressionStatus.ts:27-30 | "at least as late" is the negation of "earlier than", and it holds of a stage and itself |
| ProgressionLaws.CalcProgressionStatusCases | frontend/src/utils/ProgressionStatus.ts:9-13 | each status arises under exactly one condition on the source's comparison, so the three cases are exhaustive and exclusive |
| ProgressionLaws.CalcProgressionStatusExamples | frontend/src/utils/ProgressionStatus.ts:9-13 | Workshop is Awaiting from Preparation, Preparation is Complete from Workshop, Workshop is In Progress from Workshop |
| ProgressionLaws.NextProgressionFixedPoint | frontend/src/utils/ProgressionStatus.ts:32-40 | the successor leaves a stage in place exactly when it is FollowUp, and otherwise moves strictly later |
| ProgressionLaws.LastProgressionFixedPoint | frontend/src/utils/ProgressionStatus.ts:42-50 | the predecessor leaves a stage in place exactly when it is Nomination, and otherwise moves strictly earlier |
| ProgressionLaws.NeighbourExamples | frontend/src/utils/ProgressionStatus.ts:32-50 | the successor of Nomination is IndividualAssessment, the predecessor of FollowUp is Workshop, and both ends are fixed |
| ProgressionLaws.LastAfterNext | frontend/src/utils/ProgressionStatus.ts:32-50 | the predecessor undoes the successor on every stage but FollowUp |
| ProgressionLaws.NextAfterLast | frontend/src/utils/ProgressionStatus.ts:32-50 | the successor undoes the predecessor on every stage but Nomination |
| ProgressionLaws.NextProgressionMonotone | frontend/src/utils/ProgressionStatus.ts:32-40 | if one stage is not earlier than another, neither are their successors |
| ProgressionLaws.LastProgressionMonotone | frontend/src/utils/ProgressionStatus.ts:42-50 | if one stage is not earlier than another, neither are their predecessors |

## Left out

- The string values of the `Progression` enum and the display strings of
  `ProgressionStatus` ("In Progress" and so on): they are presentation only,
  so stages and statuses are plain constructors.
- Values outside the enum: for such a value `indexOf` returns -1, and the
  two `switch` statements of the neighbour functions, which have no
  `default`, return `undefined`. The datatype is closed, so neither case can
  arise; `IndexOfNeverMissing` shows this for the lookup, and the `match`
  in each neighbour function covers every stage.
- The declaration of the `Progression` enum (`../api/models`) is not part of
  this model; `Values()` assumes it is a string enum, so that
  `Object.values` lists exactly the five stages, and that its declaration
  order is the workflow order that the successor and predecessor tables use.
  A numeric enum would also list its five numbers after the names, which
  leaves the order the comparison computes unchanged.
- `WorkshopSummaryWithApi.tsx` (the debounced summary save and its
  saving-state indicator): React effect scheduling, timers and an Apollo
  mutation, which a model of values cannot reproduce faithfully.
- `index.tsx` (portal registration, telemetry, token acquisition, Apollo
  client set-up): I/O and framework plumbing.
- The backend participant-deletion mutation and its role-based
  authorization: server-side CRUD behind an authorization check, separate
  from the ordering utility.
