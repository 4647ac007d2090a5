/**
 Verification evidence: the member-by-member checks of the source accept only evidence whose
 stages are exactly the required ones, each passed.
 */
module CacheEvidence {
  import opened Prelude
  import opened CacheLineage

  /** What the configuration and the authority demand of evidence. */
  datatype EvidenceContext = EvidenceContext(
    allowedCommands: set<string>, profileHash: string, authorityId: string, authorityVersion: string)

  function Members(values: seq<string>): set<string> {
    set i | 0 <= i < |values| :: values[i]
  }

  /** The source counts: as many members as values. */
  predicate AssertUnique(values: seq<string>) {
    |Members(values)| == |values|
  }

  /** The source compares lengths and then looks in one direction only. */
  predicate SameMembers(left: seq<string>, right: seq<string>) {
    |left| == |right| && forall i | 0 <= i < |left| :: left[i] in Members(right)
  }

  function StageIds(stages: seq<Stage>): seq<string> {
    seq(|stages|, i requires 0 <= i < |stages| => stages[i].stageId)
  }

  predicate ParsesEvidence(e: Evidence) {
    && e.requiredStages != [] && e.completedStages != [] && e.stages != []
    && AssertUnique(e.requiredStages) && AssertUnique(e.completedStages) && AssertUnique(StageIds(e.stages))
  }

  predicate StagePassed(stage: Stage, allowedCommands: set<string>) {
    stage.commandId in allowedCommands && stage.exitCode == 0
  }

  predicate AcceptsEvidence(e: Evidence, context: EvidenceContext) {
    && ParsesEvidence(e)
    && e.profileHash == context.profileHash
    && e.authorityId == context.authorityId && e.authorityVersion == context.authorityVersion
    && SameMembers(e.requiredStages, e.completedStages)
    && SameMembers(e.completedStages, StageIds(e.stages))
    && forall i | 0 <= i < |e.stages| :: StagePassed(e.stages[i], context.allowedCommands)
  }

  lemma {:induction false} MembersCount(values: seq<string>)
    ensures |Members(values)| <= |values|
    ensures |Members(values)| == |values| ==> forall i, j | 0 <= i < j < |values| :: values[i] != values[j]
  {
    if values != [] {
      var front, last := values[..|values| - 1], values[|values| - 1];
      MembersCount(front);
      assert forall i | 0 <= i < |front| :: values[i] == front[i];
      assert Members(values) == Members(front) + {last};
      if last in Members(front) {
        assert Members(values) == Members(front);
      }
    }
  }

  /** Pigeonhole: between lists without repetition the one-directional test is an equality. */
  lemma SameMembersIsEquality(left: seq<string>, right: seq<string>)
    requires AssertUnique(left) && AssertUnique(right)
    ensures SameMembers(left, right) <==> Members(left) == Members(right)
  {
    assert forall i | 0 <= i < |left| :: left[i] in Members(left);
    if SameMembers(left, right) {
      SubsetSize(Members(left), Members(right));
    }
  }

  /** With repetitions it is not even symmetric, so the uniqueness tests before it are needed. */
  lemma SameMembersNeedsUniqueness()
    ensures SameMembers(["a", "a"], ["a", "b"]) && !SameMembers(["a", "b"], ["a", "a"])
  {
    var twice, both := ["a", "a"], ["a", "b"];
    assert both[0] in Members(both);
    assert both[1] !in Members(twice);
  }

  /** Accepted evidence has, for every required stage, exactly one record, and it passed. */
  lemma AcceptedEvidenceIsExact(e: Evidence, context: EvidenceContext)
    requires AcceptsEvidence(e, context)
    ensures Members(e.requiredStages) == Members(e.completedStages) == Members(StageIds(e.stages))
    ensures |e.stages| == |e.requiredStages|
    ensures forall id | id in e.requiredStages :: exists i ::
              && 0 <= i < |e.stages| && e.stages[i].stageId == id && StagePassed(e.stages[i], context.allowedCommands)
              && forall j | 0 <= j < |e.stages| && e.stages[j].stageId == id :: j == i
    ensures forall i | 0 <= i < |e.stages| :: e.stages[i].stageId in e.requiredStages
  {
    var ids := StageIds(e.stages);
    SameMembersIsEquality(e.requiredStages, e.completedStages);
    SameMembersIsEquality(e.completedStages, ids);
    MembersCount(ids);
    forall id | id in e.requiredStages
      ensures exists i ::
              && 0 <= i < |e.stages| && e.stages[i].stageId == id && StagePassed(e.stages[i], context.allowedCommands)
              && forall j | 0 <= j < |e.stages| && e.stages[j].stageId == id :: j == i
    {
      assert id in Members(e.requiredStages);
      var i :| 0 <= i < |ids| && ids[i] == id;
      assert e.stages[i].stageId == id;
      forall j | 0 <= j < |e.stages| && e.stages[j].stageId == id
        ensures j == i
      {
        assert ids[j] == id;
      }
    }
    forall i | 0 <= i < |e.stages|
      ensures e.stages[i].stageId in e.requiredStages
    {
      assert ids[i] in Members(ids);
    }
  }
}
