/**
 * The `ProjectCreator` draft editor: one object per editing session that owns
 * the project name, the owner id and the milestone list, and changes them in
 * place in response to UI events.
 *
 * Each structural handler ends by re-running relabel passes.  The methods are
 * proved against the relabel functions of `Draft`; their postconditions also
 * state what each handler means for the content of the draft (its keys, names
 * and flags, labels erased) and that the label invariant `Valid()` survives.
 */
module Editor {
  import opened Labels
  import opened Draft
  import Submission

  class ProjectCreator {
    var projectName: string
    var ownerId: string
    var milestones: seq<Milestone>
    /** Source of fresh keys: stands for `Date.now() + Math.random()`. */
    var nextKey: Key
    /** The current user's id (`USER_ID`), the default owner. */
    const userId: string

    /** Every milestone label and every to-do label matches its position. */
    predicate Valid()
      reads this
    {
      Labelled(milestones)
    }

    /** The field initialisers of the component. */
    constructor (userId: string)
      ensures this.userId == userId
      ensures projectName == "" && ownerId == userId && milestones == [] && nextKey == 0
      ensures Valid()
    {
      this.userId := userId;
      projectName := "";
      ownerId := userId;
      milestones := [];
      nextKey := 0;
    }

    // -------------------------------------------------------------------
    // Relabel helpers
    // -------------------------------------------------------------------

    /** `updateToDoLabels(mIndex)`: to-do `t` of milestone `mIndex` gets `ToDoLabel(t)`. */
    method UpdateToDoLabels(mIndex: nat)
      requires mIndex < |milestones|
      modifies this
      ensures milestones == old(milestones)[mIndex := old(milestones[mIndex]).(todos := RelabelToDos(old(milestones[mIndex].todos)))]
      ensures projectName == old(projectName) && ownerId == old(ownerId) && nextKey == old(nextKey)
    {
      var todos := milestones[mIndex].todos;
      ghost var before := todos;
      var t := 0;
      while t < |todos|
        invariant 0 <= t <= |todos| == |before|
        invariant forall k :: 0 <= k < t ==> todos[k] == before[k].(labelText := ToDoLabel(k))
        invariant forall k :: t <= k < |todos| ==> todos[k] == before[k]
      {
        todos := todos[t := todos[t].(labelText := ToDoLabel(t))];
        t := t + 1;
      }
      assert todos == RelabelToDos(before);
      milestones := milestones[mIndex := milestones[mIndex].(todos := todos)];
    }

    /** `updateAllLabels()`: the to-do relabel pass over every milestone; milestone labels are left alone. */
    method UpdateAllLabels()
      modifies this
      ensures milestones == RelabelEachToDos(old(milestones))
      ensures projectName == old(projectName) && ownerId == old(ownerId) && nextKey == old(nextKey)
    {
      var m := 0;
      while m < |milestones|
        invariant 0 <= m <= |milestones| == |old(milestones)|
        invariant forall k :: 0 <= k < m ==>
                    milestones[k] == old(milestones)[k].(todos := RelabelToDos(old(milestones)[k].todos))
        invariant forall k :: m <= k < |milestones| ==> milestones[k] == old(milestones)[k]
        invariant projectName == old(projectName) && ownerId == old(ownerId) && nextKey == old(nextKey)
      {
        UpdateToDoLabels(m);
        m := m + 1;
      }
    }

    /** `updateMilestoneLabels()`: milestone `i` gets `MilestoneLabel(i)`; to-dos are left alone. */
    method UpdateMilestoneLabels()
      modifies this
      ensures milestones == RelabelMilestones(old(milestones))
      ensures projectName == old(projectName) && ownerId == old(ownerId) && nextKey == old(nextKey)
    {
      var i := 0;
      while i < |milestones|
        invariant 0 <= i <= |milestones| == |old(milestones)|
        invariant forall k :: 0 <= k < i ==> milestones[k] == old(milestones)[k].(labelText := MilestoneLabel(k))
        invariant forall k :: i <= k < |milestones| ==> milestones[k] == old(milestones)[k]
        invariant projectName == old(projectName) && ownerId == old(ownerId) && nextKey == old(nextKey)
      {
        milestones := milestones[i := milestones[i].(labelText := MilestoneLabel(i))];
        i := i + 1;
      }
    }

    // -------------------------------------------------------------------
    // Structural handlers
    // -------------------------------------------------------------------

    /**
     * `addMilestone()`: appends a milestone with one empty to-do.  Its label is
     * computed from the old length; only to-do labels are recomputed
     * afterwards, so milestone labels stay right only if they were right.
     */
    method AddMilestone()
      modifies this
      ensures |milestones| == |old(milestones)| + 1
      ensures milestones[..|old(milestones)|] == RelabelEachToDos(old(milestones))
      ensures milestones[|old(milestones)|]
              == Milestone(old(nextKey), "", MilestoneLabel(|old(milestones)|),
                           [ToDo(old(nextKey) + 1, "", false, "To-Do 1")])
      ensures nextKey == old(nextKey) + 2
      ensures projectName == old(projectName) && ownerId == old(ownerId)
      ensures old(MilestonesLabelled(milestones)) ==> MilestonesLabelled(milestones)
      ensures old(Valid()) ==> Valid() && milestones[..|old(milestones)|] == old(milestones)
    {
      FirstLabels();
      var n := |milestones|;
      var m := Milestone(nextKey, "", MilestoneLabel(n), [ToDo(nextKey + 1, "", false, "To-Do 1")]);
      nextKey := nextKey + 2;
      milestones := milestones + [m];
      ghost var appended := milestones;
      UpdateAllLabels();
      assert milestones[..n] == RelabelEachToDos(old(milestones));
      if old(Valid()) {
        RelabelEachToDosFixpoint(old(milestones));
      }
    }

    /**
     * `removeMilestone(idx)`: drops the milestone at `idx`, then runs the to-do
     * pass and the milestone pass, so every label is right afterwards whatever
     * the labels were before.
     */
    method RemoveMilestone(idx: nat)
      requires idx < |milestones|
      modifies this
      ensures milestones == RelabelMilestones(RelabelEachToDos(old(milestones)[..idx] + old(milestones)[idx + 1..]))
      ensures |milestones| == |old(milestones)| - 1
      ensures Valid()
      ensures Unlabel(milestones) == Unlabel(old(milestones))[..idx] + Unlabel(old(milestones))[idx + 1..]
      ensures projectName == old(projectName) && ownerId == old(ownerId) && nextKey == old(nextKey)
    {
      milestones := milestones[..idx] + milestones[idx + 1..];
      UpdateAllLabels();
      UpdateMilestoneLabels();
      UnlabelRemove(old(milestones), idx);
    }

    /** `addToDo(idx)`: appends an empty, incomplete to-do to milestone `idx` and relabels that milestone's to-dos. */
    method AddToDo(idx: nat)
      requires idx < |milestones|
      modifies this
      ensures milestones == old(milestones)[idx := old(milestones[idx]).(todos :=
                RelabelToDos(old(milestones[idx].todos) + [ToDo(old(nextKey), "", false, "")]))]
      ensures |milestones[idx].todos| == |old(milestones[idx].todos)| + 1
      ensures ToDosLabelled(milestones[idx].todos)
      ensures UnlabelToDos(milestones[idx].todos)
              == UnlabelToDos(old(milestones[idx].todos)) + [ToDo(old(nextKey), "", false, "")]
      ensures nextKey == old(nextKey) + 1
      ensures projectName == old(projectName) && ownerId == old(ownerId)
      ensures old(Valid()) ==> Valid()
    {
      var todo := ToDo(nextKey, "", false, "");
      nextKey := nextKey + 1;
      milestones := milestones[idx := milestones[idx].(todos := milestones[idx].todos + [todo])];
      UpdateToDoLabels(idx);
      UnlabelToDosAppend(old(milestones[idx].todos), todo);
    }

    /**
     * `removeToDo(midx, tidx)`: drops to-do `tidx` of milestone `midx` and
     * relabels that milestone's to-dos.  The list may become empty.
     */
    method RemoveToDo(midx: nat, tidx: nat)
      requires midx < |milestones| && tidx < |milestones[midx].todos|
      modifies this
      ensures milestones == old(milestones)[midx := old(milestones[midx]).(todos :=
                RelabelToDos(old(milestones[midx].todos)[..tidx] + old(milestones[midx].todos)[tidx + 1..]))]
      ensures |milestones[midx].todos| == |old(milestones[midx].todos)| - 1
      ensures ToDosLabelled(milestones[midx].todos)
      ensures UnlabelToDos(milestones[midx].todos)
              == UnlabelToDos(old(milestones[midx].todos))[..tidx] + UnlabelToDos(old(milestones[midx].todos))[tidx + 1..]
      ensures projectName == old(projectName) && ownerId == old(ownerId) && nextKey == old(nextKey)
      ensures old(Valid()) ==> Valid()
    {
      var todos := milestones[midx].todos;
      milestones := milestones[midx := milestones[midx].(todos := todos[..tidx] + todos[tidx + 1..])];
      UpdateToDoLabels(midx);
      UnlabelToDosRemove(todos, tidx);
    }

    // -------------------------------------------------------------------
    // Field setters
    // -------------------------------------------------------------------

    /** `handleProjectNameChange`. */
    method HandleProjectNameChange(value: string)
      modifies this
      ensures projectName == value
      ensures ownerId == old(ownerId) && milestones == old(milestones) && nextKey == old(nextKey)
    {
      projectName := value;
    }

    /** `handleOwnerChange`. */
    method HandleOwnerChange(value: string)
      modifies this
      ensures ownerId == value
      ensures projectName == old(projectName) && milestones == old(milestones) && nextKey == old(nextKey)
    {
      ownerId := value;
    }

    /** `handleMilestoneNameChange`: renames milestone `idx`; keys, labels and to-dos stay. */
    method HandleMilestoneNameChange(idx: nat, value: string)
      requires idx < |milestones|
      modifies this
      ensures milestones == old(milestones)[idx := old(milestones[idx]).(name := value)]
      ensures projectName == old(projectName) && ownerId == old(ownerId) && nextKey == old(nextKey)
      ensures old(Valid()) ==> Valid()
    {
      milestones := milestones[idx := milestones[idx].(name := value)];
    }

    /** `handleToDoNameChange`: renames to-do `tidx` of milestone `midx`. */
    method HandleToDoNameChange(midx: nat, tidx: nat, value: string)
      requires midx < |milestones| && tidx < |milestones[midx].todos|
      modifies this
      ensures milestones == old(milestones)[midx := old(milestones[midx]).(todos :=
                old(milestones[midx].todos)[tidx := old(milestones[midx].todos[tidx]).(name := value)])]
      ensures projectName == old(projectName) && ownerId == old(ownerId) && nextKey == old(nextKey)
      ensures old(Valid()) ==> Valid()
    {
      var todos := milestones[midx].todos;
      milestones := milestones[midx := milestones[midx].(todos := todos[tidx := todos[tidx].(name := value)])];
    }

    /** `handleToDoCompleteChange`: sets the `isComplete` flag of to-do `tidx` of milestone `midx`. */
    method HandleToDoCompleteChange(midx: nat, tidx: nat, checked: bool)
      requires midx < |milestones| && tidx < |milestones[midx].todos|
      modifies this
      ensures milestones == old(milestones)[midx := old(milestones[midx]).(todos :=
                old(milestones[midx].todos)[tidx := old(milestones[midx].todos[tidx]).(isComplete := checked)])]
      ensures projectName == old(projectName) && ownerId == old(ownerId) && nextKey == old(nextKey)
      ensures old(Valid()) ==> Valid()
    {
      var todos := milestones[midx].todos;
      milestones := milestones[midx := milestones[midx].(todos := todos[tidx := todos[tidx].(isComplete := checked)])];
    }

    /** `handleReset`: a fresh draft with one empty milestone holding one empty to-do. */
    method HandleReset()
      modifies this
      ensures projectName == "" && ownerId == userId
      ensures milestones == [Milestone(old(nextKey), "", "Milestone 1", [ToDo(old(nextKey) + 1, "", false, "To-Do 1")])]
      ensures nextKey == old(nextKey) + 2
      ensures Valid()
    {
      projectName := "";
      ownerId := userId;
      milestones := [];
      AddMilestone();
      FirstLabels();
    }

    // -------------------------------------------------------------------
    // Submission
    // -------------------------------------------------------------------

    /**
     * The validate-and-serialise part of `handleCreate`: no request when the
     * trimmed project name is empty, otherwise the payload of the draft.
     * The draft itself is not changed.
     */
    method HandleCreate() returns (request: Submission.Request)
      ensures request.Blocked? <==> Submission.IsBlank(projectName)
      ensures request.Blocked? <==> forall k :: 0 <= k < |projectName| ==> Submission.IsJsWhitespace(projectName[k])
      ensures request.Send? ==> request.payload == Submission.BuildPayload(projectName, ownerId, milestones)
    {
      request := Submission.Validate(projectName, ownerId, milestones);
    }
  }
}
