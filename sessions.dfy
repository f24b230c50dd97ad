/**
 * Editing sessions driven through the `ProjectCreator` handlers: what a
 * caller can conclude from the handlers' contracts alone.
 */
module Sessions {
  import opened Labels
  import opened Draft
  import opened Editor
  import Submission

  /**
   * Reset, add a second milestone, add a to-do to it, then remove the first
   * milestone: the survivor is relabelled "Milestone 1" and keeps its two
   * to-dos, labelled "To-Do 1" and "To-Do 2".
   */
  method RemoveFirstOfTwoMilestones(userId: string) returns (ms: seq<Milestone>)
    ensures |ms| == 1 && ms[0].labelText == "Milestone 1" && ms[0].name == ""
    ensures |ms[0].todos| == 2
    ensures ms[0].todos[0].labelText == "To-Do 1" && ms[0].todos[1].labelText == "To-Do 2"
    ensures ms[0].key == 2 && ms[0].todos[0].key == 3 && ms[0].todos[1].key == 4
  {
    var editor := new ProjectCreator(userId);
    editor.HandleReset();
    editor.AddMilestone();
    editor.AddToDo(1);
    editor.RemoveMilestone(0);
    ms := editor.milestones;
    FirstLabels();
  }

  /** Removing the only to-do of a milestone leaves the milestone in place with no to-dos. */
  method EmptyTheOnlyMilestone(userId: string) returns (ms: seq<Milestone>)
    ensures |ms| == 1 && ms[0].labelText == "Milestone 1" && ms[0].todos == []
  {
    var editor := new ProjectCreator(userId);
    editor.HandleReset();
    editor.RemoveToDo(0, 0);
    ms := editor.milestones;
  }

  /** A fresh draft has an empty project name, so creating it sends nothing. */
  method CreateRightAfterReset(userId: string) returns (request: Submission.Request)
    ensures request == Submission.Blocked
  {
    var editor := new ProjectCreator(userId);
    editor.HandleReset();
    request := editor.HandleCreate();
  }

  /** Once a non-blank name is entered, creating sends the payload of the labelled draft. */
  method CreateNamedProject(userId: string) returns (request: Submission.Request)
    ensures request.Send?
    ensures request.payload == Submission.Payload("P", userId, [Submission.MilestonePayload("", [Submission.ToDoPayload("", false)])])
  {
    var editor := new ProjectCreator(userId);
    editor.HandleReset();
    editor.HandleProjectNameChange("P");
    assert !Submission.IsJsWhitespace("P"[0]);
    request := editor.HandleCreate();
    assert request.payload.milestones[0].todos == [Submission.ToDoPayload("", false)];
  }
}
