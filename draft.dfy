/**
 * The project draft's nested data: milestones holding to-dos, each with a
 * key, user-edited fields and a label derived from its position.
 *
 * The relabel passes of the editor are specified here as pure functions of
 * a sequence; the editor's loops are proved against them.  The lemmas say
 * what a relabel pass means: it fixes every label, touches nothing else, and
 * the labelled draft with given content is unique.
 */
module Draft {
  import opened Labels

  /** Keys stand for the source's `Date.now() + Math.random()` values. */
  type Key = nat

  datatype ToDo = ToDo(key: Key, name: string, isComplete: bool, labelText: string)

  datatype Milestone = Milestone(key: Key, name: string, labelText: string, todos: seq<ToDo>)

  // ---------------------------------------------------------------------
  // Labels match positions (the editor's invariants)
  // ---------------------------------------------------------------------

  predicate ToDosLabelled(ts: seq<ToDo>) {
    forall j :: 0 <= j < |ts| ==> ts[j].labelText == ToDoLabel(j)
  }

  predicate MilestonesLabelled(ms: seq<Milestone>) {
    forall i :: 0 <= i < |ms| ==> ms[i].labelText == MilestoneLabel(i)
  }

  predicate EveryToDoListLabelled(ms: seq<Milestone>) {
    forall i :: 0 <= i < |ms| ==> ToDosLabelled(ms[i].todos)
  }

  /** Every milestone label and every to-do label matches its position. */
  predicate Labelled(ms: seq<Milestone>) {
    MilestonesLabelled(ms) && EveryToDoListLabelled(ms)
  }

  // ---------------------------------------------------------------------
  // Content: the draft with its derived labels erased
  // ---------------------------------------------------------------------

  function UnlabelToDo(t: ToDo): ToDo {
    t.(labelText := "")
  }

  function UnlabelToDos(ts: seq<ToDo>): (r: seq<ToDo>)
    ensures |r| == |ts|
  {
    seq(|ts|, j requires 0 <= j < |ts| => UnlabelToDo(ts[j]))
  }

  function UnlabelMilestone(m: Milestone): Milestone {
    m.(labelText := "", todos := UnlabelToDos(m.todos))
  }

  function Unlabel(ms: seq<Milestone>): (r: seq<Milestone>)
    ensures |r| == |ms|
  {
    seq(|ms|, i requires 0 <= i < |ms| => UnlabelMilestone(ms[i]))
  }

  // ---------------------------------------------------------------------
  // Relabel passes
  // ---------------------------------------------------------------------

  /** The to-do relabel pass: to-do `j` gets `ToDoLabel(j)`. */
  function RelabelToDos(ts: seq<ToDo>): (r: seq<ToDo>)
    ensures |r| == |ts| && ToDosLabelled(r)
    ensures UnlabelToDos(r) == UnlabelToDos(ts)
    ensures forall j :: 0 <= j < |ts| ==>
              r[j].key == ts[j].key && r[j].name == ts[j].name && r[j].isComplete == ts[j].isComplete
  {
    seq(|ts|, j requires 0 <= j < |ts| => ts[j].(labelText := ToDoLabel(j)))
  }

  /** The to-do relabel pass run over every milestone, in order. */
  function RelabelEachToDos(ms: seq<Milestone>): (r: seq<Milestone>)
    ensures |r| == |ms| && EveryToDoListLabelled(r)
    ensures Unlabel(r) == Unlabel(ms)
    ensures forall i :: 0 <= i < |ms| ==> r[i].labelText == ms[i].labelText
  {
    seq(|ms|, i requires 0 <= i < |ms| => ms[i].(todos := RelabelToDos(ms[i].todos)))
  }

  /** The milestone relabel pass: milestone `i` gets `MilestoneLabel(i)`. */
  function RelabelMilestones(ms: seq<Milestone>): (r: seq<Milestone>)
    ensures |r| == |ms| && MilestonesLabelled(r)
    ensures Unlabel(r) == Unlabel(ms)
    ensures forall i :: 0 <= i < |ms| ==> r[i].todos == ms[i].todos
  {
    seq(|ms|, i requires 0 <= i < |ms| => ms[i].(labelText := MilestoneLabel(i)))
  }

  // ---------------------------------------------------------------------
  // Lemmas
  // ---------------------------------------------------------------------

  /** A to-do list is labelled exactly when the relabel pass leaves it as it is. */
  lemma RelabelToDosFixpoint(ts: seq<ToDo>)
    ensures RelabelToDos(ts) == ts <==> ToDosLabelled(ts)
  {
  }

  /** Every to-do list is labelled exactly when the per-milestone pass changes nothing. */
  lemma RelabelEachToDosFixpoint(ms: seq<Milestone>)
    ensures RelabelEachToDos(ms) == ms <==> EveryToDoListLabelled(ms)
  {
    if EveryToDoListLabelled(ms) {
      var r := RelabelEachToDos(ms);
      forall i | 0 <= i < |ms| ensures r[i] == ms[i] {
        RelabelToDosFixpoint(ms[i].todos);
      }
    }
  }

  /** Milestones are labelled exactly when the milestone pass changes nothing. */
  lemma RelabelMilestonesFixpoint(ms: seq<Milestone>)
    ensures RelabelMilestones(ms) == ms <==> MilestonesLabelled(ms)
  {
  }

  /** A labelled to-do list is determined by its content. */
  lemma ToDosLabelledUnique(ts: seq<ToDo>, us: seq<ToDo>)
    requires ToDosLabelled(ts) && ToDosLabelled(us)
    requires UnlabelToDos(ts) == UnlabelToDos(us)
    ensures ts == us
  {
    forall j | 0 <= j < |ts| ensures ts[j] == us[j] {
      assert UnlabelToDo(ts[j]) == UnlabelToDos(ts)[j];
      assert UnlabelToDo(us[j]) == UnlabelToDos(us)[j];
    }
  }

  /** A labelled draft is determined by its content: labels carry no information of their own. */
  lemma LabelledUnique(a: seq<Milestone>, b: seq<Milestone>)
    requires Labelled(a) && Labelled(b)
    requires Unlabel(a) == Unlabel(b)
    ensures a == b
  {
    forall i | 0 <= i < |a| ensures a[i] == b[i] {
      assert UnlabelMilestone(a[i]) == Unlabel(a)[i];
      assert UnlabelMilestone(b[i]) == Unlabel(b)[i];
      ToDosLabelledUnique(a[i].todos, b[i].todos);
    }
  }

  /** Removing an element of a to-do list commutes with erasing labels. */
  lemma UnlabelToDosRemove(ts: seq<ToDo>, k: nat)
    requires k < |ts|
    ensures UnlabelToDos(ts[..k] + ts[k + 1..]) == UnlabelToDos(ts)[..k] + UnlabelToDos(ts)[k + 1..]
  {
  }

  /** Removing a milestone commutes with erasing labels. */
  lemma UnlabelRemove(ms: seq<Milestone>, k: nat)
    requires k < |ms|
    ensures Unlabel(ms[..k] + ms[k + 1..]) == Unlabel(ms)[..k] + Unlabel(ms)[k + 1..]
  {
  }

  /** Appending commutes with erasing labels. */
  lemma UnlabelAppend(ms: seq<Milestone>, m: Milestone)
    ensures Unlabel(ms + [m]) == Unlabel(ms) + [UnlabelMilestone(m)]
  {
  }

  lemma UnlabelToDosAppend(ts: seq<ToDo>, t: ToDo)
    ensures UnlabelToDos(ts + [t]) == UnlabelToDos(ts) + [UnlabelToDo(t)]
  {
  }

  /**
   * Removing a milestone shifts the positions of the milestones after it but
   * not the positions of any to-do inside them, so to-do labels stay right.
   */
  lemma RemovePreservesToDoLabels(ms: seq<Milestone>, k: nat)
    requires k < |ms| && EveryToDoListLabelled(ms)
    ensures EveryToDoListLabelled(ms[..k] + ms[k + 1..])
  {
  }
}
