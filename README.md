# ProjectCreator draft editor, modelled in Dafny

This project models the core of the `projectCreator` Lightning Web Component. That core is the in-memory editor of a project draft:

- a project name;
- an owner id;
- an ordered list of milestones. Each milestone has a key, a name, a label and an ordered list of to-dos.
- Each to-do has a key, a name, an `isComplete` flag and a label.

Labels are derived from positions. Milestone `i` is labelled `"Milestone " + (i + 1)` and to-do `j` is labelled `"To-Do " + (j + 1)`. The model also covers the validate-and-serialise step of `handleCreate`, which turns the draft into the creation payload.

Files:

- `labels.dfy` (module `Labels`): the decimal text of a position and the two label forms. It proves that the digits parse back to the number, so no two positions share a label.
- `draft.dfy` (module `Draft`): the `ToDo` and `Milestone` datatypes and the label invariants. It also holds the three relabel passes as pure functions of a sequence, and `Unlabel`, which is the draft with labels erased (its content). The lemmas show that a relabel pass fixes every label and changes nothing else, and that a labelled draft is determined by its content.
- `editor.dfy` (module `Editor`): class `ProjectCreator`, with the component's fields and one method per handler. The relabel helpers are `while` loops that overwrite labels in place and are proved against the `Draft` functions. `Valid()` is the label invariant: every milestone label and every to-do label matches its position.
- `submission.dfy` (module `Submission`): JavaScript's `String.prototype.trim`, the blank-name gate, and the payload datatypes with `BuildPayload`.
- `sessions.dfy` (module `Sessions`): client methods that drive the handlers through whole editing sessions and state the outcome.

Naming: the source field `label` is `labelText` here, because `label` is a Dafny keyword. The key and name fields keep their source names. So does the capitalised milestone key `Name` in the payload.

Points where the code's behaviour is easy to misread:

- `addMilestone` does not re-run the milestone relabel pass. It computes the new label from the old length (`projectCreator.js:70`), so milestone labels stay right only if they were right before. `AddMilestone` states exactly that.
- The handlers never check index bounds. Out-of-range indices are excluded by `requires` clauses; what the code does with them is listed under "## Left out".
- Keys come from `Date.now() + Math.random()`, and the code makes no uniqueness promise. The model draws keys from a counter, `nextKey`, and claims no uniqueness.

## Model

| member | source | states |
|---|---|---|
| `Labels.DecimalString` | force-app/main/default/lwc/projectCreator/projectCreator.js:53 | the decimal text JavaScript gives a position number is non-empty, all digits, and has no leading zero |
| `Labels.MilestoneLabel` | force-app/main/default/lwc/projectCreator/projectCreator.js:70 | `'Milestone ' + (i + 1)`: the text is `Milestone ` followed by digits that read back as the 1-based position; the same label is written at :82 |
| `Labels.ToDoLabel` | force-app/main/default/lwc/projectCreator/projectCreator.js:53 | `'To-Do ' + (t + 1)`: the text is `To-Do ` followed by digits that read back as the 1-based position |
| `Labels.DecimalRoundTrip` | force-app/main/default/lwc/projectCreator/projectCreator.js:82 | reading the digits back gives the number, so the label text loses no information about the position |
| `Labels.DecimalStringInjective` | force-app/main/default/lwc/projectCreator/projectCreator.js:82 | two numbers have the same decimal text exactly when they are equal |
| `Labels.MilestoneLabelInjective` | force-app/main/default/lwc/projectCreator/projectCreator.js:82 | `"Milestone " + (i+1)` equals `"Milestone " + (j+1)` exactly when `i == j` |
| `Labels.ToDoLabelInjective` | force-app/main/default/lwc/projectCreator/projectCreator.js:53 | `"To-Do " + (i+1)` equals `"To-Do " + (j+1)` exactly when `i == j` |
| `Labels.FirstLabels` | force-app/main/default/lwc/projectCreator/projectCreator.js:72 | the literal `'To-Do 1'` written by addMilestone is the position label of to-do 0; likewise `"Milestone 1"` for milestone 0 and `"To-Do 2"` for to-do 1 |
| `Draft.RelabelToDos` | force-app/main/default/lwc/projectCreator/projectCreator.js:50-55 | after the to-do pass, every to-do label matches its position; length, keys, names and flags are kept, and the content is unchanged |
| `Draft.RelabelEachToDos` | force-app/main/default/lwc/projectCreator/projectCreator.js:58-62 | after the pass over all milestones, every to-do list is labelled; milestone labels and the content are unchanged |
| `Draft.RelabelMilestones` | force-app/main/default/lwc/projectCreator/projectCreator.js:80-84 | after the milestone pass, every milestone label matches its position; to-do lists and the content are unchanged |
| `Draft.RelabelToDosFixpoint` | force-app/main/default/lwc/projectCreator/projectCreator.js:50-55 | the to-do pass leaves a list unchanged exactly when its labels already match positions |
| `Draft.RelabelEachToDosFixpoint` | force-app/main/default/lwc/projectCreator/projectCreator.js:58-62 | the all-milestones to-do pass changes nothing exactly when every to-do list is already labelled |
| `Draft.RelabelMilestonesFixpoint` | force-app/main/default/lwc/projectCreator/projectCreator.js:80-84 | the milestone pass changes nothing exactly when every milestone label already matches its position |
| `Draft.ToDosLabelledUnique` | force-app/main/default/lwc/projectCreator/projectCreator.js:50-55 | two labelled to-do lists with the same content are equal |
| `Draft.LabelledUnique` | force-app/main/default/lwc/projectCreator/projectCreator.js:87-94 | two fully labelled drafts with the same content are equal, so a labelled state is fixed by its keys, names and flags |
| `Draft.RemovePreservesToDoLabels` | force-app/main/default/lwc/projectCreator/projectCreator.js:89-91 | removing a milestone keeps every remaining to-do list labelled, so the to-do pass in removeMilestone is a no-op on a valid draft |
| `Editor.ProjectCreator.constructor` | force-app/main/default/lwc/projectCreator/projectCreator.js:8-10 | the fields start as an empty name, the current user as owner and no milestones; labels trivially hold |
| `Editor.ProjectCreator.UpdateToDoLabels` | force-app/main/default/lwc/projectCreator/projectCreator.js:50-55 | the loop leaves milestone `mIndex` with its to-dos relabelled by position; the other milestones and all other fields are untouched |
| `Editor.ProjectCreator.UpdateAllLabels` | force-app/main/default/lwc/projectCreator/projectCreator.js:58-62 | the loop relabels the to-dos of every milestone and touches no milestone label |
| `Editor.ProjectCreator.UpdateMilestoneLabels` | force-app/main/default/lwc/projectCreator/projectCreator.js:80-84 | the loop relabels every milestone by position and touches no to-do |
| `Editor.ProjectCreator.AddMilestone` | force-app/main/default/lwc/projectCreator/projectCreator.js:65-78 | the list grows by one. The prefix differs from the old list only in to-do labels. The new milestone has an empty name, label `Milestone (old length + 1)`, and one empty, incomplete to-do labelled `To-Do 1`. Milestone labels stay right if they were right, and a valid draft stays valid with its prefix unchanged |
| `Editor.ProjectCreator.RemoveMilestone` | force-app/main/default/lwc/projectCreator/projectCreator.js:87-94 | the list shrinks by one and its content is the old content without position `idx`, in order. Every milestone and to-do label is right afterwards, whatever the labels were before |
| `Editor.ProjectCreator.AddToDo` | force-app/main/default/lwc/projectCreator/projectCreator.js:110-121 | milestone `idx` gains one empty, incomplete to-do at the end, with a fresh key. Its to-dos are relabelled by position and no other milestone changes. The draft stays valid |
| `Editor.ProjectCreator.RemoveToDo` | force-app/main/default/lwc/projectCreator/projectCreator.js:123-130 | exactly to-do `tidx` of milestone `midx` is removed and the rest keep their order. They are relabelled by position. The list may become empty, and no other milestone changes |
| `Editor.ProjectCreator.HandleProjectNameChange` | force-app/main/default/lwc/projectCreator/projectCreator.js:96-98 | only the project name changes |
| `Editor.ProjectCreator.HandleOwnerChange` | force-app/main/default/lwc/projectCreator/projectCreator.js:100-102 | only the owner id changes |
| `Editor.ProjectCreator.HandleMilestoneNameChange` | force-app/main/default/lwc/projectCreator/projectCreator.js:104-108 | only the name of milestone `idx` changes; keys, labels and to-dos stay, and so does validity |
| `Editor.ProjectCreator.HandleToDoNameChange` | force-app/main/default/lwc/projectCreator/projectCreator.js:132-137 | only the name of the one addressed to-do changes; validity is kept |
| `Editor.ProjectCreator.HandleToDoCompleteChange` | force-app/main/default/lwc/projectCreator/projectCreator.js:139-144 | only the `isComplete` flag of the one addressed to-do changes; validity is kept |
| `Editor.ProjectCreator.HandleReset` | force-app/main/default/lwc/projectCreator/projectCreator.js:146-151 | the name becomes empty and the owner becomes the current user. The draft is exactly one empty milestone labelled `Milestone 1`, holding one empty, incomplete to-do labelled `To-Do 1`. It is valid |
| `Editor.ProjectCreator.HandleCreate` | force-app/main/default/lwc/projectCreator/projectCreator.js:170-186 | no request is made exactly when the project name is empty or whitespace only; otherwise the request carries the payload of the current draft; the draft is not changed |
| `Submission.TrimStart` | force-app/main/default/lwc/projectCreator/projectCreator.js:171 | the result is a suffix, everything dropped is whitespace, and the result does not start with whitespace |
| `Submission.TrimEnd` | force-app/main/default/lwc/projectCreator/projectCreator.js:171 | the result is a prefix, everything dropped is whitespace, and the result does not end with whitespace |
| `Submission.Trim` | force-app/main/default/lwc/projectCreator/projectCreator.js:171 | `trim()` leaves nothing exactly when the name is JavaScript whitespace only; what it leaves neither starts nor ends with whitespace |
| `Submission.IsBlank` | force-app/main/default/lwc/projectCreator/projectCreator.js:171 | the gate `!this.projectName.trim()` holds exactly when every character of the name is JavaScript whitespace, the empty name included |
| `Submission.Validate` | force-app/main/default/lwc/projectCreator/projectCreator.js:171-186 | the request is blocked exactly when the name is blank; otherwise it carries the untrimmed name, the owner, and one payload milestone per draft milestone |
| `Submission.ValidationExamples` | force-app/main/default/lwc/projectCreator/projectCreator.js:171-174 | `""` and `"   "` are blocked; `" P "` is sent with its name untrimmed |
| `Submission.ToDoToPayload` | force-app/main/default/lwc/projectCreator/projectCreator.js:181-184 | a to-do goes on the wire as its `name` and `isComplete` only; key and label stay behind |
| `Submission.MilestoneToPayload` | force-app/main/default/lwc/projectCreator/projectCreator.js:179-185 | a milestone goes on the wire as its name under `Name` and its to-dos, with the count and order kept and name and flag per to-do |
| `Submission.BuildPayload` | force-app/main/default/lwc/projectCreator/projectCreator.js:176-186 | the payload keeps the name and owner, the milestone count and order, and each milestone's name under `Name`. It keeps each to-do list's count and order, with name and `isComplete` per to-do |
| `Submission.PayloadDeterminedByUserContent` | force-app/main/default/lwc/projectCreator/projectCreator.js:176-186 | two drafts give the same payload exactly when they agree on the name, the owner and every milestone and to-do name and flag. Keys and labels are dropped |
| `Submission.PayloadIgnoresLabels` | force-app/main/default/lwc/projectCreator/projectCreator.js:176-186 | relabelling the draft or erasing its labels does not change the payload |
| `Submission.PayloadShapeExample` | force-app/main/default/lwc/projectCreator/projectCreator.js:176-186 | a one-milestone, one-to-do draft gives `{name, ownerId, milestones: [{Name, todos: [{name, isComplete}]}]}` exactly, whatever its keys and labels |
| `Sessions.RemoveFirstOfTwoMilestones` | force-app/main/default/lwc/projectCreator/projectCreator.js:87-94 | reset, add a milestone, add a to-do to it, then remove the first milestone. One milestone remains, labelled `Milestone 1`: the former second one, keys included. Its two to-dos are labelled `To-Do 1` and `To-Do 2` |
| `Sessions.EmptyTheOnlyMilestone` | force-app/main/default/lwc/projectCreator/projectCreator.js:123-130 | removing the only to-do of the reset draft leaves its milestone in place with an empty to-do list |
| `Sessions.CreateRightAfterReset` | force-app/main/default/lwc/projectCreator/projectCreator.js:170-174 | creating straight after a reset sends nothing, because the name is empty |
| `Sessions.CreateNamedProject` | force-app/main/default/lwc/projectCreator/projectCreator.js:176-186 | after a reset and naming the project `P`, creating sends the payload `P`, with the user as owner, one unnamed milestone and one unnamed, incomplete to-do |

## Left out

- `loadProjects`, `getAllProjects`, `createProjectWithChildren` and the promise chain after the payload is built: remote calls and asynchronous I/O. `HandleCreate` stops at the request value.
- `JSON.stringify`, `console.log`, `console.error` and `alert`: output only. The payload stops at the datatype level.
- `handleRowAction`, navigation and `projectColumns`: UI navigation and static table configuration.
- `connectedCallback`: it is `addMilestone` followed by `loadProjects`. `AddMilestone` models the first half; the second is I/O.
- `USER_ID`: the current user id is the constant `userId`, given to the constructor.
- Keys: `Date.now()` and `Math.random()` are replaced by a counter field, `nextKey`. A milestone takes `nextKey` and its first to-do `nextKey + 1`. Numeric milestone keys and string to-do keys are both modelled as `nat`. No uniqueness is claimed, because the source makes no such promise.
- The `this.milestones = [...this.milestones]` copies are reactivity shallow copies. They change nothing in the draft and are not modelled.
- Milestone and to-do objects are datatype values held in the `milestones` sequence field, not separate heap objects. Each object is reachable only through its list, so there is no aliasing to lose. `UpdateToDoLabels` relabels a local copy of the to-do list and writes it back once, instead of writing through the alias `todos`. No other code runs in between, so the result is the same.
- Out-of-range, negative or `NaN` indices from `dataset`: every handler that takes an index requires a valid one, so the model does not capture what the code does with a bad index:
  - `removeMilestone` (`splice` at :89) removes nothing for an index at or past the end, removes element `length - k` for an index `-k`, and removes element 0 for `NaN`; both relabel passes still run afterwards.
  - `removeToDo` (`splice` at :126) does the same with a bad to-do index; a bad milestone index throws a `TypeError`.
  - `addToDo` (:112), `handleMilestoneNameChange` (:106), `handleToDoNameChange` (:135) and `handleToDoCompleteChange` (:142) throw a `TypeError` on a bad milestone index; the two to-do setters also throw on a bad to-do index.
- `(m.todos || [])` and `!!t.isComplete` in the payload: in the typed model a milestone always has a to-do sequence and a flag is always a boolean, so both are the identity here.
- `allProjects`: the listing cache is written only by the remote calls left out above.
