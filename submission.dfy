/**
 * The validate-and-serialise step of project creation: the draft is refused
 * when its name trims to the empty string, and otherwise mapped to the
 * payload tree the remote creation service expects.
 */
module Submission {
  import opened Draft

  // ---------------------------------------------------------------------
  // JavaScript's String.prototype.trim
  // ---------------------------------------------------------------------

  /**
   * The characters `trim` removes: WhiteSpace (tab, vertical tab, form feed,
   * zero-width no-break space and every space separator of category Zs) and
   * LineTerminator (line feed, carriage return, line and paragraph separator).
   */
  predicate IsJsWhitespace(c: char) {
    c == '\t' || c == '\U{B}' || c == '\U{C}' || c == '\U{FEFF}'
    || c == ' ' || c == '\U{A0}' || c == '\U{1680}' || ('\U{2000}' <= c <= '\U{200A}')
    || c == '\U{202F}' || c == '\U{205F}' || c == '\U{3000}'
    || c == '\n' || c == '\r' || c == '\U{2028}' || c == '\U{2029}'
  }

  /** Drops leading whitespace: the result is the suffix that starts at the first other character. */
  function TrimStart(s: string): (r: string)
    ensures |r| <= |s| && r == s[|s| - |r|..]
    ensures forall k :: 0 <= k < |s| - |r| ==> IsJsWhitespace(s[k])
    ensures r == [] || !IsJsWhitespace(r[0])
    decreases |s|
  {
    if |s| > 0 && IsJsWhitespace(s[0]) then TrimStart(s[1..]) else s
  }

  /** Drops trailing whitespace: the result is the prefix that ends at the last other character. */
  function TrimEnd(s: string): (r: string)
    ensures |r| <= |s| && r == s[..|r|]
    ensures forall k :: |r| <= k < |s| ==> IsJsWhitespace(s[k])
    ensures r == [] || !IsJsWhitespace(r[|r| - 1])
    decreases |s|
  {
    if |s| > 0 && IsJsWhitespace(s[|s| - 1]) then TrimEnd(s[..|s| - 1]) else s
  }

  /** `s.trim()`: nothing is left exactly when `s` is whitespace only; what is left neither starts nor ends with whitespace. */
  function Trim(s: string): (r: string)
    ensures |r| <= |s|
    ensures r == [] <==> forall k :: 0 <= k < |s| ==> IsJsWhitespace(s[k])
    ensures r != [] ==> !IsJsWhitespace(r[0]) && !IsJsWhitespace(r[|r| - 1])
  {
    TrimEnd(TrimStart(s))
  }

  /**
   * `!name.trim()`: the empty string is the only falsy string, so a name is
   * refused exactly when it consists of whitespace only (the empty name included).
   */
  predicate IsBlank(name: string)
    ensures IsBlank(name) <==> forall k :: 0 <= k < |name| ==> IsJsWhitespace(name[k])
  {
    Trim(name) == ""
  }

  // ---------------------------------------------------------------------
  // Payload
  // ---------------------------------------------------------------------

  datatype ToDoPayload = ToDoPayload(name: string, isComplete: bool)

  /** Milestones carry their name under the capitalised key `Name`. */
  datatype MilestonePayload = MilestonePayload(Name: string, todos: seq<ToDoPayload>)

  datatype Payload = Payload(name: string, ownerId: string, milestones: seq<MilestonePayload>)

  /** What `handleCreate` does with the draft: nothing is sent, or this payload is. */
  datatype Request = Blocked | Send(payload: Payload)

  /** A to-do goes on the wire as its name and flag; key and label stay behind. */
  function ToDoToPayload(t: ToDo): (p: ToDoPayload)
    ensures p.name == t.name && p.isComplete == t.isComplete
  {
    ToDoPayload(t.name, t.isComplete)
  }

  /** A milestone goes on the wire as its name under `Name` and its to-dos, count and order kept. */
  function MilestoneToPayload(m: Milestone): (p: MilestonePayload)
    ensures p.Name == m.name && |p.todos| == |m.todos|
    ensures forall j :: 0 <= j < |m.todos| ==> p.todos[j] == ToDoPayload(m.todos[j].name, m.todos[j].isComplete)
  {
    MilestonePayload(m.name, seq(|m.todos|, j requires 0 <= j < |m.todos| => ToDoToPayload(m.todos[j])))
  }

  /** The payload keeps every count, order, name and flag of the draft. */
  function BuildPayload(name: string, ownerId: string, ms: seq<Milestone>): (p: Payload)
    ensures p.name == name && p.ownerId == ownerId && |p.milestones| == |ms|
    ensures forall i :: 0 <= i < |ms| ==>
              p.milestones[i].Name == ms[i].name
              && |p.milestones[i].todos| == |ms[i].todos|
              && forall j :: 0 <= j < |ms[i].todos| ==>
                   p.milestones[i].todos[j] == ToDoPayload(ms[i].todos[j].name, ms[i].todos[j].isComplete)
  {
    Payload(name, ownerId, seq(|ms|, i requires 0 <= i < |ms| => MilestoneToPayload(ms[i])))
  }

  /** The part of a draft the payload carries: names and completion flags, position by position. */
  predicate SameUserContent(a: seq<Milestone>, b: seq<Milestone>) {
    |a| == |b|
    && forall i :: 0 <= i < |a| ==>
         a[i].name == b[i].name
         && |a[i].todos| == |b[i].todos|
         && forall j :: 0 <= j < |a[i].todos| ==>
              a[i].todos[j].name == b[i].todos[j].name
              && a[i].todos[j].isComplete == b[i].todos[j].isComplete
  }

  /**
   * Two drafts give the same payload exactly when they agree on the project
   * name, the owner and the user content: keys and labels never reach it.
   */
  lemma PayloadDeterminedByUserContent(name: string, ownerId: string, a: seq<Milestone>,
                                       name': string, ownerId': string, b: seq<Milestone>)
    ensures BuildPayload(name, ownerId, a) == BuildPayload(name', ownerId', b)
            <==> name == name' && ownerId == ownerId' && SameUserContent(a, b)
  {
    var p, q := BuildPayload(name, ownerId, a), BuildPayload(name', ownerId', b);
    if p == q {
      forall i | 0 <= i < |a|
        ensures a[i].name == b[i].name && |a[i].todos| == |b[i].todos|
        ensures forall j :: 0 <= j < |a[i].todos| ==>
                  a[i].todos[j].name == b[i].todos[j].name && a[i].todos[j].isComplete == b[i].todos[j].isComplete
      {
        assert p.milestones[i] == q.milestones[i];
        forall j | 0 <= j < |a[i].todos|
          ensures a[i].todos[j].name == b[i].todos[j].name && a[i].todos[j].isComplete == b[i].todos[j].isComplete
        {
          assert p.milestones[i].todos[j] == q.milestones[i].todos[j];
        }
      }
    }
    if name == name' && ownerId == ownerId' && SameUserContent(a, b) {
      forall i | 0 <= i < |a| ensures p.milestones[i] == q.milestones[i] {
        assert p.milestones[i].todos == q.milestones[i].todos;
      }
    }
  }

  /** Relabel passes and label erasure leave the payload as it is. */
  lemma PayloadIgnoresLabels(name: string, ownerId: string, ms: seq<Milestone>)
    ensures BuildPayload(name, ownerId, RelabelMilestones(RelabelEachToDos(ms))) == BuildPayload(name, ownerId, ms)
    ensures BuildPayload(name, ownerId, Unlabel(ms)) == BuildPayload(name, ownerId, ms)
  {
    var r := RelabelMilestones(RelabelEachToDos(ms));
    PayloadDeterminedByUserContent(name, ownerId, r, name, ownerId, ms);
    PayloadDeterminedByUserContent(name, ownerId, Unlabel(ms), name, ownerId, ms);
  }

  /** The validation gate of `handleCreate`, followed by payload construction. */
  function Validate(name: string, ownerId: string, ms: seq<Milestone>): (r: Request)
    ensures r.Blocked? <==> IsBlank(name)
    ensures r.Send? ==> r.payload.name == name && r.payload.ownerId == ownerId && |r.payload.milestones| == |ms|
  {
    if IsBlank(name) then Blocked else Send(BuildPayload(name, ownerId, ms))
  }

  /** The empty and the all-space name are refused; a name with content is sent unchanged, untrimmed. */
  lemma ValidationExamples(ownerId: string, ms: seq<Milestone>)
    ensures Validate("", ownerId, ms) == Blocked
    ensures Validate("   ", ownerId, ms) == Blocked
    ensures Validate(" P ", ownerId, ms) == Send(BuildPayload(" P ", ownerId, ms))
  {
  }

  /** The wire shape of a one-milestone, one-to-do draft, key casing included. */
  lemma PayloadShapeExample(k1: Key, k2: Key, l1: string, l2: string)
    ensures BuildPayload("P", "U1", [Milestone(k1, "M1", l1, [ToDo(k2, "T1", true, l2)])])
            == Payload("P", "U1", [MilestonePayload("M1", [ToDoPayload("T1", true)])])
  {
    var ms := [Milestone(k1, "M1", l1, [ToDo(k2, "T1", true, l2)])];
    assert MilestoneToPayload(ms[0]).todos == [ToDoPayload("T1", true)];
  }
}
