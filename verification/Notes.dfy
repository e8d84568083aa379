/** The note as the services see it after parsing and validation, and the routing rule of one version of it. */
module Notes {
  import opened Base

  // Names (principals, consumers) and note ids enter the code through equality and sort order only:
  // a number stands for the position of the name in that order.
  type Name = nat
  type NoteId = nat

  datatype Visibility = Private | Shared | DirectTo(recipient: Name)

  datatype Kind = Plain | Decision | Handoff | Observation | TaskLog | Profile

  // What a relation's target text says: `note:` and an id, `note:` and something that is no id, `agent:` and a name, a
  // bare principal, `project:` and a name, or anything else.
  datatype Reference =
    | ToNote(id: NoteId)
    | ToMalformedNote(text: nat)
    | ToAgent(name: Name)
    | ToPrincipal(name: Name)
    | ToProject(project: nat)
    | ToOther(text: nat)

  datatype Relation = Relation(kind: nat, target: Reference)

  datatype Note = Note(
    id: NoteId,
    author: Name,
    visibility: Visibility,
    kind: Kind,
    project: Option<nat>,
    participants: seq<Name>,
    about: seq<Name>,
    supersedes: Option<NoteId>,
    relations: seq<Relation>,
    recordedAt: nat,
    body: nat)

  datatype Reason = AboutReason | DirectReason | HandoffReason

  // `DELIVERY_REASONS`, in sort order.
  const REASONS: seq<Reason> := [AboutReason, DirectReason, HandoffReason]

  datatype Target = Target(recipient: Name, reason: Reason)

  function DirectTargets(note: Note): set<Target> {
    match note.visibility
    case DirectTo(r) =>
      {Target(r, DirectReason)} + (if note.kind == Handoff then {Target(r, HandoffReason)} else {})
    case _ => {}
  }

  /** Who is told about this version of the note, and why: never its own author. */
  function DeliveryTargets(note: Note): set<Target> {
    var about := set i | 0 <= i < |note.about| :: Target(note.about[i], AboutReason);
    set t | t in about + DirectTargets(note) && t.recipient != note.author
  }

  /** An author is never told; others are told because the note is about them, goes to them, or hands work over to them. */
  lemma TargetsAre(note: Note, c: Name, reason: Reason)
    ensures Target(c, reason) in DeliveryTargets(note) <==>
              c != note.author &&
              match reason
              case AboutReason => c in note.about
              case DirectReason => note.visibility == DirectTo(c)
              case HandoffReason => note.visibility == DirectTo(c) && note.kind == Handoff
  {
    if c in note.about {
      var i :| 0 <= i < |note.about| && note.about[i] == c;
      assert Target(note.about[i], AboutReason) == Target(c, AboutReason);
    }
  }
}
