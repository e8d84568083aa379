/** The graph of readable notes around a node, one or two hops wide. */
module NoteGraph {
  import opened Base
  import opened Notes
  import opened Views

  datatype Node =
    | NoteNode(id: NoteId)
    | MalformedNoteNode(text: nat)
    | AgentNode(name: Name)
    | ProjectNode(project: nat)
    | OtherNode(text: nat)

  /** The node a relation points at; a bare principal means the agent. */
  function TargetNode(target: Reference): Node {
    match target
    case ToNote(id) => NoteNode(id)
    case ToMalformedNote(text) => MalformedNoteNode(text)
    case ToAgent(name) => AgentNode(name)
    case ToPrincipal(name) => AgentNode(name)
    case ToProject(project) => ProjectNode(project)
    case ToOther(text) => OtherNode(text)
  }

  // Kinds are texts as well, so that a relation may name a built-in kind.
  datatype Edge = Edge(source: Node, kind: nat, target: Node)

  const AUTHORED_BY := 0
  const PROJECT := 1
  const PARTICIPANT := 2
  const ABOUT := 3
  const SUPERSEDES := 4

  function EdgesOf(note: Note): seq<Edge> {
    var source := NoteNode(note.id);
    [Edge(source, AUTHORED_BY, AgentNode(note.author))]
    + (if note.project.Some? then [Edge(source, PROJECT, ProjectNode(note.project.value))] else [])
    + seq(|note.participants|, i requires 0 <= i < |note.participants| => Edge(source, PARTICIPANT, AgentNode(note.participants[i])))
    + seq(|note.about|, i requires 0 <= i < |note.about| => Edge(source, ABOUT, AgentNode(note.about[i])))
    + (if note.supersedes.Some? then [Edge(source, SUPERSEDES, NoteNode(note.supersedes.value))] else [])
    + seq(|note.relations|, i requires 0 <= i < |note.relations| =>
        Edge(source, note.relations[i].kind, TargetNode(note.relations[i].target)))
  }

  /** The text of a relation's target names this node. */
  ghost predicate Names(target: Reference, node: Node) {
    match node
    case NoteNode(id) => target == ToNote(id)
    case MalformedNoteNode(text) => target == ToMalformedNote(text)
    case AgentNode(name) => target == ToAgent(name) || target == ToPrincipal(name)
    case ProjectNode(project) => target == ToProject(project)
    case OtherNode(text) => target == ToOther(text)
  }

  ghost predicate FromRelation(note: Note, e: Edge) {
    exists r :: r in note.relations && r.kind == e.kind && Names(r.target, e.target)
  }

  /** A note's edges are to its author, project, participants, subjects, predecessor and related things, and no others. */
  lemma EdgesAre(note: Note, e: Edge)
    ensures e in EdgesOf(note) <==>
              e.source == NoteNode(note.id) &&
              (|| (e.kind == AUTHORED_BY && e.target == AgentNode(note.author))
               || (e.kind == PROJECT && note.project.Some? && e.target == ProjectNode(note.project.value))
               || (e.kind == PARTICIPANT && e.target.AgentNode? && e.target.name in note.participants)
               || (e.kind == ABOUT && e.target.AgentNode? && e.target.name in note.about)
               || (e.kind == SUPERSEDES && note.supersedes.Some? && e.target == NoteNode(note.supersedes.value))
               || FromRelation(note, e))
  {
    ListedEdges(note, e);
    RelatedEdges(note, e);
  }

  lemma ListedEdges(note: Note, e: Edge)
    ensures var source := NoteNode(note.id);
            var participants := seq(|note.participants|, i requires 0 <= i < |note.participants| =>
                                                           Edge(source, PARTICIPANT, AgentNode(note.participants[i])));
            var about := seq(|note.about|, i requires 0 <= i < |note.about| => Edge(source, ABOUT, AgentNode(note.about[i])));
            && (e in participants <==>
                  e.source == source && e.kind == PARTICIPANT && e.target.AgentNode? && e.target.name in note.participants)
            && (e in about <==> e.source == source && e.kind == ABOUT && e.target.AgentNode? && e.target.name in note.about)
  {
    var source := NoteNode(note.id);
    var participants := seq(|note.participants|, i requires 0 <= i < |note.participants| =>
                                                   Edge(source, PARTICIPANT, AgentNode(note.participants[i])));
    var about := seq(|note.about|, i requires 0 <= i < |note.about| => Edge(source, ABOUT, AgentNode(note.about[i])));
    if e.target.AgentNode? && e.target.name in note.participants {
      var i :| 0 <= i < |note.participants| && note.participants[i] == e.target.name;
      assert participants[i] == Edge(source, PARTICIPANT, e.target);
    }
    if e.target.AgentNode? && e.target.name in note.about {
      var i :| 0 <= i < |note.about| && note.about[i] == e.target.name;
      assert about[i] == Edge(source, ABOUT, e.target);
    }
  }

  lemma RelatedEdges(note: Note, e: Edge)
    ensures var source := NoteNode(note.id);
            var related := seq(|note.relations|, i requires 0 <= i < |note.relations| =>
                                 Edge(source, note.relations[i].kind, TargetNode(note.relations[i].target)));
            e in related <==> e.source == source && FromRelation(note, e)
  {
    var source := NoteNode(note.id);
    var related := seq(|note.relations|, i requires 0 <= i < |note.relations| =>
                         Edge(source, note.relations[i].kind, TargetNode(note.relations[i].target)));
    if e in related {
      var i :| 0 <= i < |related| && related[i] == e;
      assert note.relations[i] in note.relations && Names(note.relations[i].target, e.target);
    }
    if e.source == source && FromRelation(note, e) {
      var r :| r in note.relations && r.kind == e.kind && Names(r.target, e.target);
      var i :| 0 <= i < |note.relations| && note.relations[i] == r;
      assert related[i] == e;
    }
  }

  /** An edge to a note is shown only when that note can be read, which a malformed id never can. */
  predicate Safe(corpus: Corpus, reader: Reader, edge: Edge) {
    match edge.target
    case NoteNode(id) => ReadNote(corpus, reader, id).Some?
    case MalformedNoteNode(_) => false
    case _ => true
  }

  function SafeEdges(corpus: Corpus, reader: Reader, edges: seq<Edge>): (safe: seq<Edge>)
    ensures forall e :: e in safe <==> e in edges && Safe(corpus, reader, e)
  {
    if edges == [] then []
    else
      var earlier := SafeEdges(corpus, reader, edges[..|edges| - 1]);
      if Safe(corpus, reader, edges[|edges| - 1]) then earlier + [edges[|edges| - 1]] else earlier
  }

  datatype Source = Source(note: Note, edges: seq<Edge>)

  /** The readable notes in id order, each with its safe edges. */
  function Sources(corpus: Corpus, reader: Reader, rows: seq<NoteId>): seq<Source> {
    if rows == [] then []
    else
      var earlier := Sources(corpus, reader, rows[..|rows| - 1]);
      match ReadNote(corpus, reader, rows[|rows| - 1])
      case None => earlier
      case Some(note) => earlier + [Source(note, SafeEdges(corpus, reader, EdgesOf(note)))]
  }

  // ---------------------------------------------------------------------------------------------
  // Rounds

  datatype Selected = Selected(note: Note, edge: Edge)

  // The edges selected so far, their keys, and the frontier of the next round.
  datatype Progress = Progress(selected: seq<Selected>, seen: set<(NoteId, Edge)>, next: set<Node>)

  predicate Touches(edge: Edge, frontier: set<Node>) {
    edge.source in frontier || edge.target in frontier
  }

  function Visit(p: Progress, frontier: set<Node>, note: Note, edge: Edge): Progress {
    if !Touches(edge, frontier) then p
    else
      Progress(if (note.id, edge) in p.seen then p.selected else p.selected + [Selected(note, edge)],
               p.seen + {(note.id, edge)},
               p.next + {edge.source, edge.target})
  }

  function VisitEdges(p: Progress, frontier: set<Node>, note: Note, edges: seq<Edge>): Progress {
    if edges == [] then p
    else Visit(VisitEdges(p, frontier, note, edges[..|edges| - 1]), frontier, note, edges[|edges| - 1])
  }

  function VisitSources(p: Progress, frontier: set<Node>, sources: seq<Source>): Progress {
    if sources == [] then p
    else
      var last := sources[|sources| - 1];
      VisitEdges(VisitSources(p, frontier, sources[..|sources| - 1]), frontier, last.note, last.edges)
  }

  function Rounds(sources: seq<Source>, node: Node, hops: nat): Progress {
    if hops == 0 then Progress([], {}, {node})
    else
      var p := Rounds(sources, node, hops - 1);
      VisitSources(p.(next := {}), p.next, sources)
  }

  function NodesOf(selected: seq<Selected>): set<Node> {
    (set s | s in selected :: s.edge.source) + (set s | s in selected :: s.edge.target)
  }

  datatype Graph = Graph(nodes: set<Node>, edges: seq<Selected>)

  /** `graph`, or nothing when the number of hops is refused. */
  function GraphOf(corpus: Corpus, reader: Reader, rows: seq<NoteId>, node: Node, hops: int): Option<Graph> {
    if hops != 1 && hops != 2 then None
    else
      var selected := Rounds(Sources(corpus, reader, rows), node, hops).selected;
      Some(Graph(NodesOf(selected), selected))
  }

  method CollectSources(corpus: Corpus, reader: Reader, rows: seq<NoteId>) returns (sources: seq<Source>)
    ensures sources == Sources(corpus, reader, rows)
  {
    hide EdgesOf;
    sources := [];
    for i := 0 to |rows|
      invariant sources == Sources(corpus, reader, rows[..i])
    {
      assert rows[..i + 1][..i] == rows[..i];
      var note := ReadNote(corpus, reader, rows[i]);
      if note.Some? {
        var edges, safe := EdgesOf(note.value), [];
        for j := 0 to |edges|
          invariant safe == SafeEdges(corpus, reader, edges[..j])
        {
          assert edges[..j + 1][..j] == edges[..j];
          var target := edges[j].target;
          var skip := target.MalformedNoteNode? || (target.NoteNode? && ReadNote(corpus, reader, target.id) == None);
          if !skip {
            safe := safe + [edges[j]];
          }
        }
        assert edges[..|edges|] == edges;
        sources := sources + [Source(note.value, safe)];
      }
    }
    assert rows[..|rows|] == rows;
  }

  /** One round over all edges of all sources. */
  method RunRound(sources: seq<Source>, p: Progress) returns (q: Progress)
    ensures q == VisitSources(p.(next := {}), p.next, sources)
  {
    var selected, seen, next: set<Node> := p.selected, p.seen, {};
    ghost var start := p.(next := {});
    for i := 0 to |sources|
      invariant Progress(selected, seen, next) == VisitSources(start, p.next, sources[..i])
    {
      assert sources[..i + 1][..i] == sources[..i];
      var note, edges := sources[i].note, sources[i].edges;
      ghost var before := Progress(selected, seen, next);
      for j := 0 to |edges|
        invariant Progress(selected, seen, next) == VisitEdges(before, p.next, note, edges[..j])
      {
        assert edges[..j + 1][..j] == edges[..j];
        if edges[j].source in p.next || edges[j].target in p.next {
          if (note.id, edges[j]) !in seen {
            selected, seen := selected + [Selected(note, edges[j])], seen + {(note.id, edges[j])};
          }
          next := next + {edges[j].source, edges[j].target};
        }
      }
      assert edges[..|edges|] == edges;
    }
    assert sources[..|sources|] == sources;
    q := Progress(selected, seen, next);
  }

  method BuildGraph(corpus: Corpus, reader: Reader, rows: seq<NoteId>, node: Node, hops: int) returns (graph: Option<Graph>)
    ensures graph == GraphOf(corpus, reader, rows, node, hops)
    ensures graph.Some? <==> hops == 1 || hops == 2
  {
    if hops != 1 && hops != 2 {
      return None;
    }
    var sources := CollectSources(corpus, reader, rows);
    var p := Progress([], {}, {node});
    for k := 0 to hops
      invariant p == Rounds(sources, node, k)
    {
      p := RunRound(sources, p);
    }
    return Some(Graph(NodesOf(p.selected), p.selected));
  }

  // ---------------------------------------------------------------------------------------------
  // Late filtering equals early filtering

  lemma {:induction false} SafetyIsLocal(corpus: Corpus, reader: Reader, edges: seq<Edge>)
    ensures SafeEdges(Readable(corpus, reader), reader, edges) == SafeEdges(corpus, reader, edges)
  {
    if edges != [] {
      SafetyIsLocal(corpus, reader, edges[..|edges| - 1]);
      var target := edges[|edges| - 1].target;
      if target.NoteNode? { ReadingIsLocal(corpus, reader, target.id); }
    }
  }

  lemma {:induction false} SourcesAreLocal(corpus: Corpus, reader: Reader, rows: seq<NoteId>)
    ensures Sources(corpus, reader, rows) == Sources(Readable(corpus, reader), reader, Kept(rows, Readable(corpus, reader).Keys))
  {
    if rows != [] {
      var readable := Readable(corpus, reader);
      var before, last := rows[..|rows| - 1], rows[|rows| - 1];
      SourcesAreLocal(corpus, reader, before);
      ReadingIsLocal(corpus, reader, last);
      if last in readable {
        SafetyIsLocal(corpus, reader, EdgesOf(corpus[last]));
        var earlier := Kept(before, readable.Keys);
        assert (earlier + [last])[..|earlier|] == earlier;
      }
    }
  }

  ghost predicate InIdOrder(corpus: Corpus, rows: seq<NoteId>) {
    (forall id :: id in rows <==> id in corpus) && Ascending(rows)
  }

  lemma AscendingSnoc(q: seq<NoteId>, last: NoteId)
    requires Ascending(q) && forall id :: id in q ==> id < last
    ensures Ascending(q + [last])
  {
    forall i | 0 <= i < |q|
      ensures q[i] < last
    {
      assert q[i] in q;
    }
  }

  lemma {:induction false} KeptStaysAscending(rows: seq<NoteId>, ids: set<NoteId>)
    requires Ascending(rows)
    ensures Ascending(Kept(rows, ids))
  {
    if rows != [] {
      var before, last := rows[..|rows| - 1], rows[|rows| - 1];
      KeptStaysAscending(before, ids);
      forall id | id in Kept(before, ids)
        ensures id < last
      {
        var i :| 0 <= i < |before| && before[i] == id;
        assert rows[i] == id;
      }
      AscendingSnoc(Kept(before, ids), last);
    }
  }

  lemma {:induction false} OneAscending(a: seq<NoteId>, b: seq<NoteId>)
    requires Ascending(a) && Ascending(b) && forall id :: id in a <==> id in b
    ensures a == b
  {
    assert a != [] ==> a[|a| - 1] in a;
    assert b != [] ==> b[|b| - 1] in b;
    if a != [] {
      var m, n := |a| - 1, |b| - 1;
      assert a[m] in b && b[n] in a;
      assert a[m] == b[n];
      forall id
        ensures id in a[..m] <==> id in b[..n]
      {
        assert id in a[..m] <==> id in a && id != a[m];
        assert id in b[..n] <==> id in b && id != b[n];
      }
      OneAscending(a[..m], b[..n]);
      assert a == a[..m] + [a[m]] && b == b[..n] + [b[n]];
    }
  }

  /** The graph over the whole corpus is the graph over only the notes the caller can read, edge for edge. */
  lemma GraphIsLocal(corpus: Corpus, reader: Reader, rows: seq<NoteId>, own: seq<NoteId>, node: Node, hops: int)
    requires InIdOrder(corpus, rows) && InIdOrder(Readable(corpus, reader), own)
    ensures GraphOf(corpus, reader, rows, node, hops) == GraphOf(Readable(corpus, reader), reader, own, node, hops)
  {
    SourcesAreLocal(corpus, reader, rows);
    KeptStaysAscending(rows, Readable(corpus, reader).Keys);
    OneAscending(Kept(rows, Readable(corpus, reader).Keys), own);
  }

  // ---------------------------------------------------------------------------------------------
  // Exactly the edges within reach

  ghost function AllEdges(sources: seq<Source>): set<(NoteId, Edge)> {
    set s, e | s in sources && e in s.edges :: (s.note.id, e)
  }

  ghost predicate Linked(edges: set<(NoteId, Edge)>, a: Node, b: Node) {
    exists k :: k in edges && ((k.1.source == a && k.1.target == b) || (k.1.source == b && k.1.target == a))
  }

  /** There is a walk of `steps` edges from `a` to `b`. */
  ghost predicate Reaches(edges: set<(NoteId, Edge)>, a: Node, b: Node, steps: nat)
    decreases steps
  {
    if steps == 0 then a == b else exists mid :: Reaches(edges, a, mid, steps - 1) && Linked(edges, mid, b)
  }

  /** `b` is at distance `d` or less. */
  ghost predicate Near(edges: set<(NoteId, Edge)>, a: Node, b: Node, d: nat) {
    exists steps: nat :: steps <= d && Reaches(edges, a, b, steps)
  }

  ghost predicate Incident(edges: set<(NoteId, Edge)>, v: Node) {
    exists k :: k in edges && (k.1.source == v || k.1.target == v)
  }

  /** The selection lists each key of `seen` once. */
  ghost predicate Coherent(p: Progress) {
    && (forall i :: 0 <= i < |p.selected| ==> KeyOf(p.selected[i]) in p.seen)
    && (forall k :: k in p.seen ==> Shown(p.selected, k))
    && (forall i, j :: 0 <= i < j < |p.selected| ==> KeyOf(p.selected[i]) != KeyOf(p.selected[j]))
  }

  function KeyOf(s: Selected): (NoteId, Edge) {
    (s.note.id, s.edge)
  }

  ghost predicate Shown(selected: seq<Selected>, k: (NoteId, Edge)) {
    exists i :: 0 <= i < |selected| && KeyOf(selected[i]) == k
  }

  lemma VisitCoherent(p: Progress, frontier: set<Node>, note: Note, edge: Edge)
    requires Coherent(p)
    ensures Coherent(Visit(p, frontier, note, edge))
  {
    var q := Visit(p, frontier, note, edge);
    hide Touches;
    forall k | k in q.seen
      ensures Shown(q.selected, k)
    {
      if k in p.seen {
        assert Shown(p.selected, k);
        var i :| 0 <= i < |p.selected| && KeyOf(p.selected[i]) == k;
        assert KeyOf(q.selected[i]) == k;
      } else {
        assert KeyOf(q.selected[|p.selected|]) == k;
      }
    }
  }

  /** After visiting `edges`: every touching edge is seen and its ends are in the next frontier. */
  ghost predicate Visited(p: Progress, q: Progress, frontier: set<Node>, edges: set<(NoteId, Edge)>) {
    && (forall k :: k in q.seen <==> k in p.seen || (k in edges && Touches(k.1, frontier)))
    && (forall v :: v in q.next <==> v in p.next || EndOfTouching(edges, frontier, v))
  }

  ghost predicate EndOfTouching(edges: set<(NoteId, Edge)>, frontier: set<Node>, v: Node) {
    exists k :: k in edges && Touches(k.1, frontier) && (v == k.1.source || v == k.1.target)
  }

  ghost function Keyed(note: Note, edges: seq<Edge>): set<(NoteId, Edge)> {
    set e | e in edges :: (note.id, e)
  }

  lemma VisitedJoins(p: Progress, q: Progress, r: Progress, frontier: set<Node>, a: set<(NoteId, Edge)>, b: set<(NoteId, Edge)>)
    requires Visited(p, q, frontier, a) && Visited(q, r, frontier, b)
    ensures Visited(p, r, frontier, a + b)
  {
    hide Touches;
    forall v
      ensures EndOfTouching(a + b, frontier, v) <==> EndOfTouching(a, frontier, v) || EndOfTouching(b, frontier, v)
    {
      if EndOfTouching(a, frontier, v) {
        var k :| k in a && Touches(k.1, frontier) && (v == k.1.source || v == k.1.target);
        assert k in a + b;
      }
      if EndOfTouching(b, frontier, v) {
        var k :| k in b && Touches(k.1, frontier) && (v == k.1.source || v == k.1.target);
        assert k in a + b;
      }
    }
  }

  lemma VisitOne(p: Progress, frontier: set<Node>, note: Note, edge: Edge)
    ensures Visited(p, Visit(p, frontier, note, edge), frontier, {(note.id, edge)})
  {
    if Touches(edge, frontier) {
      assert EndOfTouching({(note.id, edge)}, frontier, edge.source) by { assert (note.id, edge) in {(note.id, edge)}; }
      assert EndOfTouching({(note.id, edge)}, frontier, edge.target) by { assert (note.id, edge) in {(note.id, edge)}; }
    }
  }

  lemma {:induction false} VisitEdgesEffect(p: Progress, frontier: set<Node>, note: Note, edges: seq<Edge>)
    requires Coherent(p)
    ensures Coherent(VisitEdges(p, frontier, note, edges))
    ensures Visited(p, VisitEdges(p, frontier, note, edges), frontier, Keyed(note, edges))
  {
    if edges != [] {
      var before, last := edges[..|edges| - 1], edges[|edges| - 1];
      var q := VisitEdges(p, frontier, note, before);
      VisitEdgesEffect(p, frontier, note, before);
      VisitCoherent(q, frontier, note, last);
      VisitOne(q, frontier, note, last);
      assert Keyed(note, edges) == Keyed(note, before) + {(note.id, last)} by { assert edges == before + [last]; }
      hide Coherent, Visited, Visit;
      VisitedJoins(p, q, Visit(q, frontier, note, last), frontier, Keyed(note, before), {(note.id, last)});
    }
  }

  lemma AllEdgesSnoc(before: seq<Source>, last: Source)
    ensures AllEdges(before + [last]) == AllEdges(before) + Keyed(last.note, last.edges)
  {
  }

  lemma {:induction false} VisitSourcesEffect(p: Progress, frontier: set<Node>, sources: seq<Source>)
    requires Coherent(p)
    ensures Coherent(VisitSources(p, frontier, sources))
    ensures Visited(p, VisitSources(p, frontier, sources), frontier, AllEdges(sources))
  {
    if sources != [] {
      var before, last := sources[..|sources| - 1], sources[|sources| - 1];
      var q := VisitSources(p, frontier, before);
      VisitSourcesEffect(p, frontier, before);
      VisitEdgesEffect(q, frontier, last.note, last.edges);
      assert sources == before + [last];
      AllEdgesSnoc(before, last);
      hide Coherent, Visited, VisitEdges;
      VisitedJoins(p, q, VisitEdges(q, frontier, last.note, last.edges), frontier, AllEdges(before), Keyed(last.note, last.edges));
    }
  }

  /** An end of some edge is in the frontier of round `d` exactly when it is at most `d` steps away. */
  ghost predicate FrontierIsNear(edges: set<(NoteId, Edge)>, node: Node, frontier: set<Node>, d: nat) {
    forall v :: Incident(edges, v) ==> (v in frontier <==> Near(edges, node, v, d))
  }

  lemma StepAway(edges: set<(NoteId, Edge)>, node: Node, v: Node, d: nat)
    ensures Near(edges, node, v, d + 1) <==> Near(edges, node, v, d) || exists u :: Near(edges, node, u, d) && Linked(edges, u, v)
  {
    if Near(edges, node, v, d + 1) && !Near(edges, node, v, d) {
      var steps: nat :| steps <= d + 1 && Reaches(edges, node, v, steps);
      assert steps == d + 1;
      var u :| Reaches(edges, node, u, d) && Linked(edges, u, v);
      assert Near(edges, node, u, d);
    }
    if u :| Near(edges, node, u, d) && Linked(edges, u, v) {
      var steps: nat :| steps <= d && Reaches(edges, node, u, steps);
      assert Reaches(edges, node, v, steps + 1);
    }
  }

  lemma NextFrontier(edges: set<(NoteId, Edge)>, node: Node, frontier: set<Node>, d: nat, v: Node)
    requires FrontierIsNear(edges, node, frontier, d) && Incident(edges, v)
    ensures EndOfTouching(edges, frontier, v) <==> Near(edges, node, v, d + 1)
  {
    StepAway(edges, node, v, d);
    hide Near;
    if EndOfTouching(edges, frontier, v) {
      var k :| k in edges && Touches(k.1, frontier) && (v == k.1.source || v == k.1.target);
      var u := if k.1.source in frontier then k.1.source else k.1.target;
      assert Incident(edges, u) && Near(edges, node, u, d);
      if u != v { assert Linked(edges, u, v); }
    }
    if Near(edges, node, v, d) {
      var k :| k in edges && (k.1.source == v || k.1.target == v);
      assert Touches(k.1, frontier);
    } else if Near(edges, node, v, d + 1) {
      var u :| Near(edges, node, u, d) && Linked(edges, u, v);
      var k :| k in edges && ((k.1.source == u && k.1.target == v) || (k.1.source == v && k.1.target == u));
      assert Incident(edges, u) && Touches(k.1, frontier);
    }
  }

  lemma FrontierMoves(edges: set<(NoteId, Edge)>, node: Node, p: Progress, q: Progress, d: nat)
    requires FrontierIsNear(edges, node, p.next, d) && Visited(p.(next := {}), q, p.next, edges)
    ensures FrontierIsNear(edges, node, q.next, d + 1)
  {
    hide Near, Incident;
    forall v | Incident(edges, v)
      ensures v in q.next <==> Near(edges, node, v, d + 1)
    {
      NextFrontier(edges, node, p.next, d, v);
    }
  }

  /** An edge with an end at a distance below `hops`. */
  ghost predicate Within(edges: set<(NoteId, Edge)>, node: Node, k: (NoteId, Edge), hops: nat) {
    exists d: nat :: d < hops && (Near(edges, node, k.1.source, d) || Near(edges, node, k.1.target, d))
  }

  lemma TouchingIsWithin(edges: set<(NoteId, Edge)>, node: Node, frontier: set<Node>, d: nat, k: (NoteId, Edge))
    requires FrontierIsNear(edges, node, frontier, d) && k in edges
    ensures Within(edges, node, k, d + 1) <==> Within(edges, node, k, d) || Touches(k.1, frontier)
  {
    hide Near;
    assert Incident(edges, k.1.source) && Incident(edges, k.1.target);
    if Within(edges, node, k, d + 1) && !Within(edges, node, k, d) {
      var e: nat :| e < d + 1 && (Near(edges, node, k.1.source, e) || Near(edges, node, k.1.target, e));
      assert e == d;
    }
  }

  lemma NearStart(edges: set<(NoteId, Edge)>, node: Node, v: Node)
    ensures Near(edges, node, v, 0) <==> v == node
  {
    assert Reaches(edges, node, node, 0);
  }

  lemma {:induction false} RoundsAreExact(sources: seq<Source>, node: Node, hops: nat)
    ensures var p, edges := Rounds(sources, node, hops), AllEdges(sources);
            && Coherent(p) && FrontierIsNear(edges, node, p.next, hops)
            && forall k :: k in p.seen <==> k in edges && Within(edges, node, k, hops)
  {
    var edges := AllEdges(sources);
    if hops == 0 {
      forall v ensures Near(edges, node, v, 0) <==> v == node {
        NearStart(edges, node, v);
      }
    } else {
      var p, q := Rounds(sources, node, hops - 1), Rounds(sources, node, hops);
      RoundsAreExact(sources, node, hops - 1);
      assert Coherent(p.(next := {}));
      VisitSourcesEffect(p.(next := {}), p.next, sources);
      FrontierMoves(edges, node, p, q, hops - 1);
      hide Coherent, FrontierIsNear, Within, AllEdges, Rounds;
      forall k | k in edges
        ensures Within(edges, node, k, hops) <==> Within(edges, node, k, hops - 1) || Touches(k.1, p.next)
      {
        TouchingIsWithin(edges, node, p.next, hops - 1, k);
      }
    }
  }

  /**
   * The graph holds exactly the safe edges of readable notes that have an end at a distance below `hops` from the node,
   * each of them once.
   */
  lemma GraphIsExact(corpus: Corpus, reader: Reader, rows: seq<NoteId>, node: Node, hops: int)
    requires hops == 1 || hops == 2
    ensures var graph := GraphOf(corpus, reader, rows, node, hops).value;
            var edges := AllEdges(Sources(corpus, reader, rows));
            && (forall k :: Shown(graph.edges, k) <==> k in edges && Within(edges, node, k, hops))
            && (forall i, j :: 0 <= i < j < |graph.edges| ==> KeyOf(graph.edges[i]) != KeyOf(graph.edges[j]))
            && (forall v :: v in graph.nodes <==>
                  exists s :: s in graph.edges && (s.edge.source == v || s.edge.target == v))
  {
    var sources := Sources(corpus, reader, rows);
    RoundsAreExact(sources, node, hops);
    hide Within, AllEdges, Rounds, Sources, FrontierIsNear;
    var p := Rounds(sources, node, hops);
    forall k
      ensures Shown(p.selected, k) <==> k in p.seen
    {
      if Shown(p.selected, k) {
        var i :| 0 <= i < |p.selected| && KeyOf(p.selected[i]) == k;
      }
    }
    hide Shown;
  }

  lemma {:induction false} SourcesAreReadable(corpus: Corpus, reader: Reader, rows: seq<NoteId>)
    requires IdsMatch(corpus)
    ensures forall k :: k in AllEdges(Sources(corpus, reader, rows)) <==>
              k.0 in rows && ReadNote(corpus, reader, k.0).Some? && k.1 in EdgesOf(corpus[k.0])
              && !k.1.target.MalformedNoteNode? && (k.1.target.NoteNode? ==> ReadNote(corpus, reader, k.1.target.id).Some?)
  {
    hide EdgesOf, CanRead;
    if rows != [] {
      var before, last := rows[..|rows| - 1], rows[|rows| - 1];
      SourcesAreReadable(corpus, reader, before);
      assert rows == before + [last];
      if ReadNote(corpus, reader, last).Some? {
        AllEdgesSnoc(Sources(corpus, reader, before), Source(corpus[last], SafeEdges(corpus, reader, EdgesOf(corpus[last]))));
      }
    }
  }
}
