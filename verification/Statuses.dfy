/** Status values and the transition graphs of the three dispatch entities. */
module Statuses {

  /** The status strings of every entity. `Blank` is the empty string, `Deleted`
      only occurs in audit entries and `Other` is any text outside the lists. */
  datatype Status =
    | Blank
    | Open | Closed | Moving | Locked
    | Draft | Pending | Approved | Executing | Completed | Aborted
    | Confirmed | Failed | Cancelled
    | Deleted
    | Other(text: string)

  type Graph = map<Status, set<Status>>

  const GATE_GRAPH: Graph := map[
    Open := {Moving, Locked},
    Closed := {Moving, Locked},
    Moving := {Open, Closed, Locked},
    Locked := {Closed}]

  const DIRECTIVE_GRAPH: Graph := map[
    Draft := {Pending},
    Pending := {Approved, Aborted},
    Approved := {Executing, Aborted},
    Executing := {Completed, Aborted},
    Completed := {},
    Aborted := {}]

  const RECEIPT_GRAPH: Graph := map[
    Pending := {Confirmed, Failed},
    Confirmed := {},
    Failed := {Cancelled},
    Cancelled := {}]

  predicate CanTransition(graph: Graph, from: Status, to: Status) {
    from in graph && to in graph[from]
  }

  /** Business edits keep the status, everything else follows an edge. */
  predicate StaysOrSteps(graph: Graph, from: Status, to: Status) {
    from == to || CanTransition(graph, from, to)
  }

  predicate KnownGateStatus(s: Status) {
    s == Open || s == Closed || s == Moving || s == Locked
  }

  /** How far a directive has come: every edge goes strictly up. */
  function DirectiveRank(s: Status): (rank: nat)
    ensures rank <= 4
  {
    match s
    case Pending => 1
    case Approved => 2
    case Executing => 3
    case Completed => 4
    case Aborted => 4
    case _ => 0
  }

  function ReceiptRank(s: Status): (rank: nat)
    ensures rank <= 2
  {
    match s
    case Failed => 1
    case Confirmed => 2
    case Cancelled => 2
    case _ => 0
  }

  lemma GateEdges(from: Status, to: Status)
    ensures CanTransition(GATE_GRAPH, from, to) <==>
              || ((from == Open || from == Closed) && (to == Moving || to == Locked))
              || (from == Moving && (to == Open || to == Closed || to == Locked))
              || (from == Locked && to == Closed)
  {
  }

  lemma DirectiveEdges(from: Status, to: Status)
    ensures CanTransition(DIRECTIVE_GRAPH, from, to) <==>
              || (from == Draft && to == Pending)
              || (from == Pending && (to == Approved || to == Aborted))
              || (from == Approved && (to == Executing || to == Aborted))
              || (from == Executing && (to == Completed || to == Aborted))
  {
  }

  lemma ReceiptEdges(from: Status, to: Status)
    ensures CanTransition(RECEIPT_GRAPH, from, to) <==>
              || (from == Pending && (to == Confirmed || to == Failed))
              || (from == Failed && to == Cancelled)
  {
  }

  lemma EdgesClimb(from: Status, to: Status)
    ensures CanTransition(DIRECTIVE_GRAPH, from, to) ==> DirectiveRank(from) < DirectiveRank(to)
    ensures CanTransition(RECEIPT_GRAPH, from, to) ==> ReceiptRank(from) < ReceiptRank(to)
  {
    DirectiveEdges(from, to);
    ReceiptEdges(from, to);
  }
}
