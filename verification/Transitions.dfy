/** The lifecycle table, and how far the scripts follow it. */
module Transitions {
  import opened ZSets
  import opened Scripts
  import opened Runs
  import opened Placement
  import opened JobView

  /** winter.validTransitions; a state outside the table has no targets. */
  function Targets(st: State): set<State> {
    match st
    case Pending => {Active}
    case Active => {Completed, Failed, Retry, Cancelled}
    case Retry => {Pending, Active}
    case Failed => {Dead, Pending}
    case Dead => {Pending}
    case Cancelled => {}
    case Completed => {}
    case Unset => {}
  }

  predicate ValidTransition(from: State, to: State) {
    to in Targets(from)
  }

  /** A fenced step keeps a job's state, takes one edge of the table, or goes from active
      through the never-stored failed state: two edges in one script. */
  lemma StepFollowsTable(s: Store, e: Event, x: Id)
    requires Placed(s) && Fenced(s, e) && x in s.jobs && x in Apply(s, e).jobs
    ensures var from, to := H(s, x).state, H(Apply(s, e), x).state;
            || to == from
            || ValidTransition(from, to)
            || (ValidTransition(from, Failed) && ValidTransition(Failed, to))
  {
    StepHash(s, e, x);
    StateBefore(s, e, x);
  }

  /** No run ever stores failed, so the two-edge moves are exactly active to pending and
      active to dead. */
  lemma TwoEdgeMoves(s: Store, e: Event, x: Id)
    requires Placed(s) && Fenced(s, e) && x in s.jobs && x in Apply(s, e).jobs
    ensures var from, to := H(s, x).state, H(Apply(s, e), x).state;
            && to != Failed
            && (to != from && !ValidTransition(from, to) ==> from == Active && (to == Pending || to == Dead))
            && (from == Completed || from == Cancelled ==> to == from)
  {
    StepHash(s, e, x);
    StateBefore(s, e, x);
    assert PlacedId(s, x);
    StepPlaced(s, e);
    assert PlacedId(Apply(s, e), x);
  }
}
