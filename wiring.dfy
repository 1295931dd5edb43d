/**
  How the web application connects the two components: it builds the agent
  with shape (3, 3, 3, 3) and three actions, and addresses the table with the
  environment's observations.
 */
module Wiring {
  import opened Environment
  import opened QLearning

  const TableShape: seq<nat> := [3, 3, 3, 3]
  const ActionCount: nat := 3

  /** Every observation of a valid session addresses a row of the table, and
      every action the environment knows addresses a cell in that row. */
  lemma ObservationsAddressTable(e: Session, action: int)
    requires e.Valid() && 0 <= action <= 2
    ensures InBounds(TableShape, StateOf(e).AsIndex())
    ensures Cell(TableShape, ActionCount, StateOf(e).AsIndex(), action) < Size(TableShape + [ActionCount])
  {
    var s := StateOf(e);
    assert s.InRange();
    assert forall k :: 0 <= k < 4 ==> 0 <= s.AsIndex()[k] < TableShape[k];
  }
}
