/**
  The cluster controller's pass over the Cells it listed, and why each of its writes is a
  step the runs of CellDeletion allow.
 */
module CellPass {
  import opened Options
  import opened CellDeletion

  /** A listed Cell: its name, and the version its listing showed. */
  datatype Item = Item(name: string, cell: Cell)
  datatype Reply = Committed | Conflict | NotFound | Failed
  datatype Action = CancelDeletion | LeaveAlone | StampDeletion | AwaitDrain | DeleteCell

  function Plan(item: Item, active: set<string>): Action
  {
    if item.name in active then (if item.cell.stamped && !item.cell.terminating then CancelDeletion else LeaveAlone)
    else if !item.cell.stamped then StampDeletion
    else if !item.cell.ready then AwaitDrain
    else DeleteCell
  }

  /** What the pass does about each Cell, by whether the spec names it and what its listing showed. */
  lemma PlanIff(item: Item, active: set<string>)
    ensures Plan(item, active) == CancelDeletion <==> item.name in active && item.cell.stamped && !item.cell.terminating
    ensures Plan(item, active) == LeaveAlone <==> item.name in active && (!item.cell.stamped || item.cell.terminating)
    ensures Plan(item, active) == StampDeletion <==> item.name !in active && !item.cell.stamped
    ensures Plan(item, active) == AwaitDrain <==> item.name !in active && item.cell.stamped && !item.cell.ready
    ensures Plan(item, active) == DeleteCell <==> item.name !in active && item.cell.stamped && item.cell.ready
  {
  }

  /** The write of an action on the version that was listed. */
  function StepOf(a: Action, v: nat, held: bool): Option<Step>
  {
    match a
    case CancelDeletion => Some(Cancel(v))
    case StampDeletion => Some(Stamp(v))
    case DeleteCell => Some(Delete(v, held))
    case _ => None
  }

  /** A version of the Cell that was stored once, which is all a listing can show. */
  predicate Listed(w: World, item: Item, v: nat) { v in w.history && item.cell == w.history[v] }

  /** Each write is taken exactly where the runs allow it, for names the spec does not, or does, hold. */
  lemma WritesAreSteps(w: World, item: Item, active: set<string>, v: nat, held: bool, sound: bool)
    requires Listed(w, item, v)
    ensures Plan(item, active) == DeleteCell <==> item.name !in active && Enabled(w, Delete(v, held), sound)
    ensures Plan(item, active) == StampDeletion <==> item.name !in active && Enabled(w, Stamp(v), sound)
    ensures Plan(item, active) == CancelDeletion <==> item.name in active && Enabled(w, Cancel(v), sound)
  {
  }

  /** After any run, the pass's write on any version once stored extends the run, and a delete is of a drained Cell. */
  lemma PassExtendsRun(steps: seq<Step>, item: Item, active: set<string>, v: nat, held: bool)
    requires Run(steps, true).Some? && Listed(Run(steps, true).value, item, v)
    requires StepOf(Plan(item, active), v, held).Some?
    ensures var more := steps + [StepOf(Plan(item, active), v, held).value];
            && Run(more, true).Some?
            && forall i | 0 <= i < |Run(more, true).value.deletions| :: Run(more, true).value.deletions[i].drained
  {
    var step := StepOf(Plan(item, active), v, held).value;
    WritesAreSteps(Run(steps, true).value, item, active, v, held, true);
    RunSnoc(steps, step, true);
    forall i: nat | i < |Run(steps + [step], true).value.deletions|
      ensures Run(steps + [step], true).value.deletions[i].drained
    {
      OnlyDrainedCellsAreDeleted(steps + [step], i);
    }
  }

  // ------------------------------------------------------------ the pass

  /** The write failed for a reason that ends the pass: any for a stamp, else neither a conflict nor an absent Cell. */
  predicate Aborts(item: Item, active: set<string>, r: Reply)
  {
    if item.name in active then item.cell.stamped && !item.cell.terminating && r == Failed
    else if !item.cell.stamped then r != Committed
    else item.cell.ready && r == Failed
  }

  /** A Cell the spec does not name, and whose absence the pass has not seen to. */
  predicate Pends(item: Item, active: set<string>, r: Reply)
  {
    item.name !in active && !(item.cell.stamped && item.cell.ready && (r == Committed || r == NotFound))
  }

  method PruneCells(items: seq<Item>, active: set<string>, replies: seq<Reply>)
    returns (pending: bool, done: nat, actions: seq<Action>)
    requires |items| == |replies|
    ensures done <= |items| && |actions| == done
    ensures forall i | 0 <= i < done :: actions[i] == Plan(items[i], active) && !Aborts(items[i], active, replies[i])
    ensures done < |items| ==> Aborts(items[done], active, replies[done]) && !pending
    ensures done == |items| ==> (pending <==> exists i | 0 <= i < |items| :: Pends(items[i], active, replies[i]))
  {
    pending, done, actions := false, 0, [];
    while done < |items|
      invariant 0 <= done <= |items| && |actions| == done
      invariant forall i | 0 <= i < done ::
                  actions[i] == Plan(items[i], active) && !Aborts(items[i], active, replies[i])
      invariant pending <==> exists i | 0 <= i < done :: Pends(items[i], active, replies[i])
    {
      var item, reply := items[done], replies[done];
      var action;
      if item.name in active {
        action := if !item.cell.stamped || item.cell.terminating then LeaveAlone else CancelDeletion;
        if action.CancelDeletion? && reply.Failed? { return false, done, actions; }
      } else if !item.cell.stamped {
        action := StampDeletion;
        if !reply.Committed? { return false, done, actions; }
        pending := true;
      } else if !item.cell.ready {
        action := AwaitDrain;
        pending := true;
      } else {
        action := DeleteCell;
        if reply.Conflict? { pending := true; }
        else if reply.Failed? { return false, done, actions; }
      }
      actions := actions + [action];
      done := done + 1;
    }
  }
}
