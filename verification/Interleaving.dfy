/** Every interleaving of atomic steps taken by contexts that share cells (context.rs). */
module Interleaving {
  import opened Prelude
  import opened RequestContext

  /** A context: its own fields, the budget cell it holds, its cancel cell, and the context it was forked from. */
  datatype Member = Member(fields: Fields, budget: Option<nat>, cancel: nat, parent: Option<nat>)

  datatype Cancel = Cancel(cancelled: bool, reason: Option<CancelReason>)

  datatype World = World(members: seq<Member>, budgets: seq<nat>, cancels: seq<Cancel>)

  /**
   * One atomic step. Cancelling is two steps, the flag and then the reason. Restoring or limiting an absent budget
   * reads it in the step named so, and creates the cell in a later `Ensure`.
   */
  datatype Step =
    | Background(requestId: string, traceId: string)
    | Derive(from: nat, change: Change)
    | Ensure(who: nat, amount: nat)
    | Consume(who: nat)
    | Take(who: nat, maximum: nat)
    | Restore(who: nat, amount: nat)
    | Limit(who: nat, remaining: nat)
    | Flag(who: nat)
    | Reason(who: nat, reason: CancelReason)

  predicate Valid(w: World) {
    && (forall m | 0 <= m < |w.members| :: ValidMember(w, m))
    && (forall b | 0 <= b < |w.budgets| :: w.budgets[b] <= MAX_PROPAGATED_RETRY_BUDGET)
    && (forall c | 0 <= c < |w.cancels| :: w.cancels[c].reason.Some? ==> w.cancels[c].cancelled)
  }

  /** Cells exist; a fork shares its parent's cancel cell, and two roots never share one. */
  predicate ValidMember(w: World, m: nat)
    requires m < |w.members|
  {
    var x := w.members[m];
    && (x.budget.Some? ==> x.budget.value < |w.budgets|)
    && x.cancel < |w.cancels|
    && (x.parent.Some? ==> x.parent.value < m && w.members[x.parent.value].cancel == x.cancel)
    && (x.parent.None? ==> forall k | 0 <= k < m :: w.members[k].cancel != x.cancel)
  }

  /** A step can be taken: its context exists, and a reason is stored after its flag. */
  predicate Enabled(w: World, step: Step) {
    match step
    case Background(_, _) => true
    case Derive(from, _) => from < |w.members|
    case Reason(who, _) => who < |w.members| && w.members[who].cancel < |w.cancels|
        && w.cancels[w.members[who].cancel].cancelled
    case _ => step.who < |w.members|
  }

  /** The budget cell a step works on, if its context holds one. */
  function Target(w: World, step: Step): (t: Option<nat>)
    requires Valid(w) && Enabled(w, step)
    ensures t.Some? ==> t.value < |w.budgets|
  {
    assert step.Consume? || step.Take? || step.Restore? || step.Limit? ==> ValidMember(w, step.who);
    match step
    case Consume(who) => w.members[who].budget
    case Take(who, _) => w.members[who].budget
    case Restore(who, _) => w.members[who].budget
    case Limit(who, _) => w.members[who].budget
    case _ => None
  }

  function CancelCell(w: World, m: nat): (c: nat)
    requires Valid(w) && m < |w.members|
    ensures c < |w.cancels| && c == w.members[m].cancel
  {
    assert ValidMember(w, m);
    w.members[m].cancel
  }

  function NewAmount(step: Step, current: nat): nat {
    match step
    case Consume(_) => AfterConsume(current)
    case Take(_, maximum) => AfterTake(current, maximum)
    case Restore(_, amount) => AfterRestore(current, amount)
    case Limit(_, remaining) => AfterLimit(current, remaining)
    case _ => current
  }

  function Forked(w: World, from: nat, change: Change): World
    requires from < |w.members|
  {
    var x := w.members[from];
    var y := Member(Changed(x.fields, change), x.budget, x.cancel, Some(from));
    if change.NewBudget?
    then w.(members := w.members + [y.(budget := Some(|w.budgets|))], budgets := w.budgets + [Capped(change.remaining)])
    else w.(members := w.members + [y])
  }

  function Ensured(w: World, who: nat, amount: nat): World
    requires who < |w.members|
  {
    if w.members[who].budget.Some? then w
    else w.(members := w.members[who := w.members[who].(budget := Some(|w.budgets|))],
            budgets := w.budgets + [Capped(amount)])
  }

  function Do(w: World, step: Step): World
    requires Valid(w) && Enabled(w, step)
  {
    match step
    case Background(requestId, traceId) =>
      var fields := FreshFields(requestId, traceId);
      w.(members := w.members + [Member(fields, None, |w.cancels|, None)], cancels := w.cancels + [Cancel(false, None)])
    case Derive(from, change) => Forked(w, from, change)
    case Ensure(who, amount) => Ensured(w, who, amount)
    case Flag(who) =>
      var c := CancelCell(w, who);
      w.(cancels := w.cancels[c := w.cancels[c].(cancelled := true)])
    case Reason(who, reason) =>
      var c := CancelCell(w, who);
      w.(cancels := w.cancels[c := w.cancels[c].(reason := Some(reason))])
    case _ =>
      var t := Target(w, step);
      if t.None? then w else w.(budgets := w.budgets[t.value := NewAmount(step, w.budgets[t.value])])
  }

  lemma DoValid(w: World, step: Step)
    requires Valid(w) && Enabled(w, step)
    ensures Valid(Do(w, step))
  {
    var v := Do(w, step);
    forall m | 0 <= m < |v.members| ensures ValidMember(v, m) {
      if m < |w.members| {
        assert ValidMember(w, m);
      } else if step.Derive? {
        assert ValidMember(w, step.from);
      } else {
        forall k | 0 <= k < m ensures v.members[k].cancel != v.members[m].cancel {
          assert ValidMember(w, k);
        }
      }
    }
  }

  // --------------------------------------------------------------- runs

  /** The steps can be taken one after the other. */
  predicate Run(w: World, steps: seq<Step>)
    requires Valid(w)
    decreases |steps|
  {
    steps == [] || (Enabled(w, steps[0]) && (DoValid(w, steps[0]); Run(Do(w, steps[0]), steps[1..])))
  }

  function After(w: World, steps: seq<Step>): (v: World)
    requires Valid(w) && Run(w, steps)
    ensures Valid(v)
    decreases |steps|
  {
    if steps == [] then w else (DoValid(w, steps[0]); After(Do(w, steps[0]), steps[1..]))
  }

  // --------------------------------------------------------------- conservation

  /** Units a step hands out of cell `b`. */
  function Grant(w: World, step: Step, b: nat): nat
    requires Valid(w) && Enabled(w, step)
  {
    if Target(w, step) != Some(b) then 0
    else match step
      case Consume(_) => Min(w.budgets[b], 1)
      case Take(_, maximum) => Min(w.budgets[b], maximum)
      case _ => 0
  }

  /** Units a step puts back, before any cap. */
  function Returned(w: World, step: Step, b: nat): nat
    requires Valid(w) && Enabled(w, step)
  {
    if Target(w, step) == Some(b) && step.Restore? then step.amount else 0
  }

  /** Units a step throws away: a restore over the cap, or a limit below the remainder. */
  function Waste(w: World, step: Step, b: nat): nat
    requires Valid(w) && Enabled(w, step)
  {
    if Target(w, step) != Some(b) then 0
    else match step
      case Restore(_, amount) => w.budgets[b] + amount - AfterRestore(w.budgets[b], amount)
      case Limit(_, remaining) => w.budgets[b] - AfterLimit(w.budgets[b], remaining)
      case _ => 0
  }

  function Granted(w: World, steps: seq<Step>, b: nat): nat
    requires Valid(w) && Run(w, steps)
    decreases |steps|
  {
    if steps == [] then 0 else Grant(w, steps[0], b) + (DoValid(w, steps[0]); Granted(Do(w, steps[0]), steps[1..], b))
  }

  function Restored(w: World, steps: seq<Step>, b: nat): nat
    requires Valid(w) && Run(w, steps)
    decreases |steps|
  {
    if steps == [] then 0 else
      Returned(w, steps[0], b) + (DoValid(w, steps[0]); Restored(Do(w, steps[0]), steps[1..], b))
  }

  function Wasted(w: World, steps: seq<Step>, b: nat): nat
    requires Valid(w) && Run(w, steps)
    decreases |steps|
  {
    if steps == [] then 0 else Waste(w, steps[0], b) + (DoValid(w, steps[0]); Wasted(Do(w, steps[0]), steps[1..], b))
  }

  lemma StepConserves(w: World, step: Step, b: nat)
    requires Valid(w) && Enabled(w, step) && b < |w.budgets|
    ensures b < |Do(w, step).budgets|
    ensures Do(w, step).budgets[b] + Grant(w, step, b) + Waste(w, step, b) == w.budgets[b] + Returned(w, step, b)
  {
  }

  /** Over every interleaving, no unit of a cell is made or lost: it remains, was granted, or was thrown away. */
  lemma {:induction false} BudgetConserved(w: World, steps: seq<Step>, b: nat)
    requires Valid(w) && Run(w, steps) && b < |w.budgets|
    ensures b < |After(w, steps).budgets| && After(w, steps).budgets[b] <= MAX_PROPAGATED_RETRY_BUDGET
    ensures After(w, steps).budgets[b] + Granted(w, steps, b) + Wasted(w, steps, b)
            == w.budgets[b] + Restored(w, steps, b)
    decreases |steps|
  {
    if steps != [] {
      hide Do, Grant, Waste, Returned, Enabled, ValidMember;
      StepConserves(w, steps[0], b);
      DoValid(w, steps[0]);
      BudgetConserved(Do(w, steps[0]), steps[1..], b);
    }
  }

  /** Without restores, the retries granted never exceed what the cell started with. */
  lemma RetriesBounded(w: World, steps: seq<Step>, b: nat)
    requires Valid(w) && Run(w, steps) && b < |w.budgets|
    requires forall i | 0 <= i < |steps| :: !steps[i].Restore?
    ensures Granted(w, steps, b) <= w.budgets[b] <= MAX_PROPAGATED_RETRY_BUDGET
  {
    BudgetConserved(w, steps, b);
    NothingRestored(w, steps, b);
  }

  lemma {:induction false} NothingRestored(w: World, steps: seq<Step>, b: nat)
    requires Valid(w) && Run(w, steps)
    requires forall i | 0 <= i < |steps| :: !steps[i].Restore?
    ensures Restored(w, steps, b) == 0
    decreases |steps|
  {
    if steps != [] {
      hide Do, Enabled, ValidMember;
      DoValid(w, steps[0]);
      NothingRestored(Do(w, steps[0]), steps[1..], b);
    }
  }

  // --------------------------------------------------------------- isolation

  /** What one context can see of itself stays: its fields, its cancel cell, and its budget cell once it has one. */
  ghost predicate SameMember(w: World, v: World, m: nat)
    requires m < |w.members| <= |v.members|
  {
    && v.members[m].fields == w.members[m].fields
    && v.members[m].cancel == w.members[m].cancel
    && v.members[m].parent == w.members[m].parent
    && (w.members[m].budget.Some? ==> v.members[m].budget == w.members[m].budget)
  }

  lemma StepIsolates(w: World, step: Step, m: nat)
    requires Valid(w) && Enabled(w, step) && m < |w.members|
    ensures |w.members| <= |Do(w, step).members| && SameMember(w, Do(w, step), m)
    ensures w.members[m].budget.None? && Do(w, step).members[m].budget.Some? ==> step.Ensure? && step.who == m
  {
  }

  /** No run of steps changes a field seen through an existing context. */
  lemma {:induction false} ForksAreIsolated(w: World, steps: seq<Step>, m: nat)
    requires Valid(w) && Run(w, steps) && m < |w.members|
    ensures |w.members| <= |After(w, steps).members| && SameMember(w, After(w, steps), m)
    ensures w.members[m].budget.None? && After(w, steps).members[m].budget.Some? ==>
              exists i, amount :: 0 <= i < |steps| && steps[i] == Ensure(m, amount)
    decreases |steps|
  {
    if steps != [] {
      hide Do, Enabled, ValidMember;
      StepIsolates(w, steps[0], m);
      DoValid(w, steps[0]);
      var v := Do(w, steps[0]);
      ForksAreIsolated(v, steps[1..], m);
      if v.members[m].budget.None? && After(w, steps).members[m].budget.Some? {
        var i, amount :| 0 <= i < |steps[1..]| && steps[1..][i] == Ensure(m, amount);
        assert steps[i + 1] == Ensure(m, amount);
      } else if w.members[m].budget.None? && v.members[m].budget.Some? {
        assert steps[0] == Ensure(m, steps[0].amount);
      }
    }
  }

  // --------------------------------------------------------------- cancellation

  /** The background context a member descends from. */
  function Root(w: World, m: nat): (r: nat)
    requires Valid(w) && m < |w.members|
    ensures r <= m && w.members[r].parent.None? && w.members[r].cancel == w.members[m].cancel
    decreases m
  {
    assert ValidMember(w, m);
    if w.members[m].parent.None? then m else Root(w, w.members[m].parent.value)
  }

  /** Two contexts share a cancel cell exactly when they descend from the same background context. */
  lemma FamilyIsTree(w: World, a: nat, b: nat)
    requires Valid(w) && a < |w.members| && b < |w.members|
    ensures w.members[a].cancel == w.members[b].cancel <==> Root(w, a) == Root(w, b)
  {
    assert ValidMember(w, Root(w, a)) && ValidMember(w, Root(w, b));
  }

  predicate Cancelled(w: World, m: nat)
    requires Valid(w) && m < |w.members|
  {
    w.cancels[CancelCell(w, m)].cancelled
  }

  function CancelReasonOf(w: World, m: nat): Option<CancelReason>
    requires Valid(w) && m < |w.members|
  {
    w.cancels[CancelCell(w, m)].reason
  }

  lemma StepCancels(w: World, step: Step, c: nat)
    requires Valid(w) && Enabled(w, step) && c < |w.cancels|
    ensures c < |Do(w, step).cancels|
    ensures Do(w, step).cancels[c].cancelled <==>
              w.cancels[c].cancelled || (step.Flag? && w.members[step.who].cancel == c)
    ensures w.cancels[c].reason.Some? ==> Do(w, step).cancels[c].reason.Some?
  {
  }

  /** Some step of the run set the flag of cell `c`, through whichever context. */
  ghost predicate Flagged(w: World, steps: seq<Step>, c: nat)
    requires Valid(w) && Run(w, steps)
  {
    exists i :: 0 <= i < |steps| && FlagsAt(w, steps, c, i)
  }

  ghost predicate FlagsAt(w: World, steps: seq<Step>, c: nat, i: nat)
    requires Valid(w) && Run(w, steps) && i < |steps|
    decreases |steps|
  {
    DoValid(w, steps[0]);
    if i == 0 then steps[0].Flag? && w.members[steps[0].who].cancel == c
    else FlagsAt(Do(w, steps[0]), steps[1..], c, i - 1)
  }

  lemma {:induction false} CellCancels(w: World, steps: seq<Step>, c: nat)
    requires Valid(w) && Run(w, steps) && c < |w.cancels|
    ensures c < |After(w, steps).cancels|
    ensures After(w, steps).cancels[c].cancelled <==> w.cancels[c].cancelled || Flagged(w, steps, c)
    ensures w.cancels[c].reason.Some? ==> After(w, steps).cancels[c].reason.Some?
    decreases |steps|
  {
    if steps != [] {
      hide Do, Enabled, ValidMember;
      StepCancels(w, steps[0], c);
      DoValid(w, steps[0]);
      var v := Do(w, steps[0]);
      CellCancels(v, steps[1..], c);
      if Flagged(v, steps[1..], c) {
        var i :| 0 <= i < |steps[1..]| && FlagsAt(v, steps[1..], c, i);
        assert FlagsAt(w, steps, c, i + 1);
      }
      if steps[0].Flag? && w.members[steps[0].who].cancel == c {
        assert FlagsAt(w, steps, c, 0);
      }
      if Flagged(w, steps, c) {
        var i :| 0 <= i < |steps| && FlagsAt(w, steps, c, i);
        assert i > 0 ==> FlagsAt(v, steps[1..], c, i - 1);
      }
    }
  }

  /**
   * Cancelling through any context is seen by every context of its tree, those forked later included, and is never
   * undone.
   */
  lemma CancelReachesTheTree(w: World, m: nat, steps: seq<Step>, x: nat)
    requires Valid(w) && m < |w.members| && Valid(Do(w, Flag(m))) && Run(Do(w, Flag(m)), steps)
    requires x < |After(Do(w, Flag(m)), steps).members|
    ensures var v := After(Do(w, Flag(m)), steps);
            m < |v.members| && (Root(v, x) == Root(v, m) ==> Cancelled(v, x))
  {
    hide ValidMember, Root, Run, After;
    var u := Do(w, Flag(m));
    var v := After(u, steps);
    ForksAreIsolated(u, steps, m);
    CellCancels(u, steps, CancelCell(w, m));
    FamilyIsTree(v, x, m);
  }

  /** A context is cancelled only if it was before, or a context of its own tree was cancelled. */
  lemma OnlyTheTreeCancels(w: World, steps: seq<Step>, x: nat)
    requires Valid(w) && Run(w, steps) && x < |w.members|
    ensures x < |After(w, steps).members|
    ensures Cancelled(After(w, steps), x) <==> Cancelled(w, x) || Flagged(w, steps, w.members[x].cancel)
  {
    hide ValidMember, Run, After;
    ForksAreIsolated(w, steps, x);
    CellCancels(w, steps, CancelCell(w, x));
  }

  /** A stored reason is always that of a cancelled context, and stays stored. */
  lemma ReasonImpliesCancelled(w: World, steps: seq<Step>, x: nat)
    requires Valid(w) && Run(w, steps) && x < |w.members|
    ensures x < |After(w, steps).members|
    ensures CancelReasonOf(After(w, steps), x).Some? ==> Cancelled(After(w, steps), x)
    ensures CancelReasonOf(w, x).Some? ==> CancelReasonOf(After(w, steps), x).Some?
  {
    hide ValidMember, Run, After;
    ForksAreIsolated(w, steps, x);
    CellCancels(w, steps, CancelCell(w, x));
  }
}
