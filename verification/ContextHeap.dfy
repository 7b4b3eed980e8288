/** The contexts on the heap are the members of the interleaving laws (context.rs). */
module ContextHeap {
  import opened Prelude
  import opened RequestContext
  import opened Interleaving

  /** `units` is what a step hands out of the cell its context holds, and it hands out nothing of other cells. */
  ghost predicate HandsOut(w: World, step: Step, units: nat)
    requires Interleaving.Valid(w) && Enabled(w, step)
  {
    forall b: nat :: Grant(w, step, b) == if Target(w, step) == Some(b) then units else 0
  }

  /** What the steps returned to their callers, out of cell `b`. */
  ghost function Handed(w: World, steps: seq<Step>, units: seq<nat>, b: nat): nat
    requires Interleaving.Valid(w) && Run(w, steps) && |units| == |steps|
    decreases |steps|
  {
    if steps == [] then 0
    else
      DoValid(w, steps[0]);
      (if Target(w, steps[0]) == Some(b) then units[0] else 0) + Handed(Do(w, steps[0]), steps[1..], units[1..], b)
  }

  lemma AfterTwo(w: World, a: Step, b: Step)
    requires Interleaving.Valid(w) && Enabled(w, a) && Interleaving.Valid(Do(w, a)) && Enabled(Do(w, a), b)
    ensures Run(w, [a, b]) && After(w, [a, b]) == Do(Do(w, a), b)
  {
    hide Do, Enabled, ValidMember;
    var v := Do(w, a);
    DoValid(v, b);
    assert [a, b][1..] == [b] && [b][1..] == [];
    assert Run(Do(v, b), []);
    assert Run(v, [b]) && After(v, [b]) == After(Do(v, b), []);
  }

  /** Contexts, the cells they share, and the world they stand for. */
  class Family {
    var contexts: seq<Context>
    ghost var budgets: seq<RetryBudget>
    ghost var cancels: seq<CancelState>
    ghost var world: World

    ghost predicate SameSizes()
      reads this
    {
      |contexts| == |world.members| && |budgets| == |world.budgets| && |cancels| == |world.cancels|
    }

    /** Context `m` has the fields of member `m` and holds the cells that member holds. */
    ghost predicate Tied(m: nat)
      requires SameSizes() && m < |contexts|
      reads this, contexts[m]
    {
      var c, x := contexts[m], world.members[m];
      && c.View() == x.fields
      && (if x.budget.None? then c.budget == null else
            x.budget.value < |budgets| && c.budget == budgets[x.budget.value])
      && x.cancel < |cancels| && c.cancel == cancels[x.cancel]
    }

    ghost predicate CellsTied()
      requires SameSizes()
      reads this, budgets, cancels
    {
      && (forall b | 0 <= b < |budgets| :: budgets[b].remaining == world.budgets[b])
      && (forall c | 0 <= c < |cancels| ::
            cancels[c].cancelled == world.cancels[c].cancelled && cancels[c].reason == world.cancels[c].reason)
    }

    ghost predicate Valid()
      reads this, contexts, budgets, cancels
    {
      && SameSizes() && Interleaving.Valid(world)
      && NoDuplicates(contexts) && NoDuplicates(budgets) && NoDuplicates(cancels)
      && (forall m | 0 <= m < |contexts| :: Tied(m))
      && CellsTied()
    }

    constructor ()
      ensures Valid() && world == World([], [], []) && contexts == [] && budgets == [] && cancels == []
    {
      contexts, budgets, cancels, world := [], [], [], World([], [], []);
    }

    /** A background context starts a tree of its own. */
    method AddBackground(requestId: string, traceId: string)
      requires Valid()
      modifies this
      ensures Valid() && world == Do(old(world), Background(requestId, traceId))
      ensures budgets == old(budgets) && |contexts| == |old(contexts)| + 1
              && contexts[..|old(contexts)|] == old(contexts)
      ensures |cancels| == |old(cancels)| + 1 && cancels[..|old(cancels)|] == old(cancels)
      ensures fresh(contexts[|old(contexts)|]) && fresh(cancels[|old(cancels)|])
    {
      var step := Background(requestId, traceId);
      DoValid(world, step);
      var next := new Context.Background(requestId, traceId);
      contexts := contexts + [next];
      cancels := cancels + [next.cancel];
      world := Do(world, step);
      forall m | 0 <= m < |contexts| ensures Tied(m) {
        if m < |contexts| - 1 {
          assert old(Tied(m));
        }
      }
    }

    method Copy(from: Context) returns (next: Context)
      ensures fresh(next) && from.Derived(next, Nothing)
    {
      next := new Context.Fork(from);
    }

    /** The derivation named by a change. */
    method Fork(from: Context, change: Change) returns (next: Context)
      ensures fresh(next) && from.Derived(next, change)
      ensures change.NewBudget? ==>
                next.budget != null && fresh(next.budget) && next.budget.remaining == Capped(change.remaining)
    {
      match change {
        case Nothing => next := Copy(from);
        case SetRequestId(id) => next := from.WithRequestId(id);
        case SetTraceId(id) => next := from.WithTraceId(id);
        case SetAuth(auth) => next := from.WithAuth(auth);
        case PutMetadata(key, value) => next := from.WithMetadata(key, value);
        case SetMetadata(metadata) => next := from.WithMetadataMap(metadata);
        case MergeMetadata(metadata) => next := from.WithMergedMetadata(metadata);
        case SetDeadline(at) => next := from.WithDeadline(at);
        case SetError(message) => next := from.WithError(message);
        case NewBudget(remaining) => next := from.WithRetryBudget(remaining);
      }
    }

    method AddDerived(from: nat, change: Change)
      requires Valid() && from < |contexts|
      modifies this
      ensures Valid() && world == Do(old(world), Derive(from, change))
      ensures cancels == old(cancels) && |contexts| == |old(contexts)| + 1
              && contexts[..|old(contexts)|] == old(contexts)
      ensures |old(budgets)| <= |budgets| && budgets[..|old(budgets)|] == old(budgets)
      ensures fresh(contexts[|old(contexts)|]) && fresh(set b | b in budgets[|old(budgets)|..])
    {
      var step := Derive(from, change);
      DoValid(world, step);
      assert Tied(from);
      var next := Fork(contexts[from], change);
      contexts := contexts + [next];
      if change.NewBudget? {
        budgets := budgets + [next.budget];
      }
      world := Do(world, step);
      forall m | 0 <= m < |contexts| ensures Tied(m) {
        if m < |contexts| - 1 {
          assert old(Tied(m));
        }
      }
    }

    method Ensure(m: nat, amount: nat)
      requires Valid() && m < |contexts|
      modifies this, contexts[m]
      ensures Valid() && world == Do(old(world), Step.Ensure(m, amount))
      ensures contexts == old(contexts) && cancels == old(cancels)
      ensures |old(budgets)| <= |budgets| && budgets[..|old(budgets)|] == old(budgets)
      ensures fresh(set b | b in budgets[|old(budgets)|..])
    {
      var step := Step.Ensure(m, amount);
      DoValid(world, step);
      assert Tied(m);
      var had := contexts[m].budget != null;
      contexts[m].EnsureRetryBudget(amount);
      if !had {
        budgets := budgets + [contexts[m].budget];
      }
      world := Do(world, step);
      forall k | 0 <= k < |contexts| ensures Tied(k) {
        assert old(Tied(k));
      }
    }

    /** Nothing but the cells and the world has changed. */
    twostate predicate OnlyCells()
      reads this
    {
      contexts == old(contexts) && budgets == old(budgets) && cancels == old(cancels)
    }

    method Consume(m: nat) returns (granted: bool)
      requires Valid() && m < |contexts|
      modifies this, budgets
      ensures Valid() && world == Do(old(world), Step.Consume(m)) && OnlyCells()
      ensures granted <==> old(contexts[m].budget) == null || old(contexts[m].budget.remaining) > 0
      ensures HandsOut(old(world), Step.Consume(m), if granted then 1 else 0)
    {
      var step := Step.Consume(m);
      DoValid(world, step);
      assert Tied(m);
      granted := contexts[m].TryConsumeRetryBudget();
      world := Do(world, step);
      forall k | 0 <= k < |contexts| ensures Tied(k) {
        assert old(Tied(k));
      }
    }

    method Take(m: nat, maximum: nat) returns (taken: nat)
      requires Valid() && m < |contexts|
      modifies this, budgets
      ensures Valid() && world == Do(old(world), Step.Take(m, maximum)) && OnlyCells()
      ensures taken == if old(contexts[m].budget) == null then 0 else Min(old(contexts[m].budget.remaining), maximum)
      ensures HandsOut(old(world), Step.Take(m, maximum), taken)
    {
      var step := Step.Take(m, maximum);
      DoValid(world, step);
      assert Tied(m);
      taken := contexts[m].TakeRetryBudgetUpTo(maximum);
      world := Do(world, step);
      forall k | 0 <= k < |contexts| ensures Tied(k) {
        assert old(Tied(k));
      }
    }

    /** The atomic part of restoring: an absent budget is only looked at. */
    method RestorePresent(m: nat, amount: nat)
      requires Valid() && m < |contexts|
      modifies this, contexts[m], budgets
      ensures Valid() && world == Do(old(world), Step.Restore(m, amount)) && OnlyCells()
      ensures contexts[m].budget == old(contexts[m].budget)
    {
      var step := Step.Restore(m, amount);
      DoValid(world, step);
      assert Tied(m);
      if contexts[m].budget != null {
        contexts[m].RestoreRetryBudget(amount);
      }
      world := Do(world, step);
      forall k | 0 <= k < |contexts| ensures Tied(k) {
        assert old(Tied(k));
      }
    }

    method LimitPresent(m: nat, remaining: nat)
      requires Valid() && m < |contexts|
      modifies this, contexts[m], budgets
      ensures Valid() && world == Do(old(world), Step.Limit(m, remaining)) && OnlyCells()
      ensures contexts[m].budget == old(contexts[m].budget)
    {
      var step := Step.Limit(m, remaining);
      DoValid(world, step);
      assert Tied(m);
      if contexts[m].budget != null {
        contexts[m].LimitRetryBudget(remaining);
      }
      world := Do(world, step);
      forall k | 0 <= k < |contexts| ensures Tied(k) {
        assert old(Tied(k));
      }
    }

    method StoreFlag(m: nat)
      requires Valid() && m < |contexts|
      modifies this, cancels
      ensures Valid() && world == Do(old(world), Step.Flag(m)) && OnlyCells()
    {
      var step := Step.Flag(m);
      DoValid(world, step);
      assert Tied(m);
      contexts[m].StoreFlag();
      world := Do(world, step);
      forall k | 0 <= k < |contexts| ensures Tied(k) {
        assert old(Tied(k));
      }
    }

    /** A reason is stored after its flag. */
    method StoreReason(m: nat, reason: CancelReason)
      requires Valid() && m < |contexts| && Enabled(world, Step.Reason(m, reason))
      modifies this, cancels
      ensures Valid() && world == Do(old(world), Step.Reason(m, reason)) && OnlyCells()
    {
      var step := Step.Reason(m, reason);
      DoValid(world, step);
      assert Tied(m);
      contexts[m].StoreReason(reason);
      world := Do(world, step);
      forall k | 0 <= k < |contexts| ensures Tied(k) {
        assert old(Tied(k));
      }
    }

    /** Restoring where there is no budget creates one. */
    method RestoreAbsent(m: nat, amount: nat)
      requires Valid() && m < |contexts| && contexts[m].budget == null && amount != 0
      modifies this, contexts[m]
      ensures Valid() && world == Do(old(world), Step.Ensure(m, amount))
      ensures contexts == old(contexts) && cancels == old(cancels)
      ensures |old(budgets)| <= |budgets| && budgets[..|old(budgets)|] == old(budgets)
    {
      var step := Step.Ensure(m, amount);
      DoValid(world, step);
      assert Tied(m);
      contexts[m].RestoreRetryBudget(amount);
      budgets := budgets + [contexts[m].budget];
      world := Do(world, step);
      forall k | 0 <= k < |contexts| ensures Tied(k) {
        assert old(Tied(k));
      }
    }

    method LimitAbsent(m: nat, remaining: nat)
      requires Valid() && m < |contexts| && contexts[m].budget == null
      modifies this, contexts[m]
      ensures Valid() && world == Do(old(world), Step.Ensure(m, remaining))
      ensures contexts == old(contexts) && cancels == old(cancels)
      ensures |old(budgets)| <= |budgets| && budgets[..|old(budgets)|] == old(budgets)
    {
      var step := Step.Ensure(m, remaining);
      DoValid(world, step);
      assert Tied(m);
      contexts[m].LimitRetryBudget(remaining);
      budgets := budgets + [contexts[m].budget];
      world := Do(world, step);
      forall k | 0 <= k < |contexts| ensures Tied(k) {
        assert old(Tied(k));
      }
    }

    /** The whole of restoring: its atomic step, and the creation of a cell that was not there. */
    method Restore(m: nat, amount: nat)
      requires Valid() && m < |contexts|
      modifies this, contexts[m], budgets
      ensures Valid() && contexts == old(contexts) && cancels == old(cancels)
      ensures |old(budgets)| <= |budgets| && budgets[..|old(budgets)|] == old(budgets)
      ensures amount == 0 ==> world == old(world)
      ensures amount != 0 ==> world == Ensured(Do(old(world), Step.Restore(m, amount)), m, amount)
    {
      assert Tied(m);
      if amount != 0 {
        if contexts[m].budget != null {
          RestorePresent(m, amount);
        } else {
          RestoreAbsent(m, amount);
        }
      }
    }

    /** The whole of limiting, likewise. */
    method Limit(m: nat, remaining: nat)
      requires Valid() && m < |contexts|
      modifies this, contexts[m], budgets
      ensures Valid() && contexts == old(contexts) && cancels == old(cancels)
      ensures |old(budgets)| <= |budgets| && budgets[..|old(budgets)|] == old(budgets)
      ensures world == Ensured(Do(old(world), Step.Limit(m, remaining)), m, remaining)
    {
      assert Tied(m);
      if contexts[m].budget != null {
        LimitPresent(m, remaining);
      } else {
        LimitAbsent(m, remaining);
      }
    }

    /** The whole of cancelling: the flag, then the reason. */
    method Cancel(m: nat, reason: CancelReason)
      requires Valid() && m < |contexts|
      modifies this, cancels
      ensures Valid() && OnlyCells()
      ensures Run(old(world), [Step.Flag(m), Step.Reason(m, reason)])
      ensures world == After(old(world), [Step.Flag(m), Step.Reason(m, reason)])
    {
      DoValid(world, Step.Flag(m));
      assert Tied(m);
      contexts[m].CancelWithReason(reason);
      ghost var flagged := Do(world, Step.Flag(m));
      DoValid(flagged, Step.Reason(m, reason));
      AfterTwo(world, Step.Flag(m), Step.Reason(m, reason));
      world := Do(flagged, Step.Reason(m, reason));
      forall k | 0 <= k < |contexts| ensures Tied(k) {
        assert old(Tied(k));
      }
    }

    // ------------------------------------------------------------- runs

    /** Any enabled step, taken on the heap; `units` is what it returns to its caller. */
    method Perform(step: Step) returns (units: nat)
      requires Valid() && Enabled(world, step)
      modifies this, contexts, budgets, cancels
      ensures Valid() && world == Do(old(world), step)
      ensures Grown()
      ensures HandsOut(old(world), step, units)
    {
      units := 0;
      match step {
        case Background(requestId, traceId) => AddBackground(requestId, traceId);
        case Derive(from, change) => AddDerived(from, change);
        case Ensure(who, amount) => Ensure(who, amount);
        case Consume(who) =>
          var granted := Consume(who);
          units := if granted then 1 else 0;
        case Take(who, maximum) => units := Take(who, maximum);
        case Restore(who, amount) => RestorePresent(who, amount);
        case Limit(who, remaining) => LimitPresent(who, remaining);
        case Flag(who) => StoreFlag(who);
        case Reason(who, reason) => StoreReason(who, reason);
      }
    }

    /** What was there is still there, and the rest is new. */
    twostate predicate Grown()
      reads this
    {
      && |old(contexts)| <= |contexts| && contexts[..|old(contexts)|] == old(contexts)
      && |old(budgets)| <= |budgets| && budgets[..|old(budgets)|] == old(budgets)
      && |old(cancels)| <= |cancels| && cancels[..|old(cancels)|] == old(cancels)
      && (forall k | |old(contexts)| <= k < |contexts| :: fresh(contexts[k]))
      && (forall k | |old(budgets)| <= k < |budgets| :: fresh(budgets[k]))
      && (forall k | |old(cancels)| <= k < |cancels| :: fresh(cancels[k]))
    }

    /** Steps one after the other, in whatever order the contexts take them. */
    method PerformAll(steps: seq<Step>) returns (units: seq<nat>)
      requires Valid() && Run(world, steps)
      modifies this, contexts, budgets, cancels
      ensures Valid() && world == After(old(world), steps) && Grown()
      ensures |units| == |steps| && Interleaving.Valid(old(world))
      ensures forall b: nat :: Granted(old(world), steps, b) == Handed(old(world), steps, units, b)
      decreases |steps|
    {
      hide Do, Enabled, Valid, Grant, Target;
      WorldValid();
      if steps == [] {
        return [];
      }
      var first := Perform(steps[0]);
      ghost var was, wasBudgets, wasCancels := contexts, budgets, cancels;
      WorldValid();
      var rest := PerformAll(steps[1..]);
      assert contexts[..|old(contexts)|] == was[..|old(contexts)|];
      assert budgets[..|old(budgets)|] == wasBudgets[..|old(budgets)|];
      assert cancels[..|old(cancels)|] == wasCancels[..|old(cancels)|];
      assert forall i | |old(contexts)| <= i < |was| :: contexts[i] == was[i];
      assert forall i | |old(budgets)| <= i < |wasBudgets| :: budgets[i] == wasBudgets[i];
      assert forall i | |old(cancels)| <= i < |wasCancels| :: cancels[i] == wasCancels[i];
      units := [first] + rest;
      assert units[1..] == rest;
    }

    lemma WorldValid()
      requires Valid()
      ensures Interleaving.Valid(world)
    {
    }

    /** Contexts hold the same cancel state exactly when they were forked from the same background context. */
    lemma SharedByTheTree(a: nat, b: nat)
      requires Valid() && a < |contexts| && b < |contexts|
      ensures contexts[a].cancel == contexts[b].cancel <==> Root(world, a) == Root(world, b)
    {
      assert Tied(a) && Tied(b);
      FamilyIsTree(world, a, b);
      hide Root;
    }

    /**
     * The laws on the heap, over every interleaving of steps: no field seen through a context that exists is changed;
     * of each budget cell nothing is made or lost; a cancel state is set exactly by the flags stored through its
     * contexts.
     */
    method Interleave(steps: seq<Step>) returns (units: seq<nat>)
      requires Valid() && Run(world, steps)
      modifies this, contexts, budgets, cancels
      ensures Valid() && Grown() && Interleaving.Valid(old(world)) && |units| == |steps|
      ensures forall m | 0 <= m < |old(contexts)| ::
                contexts[m].View() == old(contexts[m].View()) && contexts[m].cancel == old(contexts[m].cancel)
      ensures forall m | 0 <= m < |old(contexts)| && old(contexts[m].budget) != null ::
                contexts[m].budget == old(contexts[m].budget)
      ensures forall b | 0 <= b < |old(budgets)| ::
                && budgets[b].remaining <= MAX_PROPAGATED_RETRY_BUDGET
                && budgets[b].remaining + Handed(old(world), steps, units, b) + Wasted(old(world), steps, b)
                   == old(budgets[b].remaining) + Restored(old(world), steps, b)
      ensures forall c | 0 <= c < |old(cancels)| ::
                cancels[c].cancelled <==> old(cancels[c].cancelled) || Flagged(old(world), steps, c)
    {
      ghost var first := world;
      ghost var all, cells, flags := contexts, budgets, cancels;
      units := PerformAll(steps);
      hide Run, After, Do, Granted, Wasted, Restored, Flagged;
      forall m | 0 <= m < |all|
        ensures contexts[m].View() == old(contexts[m].View()) && contexts[m].cancel == old(contexts[m].cancel)
        ensures old(contexts[m].budget) != null ==> contexts[m].budget == old(contexts[m].budget)
      {
        assert contexts[m] == all[m] && old(Tied(m)) && Tied(m);
        ForksAreIsolated(first, steps, m);
      }
      forall b | 0 <= b < |cells|
        ensures budgets[b].remaining <= MAX_PROPAGATED_RETRY_BUDGET
        ensures budgets[b].remaining + Handed(first, steps, units, b) + Wasted(first, steps, b)
                == old(budgets[b].remaining) + Restored(first, steps, b)
      {
        BudgetConserved(first, steps, b);
      }
      forall c | 0 <= c < |flags| ensures cancels[c].cancelled <==>
                 old(cancels[c].cancelled) || Flagged(first, steps, c)
      {
        CellCancels(first, steps, c);
      }
    }
  }
}
