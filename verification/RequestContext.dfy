/** Request contexts that are forked, and the two kinds of cell a fork shares (context.rs). */
module RequestContext {
  import opened Prelude

  const MAX_PROPAGATED_RETRY_BUDGET := 64

  datatype AuthContext = AuthContext(subject: string, roles: seq<string>, tenant: Option<string>)

  datatype CancelReason = Canceled | DeadlineExceeded

  /** The fields a context does not share. */
  datatype Fields = Fields(
    requestId: string,
    traceId: string,
    auth: Option<AuthContext>,
    metadata: map<string, string>,
    deadline: Option<int>,
    error: Option<string>)

  /** What a `with_*` call changes in the forked context. */
  datatype Change =
    | Nothing
    | SetRequestId(id: string)
    | SetTraceId(id: string)
    | SetAuth(auth: AuthContext)
    | PutMetadata(key: string, value: string)
    | SetMetadata(metadata: map<string, string>)
    | MergeMetadata(metadata: map<string, string>)
    | SetDeadline(at: int)
    | SetError(message: string)
    | NewBudget(remaining: nat)

  /** The fields of a background context. */
  function FreshFields(requestId: string, traceId: string): Fields {
    Fields(requestId, traceId, None, map[], None, None)
  }

  function Changed(f: Fields, change: Change): Fields {
    match change
    case SetRequestId(id) => f.(requestId := id)
    case SetTraceId(id) => f.(traceId := id)
    case SetAuth(auth) => f.(auth := Some(auth))
    case PutMetadata(key, value) => f.(metadata := f.metadata[key := value])
    case SetMetadata(metadata) => f.(metadata := metadata)
    case MergeMetadata(metadata) => f.(metadata := f.metadata + metadata)
    case SetDeadline(at) => f.(deadline := Some(at))
    case SetError(message) => f.(error := Some(message))
    case Nothing => f
    case NewBudget(_) => f
  }

  // --------------------------------------------------------------- one atomic update of a budget cell

  function Capped(amount: nat): nat {
    Min(amount, MAX_PROPAGATED_RETRY_BUDGET)
  }

  function AfterConsume(current: nat): nat {
    if current > 0 then current - 1 else current
  }

  function AfterTake(current: nat, maximum: nat): nat {
    current - Min(current, maximum)
  }

  /** The sum saturates at the machine word before it is capped. */
  function AfterRestore(current: nat, amount: nat): nat {
    Capped(Min(current + amount, USIZE_MAX))
  }

  function AfterLimit(current: nat, remaining: nat): nat {
    Min(current, Capped(remaining))
  }

  // --------------------------------------------------------------- contexts on the heap

  class RetryBudget {
    var remaining: nat

    constructor (amount: nat)
      ensures remaining == Capped(amount)
    {
      remaining := Capped(amount);
    }
  }

  /** The cancel flag and its reason, shared by a context and everything forked from it. */
  class CancelState {
    var cancelled: bool
    var reason: Option<CancelReason>

    constructor ()
      ensures !cancelled && reason.None?
    {
      cancelled, reason := false, None;
    }
  }

  class Context {
    var requestId: string
    var traceId: string
    var auth: Option<AuthContext>
    var metadata: map<string, string>
    var deadline: Option<int>
    var error: Option<string>
    var budget: RetryBudget?
    var cancel: CancelState

    function View(): Fields
      reads this
    {
      Fields(requestId, traceId, auth, metadata, deadline, error)
    }

    constructor Background(requestId: string, traceId: string)
      ensures View() == FreshFields(requestId, traceId)
      ensures budget == null && fresh(cancel) && !cancel.cancelled && cancel.reason.None?
    {
      this.requestId, this.traceId, auth, metadata, deadline, error := requestId, traceId, None, map[], None, None;
      budget := null;
      cancel := new CancelState();
    }

    /** `fork`: its own fields are copies, the budget cell and the cancel state are the parent's. */
    constructor Fork(from: Context)
      ensures View() == old(from.View())
      ensures budget == old(from.budget) && cancel == old(from.cancel)
    {
      requestId, traceId, auth, metadata := from.requestId, from.traceId, from.auth, from.metadata;
      deadline, error := from.deadline, from.error;
      budget, cancel := from.budget, from.cancel;
    }

    /** A context derived from this one: it has the one change and shares the cells. */
    predicate Derived(next: Context, change: Change)
      reads this, next
    {
      && next.View() == Changed(View(), change)
      && next.cancel == cancel
      && (!change.NewBudget? ==> next.budget == budget)
    }

    method WithRequestId(id: string) returns (next: Context)
      ensures fresh(next) && Derived(next, SetRequestId(id))
    {
      next := new Context.Fork(this);
      next.requestId := id;
    }

    method WithTraceId(id: string) returns (next: Context)
      ensures fresh(next) && Derived(next, SetTraceId(id))
    {
      next := new Context.Fork(this);
      next.traceId := id;
    }

    method WithAuth(who: AuthContext) returns (next: Context)
      ensures fresh(next) && Derived(next, SetAuth(who))
    {
      next := new Context.Fork(this);
      next.auth := Some(who);
    }

    method WithMetadata(key: string, value: string) returns (next: Context)
      ensures fresh(next) && Derived(next, PutMetadata(key, value))
    {
      next := new Context.Fork(this);
      next.metadata := next.metadata[key := value];
    }

    method WithMetadataMap(values: map<string, string>) returns (next: Context)
      ensures fresh(next) && Derived(next, SetMetadata(values))
    {
      next := new Context.Fork(this);
      next.metadata := values;
    }

    method WithMergedMetadata(values: map<string, string>) returns (next: Context)
      ensures fresh(next) && Derived(next, MergeMetadata(values))
    {
      next := new Context.Fork(this);
      next.metadata := next.metadata + values;
    }

    method WithDeadline(at: int) returns (next: Context)
      ensures fresh(next) && Derived(next, SetDeadline(at))
    {
      next := new Context.Fork(this);
      next.deadline := Some(at);
    }

    method WithError(message: string) returns (next: Context)
      ensures fresh(next) && Derived(next, SetError(message))
    {
      next := new Context.Fork(this);
      next.error := Some(message);
    }

    method WithRetryBudget(remaining: nat) returns (next: Context)
      ensures fresh(next) && Derived(next, NewBudget(remaining))
      ensures next.budget != null && fresh(next.budget) && next.budget.remaining == Capped(remaining)
    {
      next := new Context.Fork(this);
      next.budget := new RetryBudget(remaining);
    }

    method EnsureRetryBudget(remaining: nat)
      modifies this`budget
      ensures budget != null
      ensures old(budget) != null ==> budget == old(budget)
      ensures old(budget) == null ==> fresh(budget) && budget.remaining == Capped(remaining)
    {
      if budget == null {
        budget := new RetryBudget(remaining);
      }
    }

    method TryConsumeRetryBudget() returns (granted: bool)
      modifies budget
      ensures granted <==> old(budget) == null || old(budget.remaining) > 0
      ensures budget != null ==> budget.remaining == AfterConsume(old(budget.remaining))
    {
      if budget == null {
        return true;
      }
      if budget.remaining == 0 {
        return false;
      }
      budget.remaining := budget.remaining - 1;
      return true;
    }

    method TakeRetryBudgetUpTo(maximum: nat) returns (taken: nat)
      modifies budget
      ensures taken == if budget == null then 0 else Min(old(budget.remaining), maximum)
      ensures budget != null ==> budget.remaining == AfterTake(old(budget.remaining), maximum)
    {
      if budget == null {
        return 0;
      }
      var previous := budget.remaining;
      budget.remaining := previous - Min(previous, maximum);
      return Min(previous, maximum);
    }

    method RestoreRetryBudget(amount: nat)
      modifies this`budget, budget
      ensures old(budget) != null && amount != 0 ==>
                budget == old(budget) && budget.remaining == AfterRestore(old(budget.remaining), amount)
      ensures old(budget) == null && amount != 0 ==> fresh(budget) && budget.remaining == Capped(amount)
      ensures amount == 0 ==> budget == old(budget) && (budget != null ==> budget.remaining == old(budget.remaining))
    {
      if amount == 0 {
        return;
      }
      if budget != null {
        budget.remaining := AfterRestore(budget.remaining, amount);
      } else {
        EnsureRetryBudget(amount);
      }
    }

    method LimitRetryBudget(remaining: nat)
      modifies this`budget, budget
      ensures old(budget) != null ==>
                budget == old(budget) && budget.remaining == AfterLimit(old(budget.remaining), remaining)
      ensures old(budget) == null ==> fresh(budget) && budget.remaining == Capped(remaining)
    {
      if budget != null {
        budget.remaining := AfterLimit(budget.remaining, remaining);
      } else {
        EnsureRetryBudget(Capped(remaining));
      }
    }

    /** The first of the two atomic steps of cancelling. */
    method StoreFlag()
      modifies cancel
      ensures cancel.cancelled && cancel.reason == old(cancel.reason)
    {
      cancel.cancelled := true;
    }

    /** The second. */
    method StoreReason(reason: CancelReason)
      modifies cancel
      ensures cancel.cancelled == old(cancel.cancelled) && cancel.reason == Some(reason)
    {
      cancel.reason := Some(reason);
    }

    method CancelWithReason(reason: CancelReason)
      modifies cancel
      ensures cancel.cancelled && cancel.reason == Some(reason)
    {
      StoreFlag();
      StoreReason(reason);
    }

    /** `with_expiration_reason`: an expired context cancels the whole family. */
    method WithExpirationReason(now: int) returns (next: Context)
      modifies cancel
      ensures fresh(next) && next.View() == old(View()) && next.budget == old(budget) && next.cancel == old(cancel)
      ensures if old(deadline).Some? && now >= old(deadline).value
              then cancel.cancelled && cancel.reason == Some(DeadlineExceeded)
              else cancel.cancelled == old(cancel.cancelled) && cancel.reason == old(cancel.reason)
    {
      next := new Context.Fork(this);
      if next.deadline.Some? && now >= next.deadline.value {
        next.CancelWithReason(DeadlineExceeded);
      }
    }
  }
}
