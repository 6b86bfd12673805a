/** Callers of the variable-name iterator: the enumeration loop its documentation
    shows, and the scenarios of its unit tests over a two-entry store. */
module Enumeration {
  import opened Efi
  import opened Wrappers
  import opened VariableServices
  import opened VariableStore

  /** `while let Some(id) = iter.next()? { ... }` over a store: collects the
      identifiers the iterator yields, stopping at the end or at the first error. */
  method CollectNames(it: VariableNameIterator, ghost store: seq<VariableIdentifier>, ghost p: nat)
    returns (ids: seq<VariableIdentifier>, status: Result<()>)
    requires WellFormed(store) && ActsAs(it.service, store)
    requires PositionedAt(store, it.State(), p)
    modifies it
    ensures status == Ok(()) && ids == store[p..] && it.finished
  {
    ids := [];
    status := Ok(());
    var more := true;
    ghost var q := p;
    while more
      invariant p <= q <= |store| && status == Ok(())
      invariant more ==> PositionedAt(store, it.State(), q) && ids == store[p..q]
      invariant !more ==> it.finished && ids == store[p..]
      decreases if more then |store| - q + 1 else 0
    {
      ghost var before := it.State();
      NextFromPosition(it.service, store, before, q);
      var r := it.Next();
      match r {
        case Err(e) =>
          status := Err(e);
          more := false;
        case Ok(None) =>
          assert store[p..q] == store[p..];
          more := false;
        case Ok(Some(id)) =>
          assert store[p..q + 1] == store[p..q] + [id];
          ids := ids + [id];
          q := q + 1;
      }
    }
  }

  /** Enumerating from the first variable lists the whole store, in store order. */
  method ListFromFirst(store: seq<VariableIdentifier>) returns (ids: seq<VariableIdentifier>, status: Result<()>)
    requires WellFormed(store)
    ensures status == Ok(()) && ids == store
  {
    var it := new VariableNameIterator.NewFromFirst(Service(store));
    ServiceActsAs(store);
    ids, status := CollectNames(it, store, 0);
  }

  /** Enumerating from a stored variable lists only the entries after it. */
  method ListFromVariable(store: seq<VariableIdentifier>, i: nat) returns (ids: seq<VariableIdentifier>, status: Result<()>)
    requires WellFormed(store) && i < |store|
    ensures status == Ok(()) && ids == store[i + 1..]
  {
    var it := new VariableNameIterator.NewFromVariable(store[i].name, store[i].namespace, Service(store));
    ServiceActsAs(store);
    ids, status := CollectNames(it, store, i + 1);
  }

  /** From the first variable of the store [a, b]: a, then b, then the end, and
      the end again on a further step. */
  method TestFromFirst(a: VariableIdentifier, b: VariableIdentifier)
    returns (first: Result<Option<VariableIdentifier>>, second: Result<Option<VariableIdentifier>>,
             third: Result<Option<VariableIdentifier>>, fourth: Result<Option<VariableIdentifier>>)
    requires WellFormed([a, b])
    ensures first == Ok(Some(a)) && second == Ok(Some(b))
    ensures third == Ok(None) && fourth == Ok(None)
  {
    var store := [a, b];
    var it := new VariableNameIterator.NewFromFirst(Service(store));
    ServiceActsAs(store);
    NextFromPosition(it.service, store, it.State(), 0);
    first := it.Next();
    NextFromPosition(it.service, store, it.State(), 1);
    second := it.Next();
    NextFromPosition(it.service, store, it.State(), 2);
    third := it.Next();
    AdvanceAtEndIsNoOp(it.service, it.State());
    fourth := it.Next();
  }

  /** Anchored at a in the store [a, b]: b, then the end. */
  method TestFromSecond(a: VariableIdentifier, b: VariableIdentifier)
    returns (first: Result<Option<VariableIdentifier>>, second: Result<Option<VariableIdentifier>>)
    requires WellFormed([a, b])
    ensures first == Ok(Some(b)) && second == Ok(None)
  {
    var store := [a, b];
    var it := new VariableNameIterator.NewFromVariable(a.name, a.namespace, Service(store));
    ServiceActsAs(store);
    NextFromPosition(it.service, store, it.State(), 1);
    first := it.Next();
    NextFromPosition(it.service, store, it.State(), 2);
    second := it.Next();
  }

  /** A fatal status from the service is reported as it is and does not end the
      iteration; the swap has already happened, so the iterator now exposes the
      scratch identifier the service left untouched, and a further step calls
      the service again. */
  method TestFatalError(e: Status)
    returns (first: Result<Option<VariableIdentifier>>, item: Option<VariableIdentifier>,
             second: Result<Option<VariableIdentifier>>)
    requires e != NOT_FOUND
    ensures first == Err(e) && second == Err(e)
    ensures item == Some(VariableIdentifier([], ZERO_GUID))
  {
    var it := new VariableNameIterator.NewFromFirst(FailingService(e));
    first := it.Next();
    item := it.Get();
    second := it.Next();
  }

  /** Anchored at a variable the store does not hold, the first step fails with
      INVALID_PARAMETER and the iteration is not ended. */
  method TestUnknownAnchor(store: seq<VariableIdentifier>, name: seq<u16>, namespace: Guid)
    returns (first: Result<Option<VariableIdentifier>>, item: Option<VariableIdentifier>)
    requires VariableIdentifier(name, namespace) !in store && !IsFirstName(name)
    ensures first == Err(INVALID_PARAMETER)
    ensures item == Some(VariableIdentifier([], ZERO_GUID))
  {
    var it := new VariableNameIterator.NewFromVariable(name, namespace, Service(store));
    first := it.Next();
    item := it.Get();
  }
}
