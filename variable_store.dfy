/** A variable store as the firmware's GetNextVariableName presents it: a list
    of distinct identifiers in store order. The service answers the empty name
    with the first entry, an entry with the one after it, the last entry with
    NOT_FOUND, and an identifier it does not hold with INVALID_PARAMETER; on an
    error it leaves the caller's output buffers as they were. */
module VariableStore {
  import opened Efi
  import opened Wrappers
  import opened VariableServices

  /** The empty name, a lone terminating zero, which asks for the first entry. */
  predicate IsFirstName(name: seq<u16>)
  {
    name == [0]
  }

  /** Entries are unique, and no stored variable has the empty name. */
  ghost predicate WellFormed(store: seq<VariableIdentifier>)
  {
    && (forall i, j :: 0 <= i < j < |store| ==> store[i] != store[j])
    && (forall i :: 0 <= i < |store| ==> !IsFirstName(store[i].name))
  }

  /** Position of the first occurrence of `id` in the store. */
  function IndexOf(store: seq<VariableIdentifier>, id: VariableIdentifier): (r: Option<nat>)
    ensures r.None? <==> id !in store
    ensures r.Some? ==> r.value < |store| && store[r.value] == id
    ensures r.Some? ==> forall j :: 0 <= j < r.value ==> store[j] != id
  {
    if |store| == 0 then None
    else if store[0] == id then Some(0)
    else match IndexOf(store[1..], id)
      case None => None
      case Some(i) => Some(i + 1)
  }

  /** GetNextVariableName over the store; `out` is what the output buffers held. */
  function GetNext(store: seq<VariableIdentifier>, prev: VariableIdentifier, out: VariableIdentifier): (r: NextNameReply)
    ensures r.status.Ok? ==> r.written in store
    ensures r.status.Err? ==> r.written == out
    ensures r.status.Err? ==> r.status.status in {NOT_FOUND, INVALID_PARAMETER}
    ensures r.status == Err(INVALID_PARAMETER) <==> !IsFirstName(prev.name) && prev !in store
  {
    if IsFirstName(prev.name) then
      if |store| == 0 then NextNameReply(Err(NOT_FOUND), out)
      else NextNameReply(Ok(()), store[0])
    else match IndexOf(store, prev)
      case None => NextNameReply(Err(INVALID_PARAMETER), out)
      case Some(i) =>
        if i + 1 < |store| then NextNameReply(Ok(()), store[i + 1])
        else NextNameReply(Err(NOT_FOUND), out)
  }

  /** The store, as the service an iterator calls. */
  function Service(store: seq<VariableIdentifier>): NextNameService
  {
    (prev, out) => GetNext(store, prev, out)
  }

  /** A service that fails every call with the same status. */
  function FailingService(e: Status): NextNameService
  {
    (prev, out) => NextNameReply(Err(e), out)
  }

  /** `service` answers every call with the status `GetNext` gives over `store`,
      and on success writes the same identifier; what it leaves in the output
      buffers on an error is left open. */
  ghost predicate ActsAs(service: NextNameService, store: seq<VariableIdentifier>)
  {
    forall prev, out ::
      && service(prev, out).status == GetNext(store, prev, out).status
      && (service(prev, out).status.Ok? ==> service(prev, out).written == GetNext(store, prev, out).written)
  }

  /** The store's own service acts as the store. */
  lemma ServiceActsAs(store: seq<VariableIdentifier>)
    ensures ActsAs(Service(store), store)
  {
  }

  /** In a well-formed store, each entry's successor is the next entry, and the
      last entry has none. */
  lemma GetNextAt(store: seq<VariableIdentifier>, i: nat, out: VariableIdentifier)
    requires WellFormed(store) && i < |store|
    ensures GetNext(store, store[i], out) ==
      if i + 1 < |store| then NextNameReply(Ok(()), store[i + 1])
      else NextNameReply(Err(NOT_FOUND), out)
  {
  }

  /** The state of an iterator over `store` that has not ended and whose next
      step yields `store[p]`: at the empty name when `p` is 0, and at the entry
      `store[p - 1]` otherwise. */
  ghost predicate PositionedAt(store: seq<VariableIdentifier>, s: IteratorState, p: nat)
  {
    && !s.finished
    && p <= |store|
    && (if p == 0 then IsFirstName(s.current.name) else s.current == store[p - 1])
  }

  /** One step from position `p` yields `store[p]` and moves to `p + 1`, or, past
      the last entry, reports the end without error. */
  lemma NextFromPosition(service: NextNameService, store: seq<VariableIdentifier>, s: IteratorState, p: nat)
    requires WellFormed(store) && ActsAs(service, store) && PositionedAt(store, s, p)
    ensures p < |store| ==> NextState(service, s).0 == Ok(Some(store[p]))
    ensures p < |store| ==> PositionedAt(store, NextState(service, s).1, p + 1)
    ensures p == |store| ==> NextState(service, s).0 == Ok(None)
    ensures p == |store| ==> NextState(service, s).1.finished
  {
    if p > 0 {
      GetNextAt(store, p - 1, s.next);
    }
    assert service(s.current, s.next).status == GetNext(store, s.current, s.next).status;
  }

  /** The end-free results an iterator yields for the entries `xs`. */
  function Yields(xs: seq<VariableIdentifier>): seq<Result<Option<VariableIdentifier>>>
  {
    seq(|xs|, j requires 0 <= j < |xs| => Ok(Some(xs[j])))
  }

  /** The results for the entries from `p` on start with the one for `xs[p]`. */
  lemma YieldsFrom(xs: seq<VariableIdentifier>, p: nat)
    requires p < |xs|
    ensures Yields(xs[p..]) == [Ok(Some(xs[p]))] + Yields(xs[p + 1..])
  {
  }

  /** Putting one element in front of a concatenation. */
  lemma PrependAssociates<T>(x: T, xs: seq<T>, ys: seq<T>, zs: seq<T>)
    requires xs == ys + zs
    ensures [x] + xs == ([x] + ys) + zs
  {
  }

  /** From position `p`, an iterator yields exactly the entries from `p` on, in
      store order, and then reports the end, however many more steps are taken. */
  lemma {:induction false} YieldsSuffix(service: NextNameService, store: seq<VariableIdentifier>, s: IteratorState, p: nat, extra: nat)
    requires WellFormed(store) && ActsAs(service, store) && PositionedAt(store, s, p)
    ensures NextMany(service, s, |store| - p + 1 + extra).0 == Yields(store[p..]) + Ends(1 + extra)
    decreases |store| - p
  {
    var k := |store| - p + 1 + extra;
    var t := NextState(service, s).1;
    NextFromPosition(service, store, s, p);
    NextManyUnfold(service, s, k);
    if p < |store| {
      YieldsSuffix(service, store, t, p + 1, extra);
      YieldsFrom(store, p);
      PrependAssociates(Ok(Some(store[p])), NextMany(service, t, k - 1).0, Yields(store[p + 1..]), Ends(1 + extra));
    } else {
      ExhaustedStaysExhausted(service, t, k - 1);
      EndsCons(extra);
      assert store[p..] == [];
    }
  }

  /** From the first anchor, an iterator yields every entry in store order, then
      the end for ever. */
  lemma FromFirstYieldsAll(service: NextNameService, store: seq<VariableIdentifier>, extra: nat)
    requires WellFormed(store) && ActsAs(service, store)
    ensures NextMany(service, FROM_FIRST, |store| + 1 + extra).0 == Yields(store) + Ends(1 + extra)
  {
    YieldsSuffix(service, store, FROM_FIRST, 0, extra);
    assert store[0..] == store;
  }

  /** Anchored at the entry `store[i]`, an iterator yields only the entries after
      it, never `store[i]` itself, then the end for ever. */
  lemma FromVariableYieldsSuffix(service: NextNameService, store: seq<VariableIdentifier>, i: nat, extra: nat)
    requires WellFormed(store) && ActsAs(service, store) && i < |store|
    ensures var results := NextMany(service, FromVariable(store[i].name, store[i].namespace), |store| - i + extra).0;
      && results == Yields(store[i + 1..]) + Ends(1 + extra)
      && Ok(Some(store[i])) !in results
  {
    var s := FromVariable(store[i].name, store[i].namespace);
    YieldsSuffix(service, store, s, i + 1, extra);
  }
}
