/** The variable services of the UEFI runtime: the identifier of a variable, the
    results of fetching one variable and of querying the store's capacity, and
    an iterator over the names in the variable store (GetNextVariableName,
    section 8.2 of the UEFI Specification). */
module VariableServices {
  import opened Efi
  import opened Wrappers

  /** Outcome of fetching the data of one variable by name. */
  datatype GetVariableStatus =
    | Error(status: Status)
      /** the variable exists, but the caller's buffer is smaller than `dataSize` */
    | BufferTooSmall(dataSize: usize, attributes: u32)
      /** `dataSize` bytes of data were copied into the caller's buffer */
    | Success(dataSize: usize, attributes: u32)

  /** Capacity of the storage for the variables of one attribute class. */
  datatype VariableInfo = VariableInfo(
    maximumVariableStorageSize: u64,
    remainingVariableStorageSize: u64,
    maximumVariableSize: u64)

  /** A variable is identified by its name (UTF-16 code units) and its namespace. */
  datatype VariableIdentifier = VariableIdentifier(name: seq<u16>, namespace: Guid)

  /** The anchor that asks the firmware for the first variable: the empty,
      zero-terminated name. Its namespace is ignored, so it is all zeroes. */
  const FIRST: VariableIdentifier := VariableIdentifier([0], ZERO_GUID)

  /** The scratch identifier a new iterator keeps in `next`: the zero-length
      name `[]` with the all-zero GUID. It is not the empty name `[0]`. */
  const SCRATCH: VariableIdentifier := VariableIdentifier([], ZERO_GUID)

  /** What one call of GetNextVariableName leaves behind: the status it returned
      and the identifier now held in the output buffers it was given. */
  datatype NextNameReply = NextNameReply(status: Result<()>, written: VariableIdentifier)

  /** The firmware's GetNextVariableName, as seen by the iterator: given the
      previous identifier and the current contents of the output buffers, it
      reports a status and what the output buffers hold afterwards. */
  type NextNameService = (VariableIdentifier, VariableIdentifier) -> NextNameReply

  /** The fields of an iterator, as a value. */
  datatype IteratorState = IteratorState(
    current: VariableIdentifier,
    next: VariableIdentifier,
    finished: bool)

  /** A new iterator anchored at the first variable. */
  const FROM_FIRST: IteratorState := IteratorState(FIRST, SCRATCH, false)

  /** A new iterator anchored at a known variable. */
  function FromVariable(name: seq<u16>, namespace: Guid): IteratorState
  {
    IteratorState(VariableIdentifier(name, namespace), SCRATCH, false)
  }

  /** One advance: ask the service for the successor of `current`, writing into
      `next`; swap the two; then read the status. NOT_FOUND ends the iteration
      successfully, any other status is reported as it is. */
  function AdvanceState(service: NextNameService, s: IteratorState): (Result<()>, IteratorState)
  {
    if s.finished then (Ok(()), s)
    else
      var reply := service(s.current, s.next);
      var swapped := IteratorState(reply.written, s.current, false);
      if reply.status == Err(NOT_FOUND) then (Ok(()), swapped.(finished := true))
      else (reply.status, swapped)
  }

  /** The item an iterator exposes: `Get` on an iterator state as a value. */
  function ItemOf(s: IteratorState): Option<VariableIdentifier>
  {
    if s.finished then None else Some(s.current)
  }

  /** One step of a streaming iterator: advance, and on success expose the item. */
  function NextState(service: NextNameService, s: IteratorState): (Result<Option<VariableIdentifier>>, IteratorState)
  {
    var (status, t) := AdvanceState(service, s);
    if status.Err? then (Err(status.status), t) else (Ok(ItemOf(t)), t)
  }

  /** The results of `k` steps in a row, and the state they leave. */
  function NextMany(service: NextNameService, s: IteratorState, k: nat): (seq<Result<Option<VariableIdentifier>>>, IteratorState)
    decreases k
  {
    if k == 0 then ([], s)
    else
      var (r, t) := NextState(service, s);
      var (rest, u) := NextMany(service, t, k - 1);
      ([r] + rest, u)
  }

  /** `k` end-of-sequence results. */
  function Ends(k: nat): seq<Result<Option<VariableIdentifier>>>
  {
    seq(k, _ => Ok(None))
  }

  /** The first of `k` steps, then the other `k - 1`. */
  lemma NextManyUnfold(service: NextNameService, s: IteratorState, k: nat)
    requires k > 0
    ensures NextMany(service, s, k).0 == [NextState(service, s).0] + NextMany(service, NextState(service, s).1, k - 1).0
  {
  }

  /** One more end-of-sequence result in front. */
  lemma EndsCons(k: nat)
    ensures Ends(k + 1) == [Ok(None)] + Ends(k)
  {
  }

  class VariableNameIterator {
    const service: NextNameService
    var current: VariableIdentifier
    var next: VariableIdentifier
    var finished: bool

    function State(): IteratorState
      reads this
    {
      IteratorState(current, next, finished)
    }

    /** An iterator from the beginning of the variable list. */
    constructor NewFromFirst(service: NextNameService)
      ensures this.service == service && State() == FROM_FIRST
      ensures current.name == [0] && current.namespace == ZERO_GUID
      ensures next.name == [] && !finished
      ensures Get() == Some(VariableIdentifier([0], ZERO_GUID))
    {
      this.service := service;
      current := FIRST;
      next := SCRATCH;
      finished := false;
    }

    /** An iterator anchored at the given variable; the first advance moves to
        the variable after it. */
    constructor NewFromVariable(name: seq<u16>, namespace: Guid, service: NextNameService)
      ensures this.service == service && State() == FromVariable(name, namespace)
      ensures current == VariableIdentifier(name, namespace)
      ensures next.name == [] && !finished
      ensures Get() == Some(VariableIdentifier(name, namespace))
    {
      this.service := service;
      current := VariableIdentifier(name, namespace);
      next := SCRATCH;
      finished := false;
    }

    method Advance() returns (r: Result<()>)
      modifies this
      ensures (r, State()) == AdvanceState(service, old(State()))
      ensures old(finished) ==> r == Ok(()) && unchanged(this)
      ensures old(finished) ==> finished
      ensures !old(finished) ==> current == service(old(current), old(next)).written && next == old(current)
    {
      if finished {
        return Ok(());
      }
      var reply := service(current, next);
      next := reply.written;
      current, next := next, current;
      if reply.status.Err? && reply.status.status == NOT_FOUND {
        finished := true;
        return Ok(());
      } else {
        return reply.status;
      }
    }

    /** The current variable, or nothing once the iteration has ended. */
    function Get(): (r: Option<VariableIdentifier>)
      reads this
      ensures r.None? <==> finished
      ensures r.Some? ==> r.value == current
      ensures r == ItemOf(State())
    {
      if finished then None else Some(current)
    }

    /** Advance, then expose the current item. */
    method Next() returns (r: Result<Option<VariableIdentifier>>)
      modifies this
      ensures (r, State()) == NextState(service, old(State()))
    {
      var status := Advance();
      if status.Err? {
        return Err(status.status);
      }
      return Ok(Get());
    }
  }

  /** Advancing an iterator that has ended succeeds and changes nothing. */
  lemma AdvanceAtEndIsNoOp(service: NextNameService, s: IteratorState)
    requires s.finished
    ensures AdvanceState(service, s) == (Ok(()), s)
  {
  }

  /** Before the status is looked at, the service's output becomes `current` and
      the old `current` becomes the scratch `next`, whatever the outcome. */
  lemma AdvanceSwapsBuffers(service: NextNameService, s: IteratorState)
    requires !s.finished
    ensures AdvanceState(service, s).1.current == service(s.current, s.next).written
    ensures AdvanceState(service, s).1.next == s.current
  {
  }

  /** The three outcomes of an advance that calls the service. */
  lemma AdvanceOutcomes(service: NextNameService, s: IteratorState)
    requires !s.finished
    ensures var status := service(s.current, s.next).status;
      var (r, t) := AdvanceState(service, s);
      && (status == Err(NOT_FOUND) ==> r == Ok(()) && t.finished)
      && (status.Err? && status != Err(NOT_FOUND) ==> r == status && !t.finished)
      && (status.Ok? ==> r == status && !t.finished)
  {
  }

  /** An iteration that has ended stays ended: every later step reports the end
      without error and leaves every field as it was. */
  lemma {:induction false} ExhaustedStaysExhausted(service: NextNameService, s: IteratorState, k: nat)
    requires s.finished
    ensures NextMany(service, s, k) == (Ends(k), s)
    decreases k
  {
    if k > 0 {
      assert NextState(service, s) == (Ok(None), s);
      ExhaustedStaysExhausted(service, s, k - 1);
      assert NextMany(service, s, k) == ([Ok(None)] + Ends(k - 1), s);
      EndsCons(k - 1);
    } else {
      assert Ends(0) == [];
    }
  }

  /** `finished` is only ever set: once an iteration has ended, no number of
      further steps reopens it, and a step ends it only on NOT_FOUND. */
  lemma {:induction false} FinishedIsMonotone(service: NextNameService, s: IteratorState, k: nat)
    ensures s.finished ==> NextMany(service, s, k).1.finished
    ensures !s.finished && NextState(service, s).1.finished <==>
      !s.finished && service(s.current, s.next).status == Err(NOT_FOUND)
  {
    if s.finished {
      ExhaustedStaysExhausted(service, s, k);
    }
  }
}
