# Variable-name enumeration of the UEFI runtime services

A Dafny model of `runtime_services/src/variable_services.rs`. Its core is
`VariableNameIterator`, a streaming iterator over the names in the firmware
variable store. It calls GetNextVariableName (section 8.2 of the UEFI
Specification) once per step until the end is reached, and reuses two
identifier buffers. The model also
declares the plain data types of that file: `VariableIdentifier` (a UTF-16 name
and a GUID namespace), `GetVariableStatus` and `VariableInfo`.

Layout:

- `efi.dfy`: module `Efi`, with the firmware's machine integers, `Guid` (16 bytes),
  `Status` (an EFI_STATUS word with the error bit) and the
  `Result<T, efi::Status>` type. Module `Wrappers` holds `Option`.
- `variable_services.dfy`: module `VariableServices`.
  - The data types of the source file.
  - The class `VariableNameIterator`. It has the fields `current`, `next` and
    `finished`, plus a constant `service` that stands for the runtime-services
    reference.
  - The functions `AdvanceState`, `ItemOf`, `NextState` and `NextMany`. They say
    the same about an `IteratorState` value as the class's methods do about its
    fields. Every method's `ensures` ties the new fields to these functions, and
    the lemmas about the iterator are stated over them.
- `variable_store.dfy`: module `VariableStore`. It gives GetNextVariableName a
  stand-in: a store held as a list of distinct identifiers in store order.
  - The empty name `[0]` gets the first entry.
  - An entry gets the one after it; the last entry gets NOT_FOUND.
  - An identifier not in the store gets INVALID_PARAMETER.
  - On an error the output buffers are left as they were.

  The module also proves what the iterator yields over such a store. These
  proofs hold for every service that `ActsAs` the store: it gives the same
  statuses and writes the same identifier on success. What such a service
  leaves in the output buffers on an error is left open.
- `enumeration.dfy`: module `Enumeration`. It holds the enumeration loop from the
  source's documentation and the scenarios of its unit tests, stated over the
  stand-in store and over a service that always fails.

The GetNextVariableName binding is foreign code. In the model it is the value
`service: (previous, output buffers) -> (status, new output buffers)`, which
the iterator calls the way the source does.

Behaviour of the code that the model keeps:

- `get` does not track whether `advance` has run, so a new iterator shows its
  anchor (the empty name `[0]`, or the variable it was built from).
  `NewFromFirst` and `NewFromVariable` state this.
- `advance` swaps `current` and `next` before it reads the status
  (runtime_services/src/variable_services.rs:138), so after a fatal error
  `current` holds whatever the service left in the scratch buffer.
  `AdvanceSwapsBuffers` states this for every service. For a service that
  leaves the output buffers untouched on error, as both model services do, a
  new iterator then shows the scratch identifier: the zero-length name `[]`
  with the all-zero GUID, not the anchor `[0]`. A further step therefore asks
  for the successor of `[]` rather than restarting the enumeration.
  `TestFatalError` and `TestUnknownAnchor` state this.
- `advance` has no retry loop for output buffers that are too small.

## Model

| member | source | states |
|---|---|---|
| VariableServices.VariableNameIterator.NewFromFirst | runtime_services/src/variable_services.rs:89-106 | the new iterator is not finished; `current` is the single code unit `[0]` with the all-zero GUID; `next` is the scratch identifier, the zero-length name `[]` with the all-zero GUID; `get` returns the anchor `[0]` |
| VariableServices.VariableNameIterator.NewFromVariable | runtime_services/src/variable_services.rs:110-117 | the new iterator is not finished; `current` is a copy of the given name and namespace; `next` is the scratch identifier, the zero-length name `[]` with the all-zero GUID; `get` returns that identifier |
| VariableServices.VariableNameIterator.Advance | runtime_services/src/variable_services.rs:124-147 | the result and new fields are those of `AdvanceState`; once finished, it returns Ok and changes nothing; otherwise `current` becomes what the service wrote into the old `next`, and `next` becomes the old `current` |
| VariableServices.VariableNameIterator.Get | runtime_services/src/variable_services.rs:149-155 | returns None exactly when `finished`, and otherwise `Some(current)` |
| VariableServices.VariableNameIterator.Next | runtime_services/src/variable_services.rs:176-194 | one `iter.next()`: advance, pass an error on, otherwise return `get()`; the result and new fields are those of `NextState` |
| VariableServices.AdvanceAtEndIsNoOp | runtime_services/src/variable_services.rs:127-129 | advancing a finished iterator returns Ok and leaves every field unchanged |
| VariableServices.AdvanceSwapsBuffers | runtime_services/src/variable_services.rs:131-138 | for every outcome of the service call, the new `current` is what the service wrote into the old `next`, and the new `next` is the old `current` |
| VariableServices.AdvanceOutcomes | runtime_services/src/variable_services.rs:140-145 | NOT_FOUND gives Ok and `finished`; any other error is returned unchanged and `finished` stays false; success gives Ok and `finished` stays false |
| VariableServices.ExhaustedStaysExhausted | runtime_services/src/variable_services.rs:127-129 | any number of steps on a finished iterator each give `Ok(None)`, never an error, and leave the state unchanged |
| VariableServices.FinishedIsMonotone | runtime_services/src/variable_services.rs:140-142 | `finished` is never reset over any number of steps; a step sets it exactly when the service reports NOT_FOUND |
| VariableStore.GetNext | runtime_services/src/variable_services.rs:131-136 | stand-in service: a successful reply names a stored variable; an error reply leaves the output buffers unchanged and is NOT_FOUND or INVALID_PARAMETER; INVALID_PARAMETER comes exactly for a previous identifier that is neither the empty name `[0]` nor stored |
| VariableStore.GetNextAt | runtime_services/src/variable_services.rs:131-136 | in a store of distinct entries, the successor of entry i is entry i+1, and after the last entry the reply is NOT_FOUND |
| VariableStore.NextFromPosition | runtime_services/src/variable_services.rs:124-155 | for any service acting as the store: from the empty-name anchor `[0]` or from entry p-1, one step yields `store[p]` and moves on to it; past the last entry, the step yields `Ok(None)` and finishes the iterator |
| VariableStore.YieldsSuffix | runtime_services/src/variable_services.rs:124-155 | for any service acting as the store: from position p, the steps yield exactly the entries `store[p..]` in order, then `Ok(None)` however many extra steps are taken |
| VariableStore.FromFirstYieldsAll | runtime_services/src/variable_services.rs:169-195 | for any service acting as the store, an iterator from the first anchor yields every stored identifier in store order, then the end for ever |
| VariableStore.FromVariableYieldsSuffix | runtime_services/src/variable_services.rs:198-216 | for any service acting as the store, an iterator anchored at entry i yields exactly the entries after i, never entry i itself, then the end for ever |
| Enumeration.CollectNames | runtime_services/src/variable_services.rs:60-63 | the `while let Some(id) = iter.next()?` loop, for any service acting as the store: from position p it collects exactly the identifiers `store[p..]`, ends with Ok, and leaves the iterator finished |
| Enumeration.ListFromFirst | runtime_services/src/variable_services.rs:56-63 | enumerating from the first variable lists the whole store in order, without error |
| Enumeration.ListFromVariable | runtime_services/src/variable_services.rs:66-77 | enumerating from stored entry i lists exactly the entries after it, without error |
| Enumeration.TestFromFirst | runtime_services/src/variable_services.rs:168-195 | over the store [A, B], from the first anchor: `Some(A)`, then `Some(B)`, then `None`, and `None` again on a further step |
| Enumeration.TestFromSecond | runtime_services/src/variable_services.rs:197-216 | over the store [A, B], anchored at A: `Some(B)`, then `None` |
| Enumeration.TestFatalError | runtime_services/src/variable_services.rs:138-145 | a status other than NOT_FOUND is returned unchanged and does not finish the iterator; `get` then shows the swapped-in scratch identifier, the zero-length name `[]` with the all-zero GUID, not the anchor `[0]`; the next step calls the service again |
| Enumeration.TestUnknownAnchor | runtime_services/src/variable_services.rs:131-145 | anchored at an identifier the store does not hold, the first step returns INVALID_PARAMETER, and the iterator is not finished |

## Left out

- The runtime-services binding `get_next_variable_name_unchecked` and its `unsafe` foreign call are not part of this model. The iterator takes the service as a function value, and `VariableStore.Service` and `VariableStore.FailingService` are the two services the proofs use.
- Growth of the output name buffer, and the BUFFER_TOO_SMALL retry. `advance` has none of this. Whatever growth exists happens inside the unseen binding, so a service reply here is the final state of the output buffers.
- The producers of `GetVariableStatus` and `VariableInfo` (`get_variable_unchecked`, `query_variable_info`) are not part of this model. The two types are declared as data only. No code in the file checks the capacity relations between the `VariableInfo` fields, so none are stated.
- The `fallible_streaming_iterator` library. Only its `next` (advance, then `get` on success) is modelled, as `VariableNameIterator.Next`, because that is how the callers use the iterator.
- `VariableNameIterator.Get` returns a copy of `current`, not a borrowed reference. The model does not capture lifetimes or aliasing of the returned item.
- The lifetime of the runtime-services reference. `service` is a constant field.
- Concurrent changes to the store between two advances, and sharing an iterator between callers. The source does not handle either.
- Integer widths: `usize` is taken as 64 bits. Name code units are `u16`, and GUIDs are 16 bytes. Nothing checks that names are zero-terminated; the empty name is exactly `[0]`.
- `r_efi`'s `Status` and `Guid` internals. A status is a 64-bit word with the error bit. Only INVALID_PARAMETER and NOT_FOUND are named, because nothing else in the file uses particular status codes.
