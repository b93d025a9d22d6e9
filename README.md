# Dump actor: gate and status registry

A model of the state machine inside Meilisearch's dump actor
(`meilisearch-http/src/index_controller/dump_actor/actor.rs`). The actor keeps
two pieces of shared state:

- a one-slot gate, the `Mutex<()>` that a create request try-locks, meaning
  "a dump is running";
- a registry of dump status records (`HashMap<String, DumpInfo>` behind an
  `RwLock`), keyed by the dump's uid.

A create request (`handle_create_dump`) is modelled as two atomic steps:

- **begin**: try the gate. If it is held, answer `DumpAlreadyRunning`.
  Otherwise take the gate, insert an `InProgress` record and answer with it.
- **finish**: record how the spawned dump task ended, then release the gate.
  A task that returned `Ok` marks the record done. A task that returned an
  error marks it failed with the error's message. A task that panicked marks
  it failed with `"Unexpected error while performing dump."`; this last case
  covers any failed join of the spawned task (a panic or a cancellation).

An info request (`handle_dump_info`) is a read-only lookup. It returns the
stored record or `DumpDoesNotExist(uid)`.

Files:

- `dump_types.dfy` (module `DumpTypes`): the status record, the error
  answers and the three task outcomes.
- `dump_machine.dfy` (module `DumpMachine`): the state as a value, the
  three steps as functions, and the invariant. The invariant says that at
  most one record is `InProgress`, that one is `InProgress` exactly when the
  gate is held, and that each record sits under its own uid. This module
  also defines runs over arbitrary interleavings of create requests, task
  completions and info requests, and proves what holds over every such run.
- `actor.dfy` (module `Actor`): class `DumpActor`. Its `gateHeld` and `infos`
  fields are updated in place. Each method is proved equal to its step in
  `DumpMachine` and keeps the invariant.

The `_lock` guard bound at line 104 of `actor.rs` lives until
`handle_create_dump` returns at line 150, after the completion has been
written to the registry. So the gate is held for the whole dump, not only
while the request is being accepted. That is why the gate is held exactly
while a record is `InProgress`.

Uids are inputs. The code derives them from the wall clock, and its
`insert` replaces any record already stored under the same uid.
`ReusedUidRestartsRecord` shows that a reused uid, when the create request
is accepted, sends a finished record back to `InProgress`. The monotonicity
lemmas therefore assume that no later accepted create request reuses the uid.
A refused create request may repeat it: it changes nothing.

## Model

| member | source | states |
|---|---|---|
| `DumpMachine.Begin` | meilisearch-http/src/index_controller/dump_actor/actor.rs:100-118 | A held gate gives `DumpAlreadyRunning` and leaves the state unchanged. A free gate is taken, the record `(uid, InProgress, no error)` is stored under `uid`, the key set grows by `uid`, every other record is unchanged, and the reply is exactly the stored record. |
| `DumpMachine.Completed` | meilisearch-http/src/index_controller/dump_actor/actor.rs:136-149 | Keeps the uid. Success gives `Done` with the error untouched. A task error gives `Failed` with the error's message. A panic gives `Failed` with the fixed panic message. |
| `DumpMachine.Finish` | meilisearch-http/src/index_controller/dump_actor/actor.rs:129-150 | Needs the uid's entry to exist. Releases the gate, keeps the key set, replaces only that entry with its completed record, and leaves every other entry unchanged. |
| `DumpMachine.Lookup` | meilisearch-http/src/index_controller/dump_actor/actor.rs:152-157 | Succeeds exactly when the uid is present, and then returns the stored record. Otherwise fails with `DumpDoesNotExist(uid)`. |
| `DumpMachine.InitialInv` | meilisearch-http/src/index_controller/dump_actor/actor.rs:49-50 | The freshly built actor (empty registry, free gate) satisfies the invariant. |
| `DumpMachine.BeginPreservesInv` | meilisearch-http/src/index_controller/dump_actor/actor.rs:104-116 | Accepting or rejecting a create request keeps at most one `InProgress` record, keeps gate held ⇔ a record is `InProgress`, and keeps records under their own uids. |
| `DumpMachine.FinishPreservesInv` | meilisearch-http/src/index_controller/dump_actor/actor.rs:129-150 | Completing the running dump keeps the invariant, and that dump's record is no longer `InProgress`. |
| `DumpMachine.SecondCreateIsRejected` | meilisearch-http/src/index_controller/dump_actor/actor.rs:104-110 | After an accepted create, a second create is answered `DumpAlreadyRunning` and changes nothing. |
| `DumpMachine.PanicIsContained` | meilisearch-http/src/index_controller/dump_actor/actor.rs:104-150 | When the running dump's task panics, its record ends `Failed` with the fixed message, and the next create request is accepted. |
| `DumpMachine.ReusedUidRestartsRecord` | meilisearch-http/src/index_controller/dump_actor/actor.rs:113-116 | With the gate free, a create that reuses the uid of a `Done` record resets that record to `InProgress`. |
| `DumpMachine.StepPreservesInv` | meilisearch-http/src/index_controller/dump_actor/actor.rs:100-157 | Every enabled step (create, completion of the running dump, info) keeps the invariant. |
| `DumpMachine.RunPreservesInv` | meilisearch-http/src/index_controller/dump_actor/actor.rs:100-157 | After any admissible interleaving of steps, at most one record is `InProgress`, and one is exactly when the gate is held. |
| `DumpMachine.RunKeysGrow` | meilisearch-http/src/index_controller/dump_actor/actor.rs:113-134 | Records are never removed: the key set after any run contains the key set before it. |
| `DumpMachine.AcceptedDumpIsAlwaysFound` | meilisearch-http/src/index_controller/dump_actor/actor.rs:113-157 | Once a create has been answered with a record, an info request for that uid succeeds after any later run, with a record carrying that uid. |
| `DumpMachine.StepStatus` | meilisearch-http/src/index_controller/dump_actor/actor.rs:129-150 | A step that is not an accepted create for `u` keeps `u`'s record. Its status either stays the same or moves from `InProgress` to an end state. A finished record is unchanged. |
| `DumpMachine.RunStatusMonotone` | meilisearch-http/src/index_controller/dump_actor/actor.rs:129-150 | Over any run in which no accepted create reuses `u` (refused ones may), `u`'s status never leaves `Done`/`Failed` and never re-enters `InProgress`. |
| `DumpMachine.RunKeepsFinished` | meilisearch-http/src/index_controller/dump_actor/actor.rs:131-149 | Over any run in which no accepted create reuses `u` (refused ones may), a `Done` or `Failed` record is never changed again. |
| `Actor.DumpActor.constructor` | meilisearch-http/src/index_controller/dump_actor/actor.rs:41-61 | The new actor has an empty registry and a free gate, and satisfies the invariant. |
| `Actor.DumpActor.BeginDump` | meilisearch-http/src/index_controller/dump_actor/actor.rs:100-118 | Updates the fields exactly as `Begin` does, returns `Begin`'s reply, and keeps the invariant. |
| `Actor.DumpActor.FinishDump` | meilisearch-http/src/index_controller/dump_actor/actor.rs:129-150 | Updates the fields exactly as `Finish` does and keeps the invariant. Afterwards the gate is free and the record is no longer `InProgress`. |
| `Actor.DumpActor.QueryInfo` | meilisearch-http/src/index_controller/dump_actor/actor.rs:152-157 | Returns what `Lookup` returns on the current fields, and modifies nothing. |

## Left out

- Actor.DumpActor.FinishDump: the entry must be the running dump, not merely present. In the code, only the create handler that inserted the entry and still holds the gate reaches this step, and nothing else writes that entry in between. A missing entry, a fatal `expect` in the code, is a precondition and not a modelled panic. The pure `Finish` requires only that the entry exists.
- The message loop (`run`, the `stream!` wrapper, `for_each_concurrent` with its bound of 10) and the dispatch in `handle_message`. This is async scheduling; the model instead quantifies over every interleaving of the atomic steps.
- The `mpsc`/`oneshot` channels and the `expect` on sending a reply. Each reply is the method's return value.
- `generate_uid`, which reads the wall clock. The uid is a parameter.
- `DumpTask` and the spawned task that writes the dump to disk. Only its three-way outcome is an input.
- The uuid resolver, update handle, dump path and size fields. The actor only passes them to the task.
- Logging.
- The async `RwLock`/`Mutex` primitives. Each handler step is atomic.
- The timestamps inside `DumpInfo` (started/finished at). That type's definition is not part of this model; `done()` is taken to set `Done`, and `with_error` to set `Failed` with the message.
