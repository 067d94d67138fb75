# Regalo core: strict concurrency check, save-then-publish, conventions

This project models three small pieces of Regalo's event-sourcing core in Dafny and proves properties about them.

- **Strict optimistic-concurrency monitor** (`strict_concurrency_monitor.dfy`, module `StrictConcurrencyMonitor`). `CheckForConflicts` is a pure function of two possibly-null event sequences:
  - the events committed by others that the writer has not seen;
  - the events the writer is about to commit.

  A null argument is an `ArgumentNullException`, and `unseenEvents` is checked first. If both sequences are non-empty, the result is exactly one conflict. That conflict carries the fixed reason and both sequences. Otherwise the result is empty.
- **Save-then-publish protocol** (`message_handler_context.dfy`, module `MessageHandling`). `MessageHandlerContext` holds a repository and an event bus, fixed at construction (`const` fields).
  - `Get` forwards to the repository.
  - `SaveAndPublishEvents` snapshots the entity's pending events, saves the entity, and only then publishes that snapshot.
  - A ghost trace of the context's effects records every save and publish. Its invariant, `PublishFollowsSave`, says that every publish comes straight after a successful save of the same batch. The trace is the context's own record of the calls it makes. Nothing ties it to the state of the repository or the bus. The guarantee about that state is in the contract of `SaveAndPublishEvents`.
- **Conventions** (`conventions.dfy`, module `Conventions`). The class has three settings with fixed defaults, and each setting has its own setter. A value-level specification defines a `Settings` value, one `Assignment` per setter call, and `ApplyAll` for a sequence of calls. Lemmas over it prove last-write-wins, idempotence, independence between settings, and that untouched settings keep their values.

`failures.dfy` (module `Failures`) holds the encodings of null and thrown exceptions:
- `Option` stands for a nullable reference, with `None` as null.
- `Result` is the outcome of a call that may throw.
- `ArgumentNull` carries the parameter name.

## Model

| member | source | states |
|---|---|---|
| `StrictConcurrencyMonitor.CheckForConflicts` | Regalo.Core/EventSourcing/StrictConcurrencyMonitor.cs:9-20 | A null `unseenEvents` fails with ArgumentNull("unseenEvents"), and this check comes first. A present `unseenEvents` with a null `uncommittedEvents` fails with ArgumentNull("uncommittedEvents"). It succeeds iff both are present. On success the result has at most one conflict, is non-empty iff both inputs are non-empty, and every conflict carries the fixed reason and both inputs unchanged. |
| `StrictConcurrencyMonitor.NoConflictWhenEitherEmpty` | Regalo.Core/EventSourcing/StrictConcurrencyMonitor.cs:14-19 | If either sequence is empty, the result is the empty conflict list. |
| `StrictConcurrencyMonitor.OneConflictWhenBothNonEmpty` | Regalo.Core/EventSourcing/StrictConcurrencyMonitor.cs:14-16 | If both sequences are non-empty, the result is exactly one conflict with reason "Changes conflict with one or more committed events." and the two inputs. |
| `StrictConcurrencyMonitor.VerdictDependsOnlyOnEmptiness` | Regalo.Core/EventSourcing/StrictConcurrencyMonitor.cs:14-19 | Any two input pairs that agree on which sequences are empty get the same number of conflicts. The events themselves never matter. |
| `Conventions.Defaults` | Regalo.Core/Conventions.cs:7-9 | Apply methods are not required (`false`), the id property name is "AggregateId", and the type finder is null. |
| `Conventions.Assign` | Regalo.Core/Conventions.cs:15-28 | A setter call makes its setting hold exactly the given value, null or empty included. The other two settings keep their values. |
| `Conventions.AssignIdempotent` | Regalo.Core/Conventions.cs:15-28 | Repeating a setter call with the same value changes nothing more. |
| `Conventions.AssignOverwrites` | Regalo.Core/Conventions.cs:15-28 | A later call to the same setter wipes out the earlier one. |
| `Conventions.AssignCommutes` | Regalo.Core/Conventions.cs:15-28 | Calls to setters of different settings give the same result in either order. |
| `Conventions.Untouched` | Regalo.Core/Conventions.cs:15-28 | After any sequence of setter calls, a setting that none of them targets keeps its starting value. |
| `Conventions.LastWriteWins` | Regalo.Core/Conventions.cs:15-28 | After any sequence of setter calls, a setting holds the value of the last call that targets it. |
| `Conventions.ReadAfterCalls` | Regalo.Core/Conventions.cs:7-28 | Starting from the defaults, each getter returns the last value set for its setting, or the default if that setting was never set. |
| `Conventions.Conventions.constructor` | Regalo.Core/Conventions.cs:7-13 | The three getters start at their defaults. |
| `Conventions.Conventions.SetAggregateIdPropertyName` | Regalo.Core/Conventions.cs:15-18 | Afterwards the getter returns `value`, and the other two settings are unchanged. |
| `Conventions.Conventions.SetAggregatesMustImplementApplymethods` | Regalo.Core/Conventions.cs:20-23 | Afterwards the getter returns `value`, and the other two settings are unchanged. |
| `Conventions.Conventions.SetFindAggregateTypeForEventType` | Regalo.Core/Conventions.cs:25-28 | Afterwards the getter returns `finder`, and the other two settings are unchanged. |
| `MessageHandling.MessageHandlerContext.Create` | Regalo.Core/MessageHandlerContext.cs:11-18 | A null repository fails with ArgumentNull("repository"), and this is checked first. A present repository with a null bus fails with ArgumentNull("eventBus"). Otherwise the result is a fresh context holding exactly those two collaborators, with an empty effect trace. |
| `MessageHandling.MessageHandlerContext.constructor` | Regalo.Core/MessageHandlerContext.cs:16-17 | Stores the two collaborators (in `const` fields, so they never change) and starts with an empty effect trace. |
| `MessageHandling.MessageHandlerContext.Get` | Regalo.Core/MessageHandlerContext.cs:20-23 | Returns exactly what the repository holds for `id`, or null when it holds nothing. It modifies nothing, the bus included. |
| `MessageHandling.MessageHandlerContext.SaveAndPublishEvents` | Regalo.Core/MessageHandlerContext.cs:25-30 | The save fails iff both the unseen events and the pending events are non-empty. On failure the context returns the monitor's single conflict, publishes nothing, and leaves the store and the entity unchanged. On success it makes exactly one save and then one publish. The published batch is the pending list as it was before the save, although the save clears that list. The trace invariant holds throughout. |
| `MessageHandling.PublishesNeverOutnumberSaves` | Regalo.Core/MessageHandlerContext.cs:27-29 | In any effect trace that keeps the publish-after-save invariant, publishes never outnumber successful saves. |
| `MessageHandling.Repository.Get` | Regalo.RavenDB.Tests.Unit/PersistenceTests.cs:29-39 | Returns the aggregate stored under `id`, or null ("not found") when there is none. Under the repository's invariant, an id with no recorded events is never found. |
| `MessageHandling.SaveThenReload` | Regalo.RavenDB.Tests.Unit/PersistenceTests.cs:29-58 | On an empty store, `Get` returns null. After a successful save of an aggregate that has recorded events, `Get` returns an aggregate with the same id. |

The stand-in repository, `MessageHandling.Repository`, has no row of its own. Its code (`RavenRepository`) is not part of this model.
- `Save` runs `CheckForConflicts` on the unseen events and the entity's pending events.
- On a conflict it fails and writes nothing.
- Otherwise it appends the pending events to the entity's stream, stores the entity under its id, and clears the pending list.
- Saving an empty pending list writes nothing, so an id becomes findable only once it has recorded events. The repository's invariant `Valid()` states this.

## Left out

- `IEventBus` as it appears in the source declares only `Send`, while `MessageHandlerContext` calls `Publish`. The bus is modelled as a sink with a single `Publish(batch)` operation that appends to a log of published batches.
- The `IConcurrencyMonitor` interface is not modelled as a type. `CheckForConflicts` has its signature.
- Publishing cannot fail in the model, so the case of a failed publish after a successful save is not represented. The source never rolls back in that case either.
- `GetUncommittedEvents()` is not part of this model. It is taken to return a snapshot.
- The aggregate root, its event recording and replay, the event store and the version handler are not part of this model. An entity is only an id plus its pending events.
- `MessageHandling.Repository.Save` does not find the unseen events itself. The caller supplies them as a parameter, because the version bookkeeping that would compute them is not part of this model. Its conflict decision is the strict monitor's.
- `MessageHandling.Repository.Get` returns the stored entity object itself, not a freshly replayed copy.
- The `Func<Type, Type>` finder is an opaque handle (`TypeFinder`). It is never called, and no type lookup is modelled.
- `Conventions` keeps its settings in static fields. They are modelled as one instance of a class, which stands for the process-wide state.
- A configuration object passed to the repository would be an alternative to the conventions. The code uses global mutable conventions, and the model follows the code.
- The RavenDB persistence against a document store (I/O), the application-service testing DSL, and the no-op logger are not part of this model.
- MessageHandling.MessageHandlerContext.SaveAndPublishEvents: the entity parameter is non-null. The case of a null entity is not modelled. In the source, reading its pending events throws `NullReferenceException` before any save or publish.
- MessageHandling.MessageHandlerContext.SaveAndPublishEvents: takes an extra `unseen` parameter that the one-argument source method does not have. It stands for the events other writers committed, which the repository's version bookkeeping would find. That bookkeeping is not part of this model.
- StrictConcurrencyMonitor.CheckForConflicts: its inputs are immutable sequences of values. In the source they are `IEnumerable<object>` references, possibly lazy, that the conflict holds by reference. Aliasing and deferred enumeration are not modelled.
- Conventions.Assignment: its constructors `SetName`, `SetFlag` and `SetFinder` stand for the three setters. The class methods keep the source's names, including the spelling `SetAggregatesMustImplementApplymethods`.
- Racing writers are out of scope. There are no locks, and concurrent access to the store is not modelled.
