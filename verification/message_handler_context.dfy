/**
 * The save-then-publish protocol a message handler runs over one aggregate:
 * read the aggregate's pending events, save the aggregate, and only then hand
 * those same events to the event bus. The repository and the bus are
 * collaborators whose code is not part of this model; they appear here as
 * small classes holding just the state the protocol touches.
 */
module MessageHandling {
  import opened Failures
  import opened StrictConcurrencyMonitor

  /** An aggregate identifier; only its identity matters. */
  type Guid = nat

  /**
   * The part of an aggregate root the protocol sees: its id and its list of
   * events recorded but not yet committed.
   */
  class Entity<E> {
    const id: Guid
    var uncommitted: seq<E>

    constructor (id: Guid, pending: seq<E>)
      ensures this.id == id && uncommitted == pending
    {
      this.id := id;
      uncommitted := pending;
    }
  }

  /**
   * A stand-in repository: the aggregate each id was last saved as, and the
   * events committed per id. Its `Save` follows the strict optimistic policy.
   */
  class Repository<E> {
    var aggregates: map<Guid, Entity<E>>
    var streams: map<Guid, seq<E>>

    /** Only an id with recorded events can be found. */
    ghost predicate Valid()
      reads this
    {
      forall id :: id in aggregates ==> id in streams && streams[id] != []
    }

    /** An empty store. */
    constructor ()
      ensures Valid()
      ensures aggregates == map[] && streams == map[]
    {
      aggregates := map[];
      streams := map[];
    }

    /** The aggregate stored under `id`, or null ("not found") if there is none. */
    method Get(id: Guid) returns (r: Entity?<E>)
      ensures id in aggregates ==> r == aggregates[id]
      ensures id !in aggregates ==> r == null
    {
      r := if id in aggregates then aggregates[id] else null;
    }

    /** The events committed for `id` so far (none for an unknown id). */
    function Stream(id: Guid): seq<E>
      reads this
    {
      if id in streams then streams[id] else []
    }

    /**
     * Saves `entity`. `unseen` are the events other writers committed for it
     * since it was loaded. If the strict monitor reports a conflict, the save
     * fails and nothing changes. Otherwise a non-empty pending list is
     * appended to the entity's stream and the entity is stored under its id;
     * an empty one writes nothing. Either way the pending list ends up empty.
     */
    method Save(entity: Entity<E>, unseen: seq<E>) returns (r: Result<(), seq<ConcurrencyConflict<E>>>)
      requires Valid()
      modifies this, entity
      ensures Valid()
      ensures var verdict := CheckForConflicts(Some(unseen), Some(old(entity.uncommitted)));
        verdict.Success? && (r.Failure? <==> verdict.value != []) && (r.Failure? ==> r.error == verdict.value)
      ensures r.Failure? <==> unseen != [] && old(entity.uncommitted) != []
      ensures r.Failure? ==>
        aggregates == old(aggregates) && streams == old(streams)
        && entity.uncommitted == old(entity.uncommitted)
      ensures r.Success? ==> entity.uncommitted == []
      ensures r.Success? && old(entity.uncommitted) == [] ==>
        aggregates == old(aggregates) && streams == old(streams)
      ensures r.Success? && old(entity.uncommitted) != [] ==>
        aggregates == old(aggregates)[entity.id := entity]
        && streams == old(streams)[entity.id := old(Stream(entity.id)) + old(entity.uncommitted)]
    {
      var conflicts := CheckForConflicts(Some(unseen), Some(entity.uncommitted));
      if conflicts.value != [] {
        return Failure(conflicts.value);
      }
      if entity.uncommitted == [] {
        return Success(());
      }
      streams := streams[entity.id := Stream(entity.id) + entity.uncommitted];
      aggregates := aggregates[entity.id := entity];
      entity.uncommitted := [];
      return Success(());
    }
  }

  /** The event bus, seen as a sink that logs every batch published to it. */
  class EventBus<E> {
    var published: seq<seq<E>>

    constructor ()
      ensures published == []
    {
      published := [];
    }

    method Publish(batch: seq<E>)
      modifies this
      ensures published == old(published) + [batch]
    {
      published := published + [batch];
    }
  }

  /** What a context has done to its collaborators, in order. */
  datatype Effect<E> =
    | Saved(id: Guid, batch: seq<E>)
    | SaveRejected(id: Guid)
    | Published(batch: seq<E>)

  /**
   * Every publish comes straight after a successful save, and publishes
   * exactly the batch that save committed.
   */
  ghost predicate PublishFollowsSave<E>(effects: seq<Effect<E>>) {
    forall i :: 0 <= i < |effects| && effects[i].Published? ==>
      0 < i && effects[i - 1].Saved? && effects[i - 1].batch == effects[i].batch
  }

  /** How many effects in `effects` satisfy `isKind`, counted from the end. */
  function Count<E>(effects: seq<Effect<E>>, isKind: Effect<E> -> bool): nat
    decreases |effects|
  {
    if effects == [] then 0
    else Count(effects[..|effects| - 1], isKind) + (if isKind(effects[|effects| - 1]) then 1 else 0)
  }

  /**
   * In a trace where every publish follows a successful save, there are never
   * more publishes than successful saves.
   */
  lemma {:induction false} PublishesNeverOutnumberSaves<E>(effects: seq<Effect<E>>)
    requires PublishFollowsSave(effects)
    ensures Count(effects, (e: Effect<E>) => e.Published?) <= Count(effects, (e: Effect<E>) => e.Saved?)
    decreases |effects|
  {
    if effects != [] {
      var front := effects[..|effects| - 1];
      assert PublishFollowsSave(front) by {
        forall i | 0 <= i < |front| && front[i].Published?
          ensures 0 < i && front[i - 1].Saved? && front[i - 1].batch == front[i].batch
        {
          assert effects[i] == front[i];
        }
      }
      PublishesNeverOutnumberSaves(front);
      if effects[|effects| - 1].Published? {
        var front2 := front[..|front| - 1];
        assert PublishFollowsSave(front2) by {
          forall i | 0 <= i < |front2| && front2[i].Published?
            ensures 0 < i && front2[i - 1].Saved? && front2[i - 1].batch == front2[i].batch
          {
            assert effects[i] == front2[i];
          }
        }
        PublishesNeverOutnumberSaves(front2);
        assert front[|front| - 1].Saved?;
        assert front2 == effects[..|effects| - 2];
      }
    }
  }

  class MessageHandlerContext<E> {
    const repository: Repository<E>
    const eventBus: EventBus<E>
    /** The calls this context has made to the repository and the bus. */
    ghost var effects: seq<Effect<E>>

    ghost predicate Valid()
      reads this
    {
      PublishFollowsSave(effects)
    }

    constructor (repository: Repository<E>, eventBus: EventBus<E>)
      ensures this.repository == repository && this.eventBus == eventBus
      ensures effects == [] && Valid()
    {
      this.repository := repository;
      this.eventBus := eventBus;
      effects := [];
    }

    /**
     * Construction from possibly-null collaborators: a null repository is
     * rejected first, then a null event bus.
     */
    static method Create(repository: Repository?<E>, eventBus: EventBus?<E>)
      returns (r: Result<MessageHandlerContext<E>, ArgumentNull>)
      ensures repository == null ==> r == Failure(ArgumentNull("repository"))
      ensures repository != null && eventBus == null ==> r == Failure(ArgumentNull("eventBus"))
      ensures repository != null && eventBus != null ==>
        r.Success? && fresh(r.value) && r.value.Valid() && r.value.effects == []
        && r.value.repository == repository && r.value.eventBus == eventBus
    {
      if repository == null {
        return Failure(ArgumentNull("repository"));
      }
      if eventBus == null {
        return Failure(ArgumentNull("eventBus"));
      }
      var context := new MessageHandlerContext(repository, eventBus);
      return Success(context);
    }

    /** Exactly what the repository answers for `id`, "not found" included; changes nothing. */
    method Get(id: Guid) returns (r: Entity?<E>)
      ensures id in repository.aggregates ==> r == repository.aggregates[id]
      ensures id !in repository.aggregates ==> r == null
    {
      r := repository.Get(id);
    }

    /**
     * Snapshots the entity's pending events, saves the entity, then publishes
     * the snapshot. A failed save (a concurrency conflict) propagates and
     * nothing is published.
     */
    method SaveAndPublishEvents(entity: Entity<E>, unseen: seq<E>)
      returns (r: Result<(), seq<ConcurrencyConflict<E>>>)
      requires Valid() && repository.Valid()
      modifies this, repository, eventBus, entity
      ensures Valid() && repository.Valid()
      ensures r.Failure? <==> unseen != [] && old(entity.uncommitted) != []
      ensures r.Failure? ==>
        r.error == [ConcurrencyConflict(ConflictReason, unseen, old(entity.uncommitted))]
        && effects == old(effects) + [SaveRejected(entity.id)]
        && eventBus.published == old(eventBus.published)
        && repository.aggregates == old(repository.aggregates)
        && repository.streams == old(repository.streams)
        && entity.uncommitted == old(entity.uncommitted)
      ensures r.Success? ==>
        effects == old(effects) + [Saved(entity.id, old(entity.uncommitted)), Published(old(entity.uncommitted))]
        && eventBus.published == old(eventBus.published) + [old(entity.uncommitted)]
        && entity.uncommitted == []
      ensures r.Success? && old(entity.uncommitted) == [] ==>
        repository.aggregates == old(repository.aggregates)
        && repository.streams == old(repository.streams)
      ensures r.Success? && old(entity.uncommitted) != [] ==>
        repository.aggregates == old(repository.aggregates)[entity.id := entity]
        && repository.streams == old(repository.streams)[entity.id := old(repository.Stream(entity.id)) + old(entity.uncommitted)]
    {
      var uncommittedEvents := entity.uncommitted;
      var saved := repository.Save(entity, unseen);
      if saved.Failure? {
        effects := effects + [SaveRejected(entity.id)];
        return saved;
      }
      effects := effects + [Saved(entity.id, uncommittedEvents)];
      eventBus.Publish(uncommittedEvents);
      effects := effects + [Published(uncommittedEvents)];
      return Success(());
    }
  }

  /**
   * An empty store finds nothing; after a successful save of an aggregate
   * with recorded events, the aggregate can be reloaded under its id.
   */
  method SaveThenReload<E>(id: Guid, pending: seq<E>) returns (before: Entity?<E>, after: Entity?<E>)
    requires pending != []
    ensures before == null
    ensures after != null && after.id == id && after.uncommitted == []
  {
    var repository := new Repository<E>();
    before := repository.Get(id);
    var entity := new Entity(id, pending);
    var saved := repository.Save(entity, []);
    after := repository.Get(id);
  }
}
