/** The `tabular_getInfo` publication: it checks the request, builds the
    effective selector, then keeps one live record per subscriber holding the
    ids of the current page and the total count, re-sent through a throttle
    when the filtered feed reports a removal or, once its initial results
    are in, any of the three feeds reports an addition; and re-bound to a
    new selector when the user's own document changes. */
module GetInfo {
  import opened Values
  import opened Selectors
  import opened IdLists
  import opened Throttling

  /** The interval `updateRecords` is throttled at, in milliseconds. */
  const UpdateInterval: nat := 500

  /** The client-side collection the live record is published into. */
  const RecordsCollection: string := "tabular_records"

  /** The options of the filtered (paged) query; it projects only `_id`. */
  datatype FindOptions = FindOptions(skip: int, limit: int, sort: Option<seq<Value>>)

  /** What the publication reads from a table definition. The optional
      hooks are foreign code, so only their results appear: `allow` is the
      result of `table.allow(userId)` when the table defines it. */
  datatype TableConfig = TableConfig(
    collectionName: string,
    selector: TableSelector,
    allow: Option<bool>,
    changeSelector: Option<Selector -> Selector>,
    observeUser: bool)

  /** The publication's arguments after the `check` calls: a table name, an
      optional client selector (null and absent are both `None`), an
      optional sort array, and the numeric skip and limit. */
  datatype Request = Request(tableName: string, selector: Option<Selector>,
                             sort: Option<seq<Value>>, skip: int, limit: int)

  /** How the publication's setup ends: an exception for an unknown table,
      `ready()` with no data when `allow` refuses, or the query to run. */
  datatype SetupResult =
    | UnknownTable(message: string)
    | Denied
    | Proceed(table: TableConfig, selector: Selector, options: FindOptions)

  /** A limit of 0 would publish every matching id, so it becomes 1; every
      other limit is used as given. */
  function CoerceLimit(limit: int): (r: int)
    ensures r != 0
    ensures limit != 0 ==> r == limit
    ensures limit == 0 ==> r == 1
  {
    if limit == 0 then 1 else limit
  }

  function UnknownTableMessage(tableName: string): string
  {
    "No TabularTable defined with the name \"" + tableName
      + "\". Make sure you are defining your TabularTable in common code."
  }

  /** The setup part of the publication, up to building the query: look the
      table up (failing loudly when it is missing), coerce the limit, ask
      `allow`, and build the effective selector and the find options. */
  function Setup(tables: map<string, TableConfig>, req: Request): (r: SetupResult)
    ensures r.UnknownTable? <==> req.tableName !in tables
    ensures r.UnknownTable? ==> r.message == UnknownTableMessage(req.tableName)
    ensures r.Denied? <==> req.tableName in tables && tables[req.tableName].allow == Some(false)
    ensures r.Proceed? ==>
              && req.tableName in tables
              && r.options == FindOptions(req.skip, CoerceLimit(req.limit), req.sort)
              && r.options.limit != 0
              && var t := tables[req.tableName];
                 r.selector == EffectiveSelector(req.selector, t.changeSelector, t.selector)
                 && r.table.collectionName == t.collectionName
                 && r.table.observeUser == t.observeUser
  {
    if req.tableName !in tables then UnknownTable(UnknownTableMessage(req.tableName))
    else
      var table := tables[req.tableName];
      var limit := CoerceLimit(req.limit);
      if table.allow == Some(false) then Denied
      else
        var selector := EffectiveSelector(req.selector, table.changeSelector, table.selector);
        Proceed(table, selector, FindOptions(req.skip, limit, req.sort))
  }

  // ---------------------------------------------------------------------
  // What the publication sends.

  /** The live record: the ids of the current page and the count of all
      matching records, which is reported as both totals. */
  datatype Record = Record(ids: seq<Id>, recordsTotal: nat, recordsFiltered: nat)

  /** A message through the publication's transport (`added`, `changed`,
      `ready`); the document id of the record is the table name. */
  datatype Message =
    | Added(collection: string, id: string, record: Record)
    | Changed(collection: string, id: string, record: Record)
    | Ready

  function Snapshot(ids: seq<Id>, count: nat): Record
  {
    Record(ids, count, count)
  }

  /** What one run of `updateRecords` sends, given whether the record has
      already been sent once. */
  function Emission(recordReady: bool, tableName: string, record: Record): Message
  {
    if recordReady then Changed(RecordsCollection, tableName, record)
    else Added(RecordsCollection, tableName, record)
  }

  /** The shape of everything sent so far: the record is `added` exactly
      once, as the very first message, and only `changed` after that;
      every record reports the same number as both totals. */
  ghost predicate WellFormedLog(messages: seq<Message>, recordReady: bool)
  {
    && (recordReady <==> messages != [])
    && (messages != [] ==> messages[0].Added?)
    && (forall i | 0 < i < |messages| :: !messages[i].Added?)
    && (forall i | 0 <= i < |messages| :: !messages[i].Ready? ==>
          messages[i].record.recordsTotal == messages[i].record.recordsFiltered)
  }

  /** Every run of `updateRecords` keeps the log well formed and moves the
      record from unsent to sent. */
  lemma EmissionKeepsLog(messages: seq<Message>, recordReady: bool,
                                            tableName: string, ids: seq<Id>, count: nat)
    requires WellFormedLog(messages, recordReady)
    ensures var m := Emission(recordReady, tableName, Snapshot(ids, count));
            && WellFormedLog(messages + [m], true)
            && (m.Added? <==> !recordReady)
            && m.record.ids == ids && m.record.recordsTotal == count
  {
  }

  /** `ready()` after the first record keeps the log well formed. */
  lemma ReadyKeepsLog(messages: seq<Message>, recordReady: bool)
    requires WellFormedLog(messages, recordReady) && messages != []
    ensures WellFormedLog(messages + [Ready], recordReady)
  {
  }

  // ---------------------------------------------------------------------
  // The live state of one subscription.

  /** What an open `observeChanges` handle watches. */
  datatype Query =
    | FilteredQuery(selector: Option<Selector>, options: FindOptions)
    | ProbeQuery(selector: Option<Selector>)
    | RemovalLogQuery(removalSelector: Selector)

  /** The removal log's query for a selector: limited to one tombstone,
      newest first, on the translated selector. */
  function RemovalFeedQuery(selector: Option<Selector>, collectionName: string): Query
  {
    RemovalLogQuery(RemovalSelector(selector, collectionName))
  }

  /** A change-feed handle; `id` tells handles apart. */
  datatype Handle = Handle(id: nat, query: Query)

  /** The `selector` own property of the config the user-observation hook
      returns: missing, or present (null or absent values are `None`). */
  datatype ConfigSelector = NoSelectorKey | SelectorKey(value: Option<Selector>)

  /** The rebind acts only on a config that has its own `selector` whose
      value differs from the current selector. */
  predicate Rebinds(config: ConfigSelector, current: Option<Selector>)
  {
    config.SelectorKey? && config.value != current
  }

  /** One subscription to `tabular_getInfo`: the variables its closures
      share (the selector, the id list, the `recordReady` flag, the three
      feed handles, the two initializing flags), the throttled updater, and
      the messages sent so far. */
  class Subscription {
    const tableName: string
    const collectionName: string
    const options: FindOptions
    const observesUser: bool
    const updater: Throttle<()>

    var selector: Option<Selector>
    var filteredIds: seq<Id>
    var recordReady: bool
    var initializing1: bool
    var initializing2: bool
    var handle1: Handle
    var handle2: Handle
    var removalHandle: Handle
    var openHandles: set<nat>
    var nextHandle: nat
    var userObserverOpen: bool
    var messages: seq<Message>

    ghost predicate Valid()
      reads this, updater
    {
      && updater.Valid() && updater.threshold == UpdateInterval
      && WellFormedLog(messages, recordReady)
      && (forall h | h in openHandles :: h < nextHandle)
      && (userObserverOpen ==> observesUser)
    }

    /** After `observe()` has returned: the three handles are the open ones,
      none is still initializing, and each watches a query built from the
      current selector, the removal-log one through `RemovalSelector`. */
    ghost predicate Observing()
      reads this
    {
      && !initializing1 && !initializing2
      && handle1.id != handle2.id && handle1.id != removalHandle.id && handle2.id != removalHandle.id
      && openHandles == {handle1.id, handle2.id, removalHandle.id}
      && handle1.query == FilteredQuery(selector, options)
      && handle2.query == ProbeQuery(selector)
      && removalHandle.query == RemovalFeedQuery(selector, collectionName)
    }

    /** The feed handles, selector and flags are as they were. */
    twostate predicate ObserversUnchanged()
      reads this
    {
      && selector == old(selector)
      && initializing1 == old(initializing1) && initializing2 == old(initializing2)
      && handle1 == old(handle1) && handle2 == old(handle2) && removalHandle == old(removalHandle)
      && openHandles == old(openHandles) && nextHandle == old(nextHandle)
      && userObserverOpen == old(userObserverOpen)
    }

    /** One call of the throttled `updateRecords` at time `now`, with
      `count` matching records at that moment: the throttle steps, and if it
      lets the call through the current ids and count are sent. */
    twostate predicate ThrottledUpdate(now: nat, count: nat)
      reads this, updater
    {
      var step := CallStep(UpdateInterval, old(updater.State()), now, ());
      && updater.State() == step.state
      && recordReady == (old(recordReady) || step.run.Some?)
      && messages == old(messages)
                     + (if step.run.Some?
                        then [Emission(old(recordReady), tableName, Snapshot(filteredIds, count))]
                        else [])
    }

    /** The publication from the query on: read the page's ids, open the
      feeds, send the record, signal `ready`, and start watching the user
      when the table asks for it. */
    constructor Start(tableName: string, table: TableConfig, selector: Selector,
                      options: FindOptions, initialIds: seq<Id>, now: nat, count: nat)
      ensures Valid() && Observing()
      ensures fresh(updater)
      ensures this.tableName == tableName && this.options == options
      ensures this.collectionName == table.collectionName
      ensures this.selector == Some(selector) && filteredIds == initialIds
      ensures messages == [Added(RecordsCollection, tableName, Snapshot(initialIds, count)), Ready]
      ensures updater.State() == ThrottleState(Some(now), None)
      ensures userObserverOpen == table.observeUser
    {
      this.tableName := tableName;
      this.collectionName := table.collectionName;
      this.options := options;
      this.observesUser := table.observeUser;
      updater := new Throttle(UpdateInterval);
      this.selector := Some(selector);
      filteredIds := initialIds;
      recordReady := false;
      initializing1, initializing2 := false, false;
      handle1 := Handle(0, FilteredQuery(Some(selector), options));
      handle2 := Handle(0, ProbeQuery(Some(selector)));
      removalHandle := Handle(0, RemovalFeedQuery(Some(selector), table.collectionName));
      openHandles := {};
      nextHandle := 0;
      userObserverOpen := false;
      messages := [];
      new;
      Observe();
      assert messages == [] && !recordReady && updater.State() == ThrottleState(None, None);
      TriggerUpdate(now, count);
      assert messages == [Added(RecordsCollection, tableName, Snapshot(initialIds, count))];
      ReadyKeepsLog(messages, recordReady);
      messages := messages + [Ready];
      if table.observeUser {
        userObserverOpen := true;
      }
    }

    /** The body of `updateRecords`, unthrottled: send the current ids with
      the count, as `added` the first time and `changed` after that. */
    method UpdateRecords(count: nat)
      requires Valid()
      modifies this
      ensures Valid() && ObserversUnchanged()
      ensures filteredIds == old(filteredIds)
      ensures recordReady
      ensures messages == old(messages) + [Emission(old(recordReady), tableName, Snapshot(filteredIds, count))]
      ensures old(recordReady) ==> messages[|messages| - 1].Changed?
      ensures !old(recordReady) ==> messages[|messages| - 1].Added?
    {
      EmissionKeepsLog(messages, recordReady, tableName, filteredIds, count);
      var record := Snapshot(filteredIds, count);
      if recordReady {
        messages := messages + [Changed(RecordsCollection, tableName, record)];
      } else {
        messages := messages + [Added(RecordsCollection, tableName, record)];
        recordReady := true;
      }
    }

    /** A call of the throttled `updateRecords`. */
    method TriggerUpdate(now: nat, count: nat)
      requires Valid()
      modifies this, updater
      ensures Valid() && ObserversUnchanged() && ThrottledUpdate(now, count)
      ensures filteredIds == old(filteredIds)
    {
      var run := updater.Call(now, ());
      if run.Some? {
        UpdateRecords(count);
      }
    }

    /** The throttle's deferred timer runs out. Nothing cancels it when the
      subscription stops, so this can happen after `Stop` too. */
    method FireDeferred(count: nat)
      requires Valid()
      modifies this, updater
      ensures Valid() && ObserversUnchanged()
      ensures filteredIds == old(filteredIds)
      ensures updater.State() == FireStep(old(updater.State())).state
      ensures old(updater.pending).None? ==> messages == old(messages)
      ensures old(updater.pending).Some? ==>
                messages == old(messages) + [Emission(old(recordReady), tableName, Snapshot(filteredIds, count))]
    {
      var run := updater.Fire();
      if run.Some? {
        UpdateRecords(count);
      }
    }

    // The phases of `observe()`. The data store delivers the initial
    // results of each `observeChanges` call to its callbacks before the
    // call returns, that is while the phase's initializing flag is set.

    /** Opens the filtered cursor's feed with `initializing1` set. */
    method OpenFilteredFeed()
      requires Valid()
      modifies this
      ensures Valid()
      ensures initializing1 && initializing2 == old(initializing2)
      ensures handle1 == Handle(old(nextHandle), FilteredQuery(selector, options))
      ensures openHandles == old(openHandles) + {old(nextHandle)} && nextHandle == old(nextHandle) + 1
      ensures selector == old(selector) && filteredIds == old(filteredIds) && messages == old(messages)
      ensures recordReady == old(recordReady) && userObserverOpen == old(userObserverOpen)
      ensures handle2 == old(handle2) && removalHandle == old(removalHandle)
    {
      initializing1 := true;
      handle1 := Handle(nextHandle, FilteredQuery(selector, options));
      openHandles := openHandles + {nextHandle};
      nextHandle := nextHandle + 1;
    }

    method EndFilteredInitialization()
      modifies this`initializing1
      ensures !initializing1
    {
      initializing1 := false;
    }

    /** Opens the count probe's feed and the removal log's feed, the latter
      on the removal selector of the current selector, with `initializing2`
      set. */
    method OpenCountFeeds()
      requires Valid()
      modifies this
      ensures Valid()
      ensures initializing2 && initializing1 == old(initializing1)
      ensures handle2 == Handle(old(nextHandle), ProbeQuery(selector))
      ensures removalHandle == Handle(old(nextHandle) + 1, RemovalFeedQuery(selector, collectionName))
      ensures openHandles == old(openHandles) + {old(nextHandle), old(nextHandle) + 1}
      ensures nextHandle == old(nextHandle) + 2
      ensures selector == old(selector) && filteredIds == old(filteredIds) && messages == old(messages)
      ensures recordReady == old(recordReady) && userObserverOpen == old(userObserverOpen)
      ensures handle1 == old(handle1)
    {
      var probeId, removalId := nextHandle, nextHandle + 1;
      initializing2 := true;
      handle2 := Handle(probeId, ProbeQuery(selector));
      removalHandle := Handle(removalId, RemovalFeedQuery(selector, collectionName));
      openHandles := openHandles + {probeId, removalId};
      nextHandle := nextHandle + 2;
    }

    method EndCountInitialization()
      modifies this`initializing2
      ensures !initializing2
    {
      initializing2 := false;
    }

    /** `observe()`: opens three new feeds on the current selector and adds
      them to whatever is open already. */
    method Observe()
      requires Valid()
      modifies this
      ensures Valid()
      ensures !initializing1 && !initializing2
      ensures handle1.id >= old(nextHandle) && handle2.id >= old(nextHandle) && removalHandle.id >= old(nextHandle)
      ensures handle1.id != handle2.id && handle1.id != removalHandle.id && handle2.id != removalHandle.id
      ensures openHandles == old(openHandles) + {handle1.id, handle2.id, removalHandle.id}
      ensures handle1.query == FilteredQuery(selector, options)
      ensures handle2.query == ProbeQuery(selector)
      ensures removalHandle.query == RemovalFeedQuery(selector, collectionName)
      ensures selector == old(selector) && filteredIds == old(filteredIds) && messages == old(messages)
      ensures recordReady == old(recordReady) && userObserverOpen == old(userObserverOpen)
    {
      OpenFilteredFeed();
      EndFilteredInitialization();
      OpenCountFeeds();
      EndCountInitialization();
    }

    /** `stopObservers()`: stops the three current feed handles. */
    method StopObservers()
      modifies this`openHandles
      ensures openHandles == old(openHandles) - {handle1.id, handle2.id, removalHandle.id}
    {
      openHandles := openHandles - {handle1.id, handle2.id, removalHandle.id};
    }

    /** The filtered feed's `added`: ignored while initializing, otherwise
      the id is appended, with no duplicate check, and the record updated. */
    method OnFilteredAdded(id: Id, now: nat, count: nat)
      requires Valid() && handle1.id in openHandles
      modifies this, updater
      ensures Valid() && ObserversUnchanged()
      ensures old(initializing1) ==>
                && filteredIds == old(filteredIds) && messages == old(messages)
                && recordReady == old(recordReady) && updater.State() == old(updater.State())
      ensures !old(initializing1) ==> filteredIds == old(filteredIds) + [id] && ThrottledUpdate(now, count)
    {
      if initializing1 {
        return;
      }
      filteredIds := filteredIds + [id];
      TriggerUpdate(now, count);
    }

    /** The filtered feed's `removed`: every occurrence of the id goes,
      whatever the initializing flag says, and the record is updated. */
    method OnFilteredRemoved(id: Id, now: nat, count: nat)
      requires Valid() && handle1.id in openHandles
      modifies this, updater
      ensures Valid() && ObserversUnchanged()
      ensures filteredIds == Without(old(filteredIds), id)
      ensures ThrottledUpdate(now, count)
    {
      filteredIds := Without(filteredIds, id);
      TriggerUpdate(now, count);
    }

    /** The count probe's `added`: a trigger once initialization is over. */
    method OnProbeAdded(now: nat, count: nat)
      requires Valid() && handle2.id in openHandles
      modifies this, updater
      ensures Valid() && ObserversUnchanged()
      ensures filteredIds == old(filteredIds)
      ensures old(initializing2) ==>
                messages == old(messages) && recordReady == old(recordReady) && updater.State() == old(updater.State())
      ensures !old(initializing2) ==> ThrottledUpdate(now, count)
    {
      if !initializing2 {
        TriggerUpdate(now, count);
      }
    }

    /** The removal log's `added`: a trigger once initialization is over. */
    method OnRemovalLogAdded(now: nat, count: nat)
      requires Valid() && removalHandle.id in openHandles
      modifies this, updater
      ensures Valid() && ObserversUnchanged()
      ensures filteredIds == old(filteredIds)
      ensures old(initializing2) ==>
                messages == old(messages) && recordReady == old(recordReady) && updater.State() == old(updater.State())
      ensures !old(initializing2) ==> ThrottledUpdate(now, count)
    {
      if !initializing2 {
        TriggerUpdate(now, count);
      }
    }

    /** The user observer's `changed`, given the config the table's hook
      returned for the user and the ids the new filtered query yields. When
      the config carries a different selector, that selector is used as it
      is, the id list is rebuilt, the old feeds are stopped, new ones are
      opened on it, and the throttled update is called. */
    method OnUserChanged(config: ConfigSelector, newIds: seq<Id>, now: nat, count: nat)
      requires Valid() && Observing() && userObserverOpen
      modifies this, updater
      ensures Valid() && Observing() && userObserverOpen
      ensures !Rebinds(config, old(selector)) ==>
                && ObserversUnchanged() && filteredIds == old(filteredIds) && messages == old(messages)
                && recordReady == old(recordReady) && updater.State() == old(updater.State())
      ensures Rebinds(config, old(selector)) ==>
                && selector == config.value
                && filteredIds == newIds
                && old(handle1.id) !in openHandles && old(handle2.id) !in openHandles
                && old(removalHandle.id) !in openHandles
                && ThrottledUpdate(now, count)
    {
      if Rebinds(config, selector) {
        Rebind(config.value, newIds, now, count);
      }
    }

    /** The body of the rebind: the new selector is taken as it is, with no
      join with the table or client selector; the id list is replaced by the
      new query's ids; the old feeds are stopped before `observe()` opens
      new ones; then the throttled update is called. */
    method Rebind(newSelector: Option<Selector>, newIds: seq<Id>, now: nat, count: nat)
      requires Valid() && Observing()
      modifies this, updater
      ensures Valid() && Observing() && userObserverOpen == old(userObserverOpen)
      ensures selector == newSelector && filteredIds == newIds
      ensures old(handle1.id) !in openHandles && old(handle2.id) !in openHandles
      ensures old(removalHandle.id) !in openHandles
      ensures ThrottledUpdate(now, count)
    {
      selector := newSelector;
      filteredIds := newIds;
      StopObservers();
      assert openHandles == {};
      Observe();
      TriggerUpdate(now, count);
    }

    /** `onStop`: stops the three feeds and the user observer. The throttle's
      pending call, if any, is left in place. */
    method Stop()
      requires Valid()
      modifies this
      ensures Valid()
      ensures openHandles == old(openHandles) - {handle1.id, handle2.id, removalHandle.id}
      ensures !userObserverOpen
      ensures messages == old(messages) && filteredIds == old(filteredIds) && recordReady == old(recordReady)
      ensures selector == old(selector) && handle1 == old(handle1) && handle2 == old(handle2)
      ensures removalHandle == old(removalHandle)
      ensures initializing1 == old(initializing1) && initializing2 == old(initializing2)
      ensures nextHandle == old(nextHandle)
      ensures updater.State() == old(updater.State())
    {
      StopObservers();
      userObserverOpen := false;
    }
  }

  /** How a call of the publication ends. */
  datatype Publication = Error(message: string) | ReadyOnly | Live(subscription: Subscription)

  /** The whole publication for one request, with the data store's answers
      (the ids of the page, the matching count) and the clock as inputs. */
  method Publish(tables: map<string, TableConfig>, req: Request,
                 initialIds: seq<Id>, now: nat, count: nat) returns (p: Publication)
    ensures p.Error? <==> Setup(tables, req).UnknownTable?
    ensures p.Error? ==> p.message == UnknownTableMessage(req.tableName)
    ensures p.ReadyOnly? <==> Setup(tables, req).Denied?
    ensures p.Live? ==>
              var s := p.subscription;
              && fresh(s) && fresh(s.updater) && s.Valid() && s.Observing()
              && s.selector == Some(Setup(tables, req).selector)
              && s.options == Setup(tables, req).options
              && s.messages == [Added(RecordsCollection, req.tableName, Snapshot(initialIds, count)), Ready]
              && s.tableName == req.tableName
              && s.collectionName == tables[req.tableName].collectionName
              && s.filteredIds == initialIds
              && s.updater.State() == ThrottleState(Some(now), None)
              && s.userObserverOpen == tables[req.tableName].observeUser
  {
    var setup := Setup(tables, req);
    if setup.UnknownTable? {
      p := Error(setup.message);
    } else if setup.Denied? {
      p := ReadyOnly;
    } else {
      var s := new Subscription.Start(req.tableName, setup.table, setup.selector, setup.options,
                                      initialIds, now, count);
      p := Live(s);
    }
  }
}
