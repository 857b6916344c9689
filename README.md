# meteor-tabular `tabular_getInfo`, modelled in Dafny

This project models the server side of meteor-tabular's `tabular_getInfo`
publication (`server/tabular.js`). For one table and one page window, the
publication keeps a single live record that holds the ids of the current page
and the total number of matching documents. It watches three change feeds:
the paged cursor, a one-document "newest update" probe, and the shared removal
log. It re-sends the record through a throttle when the paged cursor reports a
removal, and when any of the three feeds reports an addition after its initial
results (`server/tabular.js:187-197, 220-224, 240-244`). The probe's removals
and the initial additions do not trigger a re-send. When the table asks for
it, the publication also re-binds itself to a new selector once the user's own
document changes.

The model is split by component:

- `values.dfy` (`Values`): JavaScript values as the publication sees them, and
  the truthiness tests the code applies to them.
- `selectors.dfy` (`Selectors`): pure selector logic. It covers how the client
  selector is normalised, how it is joined with the table selector, a
  reference meaning for selectors (which documents they match), and how the
  selector is translated into a query on the removal log.
- `id_list.dfy` (`IdLists`): the page's id list and the two edits the filtered
  feed makes to it (`push`, `_.without`).
- `throttle.dfy` (`Throttling`): the leading- and trailing-edge `throttle`.
  It is written twice: as pure step functions over an explicit integer clock,
  and as a class `Throttle` whose fields are the closure's `last` and
  `deferTimer`. The class methods are proved against the step functions.
- `get_info.dfy` (`GetInfo`): the publication's setup as a pure function
  (`Setup`), the messages it sends, and a class `Subscription`. That class
  holds the variables the publication's closures share and update in place:
  `selector`, `filteredRecordIds`, `recordReady`, the two initializing flags,
  the three feed handles, the user observer, and the throttled updater.
  `Publish` runs the whole publication for one request.

The data store, the transport and the table's hooks are not part of the
model. Their answers are inputs: the ids a query yields, the current count,
the result of `allow`, the function `changeSelector`, the table selector's
value, and the config the user-observation hook returns. The clock is an
explicit `now` parameter. The throttle timer running out is its own step
(`FireDeferred`). Change events are calls to the subscription's callback
methods. The messages sent through the transport (`added`, `changed`,
`ready`) are kept as a log in `Subscription.messages`.

Some behaviours of the code are easy to misread:

- The rebind takes `config.selector` as it is. It does not join it again with
  the table or client selector (`server/tabular.js:276-277`).
- The rebind calls the throttled `updateRecords`, not an immediate one
  (`server/tabular.js:289`).
- Stopping the subscription does not clear the throttle's pending timer
  (`server/tabular.js:256-265`). A deferred `updateRecords` can therefore
  still run after `Stop` and call `self.changed`
  (`server/tabular.js:144, 166-169`); whether a stopped subscription delivers
  that call is up to the transport, which is not modelled. `Subscription.Stop` states that the throttle state is
  unchanged, and `Subscription.FireDeferred` has no precondition about open
  handles.
- An `added` id is appended with no duplicate check (`server/tabular.js:190`).
  The list is free of duplicates only when the feed never reports a present
  id again (`IdLists.ReplayTracksMatches`).
- The throttle's own default interval is 250 ms. The publication creates it
  with 500 ms (`server/tabular.js:155, 179`).

Two behaviours of the throttle as written are worth knowing. Both are stated
as lemmas.

- `last` is tested for truthiness, so a `last` of 0 never holds a call back
  (`Throttling.LastZeroNeverHoldsBack`).
- The immediate branch does not cancel a pending call. A stale trailing call
  can therefore run after a fresh leading one and move `last` back in time
  (`Throttling.StalePendingMovesLastBack`).

## Model

| member | source | states |
|---|---|---|
| `GetInfo.CoerceLimit` | server/tabular.js:71-73 | the limit used is never 0; a limit of 0 becomes 1 and every other limit is kept |
| `GetInfo.Setup` | server/tabular.js:58-117 | an unknown table name, and only that, fails with the source's error message; `allow` returning false, and only that, yields `ready()` with no data; otherwise the query uses the effective selector and the requested skip, sort and coerced (non-zero) limit |
| `Selectors.NormalizeClient` | server/tabular.js:86 | a null or absent client selector becomes `{}`; an object is kept as it is |
| `Selectors.ResolveTableSelector` | server/tabular.js:99-101 | the join happens exactly when the table has a selector; a literal and a truthy function result are used as they are; a falsy function result becomes `{}` |
| `Selectors.EffectiveSelector` | server/tabular.js:86-106 | with no table selector the effective selector is the (hooked) client selector, null or absent normalised to `{}`; with a table selector (literal or function result) it is the join of that selector with the hooked client selector, so an absent client selector gives a literal table selector unchanged and two non-empty selectors give `{$and: [table, client]}` |
| `Selectors.CombineCases` | server/tabular.js:103-105 | an empty client selector yields the table selector; an empty table selector yields the client selector; otherwise exactly `{$and: [table, client]}`, table first, no key merging |
| `Selectors.CombineMatchesBoth` | server/tabular.js:93-105 | the joined selector matches a document exactly when both the table and the client selector match it, whatever the field tests are |
| `Selectors.EffectiveSelectorMatches` | server/tabular.js:86-106 | the effective selector matches exactly what the hooked client selector matches, narrowed by the table selector when there is one |
| `Selectors.RemovalSelectorTranslates` | server/tabular.js:226-236 | the removal-log selector always has `collection` equal to the collection name; it never has `className`, `created_at` or `updated_at`; an old- key takes the original's value exactly when that value was truthy; every other key is unchanged |
| `IdLists.Without` | server/tabular.js:195 | `_.without` drops every occurrence of the id and keeps every occurrence of every other id |
| `IdLists.WithoutDistributes` | server/tabular.js:195 | `_.without` applies piecewise over any split of the list, so the kept ids keep their relative order |
| `IdLists.WithoutAbsent` | server/tabular.js:193-197 | removing an id that is not in the list leaves the list unchanged |
| `IdLists.ReplayTracksMatches` | server/tabular.js:186-198 | replaying add and remove events, where no add is for an id already present, keeps the list free of duplicates and equal as a set to the ids the data store currently matches |
| `Throttling.EffectiveThreshold` | server/tabular.js:155 | a falsy interval becomes the default of 250; any other interval is kept; the result is positive |
| `Throttling.StepsKeepSchedule` | server/tabular.js:163-175 | a call runs at once exactly when it falls outside the window of `last`; then it sets `last` to now and keeps the pending call; otherwise it runs nothing and replaces the pending call with one due an interval later that carries its own arguments |
| `Throttling.BurstIsCoalesced` | server/tabular.js:163-170 | calls made in order after the last execution, all inside its window and before any pending timer runs out, run nothing at once and leave exactly one pending call, the last call's, due one interval after it |
| `Throttling.BurstAfterQuietPeriod` | server/tabular.js:154-177 | after a quiet period with nothing pending, the first call of a burst runs at once; the rest of the burst becomes one deferred call with the latest arguments; when it fires, `last` becomes that call's time |
| `Throttling.StalePendingMovesLastBack` | server/tabular.js:163-175 | for every state with a pending call and every call outside the window: the call runs at once and sets `last` to its time, the pending call is kept, and when it fires it runs its own arguments and sets `last` to its scheduling time, which moves `last` back when that time is earlier |
| `Throttling.LastZeroNeverHoldsBack` | server/tabular.js:163 | with `last` equal to 0 every call runs at once and sets `last` to its time, whatever the interval and whatever is pending |
| `Throttling.Throttle.constructor` | server/tabular.js:154-156 | a new throttle has the effective interval, no `last` and no pending call |
| `Throttling.Throttle.Call` | server/tabular.js:158-176 | one call of the wrapper: it runs at once or is deferred, as the pure step says, and keeps every pending call due one interval after the call that made it |
| `Throttling.Throttle.Fire` | server/tabular.js:166-169 | the timer runs the pending call's arguments and sets `last` to the time of the call that scheduled it; with no pending call nothing happens |
| `GetInfo.EmissionKeepsLog` | server/tabular.js:127-150 | a run of `updateRecords` sends `added` exactly when the record has not been sent, carries the current ids and count, and keeps the log well formed: `added` once and first, `changed` after, both totals equal |
| `GetInfo.ReadyKeepsLog` | server/tabular.js:250-251 | `ready()` after the first record keeps the log well formed |
| `GetInfo.Subscription.Start` | server/tabular.js:119-295 | the page's ids are read, the three feeds are opened on the selector, the record is sent as `added` with those ids and the count, then `ready()`; the user observer is opened only when the table asks for it |
| `GetInfo.Subscription.UpdateRecords` | server/tabular.js:129-150 | sends the current ids with `recordsTotal == recordsFiltered == count`: as `added` the first time, setting `recordReady`, and as `changed` afterwards |
| `GetInfo.Subscription.TriggerUpdate` | server/tabular.js:179 | the throttled `updateRecords`: the throttle steps, and the record is sent only when the throttle lets the call through |
| `GetInfo.Subscription.FireDeferred` | server/tabular.js:166-169 | the deferred timer runs `updateRecords` exactly when a call is pending, even after the subscription stopped, appending the record it passes to `self.changed` (or `self.added`) to the log |
| `GetInfo.Subscription.OpenFilteredFeed` | server/tabular.js:185-186 | opens a new handle on the filtered query of the current selector, with `initializing1` set |
| `GetInfo.Subscription.EndFilteredInitialization` | server/tabular.js:199 | clears `initializing1` |
| `GetInfo.Subscription.OpenCountFeeds` | server/tabular.js:203-244 | opens new handles on the count probe and on the removal log, the latter with the removal selector of the current selector, with `initializing2` set |
| `GetInfo.Subscription.EndCountInitialization` | server/tabular.js:246 | clears `initializing2` |
| `GetInfo.Subscription.Observe` | server/tabular.js:183-247 | opens three new, distinct handles on queries built from the current selector and leaves both initializing flags clear |
| `GetInfo.Subscription.StopObservers` | server/tabular.js:256-260 | stops the three current handles |
| `GetInfo.Subscription.OnFilteredAdded` | server/tabular.js:187-192 | ignored while `initializing1`; otherwise appends the id at the end, keeping all earlier entries and with no duplicate check, then calls the throttled update |
| `GetInfo.Subscription.OnFilteredRemoved` | server/tabular.js:193-197 | drops every occurrence of the id whatever the initializing flag says, then calls the throttled update |
| `GetInfo.Subscription.OnProbeAdded` | server/tabular.js:220-224 | calls the throttled update unless `initializing2`; the id list is untouched |
| `GetInfo.Subscription.OnRemovalLogAdded` | server/tabular.js:240-244 | calls the throttled update unless `initializing2`; the id list is untouched |
| `GetInfo.Subscription.OnUserChanged` | server/tabular.js:269-292 | changes nothing unless the config has its own `selector` that differs by value from the current one; otherwise it re-binds |
| `GetInfo.Subscription.Rebind` | server/tabular.js:276-289 | the selector becomes exactly the config's selector; the id list is the new query's; the old handles are stopped; new ones watch the new selector and its removal selector; the throttled update is called |
| `GetInfo.Subscription.Stop` | server/tabular.js:262-265 | stops the three feeds and the user observer; the throttle's pending call is left in place, and the log, ids, selector, handles and initializing flags are unchanged |
| `GetInfo.Publish` | server/tabular.js:54-296 | an unknown table throws, a refused `allow` yields only `ready()`, and otherwise a live subscription starts for the table name and its collection, on the setup's selector and options, holding the page's ids, with `added` then `ready()` sent, the throttle's `last` set to the start time with nothing pending, and the user observer open exactly when the table asks for it; the subscription and its throttle are new objects, so the caller can drive every callback |

## Left out

- The `tabular_genericPub` publication (`server/tabular.js:20-52`): it is a chain of early `ready()` returns around one query.
- Meteor's `check`/`Match` runtime type checks: the argument types of `Request` take their place.
- The data store (`find`, `.map`, `.count()`, `observeChanges`, `Meteor.users.find().observe`): query results and counts are inputs, and change events are method calls.
- The table's hooks (`allow`, `changeSelector`, a function-valued `table.selector`, the user-observation config hook): only their results are modelled. `allow` is a boolean; a falsy non-boolean result is not distinguished.
- Real timers and `Date`: time is an explicit integer clock. The model does not tie `FireDeferred` to the moment the clock reaches the pending call's due time.
- `console.log`.
- Record ids are strings compared by value (`IdLists.Id`). Object ids (`Mongo.ObjectID`) are not modelled. `_.without` compares them by identity (`server/tabular.js:195`), so for such ids the source may keep an id the model drops.
- Values are JSON-like with integer numbers. Floating point and `NaN` are not modelled. `null` and `undefined` are one value. A non-object selector (a string, a number, an array) is not modelled.
- `Subscription.OnUserChanged`: the removed-user case is not modelled, because the source registers only a `changed` callback.
- `GetInfo.Subscription.UpdateRecords`: the record's `ids` are a value copy. In the source they are the same array that later `push` calls mutate.
