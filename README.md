# strapi-elastic admin panel: a Dafny model of its controller

The admin panel of the strapi-elastic plugin is made of two React components:

- `HomePage` holds:
  - the registry of indexed models and the active model;
  - the pagination (`page`, `limit`);
  - the `loading` flag;
  - the index status of the active model (`isCreated`, `isDeleted`, `hasMapping`);
  - the fetched page of records and its `totalCount`.
- `DataView` does four things:
  - turns the fetched records into table rows and headers;
  - builds the route of a clicked row;
  - enables the migrate, create and delete buttons;
  - runs those three operations, each with its own busy flag, a notification and, depending on the outcome, a refresh of the data.

This project models both components in three modules:

- `Js` (`js.dfy`) covers the JavaScript values the panel receives:
  - JSON-like values, with `Structured` for everything lodash's `isObject` accepts;
  - truthiness;
  - plain objects as records with distinct keys in enumeration order;
  - `Object.keys`, property read and property assignment;
  - reading a property that may be absent (`StringProperty`, `BoolProperty`, giving `undefined` when it is absent), and the text a template literal prints for one (`Show`, "undefined" when absent, as in the row route).
- `HomePage` (`home_page.dfy`) has:
  - a `Snapshot` datatype of the component's state;
  - one pure transition function per event;
  - the class `HomePage`, whose fields are the `useState` hooks. Each method is proved to move its state exactly as its transition function says.
- `DataView` (`data_view.dfy`) has:
  - the pure shaping, header, route, button and refresh rules;
  - the `for...in` loop of `tableData` as the method `ShapeRecord`;
  - the class `DataView`. It holds the busy flags, a log of the POSTs it sent and a log of its notifications, and calls its parent `HomePage` for `refreshData`.

Each asynchronous request is two events:

- a dispatch, which logs the request;
- a settlement, which applies the reply. A fetch settles as `Resolved(body)` or `Rejected`. An index operation settles as `Success`, `LogicalFailure` or `TransportFailure`.

Ghost counters of unsettled requests do two jobs:

- they let a settlement require that a matching dispatch happened;
- they carry the invariants "`loading` only while a fetch is outstanding" and "a busy flag only while a request of its kind is outstanding".

The React effect on `[activeModel, page, limit]` is the flag `fetchScheduled`. Every change to one of the three raises it, and `RunFetchEffect` consumes it.

## Behaviour of the code

The controller is less defensive than a reader might expect. The model keeps these behaviours of the code:

- The component's own code has no duplicate-dispatch guard. The click handlers check nothing, and the `disabled` prop of each button does not depend on the busy flags. `Press` checks `disabled`; `Dispatch` has no guard at all. Each busy flag is passed to its button only as `isLoading`, whose effect lies in the `Button` component and is not modelled (see `DataView.DataView.Press` under "## Left out").
- There is no stale-response check. A fetch reply is applied whatever the active model and pagination are by then (`SettlementIgnoresSelection`).
- A settlement does not always refresh:
  - migrate and delete refresh only on success;
  - create refreshes on every resolved reply, but not on a transport failure (`Refreshes`).
- A fetch reply is not applied atomically. `res.status.created` is read first, so a body without `status` throws before any setter runs and nothing is applied. The then-callback runs five separate setters; the model takes them as one step.
- `limit` is not restricted to `LIMIT_OPTIONS`. `onChangeParams` stores any value it is given.
- A failed fetch produces no notification and leaves the previous data, status and total in place.

## Model

| member | source | states |
|---|---|---|
| Js.Keys | admin/src/pages/DataView/index.js:29 | `Object.keys` lists every field's key once, in field order. |
| Js.IsObject | admin/src/pages/DataView/index.js:42 | lodash `isObject` holds exactly for the values that are not primitives (`undefined`, `null`, booleans, numbers, strings). |
| Js.Truthy | admin/src/pages/HomePage/index.js:59 | A value is truthy exactly when it is none of the falsy values `undefined`, `null`, `false`, `0` and `""`. |
| Js.TruthyString | admin/src/pages/HomePage/index.js:45 | A property that is absent or holds a string is truthy exactly when the value read from it is truthy. |
| Js.Get | admin/src/pages/DataView/index.js:42 | Reading `obj[k]` finds a value exactly when `k` is one of the object's keys, and that value is the one of the field keyed `k`. |
| Js.Assign | admin/src/pages/DataView/index.js:43-45 | `obj[k] = v` keeps the key order. A new key is appended after the others, with the other fields unchanged. |
| Js.AssignGet | admin/src/pages/DataView/index.js:43-45 | After `obj[k] = v`, reading `k` gives `v` and every other key reads as before. |
| HomePage.HasIndex | admin/src/pages/HomePage/index.js:45 | `activeModel && activeModel.index` holds exactly when the model's `index` property is truthy. |
| HomePage.IsMigrateActive | admin/src/pages/HomePage/index.js:104 | `isMigrateActive` is `!!activeModel?.migration`: true exactly when the `migration` property is truthy. |
| HomePage.Initial | admin/src/pages/HomePage/index.js:13-26 | The initial state has page 1, limit "10" and total 10. The three status flags are true, `loading` is false, and the models, active model and data are empty. The registry request has been issued and the fetch effect is due. |
| HomePage.TotalOrDefault | admin/src/pages/HomePage/index.js:59 | `res.total \|\| 10` is truthy. It is `res.total` when that is truthy, and 10 when it is falsy (0 included). |
| HomePage.Rescheduled | admin/src/pages/HomePage/index.js:78-80 | The fetch effect becomes due exactly when it already was, or when `activeModel`, `page` or `limit` changed. Nothing else changes. |
| HomePage.ParamsChanged | admin/src/pages/HomePage/index.js:28-41 | `params._page` changes only `page`, `params._limit` changes only `limit`, any other name changes nothing. The fetch effect is due exactly when it already was, or when the value changed. |
| HomePage.ModelSelected | admin/src/pages/HomePage/index.js:89-93 | Selection sets `page` to 1, `limit` to "10" and the active model to the chosen one. Nothing else changes. The fetch effect is due exactly when it already was, or when the model, page or limit differs from before. |
| HomePage.RegistryLoaded | admin/src/pages/HomePage/index.js:70-75 | A non-empty reply replaces `models` and makes `res[0]` active. An empty, null or rejected reply changes nothing. The fetch effect is due exactly when it already was or the active model changed. |
| HomePage.FetchDispatched | admin/src/pages/HomePage/index.js:44-53 | The state is unchanged exactly when the active model has no index. Otherwise `loading` is set and one request for the index, page and limit is logged. |
| HomePage.FetchSettled | admin/src/pages/HomePage/index.js:54-61 | `loading` is always cleared. A reply with a status replaces the status, data and total (`TotalOrDefault`). A rejected reply, or one without a status, changes nothing else. |
| HomePage.EffectRun | admin/src/pages/HomePage/index.js:78-80 | Running the effect leaves it not due. It fetches when it was due and is the identity otherwise. |
| HomePage.SelectionForgetsPagination | admin/src/pages/HomePage/index.js:89-93 | Whatever the page and limit were, selecting a model yields the same state, apart from whether the fetch effect is due. |
| HomePage.PageChangeFetchesOnce | admin/src/pages/HomePage/index.js:28-80 | Changing the page and then running the effect issues exactly one request, with the new page and the old limit. Running the effect again issues none. |
| HomePage.LimitChangeFetchesOnce | admin/src/pages/HomePage/index.js:28-80 | The limit counterpart of the previous row. |
| HomePage.SelectionFetchesFirstPage | admin/src/pages/HomePage/index.js:78-93 | Selecting a different model that has an index, then running the effect, requests page 1 with limit "10" of that model's index. |
| HomePage.RegistryFetchesFirstModel | admin/src/pages/HomePage/index.js:65-80 | A non-empty registry reply whose first entry has an index and is not already active, followed by the effect, requests that entry's records at the current page and limit. |
| HomePage.SettlementIgnoresSelection | admin/src/pages/HomePage/index.js:54-60 | The applied data, status and total do not depend on the active model, page or limit at settlement time. |
| HomePage.HomePage.constructor | admin/src/pages/HomePage/index.js:13-26 | The initial state has page 1, limit "10" and total 10; the three status flags are true, `loading` is false and the models, active model and data are empty. The registry request has been issued and the fetch effect is due. |
| HomePage.HomePage.OnChangeParams | admin/src/pages/HomePage/index.js:28-41 | The new state is `ParamsChanged` of the old one, and no fetch is started or settled. |
| HomePage.HomePage.SetActiveModel | admin/src/pages/HomePage/index.js:89-93 | The new state is `ModelSelected` of the old one. |
| HomePage.HomePage.ReceiveModels | admin/src/pages/HomePage/index.js:65-76 | The new state is `RegistryLoaded` of the old one. The registry request is no longer pending. |
| HomePage.HomePage.FetchData | admin/src/pages/HomePage/index.js:44-53 | The new state is `FetchDispatched` of the old one. One more fetch is outstanding exactly when the model has an index, and `loading` implies an outstanding fetch. |
| HomePage.HomePage.SettleFetch | admin/src/pages/HomePage/index.js:54-61 | The new state is `FetchSettled` of the old one. One fetch fewer is outstanding. |
| HomePage.HomePage.RunFetchEffect | admin/src/pages/HomePage/index.js:78-80 | The new state is `EffectRun` of the old one. One more fetch is outstanding exactly when the effect was due and the active model has an index. |
| DataView.InitialLimitIsOffered | admin/src/pages/DataView/index.js:10 | The initial limit "10" is the first of the offered page sizes. |
| DataView.ShapeValue | admin/src/pages/DataView/index.js:42-46 | A structured value becomes its serialisation and any other value passes through. The result is never structured. |
| DataView.ShapedFields | admin/src/pages/DataView/index.js:41-47 | Shaping keeps the keys in order and shapes each value in place. |
| DataView.Shaped | admin/src/pages/DataView/index.js:38-49 | A null or absent element gives the empty object. A present record keeps its keys. |
| DataView.ShapedGet | admin/src/pages/DataView/index.js:41-47 | Reading a key of the shaped record gives the shaped value of the original, and a key absent from the record stays absent. |
| DataView.ShapedPlainUnchanged | admin/src/pages/DataView/index.js:41-47 | A record with no structured field is returned unchanged. |
| DataView.ShapedIdempotent | admin/src/pages/DataView/index.js:41-47 | Shaping an already shaped record changes nothing. |
| DataView.ShapeStep | admin/src/pages/DataView/index.js:41-47 | One turn of the loop appends the next field, shaped, to the object built so far. |
| DataView.ShapeRecord | admin/src/pages/DataView/index.js:38-49 | The `for...in` loop with property assignment builds exactly `Shaped` of the element. |
| DataView.TableData | admin/src/pages/DataView/index.js:34-53 | There is one row per element of `data`, each the shaped element. Null or empty `data` gives no rows. |
| DataView.TableHeaders | admin/src/pages/DataView/index.js:26-32 | Null or empty `data` gives no headers. Otherwise there is one `{name: k, value: k}` per key of `data[0]`, in order, or an exception when `data[0]` is null. |
| DataView.HeadersMatchFirstRow | admin/src/pages/DataView/index.js:26-53 | The header names are exactly the keys of the first row, in order. |
| DataView.RowRoute | admin/src/pages/DataView/index.js:164-171 | The route is `plugins::<plugin>.<model>` when `plugin` is truthy and `application::<model>.<model>` otherwise, after the content-manager prefix and before `/<id>`. |
| DataView.RouteSeparatesNamespaces | admin/src/pages/DataView/index.js:166-169 | A row of a plugin model and a row of an application model never share a route. |
| DataView.RouteDeterminesId | admin/src/pages/DataView/index.js:164-171 | Within one model, distinct row ids give distinct routes. |
| DataView.Refreshes | admin/src/pages/DataView/index.js:65-109 | Migrate and delete refresh exactly on success. Create refreshes exactly when the request did not fail in transport. |
| DataView.LevelOf | admin/src/pages/DataView/index.js:65-109 | A settlement notifies success exactly when the reply's `success` is truthy. |
| DataView.MigrateEnabledIffMigration | admin/src/pages/DataView/index.js:124 | The migrate button is enabled exactly when the active model's `migration` is true. |
| DataView.ButtonsFollowStatus | admin/src/pages/DataView/index.js:128-149 | After a fetch with a status, create is disabled exactly when the index exists and delete exactly when it is deleted. The migrate button does not change. |
| DataView.PerOp.With | admin/src/pages/DataView/index.js:55-57 | Setting one operation's value leaves the other two unchanged. |
| DataView.Disabled | admin/src/pages/DataView/index.js:117-149 | From the props: migrate is disabled exactly when `!isMigrateActive`, create exactly when `isCreated`, delete exactly when `isDeleted`. |
| DataView.DataView.ButtonDisabled | admin/src/pages/DataView/index.js:117-149 | Migrate is disabled exactly when the active model is not migration-enabled, create exactly when `isCreated`, delete exactly when `isDeleted`. |
| DataView.DataView.constructor | admin/src/pages/DataView/index.js:55-57 | All three busy flags start false, and no request or notification has been sent. |
| DataView.DataView.Raise | admin/src/pages/DataView/index.js:55-60 | Only the operation's own busy flag is raised, and its request is now unsettled. |
| DataView.DataView.Dispatch | admin/src/pages/DataView/index.js:59-100 | Only the operation's own flag is raised, and one POST with the active model's name is logged. No notification is sent, and there is no check for a request already in flight. |
| DataView.DataView.Press | admin/src/pages/DataView/index.js:117-149 | A click on a disabled button does nothing. Otherwise it dispatches the operation: its flag is raised, its POST is logged, and its request is unsettled. |
| DataView.DataView.Settle | admin/src/pages/DataView/index.js:65-111 | Every settlement lowers the operation's own flag and sends one notification of level `LevelOf(outcome)`. It refreshes HomePage exactly when `Refreshes(op, outcome)`, which adds one outstanding fetch when the active model has an index. The registry request is untouched. |
| DataView.DataView.SettleMigrate | admin/src/pages/DataView/index.js:65-72 | Migrate notifies, refreshes on success only, and lowers `isMigrating`. |
| DataView.DataView.SettleDelete | admin/src/pages/DataView/index.js:81-92 | Delete refreshes on success only, notifies, and lowers `isDeleting`. |
| DataView.DataView.SettleCreate | admin/src/pages/DataView/index.js:101-110 | Create refreshes on every resolved reply before reading `success`, notifies, and lowers `isCreating`. |
| DataView.DataView.Notify | admin/src/pages/DataView/index.js:67-109 | One notification is appended to the log, and nothing else changes. |
| DataView.DataView.Lower | admin/src/pages/DataView/index.js:72-110 | The `finally` callback lowers only the operation's own flag, and its request is settled. |

## Left out

- HTTP: `request`, the endpoint URLs and the query strings are not modelled. A request is a logged value (`Request`, `OpRequest`); its reply is a parameter of the settlement method.
- Notifications: the message texts are not modelled. A notification is its level, its operation and the model name.
- Rendering is not modelled: JSX, `Table`, `Select`, `LoadingBar`, `LeftMenu`, `memo`, and the `h2` title. The route string is modelled; `history.push` is not.
- DataView.DataView.Press: the `isLoading` prop each button receives from its busy flag (DataView/index.js:119, 130, 141) is taken to change only how the button looks. The `Button` component's handling of it is not part of this model, so a click on a busy but enabled button dispatches a second request of the same kind. If `Button` ignores clicks while loading, the interface blocks that second click and `Press` allows more than the real panel does.
- Serialisation: `JSON.stringify(value, null, 2)` is the function parameter `ser`, whose text is not modelled. lodash `isObject` is the `Structured` tag, so functions and other exotic objects are not distinguished.
- Numbers are mathematical integers: no floats, no `NaN`.
- Index status fields are booleans. The backend's values are not checked for type, so a non-boolean status value is not modelled.
- Effect scheduling is a single flag, `fetchScheduled`. The model does not capture React batching, render timing, or the stale closure by which `refreshData` is the `fetchData` of the render that created the callback. A refresh reads HomePage's current state.
- Effect dependencies are compared by value. React compares them by reference, so a new registry entry equal to the active one would still re-run the effect in React.
- A field named `__proto__` is not modelled. `JSON.parse` makes it an own property, so `Object.keys` gives it a header. But `newObj["__proto__"] = …` goes through the prototype setter and creates no property of the row. For such a record `Shaped`, `ShapedPlainUnchanged`, `HeadersMatchFirstRow` and the key-preservation of `ShapedFields` do not hold in the code.
- An element of `data` that is truthy but not an object, such as a number or a string, is not modelled; every element is a record or absent. The ordering that `for...in` gives integer-like keys is not modelled either; keys keep their given order.
- The registry request's rejection is unhandled in the code (an unhandled promise rejection). The model treats it as changing nothing.
- A null reply to an operation is folded into `LogicalFailure`. Reading `res.success` throws into the `catch`, which has the same effect: for create after the refresh, for migrate and delete with no refresh.
- The order in which a notification and a refresh happen within one settlement is not recorded: they go to two separate logs.
- The commented-out pagination block at admin/src/pages/DataView/index.js:182-191 is dead code and is not modelled.
