/** The DataView component: the shaping of fetched records into table rows
    and headers, the route of a row, the enablement of the three index
    buttons, and the migrate / create / delete operations with their busy
    flags, notifications and refreshes.

    `ser` stands for `JSON.stringify(_, null, 2)`, whose text is not
    modelled; it is applied to structured values only. */
module DataView {
  import opened Js
  import HomePage

  /** The page sizes the limit selector offers. */
  const LimitOptions: seq<string> := ["10", "20", "50", "100"]

  /** The limit HomePage starts with, and resets to on every model selection,
      is the first option the selector offers. */
  lemma InitialLimitIsOffered()
    ensures HomePage.InitialLimit == Str(LimitOptions[0])
  {
  }

  datatype Operation = Migrate | Create | Delete

  /** How an operation's POST settles: a reply whose `success` is truthy, a
      reply without it (including a null reply, whose `res.success` throws
      into the `catch`), or a rejected request. */
  datatype Outcome = Success | LogicalFailure | TransportFailure

  datatype Level = Succeeded | Failed

  /** A toast sent to the notification channel. */
  datatype Notice = Notice(level: Level, op: Operation, model: Option<string>)

  /** A POST to `/elastic/migrate-model`, `/elastic/create-index` or
      `/elastic/delete-index` with body `{ model }`. */
  datatype OpRequest = OpRequest(op: Operation, model: Option<string>)

  datatype Header = Header(name: string, value: string)

  /** The value a table cell shows for a field value. */
  function ShapeValue(v: Value, ser: Value -> string): (w: Value)
    ensures !IsObject(w)
    ensures IsObject(v) ==> w == Str(ser(v))
    ensures !IsObject(v) ==> w == v
  {
    if IsObject(v) then Str(ser(v)) else v
  }

  /** The shaped copy of a present record: the same keys in the same order,
      each value shaped. */
  function ShapedFields(r: Record, ser: Value -> string): (t: Record)
    ensures Keys(t) == Keys(r)
    ensures forall i :: 0 <= i < |r| ==> t[i] == Field(r[i].key, ShapeValue(r[i].value, ser))
  {
    var t := seq(|r|, i requires 0 <= i < |r| => Field(r[i].key, ShapeValue(r[i].value, ser)));
    assert Keys(t) == Keys(r);
    t
  }

  /** The row `tableData` makes of one element of `data`; a null or absent
      element gives the empty object. */
  function Shaped(obj: Option<Record>, ser: Value -> string): (t: Record)
    ensures obj.None? ==> t == []
    ensures obj.Some? ==> Keys(t) == Keys(obj.value)
  {
    match obj
    case None => []
    case Some(r) => ShapedFields(r, ser)
  }

  /** A shaped record, read by key, gives the shaped value of the original. */
  lemma {:induction false} ShapedGet(r: Record, ser: Value -> string, k: string)
    ensures Get(ShapedFields(r, ser), k) ==
            match Get(r, k)
            case None => None
            case Some(v) => Some(ShapeValue(v, ser))
    decreases |r|
  {
    if r != [] {
      var tail := Tail(r);
      var t := ShapedFields(r, ser);
      var tt := Tail(t);
      assert tt == ShapedFields(tail, ser);
      ShapedGet(tail, ser, k);
    }
  }

  /** A record with no structured field is returned as it is. */
  lemma ShapedPlainUnchanged(r: Record, ser: Value -> string)
    requires forall i :: 0 <= i < |r| ==> !IsObject(r[i].value)
    ensures ShapedFields(r, ser) == r
  {
  }

  /** Shaping twice is shaping once. */
  lemma ShapedIdempotent(r: Record, ser: Value -> string)
    ensures ShapedFields(ShapedFields(r, ser), ser) == ShapedFields(r, ser)
  {
  }

  /** One turn of the `for...in` loop: assigning the next field's shaped
      value to the shaped prefix appends it. */
  lemma ShapeStep(r: Record, ser: Value -> string, n: nat)
    requires n < |r|
    ensures Assign(ShapedFields(r[..n], ser), r[n].key, ShapeValue(r[n].value, ser)) ==
            ShapedFields(r[..n + 1], ser)
  {
    var prefix := ShapedFields(r[..n], ser);
    assert r[n].key !in Keys(prefix) by {
      assert forall j :: 0 <= j < n ==> Keys(prefix)[j] == r[j].key;
    }
    var whole := ShapedFields(r[..n + 1], ser);
    assert forall j :: 0 <= j < n ==> whole[j] == prefix[j];
    assert whole == prefix + [Field(r[n].key, ShapeValue(r[n].value, ser))];
  }

  /** The `for...in` loop of `tableData` that fills `newObj`. */
  method ShapeRecord(dataObject: Option<Record>, ser: Value -> string) returns (newObj: Record)
    ensures newObj == Shaped(dataObject, ser)
  {
    newObj := [];
    if dataObject.None? {
      return;
    }
    var r := dataObject.value;
    var i := 0;
    while i < |r|
      invariant 0 <= i <= |r|
      invariant newObj == ShapedFields(r[..i], ser)
    {
      var key := r[i].key;
      var value := r[i].value;
      ShapeStep(r, ser, i);
      if IsObject(value) {
        newObj := Assign(newObj, key, Str(ser(value)));
      } else {
        newObj := Assign(newObj, key, value);
      }
      i := i + 1;
    }
    assert r[..i] == r;
  }

  /** `tableData`: one shaped row per element of `data`, none when `data` is
      absent or empty. */
  function TableData(data: Option<seq<Option<Record>>>, ser: Value -> string): (rows: seq<Record>)
    ensures data.None? ==> rows == []
    ensures data.Some? ==> |rows| == |data.value|
    ensures forall i :: 0 <= i < |rows| ==> rows[i] == Shaped(data.value[i], ser)
  {
    match data
    case None => []
    case Some(d) => seq(|d|, i requires 0 <= i < |d| => Shaped(d[i], ser))
  }

  /** `tableHeaders`: a `{name: k, value: k}` header per key of the first
      record. `None` when that record is null or absent, where
      `Object.keys` throws. */
  function TableHeaders(data: Option<seq<Option<Record>>>): (h: Option<seq<Header>>)
    ensures (data.None? || data.value == []) ==> h == Some([])
    ensures data.Some? && data.value != [] ==> (h.None? <==> data.value[0].None?)
    ensures data.Some? && data.value != [] && h.Some? ==>
      var ks := Keys(data.value[0].value);
      |h.value| == |ks| && forall i :: 0 <= i < |ks| ==> h.value[i] == Header(ks[i], ks[i])
  {
    match data
    case None => Some([])
    case Some(d) =>
      if d == [] then Some([])
      else match d[0]
        case None => None
        case Some(first) =>
          var ks := Keys(first);
          Some(seq(|ks|, i requires 0 <= i < |ks| => Header(ks[i], ks[i])))
  }

  function HeaderNames(h: seq<Header>): (names: seq<string>)
    ensures |names| == |h|
    ensures forall i :: 0 <= i < |h| ==> names[i] == h[i].name
  {
    seq(|h|, i requires 0 <= i < |h| => h[i].name)
  }

  /** The headers name exactly the columns of the first row, in order. */
  lemma HeadersMatchFirstRow(data: Option<seq<Option<Record>>>, ser: Value -> string)
    requires TableHeaders(data).Some? && TableData(data, ser) != []
    ensures HeaderNames(TableHeaders(data).value) == Keys(TableData(data, ser)[0])
  {
  }

  const RoutePrefix := "/plugins/content-manager/collectionType/"

  /** The route `onClickRow` pushes for the row whose `id` reads as `id`. */
  function RowRoute(m: HomePage.Model, id: string): (route: string)
    ensures TruthyString(m.plugin) ==>
      route == RoutePrefix + "plugins::" + m.plugin.value + "." + Show(m.model) + "/" + id
    ensures !TruthyString(m.plugin) ==>
      route == RoutePrefix + "application::" + Show(m.model) + "." + Show(m.model) + "/" + id
  {
    var uid :=
      if TruthyString(m.plugin) then "plugins::" + m.plugin.value + "." + Show(m.model)
      else "application::" + Show(m.model) + "." + Show(m.model);
    RoutePrefix + uid + "/" + id
  }

  /** A plugin model's rows and an application model's rows never share a
      route. */
  lemma RouteSeparatesNamespaces(m: HomePage.Model, n: HomePage.Model, id: string, id': string)
    requires TruthyString(m.plugin) && !TruthyString(n.plugin)
    ensures RowRoute(m, id) != RowRoute(n, id')
  {
    var k := |RoutePrefix|;
    assert RowRoute(m, id)[k] == 'p';
    assert RowRoute(n, id')[k] == 'a';
  }

  /** Within one model, the route names the row: distinct ids give distinct
      routes. */
  lemma RouteDeterminesId(m: HomePage.Model, id: string, id': string)
    requires RowRoute(m, id) == RowRoute(m, id')
    ensures id == id'
  {
    var stem := RowRoute(m, "");
    assert RowRoute(m, id) == stem + id;
    assert RowRoute(m, id') == stem + id';
    assert id == (stem + id)[|stem|..];
    assert id' == (stem + id')[|stem|..];
  }

  /** The `disabled` prop of each button. */
  predicate Disabled(op: Operation, isMigrateActive: bool, isCreated: bool, isDeleted: bool)
    ensures op == Migrate ==> (Disabled(op, isMigrateActive, isCreated, isDeleted) <==> !isMigrateActive)
    ensures op == Create ==> (Disabled(op, isMigrateActive, isCreated, isDeleted) <==> isCreated)
    ensures op == Delete ==> (Disabled(op, isMigrateActive, isCreated, isDeleted) <==> isDeleted)
  {
    match op
    case Migrate => !isMigrateActive
    case Create => isCreated
    case Delete => isDeleted
  }

  /** Whether settling an operation with an outcome calls `refreshData`. */
  predicate Refreshes(op: Operation, outcome: Outcome)
    ensures op != Create ==> (Refreshes(op, outcome) <==> outcome == Success)
    ensures op == Create ==> (Refreshes(op, outcome) <==> outcome != TransportFailure)
  {
    match op
    case Migrate => outcome == Success
    case Delete => outcome == Success
    case Create =>
      match outcome
      case Success => true
      case LogicalFailure => true
      case TransportFailure => false
  }

  /** The level of the one notification every settlement sends. */
  function LevelOf(outcome: Outcome): (level: Level)
    ensures level == Succeeded <==> outcome == Success
  {
    if outcome == Success then Succeeded else Failed
  }

  /** The migrate button is enabled exactly for a model whose `migration`
      is true. */
  lemma MigrateEnabledIffMigration(m: HomePage.Model, isCreated: bool, isDeleted: bool)
    ensures !Disabled(Migrate, HomePage.IsMigrateActive(m), isCreated, isDeleted) <==>
            m.migration == Some(true)
  {
  }

  /** After a fetch whose reply carries a status, the create button is
      disabled exactly when the index exists and the delete button exactly
      when it is deleted. */
  lemma ButtonsFollowStatus(s: HomePage.Snapshot, body: HomePage.FetchBody)
    requires body.status.Some?
    ensures var t := HomePage.FetchSettled(s, HomePage.Resolved(body));
      var st := body.status.value;
      var active := HomePage.IsMigrateActive(t.activeModel);
      (Disabled(Create, active, t.isCreated, t.isDeleted) <==> st.created) &&
      (Disabled(Delete, active, t.isCreated, t.isDeleted) <==> st.deleted) &&
      (Disabled(Migrate, active, t.isCreated, t.isDeleted) <==>
         !HomePage.IsMigrateActive(s.activeModel))
  {
  }

  /** One value per operation kind. */
  datatype PerOp<T> = PerOp(migrate: T, create: T, delete: T) {

    function Of(op: Operation): T {
      match op
      case Migrate => migrate
      case Create => create
      case Delete => delete
    }

    /** These values with the one of `op` replaced by `x`. */
    function With(op: Operation, x: T): (p: PerOp<T>)
      ensures p.Of(op) == x
      ensures op != Migrate ==> p.migrate == migrate
      ensures op != Create ==> p.create == create
      ensures op != Delete ==> p.delete == delete
    {
      match op
      case Migrate => this.(migrate := x)
      case Create => this.(create := x)
      case Delete => this.(delete := x)
    }
  }

  /** The state of one DataView: its three busy flags, plus the logs of the
      requests and notifications it has sent. `home` supplies its props and
      `refreshData`. */
  class DataView {
    const home: HomePage.HomePage
    /** `isMigrating`, `isCreating` and `isDeleting`: three independent
        `useState(false)` hooks. */
    var busy: PerOp<bool>
    /** The POSTs issued so far, oldest first. */
    var requests: seq<OpRequest>
    /** The notifications sent so far, oldest first. */
    var notices: seq<Notice>
    /** For each operation, the models of its requests not yet settled. */
    ghost var pending: PerOp<multiset<Option<string>>>

    /** A busy flag is only up while a request of its kind is unsettled. */
    ghost predicate Valid()
      reads this
    {
      && (busy.migrate ==> |pending.migrate| > 0)
      && (busy.create ==> |pending.create| > 0)
      && (busy.delete ==> |pending.delete| > 0)
    }

    /** The `disabled` prop of the button for `op`, from the props. */
    function ButtonDisabled(op: Operation): (r: bool)
      reads home
      ensures op == Migrate ==> (r <==> home.activeModel.migration != Some(true))
      ensures op == Create ==> (r <==> home.isCreated)
      ensures op == Delete ==> (r <==> home.isDeleted)
    {
      Disabled(op, HomePage.IsMigrateActive(home.activeModel), home.isCreated, home.isDeleted)
    }

    constructor (home: HomePage.HomePage)
      ensures this.home == home && Valid()
      ensures busy == PerOp(false, false, false)
      ensures requests == [] && notices == []
      ensures pending == PerOp(multiset{}, multiset{}, multiset{})
    {
      this.home := home;
      busy := PerOp(false, false, false);
      requests, notices := [], [];
      pending := PerOp(multiset{}, multiset{}, multiset{});
    }

    /** `migrate`, `createIndex` or `deleteIndex` called with the active
      model's name: raise the operation's own busy flag and send the POST.
      Nothing stops a second call while the first is unsettled. */
    method Dispatch(op: Operation)
      requires Valid()
      modifies this
      ensures Valid()
      ensures busy == old(busy).With(op, true)
      ensures requests == old(requests) + [OpRequest(op, home.activeModel.model)]
      ensures notices == old(notices)
      ensures pending == old(pending).With(op, old(pending).Of(op) + multiset{home.activeModel.model})
    {
      var model := home.activeModel.model;
      Raise(op, model);
      requests := requests + [OpRequest(op, model)];
    }

    /** `setIsMigrating(true)`, `setIsCreating(true)` or `setIsDeleting(true)`;
      a request for `model` is now unsettled. */
    method Raise(op: Operation, model: Option<string>)
      requires Valid()
      modifies this`busy, this`pending
      ensures Valid()
      ensures busy == old(busy).With(op, true)
      ensures pending == old(pending).With(op, old(pending).Of(op) + multiset{model})
    {
      busy := busy.With(op, true);
      pending := pending.With(op, pending.Of(op) + multiset{model});
    }

    /** A click on the button for `op`, which does nothing while the button
      is disabled. */
    method Press(op: Operation)
      requires Valid()
      modifies this
      ensures Valid()
      ensures ButtonDisabled(op) ==>
        requests == old(requests) && busy == old(busy)
      ensures !ButtonDisabled(op) ==>
        requests == old(requests) + [OpRequest(op, home.activeModel.model)] &&
        busy == old(busy).With(op, true)
      ensures pending ==
        if ButtonDisabled(op) then old(pending)
        else old(pending).With(op, old(pending).Of(op) + multiset{home.activeModel.model})
      ensures notices == old(notices)
    {
      var disabled := ButtonDisabled(op);
      if !disabled {
        Dispatch(op);
      }
    }

    /** The settlement of one unsettled request of `op` for `model`: the
      `then`, `catch` and `finally` callbacks. Every outcome sends one
      notification and lowers the operation's own flag; whether
      `refreshData` runs is `Refreshes(op, outcome)`. */
    method Settle(op: Operation, model: Option<string>, outcome: Outcome)
      requires Valid() && home.Valid()
      requires model in pending.Of(op)
      modifies this, home
      ensures Valid() && home.Valid()
      ensures busy == old(busy).With(op, false)
      ensures requests == old(requests)
      ensures notices == old(notices) + [Notice(LevelOf(outcome), op, model)]
      ensures pending == old(pending).With(op, old(pending).Of(op) - multiset{model})
      ensures home.State() ==
        if Refreshes(op, outcome) then HomePage.FetchDispatched(old(home.State()))
        else old(home.State())
      ensures home.fetchesInFlight == old(home.fetchesInFlight) +
        if Refreshes(op, outcome) && HomePage.HasIndex(old(home.activeModel)) then 1 else 0
      ensures home.registryPending == old(home.registryPending)
    {
      match op {
        case Migrate => SettleMigrate(model, outcome);
        case Delete => SettleDelete(model, outcome);
        case Create => SettleCreate(model, outcome);
      }
    }

    /** The callbacks of `migrate`: notify, and refresh on success only. */
    method SettleMigrate(model: Option<string>, outcome: Outcome)
      requires Valid() && home.Valid()
      requires model in pending.Of(Migrate)
      modifies this, home
      ensures Valid() && home.Valid()
      ensures busy == old(busy).With(Migrate, false)
      ensures requests == old(requests)
      ensures notices == old(notices) + [Notice(LevelOf(outcome), Migrate, model)]
      ensures pending == old(pending).With(Migrate, old(pending).Of(Migrate) - multiset{model})
      ensures home.State() ==
        if outcome == Success then HomePage.FetchDispatched(old(home.State()))
        else old(home.State())
      ensures home.fetchesInFlight == old(home.fetchesInFlight) +
        if outcome == Success && HomePage.HasIndex(old(home.activeModel)) then 1 else 0
      ensures home.registryPending == old(home.registryPending)
    {
      match outcome {
        case Success =>
          Notify(Succeeded, Migrate, model);
          home.FetchData();
        case LogicalFailure =>
          Notify(Failed, Migrate, model);
        case TransportFailure =>
          Notify(Failed, Migrate, model);
      }
      Lower(Migrate, model);
    }

    /** The callbacks of `deleteIndex`: refresh on success only, notify. */
    method SettleDelete(model: Option<string>, outcome: Outcome)
      requires Valid() && home.Valid()
      requires model in pending.Of(Delete)
      modifies this, home
      ensures Valid() && home.Valid()
      ensures busy == old(busy).With(Delete, false)
      ensures requests == old(requests)
      ensures notices == old(notices) + [Notice(LevelOf(outcome), Delete, model)]
      ensures pending == old(pending).With(Delete, old(pending).Of(Delete) - multiset{model})
      ensures home.State() ==
        if outcome == Success then HomePage.FetchDispatched(old(home.State()))
        else old(home.State())
      ensures home.fetchesInFlight == old(home.fetchesInFlight) +
        if outcome == Success && HomePage.HasIndex(old(home.activeModel)) then 1 else 0
      ensures home.registryPending == old(home.registryPending)
    {
      match outcome {
        case Success =>
          home.FetchData();
          Notify(Succeeded, Delete, model);
        case LogicalFailure =>
          Notify(Failed, Delete, model);
        case TransportFailure =>
          Notify(Failed, Delete, model);
      }
      Lower(Delete, model);
    }

    /** The callbacks of `createIndex`: refresh on every resolved reply
      (before looking at `success`), notify. */
    method SettleCreate(model: Option<string>, outcome: Outcome)
      requires Valid() && home.Valid()
      requires model in pending.Of(Create)
      modifies this, home
      ensures Valid() && home.Valid()
      ensures busy == old(busy).With(Create, false)
      ensures requests == old(requests)
      ensures notices == old(notices) + [Notice(LevelOf(outcome), Create, model)]
      ensures pending == old(pending).With(Create, old(pending).Of(Create) - multiset{model})
      ensures home.State() ==
        if outcome != TransportFailure then HomePage.FetchDispatched(old(home.State()))
        else old(home.State())
      ensures home.fetchesInFlight == old(home.fetchesInFlight) +
        if outcome != TransportFailure && HomePage.HasIndex(old(home.activeModel)) then 1 else 0
      ensures home.registryPending == old(home.registryPending)
    {
      match outcome {
        case Success =>
          home.FetchData();
          Notify(Succeeded, Create, model);
        case LogicalFailure =>
          home.FetchData();
          Notify(Failed, Create, model);
        case TransportFailure =>
          Notify(Failed, Create, model);
      }
      Lower(Create, model);
    }

    /** A `strapi.notification` call. */
    method Notify(level: Level, op: Operation, model: Option<string>)
      modifies this`notices
      ensures notices == old(notices) + [Notice(level, op, model)]
      ensures busy == old(busy) && pending == old(pending) && requests == old(requests)
    {
      notices := notices + [Notice(level, op, model)];
    }

    /** The `finally` callback: lower the flag of `op`; the request for
      `model` is settled. */
    method Lower(op: Operation, model: Option<string>)
      requires Valid() && model in pending.Of(op)
      modifies this`busy, this`pending
      ensures Valid()
      ensures busy == old(busy).With(op, false)
      ensures pending == old(pending).With(op, old(pending).Of(op) - multiset{model})
      ensures notices == old(notices) && requests == old(requests)
    {
      busy := busy.With(op, false);
      pending := pending.With(op, pending.Of(op) - multiset{model});
    }
  }
}
