/** The HomePage component: the model registry, the active model, the
    pagination parameters, the index status of the active model and its
    fetched page of records.

    Each asynchronous request is a dispatch (which logs the request) and a
    later settlement (which applies the reply). The React effect that runs
    `fetchData` when `activeModel`, `page` or `limit` changes is the flag
    `fetchScheduled`, raised by every state change that touches one of the
    three and consumed by `RunFetchEffect`. */
module HomePage {
  import opened Js

  /** A registry entry; `{}` (no properties) is `NoModel`. */
  datatype Model = Model(
    model: Option<string>,
    plugin: Option<string>,
    index: Option<string>,
    migration: Option<bool>)

  const NoModel := Model(None, None, None, None)

  /** `status` of a `/elastic/model` reply. */
  datatype IndexStatus = IndexStatus(created: bool, deleted: bool, hasMapping: bool)

  /** A `/elastic/model` reply body. `status` is `None` when the body is null
      or has no `status`, so that reading `res.status.created` throws. */
  datatype FetchBody = FetchBody(
    status: Option<IndexStatus>,
    data: Option<seq<Option<Record>>>,
    total: Value)

  /** How a request settles: the promise resolves with a body, or rejects. */
  datatype Reply<T> = Resolved(body: T) | Rejected

  /** The GET requests HomePage issues. */
  datatype Request =
    | ModelsRequest
    | ModelRequest(index: string, page: Value, limit: Value)

  const InitialPage: Value := Num(1)
  const InitialLimit: Value := Str("10")
  const DefaultTotal: Value := Num(10)
  const PageParam := "params._page"
  const LimitParam := "params._limit"

  /** `activeModel && activeModel.index`: the model's `index` property is
      truthy (the active model, `{}` at worst, is always truthy). */
  predicate HasIndex(m: Model)
    ensures HasIndex(m) <==> Truthy(StringProperty(m.index))
  {
    TruthyString(m.index)
  }

  /** `!!activeModel?.migration`, the `isMigrateActive` prop of DataView. */
  predicate IsMigrateActive(m: Model)
    ensures IsMigrateActive(m) <==> Truthy(BoolProperty(m.migration))
  {
    m.migration == Some(true)
  }

  /** `res.total || 10`. */
  function TotalOrDefault(total: Value): (r: Value)
    ensures Truthy(r)
    ensures Truthy(total) ==> r == total
    ensures !Truthy(total) ==> r == Num(10)
  {
    if Truthy(total) then total else DefaultTotal
  }

  /** Every piece of HomePage state, plus the log of requests issued and the
      pending-effect flag. */
  datatype Snapshot = Snapshot(
    models: seq<Model>,
    activeModel: Model,
    modelData: Option<seq<Option<Record>>>,
    loading: bool,
    page: Value,
    limit: Value,
    totalCount: Value,
    isCreated: bool,
    isDeleted: bool,
    hasMapping: bool,
    requests: seq<Request>,
    fetchScheduled: bool)

  /** The state after the first render: the registry request has gone out
      and the fetch effect is due for its first run. */
  function Initial(): (s: Snapshot)
    ensures s.page == Num(1) && s.limit == Str("10") && s.totalCount == Num(10)
    ensures s.isCreated && s.isDeleted && s.hasMapping && !s.loading
    ensures s.models == [] && s.activeModel == NoModel && s.modelData == Some([])
    ensures s.requests == [ModelsRequest] && s.fetchScheduled
  {
    Snapshot([], NoModel, Some([]), false, InitialPage, InitialLimit, DefaultTotal,
             true, true, true, [ModelsRequest], true)
  }

  /** `after` with the fetch effect scheduled when a dependency changed. */
  function Rescheduled(before: Snapshot, after: Snapshot): (t: Snapshot)
    ensures t.(fetchScheduled := after.fetchScheduled) == after
    ensures t.fetchScheduled <==>
      before.fetchScheduled || after.activeModel != before.activeModel ||
      after.page != before.page || after.limit != before.limit
  {
    after.(fetchScheduled := before.fetchScheduled || after.activeModel != before.activeModel ||
                             after.page != before.page || after.limit != before.limit)
  }

  /** `onChangeParams({target: {name, value}})`. */
  function ParamsChanged(s: Snapshot, name: string, value: Value): (t: Snapshot)
    ensures t.page == if name == PageParam then value else s.page
    ensures t.limit == if name == LimitParam then value else s.limit
    ensures t.(page := s.page, limit := s.limit, fetchScheduled := s.fetchScheduled) == s
    ensures name != PageParam && name != LimitParam ==> t == s
    ensures t.fetchScheduled <==> s.fetchScheduled || t.page != s.page || t.limit != s.limit
  {
    var after :=
      if name == PageParam then s.(page := value)
      else if name == LimitParam then s.(limit := value)
      else s;
    Rescheduled(s, after)
  }

  /** The `setActiveModel` prop given to LeftMenu. */
  function ModelSelected(s: Snapshot, m: Model): (t: Snapshot)
    ensures t.activeModel == m && t.page == InitialPage && t.limit == InitialLimit
    ensures t.(activeModel := s.activeModel, page := s.page, limit := s.limit,
               fetchScheduled := s.fetchScheduled) == s
    ensures t.fetchScheduled <==>
      s.fetchScheduled || m != s.activeModel || s.page != InitialPage || s.limit != InitialLimit
  {
    Rescheduled(s, s.(page := InitialPage, limit := InitialLimit, activeModel := m))
  }

  /** The settlement of the registry request. `Resolved(None)` is a null or
      absent body. */
  function RegistryLoaded(s: Snapshot, reply: Reply<Option<seq<Model>>>): (t: Snapshot)
    ensures (reply.Resolved? && reply.body.Some? && |reply.body.value| > 0) ==>
      t.models == reply.body.value && t.activeModel == reply.body.value[0] &&
      t.(models := s.models, activeModel := s.activeModel, fetchScheduled := s.fetchScheduled) == s
    ensures !(reply.Resolved? && reply.body.Some? && |reply.body.value| > 0) ==> t == s
    ensures t.fetchScheduled <==> s.fetchScheduled || t.activeModel != s.activeModel
  {
    match reply
    case Resolved(Some(res)) =>
      if |res| > 0 then Rescheduled(s, s.(models := res, activeModel := res[0])) else s
    case _ => s
  }

  /** The dispatch half of `fetchData`. */
  function FetchDispatched(s: Snapshot): (t: Snapshot)
    ensures t == s <==> !HasIndex(s.activeModel)
    ensures HasIndex(s.activeModel) ==>
      t == s.(loading := true,
               requests := s.requests + [ModelRequest(s.activeModel.index.value, s.page, s.limit)])
  {
    if HasIndex(s.activeModel) then
      s.(loading := true,
         requests := s.requests + [ModelRequest(s.activeModel.index.value, s.page, s.limit)])
    else s
  }

  /** The settlement half of `fetchData`: the `then` callback (which throws
      on its first line when there is no status) and the `finally`. */
  function FetchSettled(s: Snapshot, reply: Reply<FetchBody>): (t: Snapshot)
    ensures !t.loading
    ensures (reply.Resolved? && reply.body.status.Some?) ==>
      var st := reply.body.status.value;
      t == s.(isCreated := st.created, isDeleted := st.deleted, hasMapping := st.hasMapping,
              modelData := reply.body.data, totalCount := TotalOrDefault(reply.body.total),
              loading := false)
    ensures !(reply.Resolved? && reply.body.status.Some?) ==> t == s.(loading := false)
  {
    var applied :=
      match reply
      case Resolved(FetchBody(Some(st), data, total)) =>
        s.(isCreated := st.created, isDeleted := st.deleted, hasMapping := st.hasMapping,
           modelData := data, totalCount := TotalOrDefault(total))
      case _ => s;
    applied.(loading := false)
  }

  /** The `useEffect` on `[activeModel, page, limit]`. */
  function EffectRun(s: Snapshot): (t: Snapshot)
    ensures !t.fetchScheduled
    ensures s.fetchScheduled ==> t == FetchDispatched(s.(fetchScheduled := false))
    ensures !s.fetchScheduled ==> t == s
  {
    if s.fetchScheduled then FetchDispatched(s.(fetchScheduled := false)) else s
  }

  /** Whatever the page and limit were, selecting a model yields the same
      state, apart from whether the fetch effect is due. */
  lemma SelectionForgetsPagination(s: Snapshot, page: Value, limit: Value, m: Model)
    ensures ModelSelected(s.(page := page, limit := limit), m).(fetchScheduled := false) ==
            ModelSelected(s, m).(fetchScheduled := false)
  {
  }

  /** Changing the page and then running the effect issues exactly one
      request, carrying the new page and the unchanged limit; a second run
      of the effect issues none. */
  lemma PageChangeFetchesOnce(s: Snapshot, value: Value)
    requires HasIndex(s.activeModel) && value != s.page
    ensures var t := EffectRun(ParamsChanged(s, PageParam, value));
      t.requests == s.requests + [ModelRequest(s.activeModel.index.value, value, s.limit)] &&
      EffectRun(t) == t
  {
  }

  /** The limit counterpart of PageChangeFetchesOnce. */
  lemma LimitChangeFetchesOnce(s: Snapshot, value: Value)
    requires HasIndex(s.activeModel) && value != s.limit
    ensures var t := EffectRun(ParamsChanged(s, LimitParam, value));
      t.requests == s.requests + [ModelRequest(s.activeModel.index.value, s.page, value)] &&
      EffectRun(t) == t
  {
  }

  /** Selecting a different model that has an index, then running the
      effect, requests that model's first page of ten records. */
  lemma SelectionFetchesFirstPage(s: Snapshot, m: Model)
    requires HasIndex(m) && m != s.activeModel
    ensures EffectRun(ModelSelected(s, m)).requests ==
            s.requests + [ModelRequest(m.index.value, InitialPage, InitialLimit)]
  {
  }

  /** A non-empty registry reply whose first entry has an index and is not
      already active, followed by the effect, requests that entry's records
      at the current page and limit: this is how the first model's data is
      fetched. */
  lemma RegistryFetchesFirstModel(s: Snapshot, res: seq<Model>)
    requires |res| > 0 && HasIndex(res[0]) && res[0] != s.activeModel
    ensures EffectRun(RegistryLoaded(s, Resolved(Some(res)))).requests ==
            s.requests + [ModelRequest(res[0].index.value, s.page, s.limit)]
  {
  }

  /** A settled fetch is applied whatever the active model, page and limit
      are by then: the reply is not compared with the request it answers. */
  lemma SettlementIgnoresSelection(s: Snapshot, m: Model, page: Value, limit: Value,
                                   reply: Reply<FetchBody>)
    ensures var t := FetchSettled(s.(activeModel := m, page := page, limit := limit), reply);
      var u := FetchSettled(s, reply);
      t.modelData == u.modelData && t.isCreated == u.isCreated &&
      t.isDeleted == u.isDeleted && t.hasMapping == u.hasMapping &&
      t.totalCount == u.totalCount
  {
  }

  class HomePage {
    var models: seq<Model>
    var activeModel: Model
    var modelData: Option<seq<Option<Record>>>
    var loading: bool
    var page: Value
    var limit: Value
    var totalCount: Value
    var isCreated: bool
    var isDeleted: bool
    var hasMapping: bool
    /** The GET requests issued so far, oldest first. */
    var requests: seq<Request>
    /** A change to activeModel, page or limit awaits the fetch effect. */
    var fetchScheduled: bool
    /** `/elastic/model` requests dispatched and not yet settled. */
    ghost var fetchesInFlight: nat
    /** The registry request has been dispatched and not yet settled. */
    ghost var registryPending: bool

    function State(): Snapshot
      reads this
    {
      Snapshot(models, activeModel, modelData, loading, page, limit, totalCount,
               isCreated, isDeleted, hasMapping, requests, fetchScheduled)
    }

    /** `loading` is only up while some fetch is outstanding. */
    ghost predicate Valid()
      reads this
    {
      loading ==> fetchesInFlight > 0
    }

    /** The first render and the registry-load effect. */
    constructor ()
      ensures Valid() && State() == Initial()
      ensures page == Num(1) && limit == Str("10") && totalCount == Num(10)
      ensures isCreated && isDeleted && hasMapping && !loading
      ensures models == [] && activeModel == NoModel && modelData == Some([])
      ensures fetchesInFlight == 0 && registryPending
    {
      models := [];
      activeModel := NoModel;
      modelData := Some([]);
      loading := false;
      page := InitialPage;
      limit := InitialLimit;
      totalCount := DefaultTotal;
      isCreated := true;
      isDeleted := true;
      hasMapping := true;
      requests := [ModelsRequest];
      fetchScheduled := true;
      fetchesInFlight := 0;
      registryPending := true;
    }

    method OnChangeParams(name: string, value: Value)
      requires Valid()
      modifies this
      ensures Valid() && State() == ParamsChanged(old(State()), name, value)
      ensures fetchesInFlight == old(fetchesInFlight) && registryPending == old(registryPending)
    {
      var before := State();
      if name == PageParam {
        page := value;
        assert State() == before.(page := value);
      } else if name == LimitParam {
        limit := value;
        assert State() == before.(limit := value);
      }
      fetchScheduled := Rescheduled(before, State()).fetchScheduled;
    }

    /** The wrapper LeftMenu calls: reset pagination, then select. */
    method SetActiveModel(m: Model)
      requires Valid()
      modifies this
      ensures Valid() && State() == ModelSelected(old(State()), m)
      ensures fetchesInFlight == old(fetchesInFlight) && registryPending == old(registryPending)
    {
      var before := State();
      page := InitialPage;
      limit := InitialLimit;
      activeModel := m;
      fetchScheduled := Rescheduled(before, State()).fetchScheduled;
    }

    /** The settlement of the registry request issued on mount. */
    method ReceiveModels(reply: Reply<Option<seq<Model>>>)
      requires Valid() && registryPending
      modifies this
      ensures Valid() && State() == RegistryLoaded(old(State()), reply)
      ensures fetchesInFlight == old(fetchesInFlight) && !registryPending
    {
      registryPending := false;
      if reply.Resolved? && reply.body.Some? && |reply.body.value| > 0 {
        var before := State();
        var res := reply.body.value;
        models := res;
        activeModel := res[0];
        fetchScheduled := Rescheduled(before, State()).fetchScheduled;
      }
    }

    /** `fetchData`: issue the request for the current page of the active
      model, or do nothing when it has no index. */
    method FetchData()
      requires Valid()
      modifies this
      ensures Valid() && State() == FetchDispatched(old(State()))
      ensures fetchesInFlight == old(fetchesInFlight) + (if HasIndex(old(activeModel)) then 1 else 0)
      ensures registryPending == old(registryPending)
    {
      if HasIndex(activeModel) {
        loading := true;
        requests := requests + [ModelRequest(activeModel.index.value, page, limit)];
        fetchesInFlight := fetchesInFlight + 1;
      }
    }

    /** The settlement of one outstanding `fetchData` request. */
    method SettleFetch(reply: Reply<FetchBody>)
      requires Valid() && fetchesInFlight > 0
      modifies this
      ensures Valid() && State() == FetchSettled(old(State()), reply)
      ensures fetchesInFlight == old(fetchesInFlight) - 1
      ensures registryPending == old(registryPending)
    {
      if reply.Resolved? && reply.body.status.Some? {
        var st := reply.body.status.value;
        isCreated := st.created;
        isDeleted := st.deleted;
        hasMapping := st.hasMapping;
        modelData := reply.body.data;
        totalCount := TotalOrDefault(reply.body.total);
      }
      loading := false;
      fetchesInFlight := fetchesInFlight - 1;
    }

    /** The effect on `[activeModel, page, limit]`, run after a render in
      which one of them changed. */
    method RunFetchEffect()
      requires Valid()
      modifies this
      ensures Valid() && State() == EffectRun(old(State()))
      ensures fetchesInFlight == old(fetchesInFlight) +
        if old(fetchScheduled) && HasIndex(old(activeModel)) then 1 else 0
      ensures registryPending == old(registryPending)
    {
      if fetchScheduled {
        fetchScheduled := false;
        FetchData();
      }
    }
  }
}
