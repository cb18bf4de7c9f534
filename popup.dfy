/** The popup's `IPManager` object: the host document, the selected
    environment, the settings, the current host list and the active tag
    chips, and the operations that change them in place. Each operation is
    proved against the specification function of the store, query or import
    rule it carries out. */
module Popup {
  import opened Js
  import opened Hosts
  import opened SettingsStore
  import opened Forms
  import opened Store
  import opened HostQuery
  import opened Backup

  /** How the background answered one `healthProbe` message: a response with
      its `success` flag and `responseTime`, no response at all (the callback
      got `undefined`), or the send threw. */
  datatype PopupReply = Response(success: bool, responseTime: Option<int>) | NoResponse | Thrown

  /** The record after the popup's sweep probed it at time `now`: online with
      the reply's response time only when a response arrived and reported
      success; offline otherwise, with the response time left as it was. The
      method field and everything else are left alone. */
  function PopupProbed(h: Host, reply: PopupReply, now: int): (r: Host)
    ensures r.healthStatus == Some(Online) <==> reply.Response? && reply.success
    ensures r.healthStatus == Some(Online) || r.healthStatus == Some(Offline)
    ensures r.lastHealthCheck == Some(now)
    ensures r.healthStatus == Some(Online) ==> r.responseTime == reply.responseTime
    ensures r.healthStatus != Some(Online) ==> r.responseTime == h.responseTime
    ensures r.(healthStatus := h.healthStatus, lastHealthCheck := h.lastHealthCheck, responseTime := h.responseTime) == h
  {
    if reply.Response? && reply.success then
      h.(healthStatus := Some(Online), lastHealthCheck := Some(now), responseTime := reply.responseTime)
    else
      h.(healthStatus := Some(Offline), lastHealthCheck := Some(now))
  }

  /** The record as the list shows it while its probe is under way. */
  function Marked(h: Host): (r: Host)
    ensures r.healthStatus == Some(Checking)
    ensures r.(healthStatus := h.healthStatus) == h
  {
    h.(healthStatus := Some(Checking))
  }

  /** Marking a record as checking does not change where its probe ends. */
  lemma ProbedAfterMarking(h: Host, reply: PopupReply, now: int)
    ensures PopupProbed(Marked(h), reply, now) == PopupProbed(h, reply, now)
  {
  }

  /** The inner loop of the popup's sweep over one environment's list, whose
      hosts are the ones numbered from `first`: each record is marked as
      checking (the marked records are returned in `shown`, in order), then
      given its outcome. */
  method CheckList(items: seq<Host>, replies: seq<PopupReply>, times: seq<int>, first: nat)
    returns (checked: seq<Host>, ghost shown: seq<Host>)
    requires first + |items| <= |replies| <= |times|
    ensures ProbedItems(items, checked, replies, times, first)
    ensures |shown| == |items| && forall m :: 0 <= m < |items| ==> shown[m] == Marked(items[m])
  {
    checked := items;
    shown := [];
    var k := 0;
    while k < |items|
      invariant 0 <= k <= |items| == |checked|
      invariant |shown| == k
      invariant forall m :: 0 <= m < k ==> checked[m] == PopupProbed(items[m], replies[first + m], times[first + m])
      invariant forall m :: 0 <= m < k ==> shown[m] == Marked(items[m])
      invariant forall m :: k <= m < |items| ==> checked[m] == items[m]
    {
      var host := checked[k].(healthStatus := Some(Checking));
      shown := shown + [host];
      var reply := replies[first + k];
      if reply.Response? && reply.success {
        host := host.(healthStatus := Some(Online), lastHealthCheck := Some(times[first + k]),
                      responseTime := reply.responseTime);
      } else {
        host := host.(healthStatus := Some(Offline), lastHealthCheck := Some(times[first + k]));
      }
      checked := checked[k := host];
      k := k + 1;
    }
  }

  /** `after` is the list `before` with the outcomes of the replies numbered
      from `first` written onto it, in order. */
  predicate ProbedItems(before: seq<Host>, after: seq<Host>, replies: seq<PopupReply>, times: seq<int>, first: nat) {
    && |after| == |before|
    && first + |before| <= |replies|
    && first + |before| <= |times|
    && forall m :: 0 <= m < |before| ==> after[m] == PopupProbed(before[m], replies[first + m], times[first + m])
  }

  /** Every record of `after` is the record at the same place in `before`
      given its probe's outcome (the hosts of environment `e` get the replies
      from `Offset(before, e)` on), and the lists keep their shape. */
  predicate ProbedAll(before: seq<Env>, after: seq<Env>, replies: seq<PopupReply>, times: seq<int>)
  {
    && SameShape(after, before)
    && forall e :: 0 <= e < |before| ==>
         ProbedItems(before[e].items, after[e].items, replies, times, Offset(before, e))
  }

  /** `shown` is every host of `envs`, in flattened order, marked as checking. */
  ghost predicate ShownInOrder(envs: seq<Env>, shown: seq<Host>) {
    |shown| == |Flatten(envs)| && MarkedPrefix(envs, shown)
  }

  /** `shown` is the first hosts of `envs`, in flattened order, marked as
      checking. */
  ghost predicate MarkedPrefix(envs: seq<Env>, shown: seq<Host>) {
    |shown| <= |Flatten(envs)| && forall i :: 0 <= i < |shown| ==> shown[i] == Marked(Flatten(envs)[i])
  }

  /** The loop of the popup's `performHealthChecks` over every host: each
      record is marked as checking, then given the outcome of its probe; a
      failed send does not stop the loop. */
  method CheckAll(envs: seq<Env>, replies: seq<PopupReply>, times: seq<int>)
    returns (after: seq<Env>, ghost shown: seq<Host>)
    requires |replies| == |times| == TotalHosts(envs)
    ensures ProbedAll(envs, after, replies, times)
    ensures ShownInOrder(envs, shown)
  {
    FlattenLength(envs);
    shown := [];
    after := envs;
    var i := 0;
    var e := 0;
    while e < |envs|
      invariant 0 <= e <= |envs|
      invariant i == Offset(envs, e) && |shown| == i
      invariant SameShape(after, envs)
      invariant forall j :: 0 <= j < e ==> ProbedItems(envs[j].items, after[j].items, replies, times, Offset(envs, j))
      invariant forall j :: e <= j < |envs| ==> after[j] == envs[j]
      invariant MarkedPrefix(envs, shown)
    {
      var items, marked := CheckList(envs[e].items, replies, times, i);
      ShownStep(envs, e, shown, marked);
      shown := shown + marked;
      after := after[e := after[e].(items := items)];
      OffsetNext(envs, e);
      i := i + |items|;
      e := e + 1;
    }
  }

  /** Appending one environment's marked records keeps `shown` in flattened
      order. */
  lemma ShownStep(envs: seq<Env>, e: nat, shown: seq<Host>, marked: seq<Host>)
    requires e < |envs| && |shown| == Offset(envs, e) && MarkedPrefix(envs, shown)
    requires |marked| == |envs[e].items| && forall m :: 0 <= m < |marked| ==> marked[m] == Marked(envs[e].items[m])
    ensures |shown + marked| == Offset(envs, e + 1)
    ensures MarkedPrefix(envs, shown + marked)
  {
    OffsetNext(envs, e);
    FlattenLength(envs);
    var r := shown + marked;
    forall j | 0 <= j < |r|
      ensures r[j] == Marked(Flatten(envs)[j])
    {
      if j >= |shown| {
        var m := j - |shown|;
        FlattenAt(envs, e, m);
        assert r[j] == marked[m];
      } else {
        assert r[j] == shown[j];
      }
    }
  }

  /** The scan shared by `saveHost` and `deleteHost`: environments in order,
      `findIndex` on each list, stopping at the first hit. */
  method FindHost(envs: seq<Env>, id: string) returns (found: Option<Position>)
    ensures found == LocateHost(envs, id)
  {
    var e := 0;
    while e < |envs|
      invariant 0 <= e <= |envs|
      invariant forall j :: 0 <= j < e ==> IndexOfHost(envs[j].items, id).None?
    {
      var index := IndexOfHost(envs[e].items, id);
      if index.Some? {
        assert LocateHost(envs, id) == Some(Position(e, index.value));
        return Some(Position(e, index.value));
      }
      e := e + 1;
    }
    assert LocateHost(envs, id).None?;
    return None;
  }

  /** `saveHost` on the list of environments, once the record is built: a blank name or
      address changes nothing; otherwise the record is pushed onto the target
      environment (add), or the edited record is found by scanning the
      environments and either moved to the target or replaced where it is
      (edit). */
  method SaveIntoEnvs(envs0: seq<Env>, mode: FormMode, record: Host, editingId: string, freshId: string)
    returns (envs: seq<Env>)
    ensures envs == SavedEnvs(envs0, mode, record, editingId, freshId)
  {
    envs := envs0;
    if record.name == [] || record.ip == [] {
      return;
    }
    var target := TargetEnv(envs, record.environment);
    if target.None? {
      return;
    }
    var t := target.value;
    if mode == AddMode {
      envs := envs[t := envs[t].(items := envs[t].items + [record.(id := freshId)])];
      return;
    }
    var found := FindHost(envs, editingId);
    if found.None? {
      return;
    }
    var e, k := found.value.env, found.value.index;
    var moved := record.(id := editingId);
    if envs[e].id != envs[t].id {
      var source := envs[e].items;
      envs := envs[e := envs[e].(items := source[..k] + source[k + 1..])];
      envs := envs[t := envs[t].(items := envs[t].items + [moved])];
    } else {
      envs := envs[e := envs[e].(items := envs[e].items[k := moved])];
    }
  }

  /** The popup's state. */
  class IPManager {
    var data: Document
    var currentEnv: string
    var settings: Settings
    var filteredItems: seq<FlatItem>
    var activeTags: set<string>

    /** A fresh popup: one empty `default` environment, the popup's own
        defaults (health probing on), nothing listed and no tag active. */
    constructor()
      ensures data == DefaultDocument && currentEnv == "default" && settings == PopupDefaults
      ensures filteredItems == [] && activeTags == {}
    {
      data := DefaultDocument;
      currentEnv := "default";
      settings := PopupDefaults;
      filteredItems := [];
      activeTags := {};
    }

    /** `loadData`: a stored document replaces the built-in one; with nothing
        stored the document stays as it is. */
    method LoadData(stored: Option<Document>)
      modifies this
      ensures data == if stored.Some? then stored.value else old(data)
      ensures currentEnv == old(currentEnv) && settings == old(settings)
      ensures filteredItems == old(filteredItems) && activeTags == old(activeTags)
    {
      if stored.Some? {
        data := stored.value;
      }
    }

    /** `loadSettings`: the stored keys are spread over the current settings. */
    method LoadSettings(stored: Option<StoredSettings>)
      modifies this
      ensures settings == if stored.Some? then Merge(old(settings), stored.value) else old(settings)
      ensures data == old(data) && currentEnv == old(currentEnv)
      ensures filteredItems == old(filteredItems) && activeTags == old(activeTags)
    {
      if stored.Some? {
        settings := Merge(settings, stored.value);
      }
    }

    /** `saveHost`: the record is built from the form (its id is set by the
        store rule) and saved into the document. */
    method SaveHost(mode: FormMode, form: HostForm, editingId: string, freshId: string)
      modifies this
      ensures data == old(data).(envs := SavedEnvs(old(data.envs), mode, FormHost(form, ""), editingId, freshId))
      ensures currentEnv == old(currentEnv) && settings == old(settings)
      ensures filteredItems == old(filteredItems) && activeTags == old(activeTags)
    {
      SaveHostData(mode, FormHost(form, ""), editingId, freshId);
    }

    /** The part of `saveHost` after `hostData` is built. */
    method SaveHostData(mode: FormMode, hostData: Host, editingId: string, freshId: string)
      modifies this
      ensures data == old(data).(envs := SavedEnvs(old(data.envs), mode, hostData, editingId, freshId))
      ensures currentEnv == old(currentEnv) && settings == old(settings)
      ensures filteredItems == old(filteredItems) && activeTags == old(activeTags)
    {
      var envs := SaveIntoEnvs(data.envs, mode, hostData, editingId, freshId);
      data := data.(envs := envs);
    }

    /** `deleteHost`: when confirmed, the first record with the id, in the
        first environment holding it, is spliced out and the scan stops;
        nothing changes when the id is absent or the deletion is not
        confirmed. */
    method DeleteHost(id: string, confirmed: bool)
      modifies this
      ensures data == old(data).(envs := if confirmed then DeletedEnvs(old(data.envs), id) else old(data.envs))
      ensures currentEnv == old(currentEnv) && settings == old(settings)
      ensures filteredItems == old(filteredItems) && activeTags == old(activeTags)
    {
      if !confirmed {
        return;
      }
      var envs := data.envs;
      var found := FindHost(envs, id);
      if found.Some? {
        var e, k := found.value.env, found.value.index;
        var items := envs[e].items;
        data := data.(envs := envs[e := envs[e].(items := items[..k] + items[k + 1..])]);
      }
    }

    /** `addNewEnvironment`: a prompt answer whose trim is not empty (`None`
        when the prompt is cancelled) appends an empty environment with a
        fresh id and the trimmed name. */
    method AddNewEnvironment(answer: Option<string>, freshId: string)
      modifies this
      ensures data == old(data).(envs := AddedEnvs(old(data.envs), answer, freshId))
      ensures currentEnv == old(currentEnv) && settings == old(settings)
      ensures filteredItems == old(filteredItems) && activeTags == old(activeTags)
    {
      if answer.Some? && Trim(answer.value) != [] {
        var env := Env(freshId, Trim(answer.value), []);
        data := data.(envs := data.envs + [env]);
      }
    }

    /** `filterItems` without its rendering: the list becomes the query over
        the document for the search box text, the environment selector's
        value and the active tags. */
    method FilterItems(searchInput: string, selectedEnv: string)
      modifies this
      ensures filteredItems == Query(data.envs, searchInput, selectedEnv, activeTags)
      ensures data == old(data) && currentEnv == old(currentEnv)
      ensures settings == old(settings) && activeTags == old(activeTags)
    {
      filteredItems := Query(data.envs, searchInput, selectedEnv, activeTags);
    }

    /** A click on a tag chip: the tag is switched off when active and on
        otherwise, then the list is refreshed. */
    method ToggleTag(tag: string, searchInput: string, selectedEnv: string)
      modifies this
      ensures activeTags == Toggled(old(activeTags), tag)
      ensures filteredItems == Query(data.envs, searchInput, selectedEnv, activeTags)
      ensures data == old(data) && currentEnv == old(currentEnv) && settings == old(settings)
    {
      if tag in activeTags {
        activeTags := activeTags - {tag};
      } else {
        activeTags := activeTags + {tag};
      }
      FilterItems(searchInput, selectedEnv);
    }

    /** The popup's `performHealthChecks`: nothing when probing is disabled;
        otherwise every host is checked as `CheckAll` describes, the
        document keeps its version, and the marked records are returned in
        `shown`. */
    method PerformHealthChecks(replies: seq<PopupReply>, times: seq<int>) returns (ghost shown: seq<Host>)
      requires settings.enableHealthProbe ==> |replies| == |times| == TotalHosts(data.envs)
      modifies this
      ensures !old(settings.enableHealthProbe) ==> data == old(data)
      ensures old(settings.enableHealthProbe) ==>
        data.version == old(data.version) && ProbedAll(old(data.envs), data.envs, replies, times)
      ensures old(settings.enableHealthProbe) ==> ShownInOrder(old(data.envs), shown)
      ensures currentEnv == old(currentEnv) && settings == old(settings)
      ensures filteredItems == old(filteredItems) && activeTags == old(activeTags)
    {
      shown := [];
      if !settings.enableHealthProbe {
        return;
      }
      var after;
      after, shown := CheckAll(data.envs, replies, times);
      data := data.(envs := after);
    }

    /** `handleFileImport` after parsing: `imported` is the document the file
        holds, `parsed` its JSON value (`None` when it does not parse). The
        document is replaced only when the import test accepts the value. */
    method HandleFileImport(parsed: Option<Json>, imported: Document)
      modifies this
      ensures data == if ImportDecision(parsed).Accepted? then imported else old(data)
      ensures currentEnv == old(currentEnv) && settings == old(settings)
      ensures filteredItems == old(filteredItems) && activeTags == old(activeTags)
    {
      match ImportDecision(parsed) {
        case Accepted(_) =>
          data := imported;
        case _ =>
      }
    }
  }

  /** The active tags after a click on `tag`'s chip: its membership flips and
      every other tag keeps its state. */
  function Toggled(active: set<string>, tag: string): (r: set<string>)
    ensures tag in r <==> tag !in active
    ensures r - {tag} == active - {tag}
  {
    if tag in active then active - {tag} else active + {tag}
  }

  /** Clicking the same chip twice (`ToggleTag` twice) leaves the active tags
      as they were. */
  lemma ToggleTwice(active: set<string>, tag: string)
    ensures Toggled(Toggled(active, tag), tag) == active
  {
  }
}
