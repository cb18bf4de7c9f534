/** What the popup's editing operations do to the environments of the host
    document: saving the host form (add or edit), deleting a host, appending
    an environment, and the two environment lookups. Each operation is a
    function from the old environment list to the new one; the popup's
    methods are proved to compute exactly these. */
module Store {
  import opened Js
  import opened Hosts

  /** The form's `dataset.mode`: `'add'`, or anything else, which saves as an
      edit. */
  datatype FormMode = AddMode | EditMode

  // ---------------------------------------------------------------------
  // Lookups
  // ---------------------------------------------------------------------

  /** `envs.find(e => e.id === id) || envs[0]`: the first environment with the
      id, else the first environment, else nothing. */
  function TargetEnv(envs: seq<Env>, id: string): (r: Option<nat>)
    ensures r.None? <==> envs == []
    ensures r.Some? ==> r.value < |envs|
    ensures r.Some? && envs[r.value].id != id ==> r.value == 0 && forall j :: 0 <= j < |envs| ==> envs[j].id != id
    ensures r.Some? && envs[r.value].id == id ==> forall j :: 0 <= j < r.value ==> envs[j].id != id
  {
    match FindEnv(envs, id)
    case Some(e) => Some(e)
    case None => if envs == [] then None else Some(0)
  }

  /** `getCurrentEnv`: the environment selected in the popup, or the first one. */
  function CurrentEnv(envs: seq<Env>, currentEnv: string): (r: Option<Env>)
    ensures r.None? <==> envs == []
    ensures r.Some? ==> r.value in envs
    ensures (exists j :: 0 <= j < |envs| && envs[j].id == currentEnv) ==> r.Some? && r.value.id == currentEnv
    ensures forall j :: 0 <= j < |envs| && envs[j].id == currentEnv && (forall i :: 0 <= i < j ==> envs[i].id != currentEnv) ==> r == Some(envs[j])
    ensures envs != [] && (forall j :: 0 <= j < |envs| ==> envs[j].id != currentEnv) ==> r == Some(envs[0])
    ensures r.Some? ==> r == Some(envs[TargetEnv(envs, currentEnv).value])
  {
    match TargetEnv(envs, currentEnv)
    case Some(e) => Some(envs[e])
    case None => None
  }

  /** `getEnvironmentName`: the name of the first environment with the id, or
      `'Default'` when there is none. */
  function EnvironmentName(envs: seq<Env>, envId: string): (r: string)
    ensures (forall j :: 0 <= j < |envs| ==> envs[j].id != envId) ==> r == "Default"
    ensures forall j :: 0 <= j < |envs| && envs[j].id == envId && (forall i :: 0 <= i < j ==> envs[i].id != envId) ==> r == envs[j].name
  {
    match FindEnv(envs, envId)
    case Some(e) => envs[e].name
    case None => "Default"
  }

  // ---------------------------------------------------------------------
  // saveHost
  // ---------------------------------------------------------------------

  /** The record passes validation: its (already trimmed) name and address
      are both non-empty. */
  predicate PassesValidation(record: Host) {
    record.name != [] && record.ip != []
  }

  /** The environments after `saveHost`, given the record built from the form
      (`FormHost`, whose id is then set). An invalid record changes nothing.
      Adding pushes the record, with the fresh id, onto the target environment
      (which does not exist, and nothing changes, when there are no
      environments). Editing looks for the record with `editingId`: if it is
      absent nothing changes; if it sits in an environment whose id differs
      from the target's, it is spliced out there and pushed onto the target;
      otherwise it is overwritten in place. */
  function SavedEnvs(envs: seq<Env>, mode: FormMode, record: Host, editingId: string, freshId: string): (r: seq<Env>)
    ensures |r| == |envs|
    ensures forall j :: 0 <= j < |envs| ==> r[j].id == envs[j].id && r[j].name == envs[j].name
  {
    if !PassesValidation(record) then envs
    else match TargetEnv(envs, record.environment)
      case None => envs
      case Some(t) =>
        if mode == AddMode then PushHost(envs, t, record.(id := freshId))
        else match LocateHost(envs, editingId)
          case None => envs
          case Some(p) =>
            if envs[p.env].id != envs[t].id then
              PushHost(RemoveHostAt(envs, p.env, p.index), t, record.(id := editingId))
            else
              ReplaceHostAt(envs, p.env, p.index, record.(id := editingId))
  }

  /** A blank name or address is refused and leaves every list as it was. */
  lemma SaveRejectsBlank(envs: seq<Env>, mode: FormMode, record: Host, editingId: string, freshId: string)
    requires record.name == [] || record.ip == []
    ensures SavedEnvs(envs, mode, record, editingId, freshId) == envs
  {
  }

  /** Adding appends exactly one record, carrying the fresh id, to the end of
      the target environment's list (the one whose id the form names, else the
      first); every other environment is unchanged; the id counts gain exactly
      the fresh id, so a fresh id keeps the ids unique. */
  lemma SaveAddEffect(envs: seq<Env>, record: Host, editingId: string, freshId: string)
    requires PassesValidation(record) && envs != []
    ensures var t := TargetEnv(envs, record.environment).value;
      var r := SavedEnvs(envs, AddMode, record, editingId, freshId);
      && |r| == |envs|
      && r[t].id == envs[t].id && r[t].name == envs[t].name
      && r[t].items == envs[t].items + [record.(id := freshId)]
      && (forall j :: 0 <= j < |envs| && j != t ==> r[j] == envs[j])
      && IdBag(r) == IdBag(envs) + multiset{freshId}
      && TotalHosts(r) == TotalHosts(envs) + 1
      && (UniqueIds(envs) && freshId !in IdBag(envs) ==> UniqueIds(r))
  {
    var t := TargetEnv(envs, record.environment).value;
    var h := record.(id := freshId);
    PushHostEffect(envs, t, h);
    if UniqueIds(envs) && freshId !in IdBag(envs) {
      UniqueAfterAdding(IdBag(envs), IdBag(PushHost(envs, t, h)), freshId);
    }
  }

  /** A bag of counts one that gains an id it did not hold still has counts one. */
  lemma UniqueAfterAdding(before: multiset<string>, after: multiset<string>, x: string)
    requires forall id | id in before :: before[id] == 1
    requires x !in before
    requires after == before + multiset{x}
    ensures forall id | id in after :: after[id] == 1
  {
  }

  /** Saving an edit for an id that no environment holds changes nothing. */
  lemma SaveEditMissing(envs: seq<Env>, record: Host, editingId: string, freshId: string)
    requires editingId !in IdBag(envs)
    ensures SavedEnvs(envs, EditMode, record, editingId, freshId) == envs
  {
    LocateHostFinds(envs, editingId);
  }

  /** In the move case, saving splices the record out and pushes it onto the
      target. */
  lemma SavedEditMoves(envs: seq<Env>, record: Host, editingId: string, freshId: string)
    requires PassesValidation(record) && envs != []
    requires LocateHost(envs, editingId).Some?
    requires var p := LocateHost(envs, editingId).value;
      envs[p.env].id != envs[TargetEnv(envs, record.environment).value].id
    ensures var t := TargetEnv(envs, record.environment).value;
      var p := LocateHost(envs, editingId).value;
      SavedEnvs(envs, EditMode, record, editingId, freshId)
        == PushHost(RemoveHostAt(envs, p.env, p.index), t, record.(id := editingId))
  {
  }

  /** Editing into a different environment splices the record out of the first
      environment holding its id, keeping the order of the rest, and pushes
      the new record, with the same id, onto the target; nothing else moves,
      the host count and every id count are unchanged, so with unique ids the
      edited id occurs exactly once afterwards. */
  lemma SaveEditMove(envs: seq<Env>, record: Host, editingId: string, freshId: string)
    requires PassesValidation(record) && envs != []
    requires LocateHost(envs, editingId).Some?
    requires var p := LocateHost(envs, editingId).value;
      envs[p.env].id != envs[TargetEnv(envs, record.environment).value].id
    ensures var t := TargetEnv(envs, record.environment).value;
      var p := LocateHost(envs, editingId).value;
      var s, k := p.env, p.index;
      var r := SavedEnvs(envs, EditMode, record, editingId, freshId);
      && s != t && |r| == |envs|
      && r[s].items == envs[s].items[..k] + envs[s].items[k + 1..]
      && r[t].items == envs[t].items + [record.(id := editingId)]
      && (forall j :: 0 <= j < |envs| ==> r[j].id == envs[j].id && r[j].name == envs[j].name)
      && (forall j :: 0 <= j < |envs| && j != s && j != t ==> r[j] == envs[j])
      && TotalHosts(r) == TotalHosts(envs)
      && IdBag(r) == IdBag(envs)
      && (UniqueIds(envs) ==> UniqueIds(r) && IdBag(r)[editingId] == 1)
  {
    var t := TargetEnv(envs, record.environment).value;
    var p := LocateHost(envs, editingId).value;
    var h := record.(id := editingId);
    SavedEditMoves(envs, record, editingId, freshId);
    MoveHostEffect(envs, p.env, p.index, t, h);
    LocateHostFinds(envs, editingId);
  }

  /** Splicing a record out of one list and pushing a record with the same id
      onto another list keeps the host count and every id count. */
  lemma MoveHostEffect(envs: seq<Env>, s: nat, k: nat, t: nat, h: Host)
    requires s < |envs| && k < |envs[s].items| && t < |envs| && s != t
    requires h.id == envs[s].items[k].id
    ensures var r := PushHost(RemoveHostAt(envs, s, k), t, h);
      && |r| == |envs|
      && r[s].items == envs[s].items[..k] + envs[s].items[k + 1..]
      && r[t].items == envs[t].items + [h]
      && (forall j :: 0 <= j < |envs| ==> r[j].id == envs[j].id && r[j].name == envs[j].name)
      && (forall j :: 0 <= j < |envs| && j != s && j != t ==> r[j] == envs[j])
      && TotalHosts(r) == TotalHosts(envs)
      && IdBag(r) == IdBag(envs)
      && (UniqueIds(envs) ==> UniqueIds(r) && (h.id in IdBag(r) ==> IdBag(r)[h.id] == 1))
  {
    var removed := RemoveHostAt(envs, s, k);
    RemoveHostAtEffect(envs, s, k);
    PushHostEffect(removed, t, h);
  }

  /** Editing within the environment that holds the record overwrites it at
      the same index: the list keeps its length, every other position and
      every other environment; the id counts and the host count are unchanged. */
  lemma SaveEditInPlace(envs: seq<Env>, record: Host, editingId: string, freshId: string)
    requires PassesValidation(record) && envs != []
    requires LocateHost(envs, editingId).Some?
    requires var p := LocateHost(envs, editingId).value;
      envs[p.env].id == envs[TargetEnv(envs, record.environment).value].id
    ensures var p := LocateHost(envs, editingId).value;
      var s, k := p.env, p.index;
      var r := SavedEnvs(envs, EditMode, record, editingId, freshId);
      && |r| == |envs|
      && |r[s].items| == |envs[s].items|
      && r[s].id == envs[s].id && r[s].name == envs[s].name
      && r[s].items[k] == record.(id := editingId)
      && (forall i :: 0 <= i < |envs[s].items| && i != k ==> r[s].items[i] == envs[s].items[i])
      && (forall j :: 0 <= j < |envs| && j != s ==> r[j] == envs[j])
      && IdBag(r) == IdBag(envs)
      && TotalHosts(r) == TotalHosts(envs)
  {
    var p := LocateHost(envs, editingId).value;
    var h := record.(id := editingId);
    assert SavedEnvs(envs, EditMode, record, editingId, freshId) == ReplaceHostAt(envs, p.env, p.index, h);
    ReplaceHostAtEffect(envs, p.env, p.index, h);
  }

  // ---------------------------------------------------------------------
  // deleteHost
  // ---------------------------------------------------------------------

  /** The environments after a confirmed `deleteHost`: the first record with
      the id, in the first environment holding it, is spliced out. */
  function DeletedEnvs(envs: seq<Env>, id: string): (r: seq<Env>)
    ensures |r| == |envs|
    ensures forall j :: 0 <= j < |envs| ==> r[j].id == envs[j].id && r[j].name == envs[j].name
  {
    match LocateHost(envs, id)
    case None => envs
    case Some(p) => RemoveHostAt(envs, p.env, p.index)
  }

  /** Deleting an id that no environment holds changes nothing. */
  lemma DeleteAbsent(envs: seq<Env>, id: string)
    requires id !in IdBag(envs)
    ensures DeletedEnvs(envs, id) == envs
  {
    LocateHostFinds(envs, id);
  }

  /** Deleting a held id removes exactly one record, the first with that id in
      the first environment holding it; the remaining records keep their order
      and every other environment is unchanged. */
  lemma DeleteEffect(envs: seq<Env>, id: string)
    requires id in IdBag(envs)
    ensures LocateHost(envs, id).Some?
    ensures var p := LocateHost(envs, id).value;
      var r := DeletedEnvs(envs, id);
      && |r| == |envs|
      && envs[p.env].items[p.index].id == id
      && r[p.env].items == envs[p.env].items[..p.index] + envs[p.env].items[p.index + 1..]
      && (forall j :: 0 <= j < |envs| ==> r[j].id == envs[j].id && r[j].name == envs[j].name)
      && (forall j :: 0 <= j < |envs| && j != p.env ==> r[j] == envs[j])
      && IdBag(r) + multiset{id} == IdBag(envs)
      && TotalHosts(r) + 1 == TotalHosts(envs)
  {
    LocateHostFinds(envs, id);
    var p := LocateHost(envs, id).value;
    RemoveHostAtEffect(envs, p.env, p.index);
  }

  /** With unique ids a deleted id is gone, so deleting it again changes
      nothing. */
  lemma DeleteTwice(envs: seq<Env>, id: string)
    requires UniqueIds(envs)
    ensures id !in IdBag(DeletedEnvs(envs, id))
    ensures DeletedEnvs(DeletedEnvs(envs, id), id) == DeletedEnvs(envs, id)
  {
    if id in IdBag(envs) {
      DeleteEffect(envs, id);
      var r := DeletedEnvs(envs, id);
      assert IdBag(envs)[id] == 1;
      assert (IdBag(r) + multiset{id})[id] == IdBag(r)[id] + 1;
      DeleteAbsent(r, id);
    } else {
      DeleteAbsent(envs, id);
    }
  }

  // ---------------------------------------------------------------------
  // addNewEnvironment
  // ---------------------------------------------------------------------

  /** The environments after `addNewEnvironment`, given the prompt's answer
      (`None` when cancelled): a non-blank answer appends an empty environment
      with the fresh id and the trimmed name. */
  function AddedEnvs(envs: seq<Env>, answer: Option<string>, freshId: string): (r: seq<Env>)
    ensures |envs| <= |r| <= |envs| + 1 && r[..|envs|] == envs
  {
    if answer.Some? && Trim(answer.value) != [] then envs + [Env(freshId, Trim(answer.value), [])]
    else envs
  }

  /** Appending an environment adds one empty environment at the end and
      leaves every host where it was. */
  lemma AddedEnvsKeepsHosts(envs: seq<Env>, answer: Option<string>, freshId: string)
    ensures var r := AddedEnvs(envs, answer, freshId);
      && r[..|envs|] == envs
      && (|r| == |envs| + 1 <==> answer.Some? && Trim(answer.value) != [])
      && (|r| == |envs| + 1 ==> r[|envs|] == Env(freshId, Trim(answer.value), []))
      && Flatten(r) == Flatten(envs)
      && IdBag(r) == IdBag(envs)
  {
    var r := AddedEnvs(envs, answer, freshId);
    if |r| != |envs| {
      var x := Env(freshId, Trim(answer.value), []);
      FlattenConcat(envs, [x]);
      FlattenSingle(x);
      assert Flatten(envs) + [] == Flatten(envs);
    }
  }
}
