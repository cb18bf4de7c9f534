/** The stored host document: environments, each holding an ordered list of
    host records, and the lookups and list edits that the popup performs on it. */
module Hosts {
  import opened Js

  /** The health states written onto a host record; a record that was never
      probed has no state at all (shown as "unknown"). */
  datatype HealthStatus = Checking | Online | Offline

  /** One stored target. `environment` is the environment chosen in the form;
      the record may sit in a different environment's list when that id did
      not resolve. */
  datatype Host = Host(
    id: string,
    name: string,
    ip: string,
    port: Option<int>,
    rdpUser: Option<string>,
    environment: string,
    tags: seq<string>,
    notes: string,
    pinned: bool,
    healthStatus: Option<HealthStatus>,
    lastHealthCheck: Option<int>,
    responseTime: Option<int>,
    healthMethod: Option<string>)

  /** A port field that JavaScript treats as set: present and not 0. */
  predicate PortSet(port: Option<int>) {
    port.Some? && port.value != 0
  }

  /** A named group of hosts, in insertion order. */
  datatype Env = Env(id: string, name: string, items: seq<Host>)

  /** The root document kept under the storage key `ipManagerData`. */
  datatype Document = Document(version: int, envs: seq<Env>)

  /** The document a fresh popup starts from: version 1 with one empty
      environment called Default. */
  const DefaultDocument: Document := Document(1, [Env("default", "Default", [])])

  // ---------------------------------------------------------------------
  // Flattened view
  // ---------------------------------------------------------------------

  /** All hosts, environment by environment, each list in order. */
  function Flatten(envs: seq<Env>): seq<Host> {
    if envs == [] then [] else envs[0].items + Flatten(envs[1..])
  }

  /** The number of hosts: the sum of the environments' list lengths. */
  function TotalHosts(envs: seq<Env>): nat {
    if envs == [] then 0 else |envs[0].items| + TotalHosts(envs[1..])
  }

  /** The ids of `hosts`, position by position. */
  function IdsOf(hosts: seq<Host>): (r: seq<string>)
    ensures |r| == |hosts|
    ensures forall i :: 0 <= i < |hosts| ==> r[i] == hosts[i].id
  {
    seq(|hosts|, i requires 0 <= i < |hosts| => hosts[i].id)
  }

  /** How many times each id occurs across the whole document. */
  function IdBag(envs: seq<Env>): multiset<string> {
    multiset(IdsOf(Flatten(envs)))
  }

  /** The document-wide invariant: no id is carried by two hosts. */
  predicate UniqueIds(envs: seq<Env>) {
    forall id | id in IdBag(envs) :: IdBag(envs)[id] == 1
  }

  /** Flattening distributes over concatenation of environment lists. */
  lemma {:induction false} FlattenConcat(a: seq<Env>, b: seq<Env>)
    ensures Flatten(a + b) == Flatten(a) + Flatten(b)
  {
    if a != [] {
      calc {
        Flatten(a + b);
        (a + b)[0].items + Flatten((a + b)[1..]);
        { assert (a + b)[0] == a[0]; assert (a + b)[1..] == a[1..] + b; }
        a[0].items + Flatten(a[1..] + b);
        { FlattenConcat(a[1..], b); }
        a[0].items + (Flatten(a[1..]) + Flatten(b));
        Flatten(a) + Flatten(b);
      }
    } else {
      assert a + b == b;
    }
  }

  /** The flattened list has one entry per host. */
  lemma {:induction false} FlattenLength(envs: seq<Env>)
    ensures |Flatten(envs)| == TotalHosts(envs)
  {
    if envs != [] {
      FlattenLength(envs[1..]);
    }
  }

  /** The ids of a concatenation are the concatenated ids. */
  lemma IdsOfConcat(a: seq<Host>, b: seq<Host>)
    ensures IdsOf(a + b) == IdsOf(a) + IdsOf(b)
  {
  }

  // ---------------------------------------------------------------------
  // Lookups
  // ---------------------------------------------------------------------

  /** `envs.find(e => e.id === id)`, as an index: the first environment
      carrying that id. */
  function FindEnv(envs: seq<Env>, id: string): (r: Option<nat>)
    ensures r.Some? ==> r.value < |envs| && envs[r.value].id == id
    ensures r.Some? ==> forall j :: 0 <= j < r.value ==> envs[j].id != id
    ensures r.None? ==> forall j :: 0 <= j < |envs| ==> envs[j].id != id
  {
    FindIndex(envs, (e: Env) => e.id == id)
  }

  /** `items.findIndex(item => item.id === id)`, with -1 written `None`. */
  function IndexOfHost(items: seq<Host>, id: string): (r: Option<nat>)
    ensures r.Some? ==> r.value < |items| && items[r.value].id == id
    ensures r.Some? ==> forall j :: 0 <= j < r.value ==> items[j].id != id
    ensures r.None? ==> forall j :: 0 <= j < |items| ==> items[j].id != id
  {
    FindIndex(items, (h: Host) => h.id == id)
  }

  /** Where a host lives: the first environment whose list contains the id,
      and the first position of the id in that list. */
  datatype Position = Position(env: nat, index: nat)

  /** The scan `for (const env of envs) { i = env.items.findIndex(...); if
      (i !== -1) break; }` as a function. */
  function LocateHost(envs: seq<Env>, id: string): (r: Option<Position>)
    ensures r.Some? ==>
      r.value.env < |envs| && IndexOfHost(envs[r.value.env].items, id) == Some(r.value.index)
    ensures r.Some? ==> forall j :: 0 <= j < r.value.env ==> IndexOfHost(envs[j].items, id).None?
    ensures r.None? ==> forall j :: 0 <= j < |envs| ==> IndexOfHost(envs[j].items, id).None?
  {
    if envs == [] then None
    else match IndexOfHost(envs[0].items, id)
      case Some(k) => Some(Position(0, k))
      case None =>
        match LocateHost(envs[1..], id)
        case None => None
        case Some(p) => Some(Position(p.env + 1, p.index))
  }

  /** A host is found by `LocateHost` exactly when some environment holds it. */
  lemma LocateHostFinds(envs: seq<Env>, id: string)
    ensures LocateHost(envs, id).Some? <==> id in IdBag(envs)
  {
    LocateHostFindsFlat(envs, id);
  }

  lemma {:induction false} LocateHostFindsFlat(envs: seq<Env>, id: string)
    ensures LocateHost(envs, id).Some? <==> id in IdsOf(Flatten(envs))
  {
    if envs != [] {
      LocateHostFindsFlat(envs[1..], id);
      IdsOfConcat(envs[0].items, Flatten(envs[1..]));
      assert IndexOfHost(envs[0].items, id).Some? <==> id in IdsOf(envs[0].items);
    }
  }

  // ---------------------------------------------------------------------
  // Editing one environment's list
  // ---------------------------------------------------------------------

  /** The document with environment `e`'s list replaced by `items`. */
  function WithItems(envs: seq<Env>, e: nat, items: seq<Host>): (r: seq<Env>)
    requires e < |envs|
    ensures |r| == |envs|
    ensures r[e] == Env(envs[e].id, envs[e].name, items)
    ensures forall j :: 0 <= j < |envs| && j != e ==> r[j] == envs[j]
  {
    envs[e := envs[e].(items := items)]
  }

  /** `envs[e].items.push(h)`. */
  function PushHost(envs: seq<Env>, e: nat, h: Host): seq<Env>
    requires e < |envs|
  {
    WithItems(envs, e, envs[e].items + [h])
  }

  /** `envs[e].items.splice(k, 1)`. */
  function RemoveHostAt(envs: seq<Env>, e: nat, k: nat): seq<Env>
    requires e < |envs| && k < |envs[e].items|
  {
    WithItems(envs, e, envs[e].items[..k] + envs[e].items[k + 1..])
  }

  /** `envs[e].items[k] = h`. */
  function ReplaceHostAt(envs: seq<Env>, e: nat, k: nat, h: Host): seq<Env>
    requires e < |envs| && k < |envs[e].items|
  {
    WithItems(envs, e, envs[e].items[k := h])
  }

  /** The flattened hosts of one environment on its own. */
  lemma FlattenSingle(x: Env)
    ensures Flatten([x]) == x.items
  {
    assert [x][1..] == [];
  }

  /** A sequence is its part before position `e`, its element at `e`, and its
      part after. */
  lemma SplitAround<T>(s: seq<T>, e: nat)
    requires e < |s|
    ensures s == s[..e] + ([s[e]] + s[e + 1..])
  {
    assert s[e..] == [s[e]] + s[e + 1..] by {
      assert s[e..][0] == s[e] && s[e..][1..] == s[e + 1..];
    }
    assert s == s[..e] + s[e..];
  }

  /** The flattened hosts are those before environment `e`, then `e`'s, then
      those after. */
  lemma FlattenSplitAt(envs: seq<Env>, e: nat)
    requires e < |envs|
    ensures Flatten(envs) == Flatten(envs[..e]) + envs[e].items + Flatten(envs[e + 1..])
  {
    var pre, mid, post := envs[..e], [envs[e]], envs[e + 1..];
    SplitAround(envs, e);
    calc {
      Flatten(envs);
      { FlattenConcat(pre, mid + post); }
      Flatten(pre) + Flatten(mid + post);
      { FlattenConcat(mid, post); }
      Flatten(pre) + (Flatten(mid) + Flatten(post));
      { FlattenSingle(envs[e]); }
      Flatten(pre) + (envs[e].items + Flatten(post));
      Flatten(pre) + envs[e].items + Flatten(post);
    }
  }

  /** Replacing one list changes the flattened hosts only in that list's slot. */
  lemma FlattenWithItems(envs: seq<Env>, e: nat, items: seq<Host>)
    requires e < |envs|
    ensures Flatten(envs) == Flatten(envs[..e]) + envs[e].items + Flatten(envs[e + 1..])
    ensures Flatten(WithItems(envs, e, items)) == Flatten(envs[..e]) + items + Flatten(envs[e + 1..])
  {
    var r := WithItems(envs, e, items);
    FlattenSplitAt(envs, e);
    FlattenSplitAt(r, e);
    assert r[..e] == envs[..e];
    assert r[e + 1..] == envs[e + 1..];
  }

  /** Replacing one list changes the id counts by exactly the ids it drops and
      the ids it adds. */
  lemma IdBagWithItems(envs: seq<Env>, e: nat, items: seq<Host>)
    requires e < |envs|
    ensures IdBag(WithItems(envs, e, items)) + multiset(IdsOf(envs[e].items))
      == IdBag(envs) + multiset(IdsOf(items))
  {
    FlattenWithItems(envs, e, items);
    var pre, post := Flatten(envs[..e]), Flatten(envs[e + 1..]);
    IdsOfConcat(pre, envs[e].items);
    IdsOfConcat(pre + envs[e].items, post);
    IdsOfConcat(pre, items);
    IdsOfConcat(pre + items, post);
  }

  /** Replacing one list changes the host count by the difference in length. */
  lemma TotalHostsWithItems(envs: seq<Env>, e: nat, items: seq<Host>)
    requires e < |envs|
    ensures TotalHosts(WithItems(envs, e, items)) + |envs[e].items| == TotalHosts(envs) + |items|
  {
    FlattenWithItems(envs, e, items);
    FlattenLength(envs);
    FlattenLength(WithItems(envs, e, items));
  }

  /** Multiset union cancels. */
  lemma MultisetCancel(x: multiset<string>, y: multiset<string>, m: multiset<string>)
    requires x + m == y + m
    ensures x == y
  {
    forall t ensures x[t] == y[t] {
      assert (x + m)[t] == (y + m)[t];
    }
  }

  /** Pushing a host adds exactly one occurrence of its id and one host. */
  lemma PushHostEffect(envs: seq<Env>, e: nat, h: Host)
    requires e < |envs|
    ensures IdBag(PushHost(envs, e, h)) == IdBag(envs) + multiset{h.id}
    ensures TotalHosts(PushHost(envs, e, h)) == TotalHosts(envs) + 1
  {
    var items := envs[e].items;
    var after := PushHost(envs, e, h);
    var m := multiset(IdsOf(items));
    IdBagWithItems(envs, e, items + [h]);
    assert IdsOf(items + [h]) == IdsOf(items) + [h.id];
    assert IdBag(after) + m == (IdBag(envs) + multiset{h.id}) + m;
    MultisetCancel(IdBag(after), IdBag(envs) + multiset{h.id}, m);
    TotalHostsWithItems(envs, e, items + [h]);
  }

  /** Splicing out a host removes exactly one occurrence of its id and one host. */
  lemma RemoveHostAtEffect(envs: seq<Env>, e: nat, k: nat)
    requires e < |envs| && k < |envs[e].items|
    ensures IdBag(RemoveHostAt(envs, e, k)) + multiset{envs[e].items[k].id} == IdBag(envs)
    ensures TotalHosts(RemoveHostAt(envs, e, k)) + 1 == TotalHosts(envs)
  {
    var items := envs[e].items;
    var rest := items[..k] + items[k + 1..];
    var after := RemoveHostAt(envs, e, k);
    assert items == items[..k] + [items[k]] + items[k + 1..];
    assert IdsOf(items) == IdsOf(items[..k]) + [items[k].id] + IdsOf(items[k + 1..]);
    assert IdsOf(rest) == IdsOf(items[..k]) + IdsOf(items[k + 1..]);
    var m := multiset(IdsOf(rest));
    assert multiset(IdsOf(items)) == m + multiset{items[k].id};
    IdBagWithItems(envs, e, rest);
    assert (IdBag(after) + multiset{items[k].id}) + m == IdBag(envs) + m;
    MultisetCancel(IdBag(after) + multiset{items[k].id}, IdBag(envs), m);
    TotalHostsWithItems(envs, e, rest);
  }

  /** Overwriting a host with a record of the same id keeps every id count
      and the host count. */
  lemma ReplaceHostAtEffect(envs: seq<Env>, e: nat, k: nat, h: Host)
    requires e < |envs| && k < |envs[e].items|
    requires h.id == envs[e].items[k].id
    ensures IdBag(ReplaceHostAt(envs, e, k, h)) == IdBag(envs)
    ensures TotalHosts(ReplaceHostAt(envs, e, k, h)) == TotalHosts(envs)
  {
    var items := envs[e].items;
    var after := ReplaceHostAt(envs, e, k, h);
    assert IdsOf(items[k := h]) == IdsOf(items);
    IdBagWithItems(envs, e, items[k := h]);
    MultisetCancel(IdBag(after), IdBag(envs), multiset(IdsOf(items)));
    TotalHostsWithItems(envs, e, items[k := h]);
  }

  // ---------------------------------------------------------------------
  // Flattened positions
  // ---------------------------------------------------------------------

  /** The flattened position of environment `e`'s first host: the number of
      hosts in the environments before it. */
  function Offset(envs: seq<Env>, e: nat): (r: nat)
    requires e <= |envs|
    ensures e < |envs| ==> r + |envs[e].items| <= TotalHosts(envs)
    ensures e == |envs| ==> r == TotalHosts(envs)
  {
    if e == 0 then 0 else |envs[0].items| + Offset(envs[1..], e - 1)
  }

  /** Host `k` of environment `e` sits at flattened position
      `Offset(envs, e) + k`. */
  lemma {:induction false} FlattenAt(envs: seq<Env>, e: nat, k: nat)
    requires e < |envs| && k < |envs[e].items|
    ensures Offset(envs, e) + k < |Flatten(envs)|
    ensures Flatten(envs)[Offset(envs, e) + k] == envs[e].items[k]
  {
    if e > 0 {
      FlattenAt(envs[1..], e - 1, k);
    }
  }

  /** The next environment starts after this one's hosts. */
  lemma {:induction false} OffsetNext(envs: seq<Env>, e: nat)
    requires e < |envs|
    ensures Offset(envs, e + 1) == Offset(envs, e) + |envs[e].items|
  {
    if e > 0 {
      OffsetNext(envs[1..], e - 1);
    }
  }

  /** Two documents with the same environments in the same places, each list
      as long as before. */
  predicate SameShape(a: seq<Env>, b: seq<Env>) {
    && |a| == |b|
    && forall e :: 0 <= e < |a| ==> a[e].id == b[e].id && a[e].name == b[e].name && |a[e].items| == |b[e].items|
  }
}
