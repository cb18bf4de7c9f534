/** The popup's host list (`filterItems`): every host of every environment,
    tagged with its environment's id, filtered by the environment selector,
    the search box and the active tag chips, then sorted pinned-first and by
    name. */
module HostQuery {
  import opened Js
  import opened Hosts

  /** A host as the list shows it: the record plus `envId`, the id of the
      environment whose list holds it. */
  datatype FlatItem = FlatItem(host: Host, envId: string)

  /** The items of one environment, in order. */
  function EnvItems(env: Env): (r: seq<FlatItem>)
    ensures |r| == |env.items|
    ensures forall k :: 0 <= k < |r| ==> r[k] == FlatItem(env.items[k], env.id)
  {
    seq(|env.items|, k requires 0 <= k < |env.items| => FlatItem(env.items[k], env.id))
  }

  /** `allItems`: the items of every environment, environment by environment. */
  function FlatItems(envs: seq<Env>): seq<FlatItem> {
    if envs == [] then [] else EnvItems(envs[0]) + FlatItems(envs[1..])
  }

  /** An item is listed exactly when some environment's list holds its record,
      and it then carries that environment's id. */
  lemma {:induction false} FlatItemsMembers(envs: seq<Env>, x: FlatItem)
    ensures x in FlatItems(envs) <==>
      exists e, k :: 0 <= e < |envs| && 0 <= k < |envs[e].items| && x == FlatItem(envs[e].items[k], envs[e].id)
  {
    if envs != [] {
      FlatItemsMembers(envs[1..], x);
      if x in EnvItems(envs[0]) {
        var k :| 0 <= k < |envs[0].items| && x == EnvItems(envs[0])[k];
        assert x == FlatItem(envs[0].items[k], envs[0].id);
      }
      if x in FlatItems(envs[1..]) {
        var e, k :| 0 <= e < |envs[1..]| && 0 <= k < |envs[1..][e].items| && x == FlatItem(envs[1..][e].items[k], envs[1..][e].id);
        assert x == FlatItem(envs[e + 1].items[k], envs[e + 1].id);
      }
      if exists e, k :: 0 <= e < |envs| && 0 <= k < |envs[e].items| && x == FlatItem(envs[e].items[k], envs[e].id) {
        var e, k :| 0 <= e < |envs| && 0 <= k < |envs[e].items| && x == FlatItem(envs[e].items[k], envs[e].id);
        if e == 0 {
          assert x == EnvItems(envs[0])[k];
        } else {
          assert envs[1..][e - 1] == envs[e];
        }
      }
    }
  }

  /** The listed records are exactly the flattened hosts, in the same order. */
  lemma {:induction false} FlatItemsHosts(envs: seq<Env>)
    ensures |FlatItems(envs)| == |Flatten(envs)|
    ensures forall i :: 0 <= i < |Flatten(envs)| ==> FlatItems(envs)[i].host == Flatten(envs)[i]
  {
    if envs != [] {
      FlatItemsHosts(envs[1..]);
    }
  }

  // ---------------------------------------------------------------------
  // Filtering
  // ---------------------------------------------------------------------

  /** The environment selector: an empty value selects everything; otherwise
      the item's own `environment` field or the id of the list holding it must
      equal the selection. */
  predicate InSelectedEnv(x: FlatItem, selectedEnv: string) {
    selectedEnv == [] || x.host.environment == selectedEnv || x.envId == selectedEnv
  }

  /** The search box, already lower-cased: empty matches everything; otherwise
      the lower-cased name, address or some lower-cased tag contains it. */
  predicate MatchesSearch(h: Host, term: string) {
    || term == []
    || Includes(ToLower(h.name), term)
    || Includes(ToLower(h.ip), term)
    || exists t :: t in h.tags && Includes(ToLower(t), term)
  }

  /** The tag chips: with none active every item matches; otherwise the item
      must carry at least one active tag. */
  predicate MatchesTags(h: Host, activeTags: set<string>) {
    activeTags == {} || exists t :: t in h.tags && t in activeTags
  }

  /** All three conditions of the list. */
  predicate Listed(x: FlatItem, searchTerm: string, selectedEnv: string, activeTags: set<string>) {
    InSelectedEnv(x, selectedEnv) && MatchesSearch(x.host, searchTerm) && MatchesTags(x.host, activeTags)
  }

  // ---------------------------------------------------------------------
  // Sorting
  // ---------------------------------------------------------------------

  /** Names in code-unit lexicographic order, a prefix first. */
  predicate NameLe(a: string, b: string)
    decreases |a|
  {
    a == [] || (b != [] && (a[0] < b[0] || (a[0] == b[0] && NameLe(a[1..], b[1..]))))
  }

  /** Any two names are ordered one way or the other. */
  lemma {:induction false} NameLeTotal(a: string, b: string)
    ensures NameLe(a, b) || NameLe(b, a)
    decreases |a|
  {
    if a != [] && b != [] && a[0] == b[0] {
      NameLeTotal(a[1..], b[1..]);
    }
  }

  /** The name order is transitive. */
  lemma {:induction false} NameLeTrans(a: string, b: string, c: string)
    requires NameLe(a, b) && NameLe(b, c)
    ensures NameLe(a, c)
    decreases |a|
  {
    if a != [] && a[0] == b[0] && b[0] == c[0] {
      NameLeTrans(a[1..], b[1..], c[1..]);
    }
  }

  /** The sort comparator returns at most 0: a pinned item before an unpinned
      one, and within the same group by name. */
  predicate Precedes(x: FlatItem, y: FlatItem) {
    (x.host.pinned && !y.host.pinned) || (x.host.pinned == y.host.pinned && NameLe(x.host.name, y.host.name))
  }

  lemma PrecedesTotal(x: FlatItem, y: FlatItem)
    ensures Precedes(x, y) || Precedes(y, x)
  {
    NameLeTotal(x.host.name, y.host.name);
  }

  lemma PrecedesTrans(x: FlatItem, y: FlatItem, z: FlatItem)
    requires Precedes(x, y) && Precedes(y, z)
    ensures Precedes(x, z)
  {
    if x.host.pinned == y.host.pinned == z.host.pinned {
      NameLeTrans(x.host.name, y.host.name, z.host.name);
    }
  }

  /** Every item precedes every later one. */
  predicate Sorted(s: seq<FlatItem>) {
    forall i, j :: 0 <= i < j < |s| ==> Precedes(s[i], s[j])
  }

  /** Places `x` before the first element it precedes; `x` comes from earlier
      in the input than all of `s`, so equal items keep their order. */
  function Insert(x: FlatItem, s: seq<FlatItem>): (r: seq<FlatItem>)
    ensures multiset(r) == multiset(s) + multiset{x}
  {
    if s == [] then [x]
    else if Precedes(x, s[0]) then [x] + s
    else
      assert s == [s[0]] + s[1..];
      [s[0]] + Insert(x, s[1..])
  }

  /** An item that precedes every element of a sorted list can be put in
      front of it. */
  lemma SortedCons(b: FlatItem, s: seq<FlatItem>)
    requires Sorted(s)
    requires forall y :: y in s ==> Precedes(b, y)
    ensures Sorted([b] + s)
  {
    var r := [b] + s;
    forall i, j | 0 <= i < j < |r| ensures Precedes(r[i], r[j]) {
      assert r[j] == s[j - 1];
      if i > 0 {
        assert r[i] == s[i - 1];
      }
    }
  }

  /** An item that precedes `x` and every element of `s` precedes every
      element of `Insert(x, s)`. */
  lemma InsertKeepsLowerBound(b: FlatItem, x: FlatItem, s: seq<FlatItem>)
    requires Precedes(b, x)
    requires forall y :: y in s ==> Precedes(b, y)
    ensures forall y :: y in Insert(x, s) ==> Precedes(b, y)
  {
    var r := Insert(x, s);
    forall y | y in r ensures Precedes(b, y) {
      assert y in multiset(r);
      if y != x {
        assert y in multiset(s);
      }
    }
  }

  lemma {:induction false} InsertSorted(x: FlatItem, s: seq<FlatItem>)
    requires Sorted(s)
    ensures Sorted(Insert(x, s))
  {
    if s == [] {
    } else if !Precedes(x, s[0]) {
      PrecedesTotal(x, s[0]);
      var tail := s[1..];
      assert Sorted(tail);
      InsertSorted(x, tail);
      assert forall y :: y in tail ==> Precedes(s[0], y) by {
        forall y | y in tail ensures Precedes(s[0], y) {
          var j :| 0 <= j < |tail| && tail[j] == y;
          assert s[j + 1] == y;
        }
      }
      InsertKeepsLowerBound(s[0], x, tail);
      SortedCons(s[0], Insert(x, tail));
    } else {
      forall y | y in s ensures Precedes(x, y) {
        var j :| 0 <= j < |s| && s[j] == y;
        if j > 0 {
          PrecedesTrans(x, s[0], s[j]);
        }
      }
      SortedCons(x, s);
    }
  }

  /** `sort` with the popup's comparator, as a stable insertion sort. */
  function SortItems(s: seq<FlatItem>): (r: seq<FlatItem>)
    ensures |r| == |s|
  {
    if s == [] then []
    else
      var t := SortItems(s[1..]);
      assert |multiset(Insert(s[0], t))| == |multiset(t)| + 1;
      Insert(s[0], t)
  }

  /** The sorted list is ordered and holds exactly the input's items. */
  lemma {:induction false} SortItemsCorrect(s: seq<FlatItem>)
    ensures Sorted(SortItems(s))
    ensures multiset(SortItems(s)) == multiset(s)
  {
    if s != [] {
      SortItemsCorrect(s[1..]);
      InsertSorted(s[0], SortItems(s[1..]));
      assert s == [s[0]] + s[1..];
    }
  }

  // ---------------------------------------------------------------------
  // filterItems
  // ---------------------------------------------------------------------

  /** `filteredItems` after `filterItems`, given the search box text, the
      environment selector's value and the active tags. */
  function Query(envs: seq<Env>, searchInput: string, selectedEnv: string, activeTags: set<string>): (r: seq<FlatItem>)
    ensures Sorted(r)
  {
    var all := FlatItems(envs);
    var inEnv := if selectedEnv != [] then Filter(all, (x: FlatItem) => InSelectedEnv(x, selectedEnv)) else all;
    var term := ToLower(searchInput);
    var kept := Filter(inEnv, (x: FlatItem) => MatchesSearch(x.host, term) && MatchesTags(x.host, activeTags));
    SortItemsCorrect(kept);
    SortItems(kept)
  }

  /** Every item of every environment that meets all three conditions is
      listed, as often as it occurs in the environments, and nothing else is. */
  lemma QueryMembers(envs: seq<Env>, searchInput: string, selectedEnv: string, activeTags: set<string>, x: FlatItem)
    ensures multiset(Query(envs, searchInput, selectedEnv, activeTags))[x]
      == if Listed(x, ToLower(searchInput), selectedEnv, activeTags) then multiset(FlatItems(envs))[x] else 0
    ensures x in Query(envs, searchInput, selectedEnv, activeTags) <==>
      (exists e, k :: 0 <= e < |envs| && 0 <= k < |envs[e].items| && x == FlatItem(envs[e].items[k], envs[e].id))
      && Listed(x, ToLower(searchInput), selectedEnv, activeTags)
  {
    var all := FlatItems(envs);
    var inEnv := if selectedEnv != [] then Filter(all, (x: FlatItem) => InSelectedEnv(x, selectedEnv)) else all;
    var term := ToLower(searchInput);
    var kept := Filter(inEnv, (x: FlatItem) => MatchesSearch(x.host, term) && MatchesTags(x.host, activeTags));
    SortItemsCorrect(kept);
    FlatItemsMembers(envs, x);
  }

  /** The list is ordered: every pinned item comes before every unpinned one,
      and within each group the names are in order. */
  lemma QueryOrdered(envs: seq<Env>, searchInput: string, selectedEnv: string, activeTags: set<string>)
    ensures var r := Query(envs, searchInput, selectedEnv, activeTags);
      forall i, j :: 0 <= i < j < |r| ==>
        (r[j].host.pinned ==> r[i].host.pinned)
        && (r[i].host.pinned == r[j].host.pinned ==> NameLe(r[i].host.name, r[j].host.name))
  {
    var all := FlatItems(envs);
    var inEnv := if selectedEnv != [] then Filter(all, (x: FlatItem) => InSelectedEnv(x, selectedEnv)) else all;
    var term := ToLower(searchInput);
    SortItemsCorrect(Filter(inEnv, (x: FlatItem) => MatchesSearch(x.host, term) && MatchesTags(x.host, activeTags)));
  }
}
