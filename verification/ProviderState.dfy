/**
 The provider state file: a list the operations find in, overwrite, push to,
 remove from and sort before saving. From an absent file it stays strictly sorted
 by provider id and equals a plain map.
 */
module ProviderState {
  import opened Common
  import opened Order

  /** `details` stands for the description, install metadata and bridge, which are only copied. */
  datatype CatalogProvider = CatalogProvider(id: string, displayName: Option<string>, enabledByDefault: bool,
                                             details: string) {
    function ToInstalled(enabledOverride: Option<bool>, now: nat): InstalledProvider {
      InstalledProvider(id, displayName, if enabledOverride.Some? then enabledOverride.value else enabledByDefault,
                        Some(now), details)
    }
  }

  datatype InstalledProvider = InstalledProvider(id: string, displayName: Option<string>, enabled: bool,
                                                 installedAt: Option<nat>, details: string)

  datatype Change = Installed | Updated

  datatype ProviderError = NotInCatalog | NotInstalled

  datatype Op =
    | Install(catalog: seq<CatalogProvider>, id: string, enabledOverride: Option<bool>, now: nat)
    | Uninstall(id: string)
    | SetEnabled(id: string, enabled: bool)

  type Providers = seq<InstalledProvider>

  // ---- The specification: a map from provider id ----

  /** The catalog's first entry with this id. */
  function Template(catalog: seq<CatalogProvider>, id: string): Option<CatalogProvider> {
    if catalog == [] then None
    else if catalog[0].id == id then Some(catalog[0])
    else Template(catalog[1..], id)
  }

  /** Reinstalling keeps the first install time, and the enabled flag unless overridden. */
  function Apply(op: Op, m: map<string, InstalledProvider>): map<string, InstalledProvider> {
    match op
    case Install(catalog, id, enabledOverride, now) =>
      var t := Template(catalog, id);
      if t.None? then m
      else
        var enabled :=
          if enabledOverride.Some? then enabledOverride.value
          else if id in m then m[id].enabled
          else t.value.enabledByDefault;
        var at := if id in m && m[id].installedAt.Some? then m[id].installedAt else Some(now);
        m[id := InstalledProvider(id, t.value.displayName, enabled, at, t.value.details)]
    case Uninstall(id) => m - {id}
    case SetEnabled(id, enabled) => if id in m then m[id := m[id].(enabled := enabled)] else m
  }

  function ApplyAll(ops: seq<Op>): map<string, InstalledProvider> {
    if ops == [] then map[] else Apply(ops[|ops| - 1], ApplyAll(ops[..|ops| - 1]))
  }

  // ---- The list ----

  function CompareName(a: Option<string>, b: Option<string>): int {
    if a.None? then (if b.None? then 0 else -1)
    else if b.None? then 1
    else CompareString(a.value, b.value)
  }

  function CompareProviders(a: InstalledProvider, b: InstalledProvider): int {
    if CompareString(a.id, b.id) != 0 then CompareString(a.id, b.id) else CompareName(a.displayName, b.displayName)
  }

  function Position(providers: Providers, id: string): (i: nat)
    ensures i <= |providers| && (i < |providers| ==> providers[i].id == id)
    ensures forall j :: 0 <= j < i ==> providers[j].id != id
  {
    if providers == [] || providers[0].id == id then 0 else 1 + Position(providers[1..], id)
  }

  /** The unsorted list an operation leaves; None if it fails. */
  function Edited(op: Op, providers: Providers): Option<Providers> {
    var i := Position(providers, op.id);
    match op
    case Install(catalog, id, enabledOverride, now) =>
      var t := Template(catalog, id);
      if t.None? then None
      else if i < |providers| then
        var existing := providers[i];
        var enabled := if enabledOverride.Some? then enabledOverride else Some(existing.enabled);
        var at := if existing.installedAt.Some? then existing.installedAt else Some(now);
        Some(providers[i := t.value.ToInstalled(enabled, now).(installedAt := at)])
      else Some(providers + [t.value.ToInstalled(enabledOverride, now)])
    case Uninstall(id) => if i < |providers| then Some(providers[..i] + providers[i + 1..]) else None
    case SetEnabled(id, enabled) =>
      if i < |providers| then Some(providers[i := providers[i].(enabled := enabled)]) else None
  }

  /** The file after an operation: saved sorted, or left as it was by an error. */
  function StoredAfter(op: Op, stored: Option<Providers>): Option<Providers> {
    var edited := Edited(op, if stored.Some? then stored.value else []);
    if edited.None? then stored else Some(StableSort(CompareProviders, edited.value))
  }

  class StateFile {
    /** None while the file does not exist. */
    var stored: Option<Providers>

    constructor ()
      ensures stored == None
    {
      stored := None;
    }

    function LoadOrDefault(): Providers
      reads this
    {
      if stored.Some? then stored.value else []
    }

    method Save(providers: Providers)
      modifies this
      ensures stored == Some(StableSort(CompareProviders, providers))
    {
      stored := Some(StableSort(CompareProviders, providers));
    }

    method InstallProvider(catalog: seq<CatalogProvider>, id: string, enabledOverride: Option<bool>, now: nat)
      returns (r: Result<(Change, InstalledProvider), ProviderError>)
      modifies this
      ensures stored == StoredAfter(Install(catalog, id, enabledOverride, now), old(stored))
      ensures r.Err? <==> Template(catalog, id).None?
      ensures r.Ok? ==> (r.value.0 == Updated <==> exists p :: p in old(LoadOrDefault()) && p.id == id)
      ensures r.Ok? ==> r.value.1.id == id && r.value.1 in LoadOrDefault()
    {
      hide StableSort, Insert, CompareProviders;
      var template := Template(catalog, id);
      if template.None? {
        return Err(NotInCatalog);
      }
      TemplateHasId(catalog, id);
      var providers := LoadOrDefault();
      var i := Position(providers, id);
      if i < |providers| {
        var installedAt := if providers[i].installedAt.Some? then providers[i].installedAt else Some(now);
        var enabled := if enabledOverride.Some? then enabledOverride else Some(providers[i].enabled);
        assert providers[i] in providers;
        var provider := template.value.ToInstalled(enabled, now).(installedAt := installedAt);
        providers := providers[i := provider];
        Save(providers);
        assert providers[i] == provider;
        SortPermutes(CompareProviders, providers);
        return Ok((Updated, provider));
      }
      var provider := template.value.ToInstalled(enabledOverride, now);
      providers := providers + [provider];
      Save(providers);
      SortPermutes(CompareProviders, providers);
      return Ok((Installed, provider));
    }

    method UninstallProvider(id: string) returns (r: Result<InstalledProvider, ProviderError>)
      modifies this
      ensures stored == StoredAfter(Uninstall(id), old(stored))
      ensures r.Ok? <==> exists p :: p in old(LoadOrDefault()) && p.id == id
      ensures r.Ok? ==> r.value in old(LoadOrDefault()) && r.value.id == id
    {
      hide StableSort, CompareProviders;
      var providers := LoadOrDefault();
      var i := Position(providers, id);
      if i == |providers| {
        return Err(NotInstalled);
      }
      var removed := providers[i];
      providers := providers[..i] + providers[i + 1..];
      Save(providers);
      return Ok(removed);
    }

    method SetProviderEnabled(id: string, enabled: bool) returns (r: Result<(bool, InstalledProvider), ProviderError>)
      modifies this
      ensures stored == StoredAfter(SetEnabled(id, enabled), old(stored))
      ensures r.Ok? <==> exists p :: p in old(LoadOrDefault()) && p.id == id
      ensures r.Ok? ==> exists p :: && p in old(LoadOrDefault()) && p.id == id
                                    && r.value == (p.enabled != enabled, p.(enabled := enabled))
    {
      hide StableSort, CompareProviders;
      var providers := LoadOrDefault();
      var i := Position(providers, id);
      if i == |providers| {
        return Err(NotInstalled);
      }
      var changed := providers[i].enabled != enabled;
      assert providers[i] in providers;
      providers := providers[i := providers[i].(enabled := enabled)];
      Save(providers);
      return Ok((changed, providers[i]));
    }
  }

  lemma {:induction false} TemplateHasId(catalog: seq<CatalogProvider>, id: string)
    ensures Template(catalog, id).Some? ==>
        Template(catalog, id).value.id == id && Template(catalog, id).value in catalog
  {
    if catalog != [] {
      TemplateHasId(catalog[1..], id);
    }
  }

  // ---- The list refines the map ----

  ghost predicate UniqueIds(s: Providers) {
    s != [] ==> (forall p :: p in s[1..] ==> p.id != s[0].id) && UniqueIds(s[1..])
  }

  ghost predicate StrictlySorted(s: Providers) {
    forall i, j :: 0 <= i < j < |s| ==> CompareString(s[i].id, s[j].id) < 0
  }

  /** The list holds the map's values and nothing else. */
  ghost predicate Represents(s: Providers, m: map<string, InstalledProvider>) {
    && (forall p :: p in s ==> p.id in m && m[p.id] == p)
    && (forall id :: id in m ==> m[id] in s && m[id].id == id)
  }

  lemma {:induction false} UniqueAt(s: Providers, i: nat, j: nat)
    requires UniqueIds(s) && i < j < |s|
    ensures s[i].id != s[j].id
  {
    if i == 0 {
      assert s[j] == s[1..][j - 1];
    } else {
      UniqueAt(s[1..], i - 1, j - 1);
    }
  }

  /** No two of the entries share an id. */
  ghost predicate Distinct(s: Providers) {
    forall i, j :: 0 <= i < j < |s| ==> s[i].id != s[j].id
  }

  lemma {:induction false} UniqueFrom(s: Providers)
    requires Distinct(s)
    ensures UniqueIds(s)
  {
    if s != [] {
      UniqueFrom(s[1..]);
    }
  }

  lemma UniqueIsDistinct(s: Providers)
    requires UniqueIds(s)
    ensures Distinct(s)
  {
    forall i, j | 0 <= i < j < |s|
      ensures s[i].id != s[j].id
    {
      UniqueAt(s, i, j);
    }
  }

  lemma {:induction false} InsertUnique(x: InstalledProvider, s: Providers)
    requires UniqueIds(s) && forall p :: p in s ==> p.id != x.id
    ensures UniqueIds(Insert(CompareProviders, x, s))
  {
    hide CompareProviders;
    if s == [] || CompareProviders(x, s[0]) <= 0 {
      assert ([x] + s)[1..] == s;
    } else {
      InsertUnique(x, s[1..]);
      InsertMembers(CompareProviders, x, s[1..]);
      assert ([s[0]] + Insert(CompareProviders, x, s[1..]))[1..] == Insert(CompareProviders, x, s[1..]);
    }
  }

  lemma {:induction false} SortUnique(s: Providers)
    requires UniqueIds(s)
    ensures UniqueIds(StableSort(CompareProviders, s))
  {
    hide CompareProviders;
    if s != [] {
      SortUnique(s[1..]);
      SortPermutes(CompareProviders, s[1..]);
      InsertUnique(s[0], StableSort(CompareProviders, s[1..]));
    }
  }

  lemma ProvidersConsistent(s: Providers)
    ensures Consistent(CompareProviders, s)
  {
    StringTotalOrder();
    hide CompareString;
  }

  /** Saving a list without repeated ids sorts it strictly by id and keeps what it represents. */
  lemma SaveSorts(s: Providers, m: map<string, InstalledProvider>)
    requires UniqueIds(s) && Represents(s, m)
    ensures var sorted := StableSort(CompareProviders, s);
            UniqueIds(sorted) && StrictlySorted(sorted) && Represents(sorted, m)
  {
    var sorted := StableSort(CompareProviders, s);
    SortUnique(s);
    SortPermutes(CompareProviders, s);
    ProvidersConsistent(s);
    SortAscends(CompareProviders, s);
    StringTotalOrder();
    hide StableSort, CompareString, UniqueIds, Ascending;
    forall i, j | 0 <= i < j < |sorted|
      ensures CompareString(sorted[i].id, sorted[j].id) < 0
    {
      AscendingAt(CompareProviders, sorted, i, j);
      UniqueAt(sorted, i, j);
    }
  }

  lemma ReplaceAt(s: Providers, m: map<string, InstalledProvider>, i: nat, p: InstalledProvider)
    requires UniqueIds(s) && Represents(s, m) && i < |s| && s[i].id == p.id
    ensures UniqueIds(s[i := p]) && Represents(s[i := p], m[p.id := p])
  {
    hide UniqueIds, Represents;
    UniqueIsDistinct(s);
    ReplacedMembers(s, i, p);
    UniqueFrom(s[i := p]);
    RepresentsReplaced(s, s[i := p], m, p);
  }

  lemma ReplacedMembers(s: Providers, i: nat, p: InstalledProvider)
    requires Distinct(s) && i < |s| && s[i].id == p.id
    ensures Distinct(s[i := p])
    ensures forall q :: q in s[i := p] <==> q == p || (q in s && q.id != p.id)
  {
    var (a, b) := (s[..i], s[i + 1..]);
    assert s == a + [s[i]] + b && s[i := p] == a + [p] + b;
    assert forall k :: 0 <= k < |a| ==> a[k].id != s[i].id;
    assert forall k :: 0 <= k < |b| ==> b[k] == s[i + 1 + k] && s[i + 1 + k].id != s[i].id;
  }

  lemma RepresentsReplaced(s: Providers, t: Providers, m: map<string, InstalledProvider>, p: InstalledProvider)
    requires Represents(s, m) && forall q :: q in t <==> q == p || (q in s && q.id != p.id)
    ensures Represents(t, m[p.id := p])
  {}

  lemma RemovedMembers(s: Providers, i: nat)
    requires Distinct(s) && i < |s|
    ensures forall p :: p in s[..i] + s[i + 1..] <==> p in s && p.id != s[i].id
  {
    var (a, b) := (s[..i], s[i + 1..]);
    assert s == a + [s[i]] + b;
    assert forall k :: 0 <= k < |a| ==> a[k].id != s[i].id;
    assert forall k :: 0 <= k < |b| ==> b[k] == s[i + 1 + k] && s[i + 1 + k].id != s[i].id;
  }

  lemma RemovedDistinct(s: Providers, i: nat)
    requires Distinct(s) && i < |s|
    ensures Distinct(s[..i] + s[i + 1..])
  {
    var t := s[..i] + s[i + 1..];
    forall k, l | 0 <= k < l < |t|
      ensures t[k].id != t[l].id
    {
      var (x, y) := (if k < i then k else k + 1, if l < i then l else l + 1);
      assert t[k] == s[x] && t[l] == s[y] && x < y;
    }
  }

  lemma RepresentsRest(s: Providers, t: Providers, m: map<string, InstalledProvider>, id: string)
    requires Represents(s, m) && forall p :: p in t <==> p in s && p.id != id
    ensures Represents(t, m - {id})
  {}

  lemma RemoveAt(s: Providers, m: map<string, InstalledProvider>, i: nat)
    requires UniqueIds(s) && Represents(s, m) && i < |s|
    ensures UniqueIds(s[..i] + s[i + 1..]) && Represents(s[..i] + s[i + 1..], m - {s[i].id})
  {
    hide UniqueIds, Represents, Distinct;
    UniqueIsDistinct(s);
    RemovedMembers(s, i);
    RemovedDistinct(s, i);
    UniqueFrom(s[..i] + s[i + 1..]);
    RepresentsRest(s, s[..i] + s[i + 1..], m, s[i].id);
  }

  lemma PushNew(s: Providers, m: map<string, InstalledProvider>, p: InstalledProvider)
    requires UniqueIds(s) && Represents(s, m) && p.id !in m
    ensures UniqueIds(s + [p]) && Represents(s + [p], m[p.id := p])
  {
    UniqueIsDistinct(s);
    hide UniqueIds;
    forall k | 0 <= k < |s|
      ensures s[k].id != p.id
    {
      assert s[k] in s;
    }
    UniqueFrom(s + [p]);
  }

  lemma FoundIsMember(s: Providers, m: map<string, InstalledProvider>, id: string)
    requires Represents(s, m)
    ensures Position(s, id) < |s| <==> id in m
    ensures Position(s, id) < |s| ==> m[id] == s[Position(s, id)]
  {
    if Position(s, id) < |s| {
      assert s[Position(s, id)] in s;
    }
  }

  /** Every operation does to the list what the specification does to the map. */
  lemma EditRefines(op: Op, s: Providers, m: map<string, InstalledProvider>)
    requires UniqueIds(s) && Represents(s, m)
    ensures Edited(op, s).None? ==> Apply(op, m) == m
    ensures Edited(op, s).Some? ==> UniqueIds(Edited(op, s).value) && Represents(Edited(op, s).value, Apply(op, m))
  {
    var i := Position(s, op.id);
    FoundIsMember(s, m, op.id);
    hide UniqueIds, Represents, Position;
    match op
    case Install(catalog, id, enabledOverride, now) =>
      TemplateHasId(catalog, id);
      if Edited(op, s).Some? {
        if i < |s| {
          ReplaceAt(s, m, i, Apply(op, m)[id]);
        } else {
          PushNew(s, m, Apply(op, m)[id]);
        }
      }
    case Uninstall(id) =>
      if i < |s| {
        RemoveAt(s, m, i);
      } else {
        assert m - {id} == m;
      }
    case SetEnabled(id, enabled) =>
      if i < |s| {
        ReplaceAt(s, m, i, s[i].(enabled := enabled));
      }
  }

  /** The file after a sequence of operations, from an absent file. */
  function StoredAfterAll(ops: seq<Op>): Option<Providers> {
    if ops == [] then None else StoredAfter(ops[|ops| - 1], StoredAfterAll(ops[..|ops| - 1]))
  }

  function ListOf(stored: Option<Providers>): Providers {
    if stored.Some? then stored.value else []
  }

  /** After any operations the list is strictly sorted by id, without duplicates, and is the map's. */
  lemma {:induction false} ListRefinesMap(ops: seq<Op>)
    ensures var s := ListOf(StoredAfterAll(ops));
            UniqueIds(s) && StrictlySorted(s) && Represents(s, ApplyAll(ops))
  {
    if ops != [] {
      var before := ops[..|ops| - 1];
      ListRefinesMap(before);
      hide UniqueIds, StrictlySorted, Represents, Edited, Apply, StableSort;
      EditRefines(ops[|ops| - 1], ListOf(StoredAfterAll(before)), ApplyAll(before));
      if Edited(ops[|ops| - 1], ListOf(StoredAfterAll(before))).Some? {
        SaveSorts(Edited(ops[|ops| - 1], ListOf(StoredAfterAll(before))).value, ApplyAll(ops));
      }
    }
  }

  /** A strictly sorted list is determined by the map it represents: the file is a function of the map. */
  lemma SortedListIsUnique(s: Providers, t: Providers, m: map<string, InstalledProvider>)
    requires StrictlySorted(s) && Represents(s, m) && StrictlySorted(t) && Represents(t, m)
    ensures s == t
  {
    assert forall p :: p in s <==> p in t;
    SameMembers(s, t);
  }

  lemma {:induction false} SameMembers(s: Providers, t: Providers)
    requires StrictlySorted(s) && StrictlySorted(t) && forall p :: p in s <==> p in t
    ensures s == t
  {
    HeadIsMember(s);
    HeadIsMember(t);
    if s != [] && t != [] {
      HeadIsLeast(s);
      HeadIsLeast(t);
      StringTotalOrder();
      hide StrictlySorted, CompareString;
      assert s[0] == t[0];
      TailMembers(s);
      TailMembers(t);
      SameMembers(s[1..], t[1..]);
      assert s == [s[0]] + s[1..] && t == [t[0]] + t[1..];
    }
  }

  lemma HeadIsMember(s: Providers)
    ensures s != [] ==> s[0] in s
  {}

  lemma HeadIsLeast(s: Providers)
    requires s != [] && StrictlySorted(s)
    ensures forall p :: p in s ==> p == s[0] || CompareString(s[0].id, p.id) < 0
  {}

  lemma TailMembers(s: Providers)
    requires s != [] && StrictlySorted(s)
    ensures StrictlySorted(s[1..]) && forall p :: p in s[1..] <==> p in s && p != s[0]
  {
    StringTotalOrder();
    hide CompareString;
    var tail := s[1..];
    assert s == [s[0]] + tail;
    assert forall k :: 0 <= k < |tail| ==> tail[k] == s[k + 1];
  }

  lemma {:induction false} InstallTimesKnown(ops: seq<Op>)
    ensures forall id :: id in ApplyAll(ops) ==> ApplyAll(ops)[id].installedAt.Some?
  {
    if ops != [] {
      InstallTimesKnown(ops[..|ops| - 1]);
    }
  }

  /** Reinstalling, however often, keeps the first install time, and the flag unless it is overridden. */
  lemma ReinstallKeeps(ops: seq<Op>, catalog: seq<CatalogProvider>, id: string, enabledOverride: Option<bool>, now: nat)
    requires id in ApplyAll(ops) && Template(catalog, id).Some?
    ensures var before := ApplyAll(ops)[id];
            var after := ApplyAll(ops + [Install(catalog, id, enabledOverride, now)]);
            && before.installedAt.Some? && id in after
            && after[id].installedAt == before.installedAt
            && (enabledOverride.None? ==> after[id].enabled == before.enabled)
            && (enabledOverride.Some? ==> after[id].enabled == enabledOverride.value)
  {
    InstallTimesKnown(ops);
    assert (ops + [Install(catalog, id, enabledOverride, now)])[..|ops|] == ops;
  }
}
