/**
 * `organize_by_client` (`part2/generate_actions_by_client.py`): a fold over
 * the per-file action lists that files each action under its client, counts
 * its priority and drops it into one of five fixed category buckets.
 *
 * The fold is specified step by step (`AddAction`, `Fold`), the nested loop
 * of the source is proved against it (`OrganizeByClient`), and the result of
 * the fold is characterised in closed form (`FoldCharacterized`): each
 * client's entry is computed from the sub-list of its actions.
 */
module ClientOrganization {
  import opened Wrappers
  import opened JsonValues

  /** The five buckets every client starts with, in their dict order. */
  const CategoryNames: seq<string> := ["support", "training", "documentation", "design", "communication"]

  /** `action.get('client', 'Unknown Client')`. */
  function ClientOf(a: JsonObject): Json {
    Get(a, "client", JStr("Unknown Client"))
  }

  /** `action.get('priority', 'medium')`. */
  function PriorityOf(a: JsonObject): Json {
    Get(a, "priority", JStr("medium"))
  }

  /** `action.get('category', 'support')`. */
  function CategoryOf(a: JsonObject): Json {
    Get(a, "category", JStr("support"))
  }

  /** Lists and dicts cannot be dict keys or be looked up in a dict: Python raises `TypeError`. */
  predicate Hashable(j: Json) {
    !j.JArr? && !j.JObj?
  }

  /** The action's client and category can be looked up in a dict. */
  predicate HashableAction(a: JsonObject) {
    Hashable(ClientOf(a)) && Hashable(CategoryOf(a))
  }

  /** No action makes `organize_by_client` raise. */
  predicate AllHashable(xs: seq<JsonObject>) {
    forall i :: 0 <= i < |xs| ==> HashableAction(xs[i])
  }

  /** `client_info`. */
  datatype ClientInfo = ClientInfo(name: Json, totalActions: nat, highPriority: nat, mediumPriority: nat, lowPriority: nat)

  /** One value of `client_organization`. */
  datatype ClientEntry = ClientEntry(info: ClientInfo, categories: map<string, seq<JsonObject>>, allActions: seq<JsonObject>)

  /** `client_organization`: its keys in insertion order, and the dict itself. */
  datatype Organization = Organization(clients: seq<Json>, entries: map<Json, ClientEntry>)

  const EmptyOrganization := Organization([], map[])

  /** The entry created the first time a client is seen. */
  function NewEntry(c: Json): ClientEntry {
    ClientEntry(
      ClientInfo(c, 0, 0, 0, 0),
      map n | n in CategoryNames :: [],
      [])
  }

  /** 1 when `b` holds, else 0. */
  function Count(b: bool): nat {
    if b then 1 else 0
  }

  /** The counters after one more action of priority `p`: a priority other than the three names is counted nowhere. */
  function CountPriority(info: ClientInfo, p: Json): ClientInfo {
    ClientInfo(info.name, info.totalActions + 1,
      info.highPriority + Count(p == JStr("high")),
      info.mediumPriority + Count(p == JStr("medium")),
      info.lowPriority + Count(p == JStr("low")))
  }

  /** The buckets after one more action of category `cat`: appended only to an existing bucket. */
  function FileUnder(categories: map<string, seq<JsonObject>>, cat: Json, a: JsonObject): map<string, seq<JsonObject>> {
    if cat.JStr? && cat.s in categories then categories[cat.s := categories[cat.s] + [a]] else categories
  }

  /** The entry of client `c`, or a fresh one. */
  function EntryOf(org: Organization, c: Json): ClientEntry {
    if c in org.entries then org.entries[c] else NewEntry(c)
  }

  /** An entry after one more of its client's actions. */
  function AddToEntry(e: ClientEntry, a: JsonObject): ClientEntry {
    ClientEntry(CountPriority(e.info, PriorityOf(a)), FileUnder(e.categories, CategoryOf(a), a), e.allActions + [a])
  }

  /** One pass of the inner loop body of `organize_by_client`. */
  function AddAction(org: Organization, a: JsonObject): Organization {
    var c := ClientOf(a);
    Organization(
      if c in org.entries then org.clients else org.clients + [c],
      org.entries[c := AddToEntry(EntryOf(org, c), a)])
  }

  /** The state after visiting `xs`, in order, starting from `s`. */
  function FoldFrom<S>(step: (S, JsonObject) -> S, s: S, xs: seq<JsonObject>): S {
    if xs == [] then s else step(FoldFrom(step, s, xs[..|xs| - 1]), xs[|xs| - 1])
  }

  /** `organize_by_client` on the actions in visiting order. */
  function Fold(xs: seq<JsonObject>): Organization {
    FoldFrom(AddAction, EmptyOrganization, xs)
  }

  /** One more action of `xs` is one more step of the fold. */
  lemma FoldStep<S>(step: (S, JsonObject) -> S, s: S, xs: seq<JsonObject>, k: nat)
    requires k < |xs|
    ensures FoldFrom(step, s, xs[..k + 1]) == step(FoldFrom(step, s, xs[..k]), xs[k])
  {
    assert xs[..k + 1][..k] == xs[..k];
  }

  /** Visiting `xs` and then `ys` is visiting `xs + ys`. */
  lemma {:induction false} FoldAppend<S>(step: (S, JsonObject) -> S, s: S, xs: seq<JsonObject>, ys: seq<JsonObject>)
    ensures FoldFrom(step, FoldFrom(step, s, xs), ys) == FoldFrom(step, s, xs + ys)
  {
    if ys == [] {
      assert xs + ys == xs;
    } else {
      var init := ys[..|ys| - 1];
      FoldAppend(step, s, xs, init);
      assert (xs + ys)[..|xs + ys| - 1] == xs + init;
    }
  }

  /** The actions in visiting order: files in order, then each file's list in order. */
  function Flatten(files: seq<(string, seq<JsonObject>)>): seq<JsonObject> {
    if files == [] then [] else Flatten(files[..|files| - 1]) + files[|files| - 1].1
  }

  lemma FlattenSnoc(files: seq<(string, seq<JsonObject>)>, f: nat)
    requires f < |files|
    ensures Flatten(files[..f + 1]) == Flatten(files[..f]) + files[f].1
  {
    assert files[..f + 1][..f] == files[..f];
  }

  /**
   * The body of the inner loop of `organize_by_client` for one hashable
   * action: create the client's entry when it is new, then count the action,
   * file it under its category and append it to the client's list.
   */
  method AddActionInPlace(clients: seq<Json>, entries: map<Json, ClientEntry>, action: JsonObject)
    returns (clients': seq<Json>, entries': map<Json, ClientEntry>)
    ensures Organization(clients', entries') == AddAction(Organization(clients, entries), action)
  {
    clients', entries' := clients, entries;
    var clientName := ClientOf(action);
    if clientName !in entries' {
      entries' := entries'[clientName := NewEntry(clientName)];
      clients' := clients' + [clientName];
    }
    var entry := entries'[clientName];
    assert entry == EntryOf(Organization(clients, entries), clientName);
    var info := CountPriority(entry.info, PriorityOf(action));
    var categories := FileUnder(entry.categories, CategoryOf(action), action);
    entries' := entries'[clientName := ClientEntry(info, categories, entry.allActions + [action])];
    assert entries' == entries[clientName := AddToEntry(entry, action)];
  }

  /**
   * The inner loop of `organize_by_client`, over the actions of one file.
   * An unhashable client or category raises `TypeError`.
   */
  method OrganizeFile(org: Organization, actions: seq<JsonObject>) returns (r: Option<Organization>)
    ensures r.None? <==> !AllHashable(actions)
    ensures r.Some? ==> r.value == FoldFrom(AddAction, org, actions)
  {
    var clients, entries := org.clients, org.entries;
    var k := 0;
    while k < |actions|
      invariant 0 <= k <= |actions|
      invariant forall i :: 0 <= i < k ==> HashableAction(actions[i])
      invariant Organization(clients, entries) == FoldFrom(AddAction, org, actions[..k])
    {
      var action := actions[k];
      if !HashableAction(action) {
        return None;
      }
      assert forall i :: 0 <= i < k + 1 ==> HashableAction(actions[i]);
      clients, entries := AddActionInPlace(clients, entries, action);
      FoldStep(AddAction, org, actions, k);
      k := k + 1;
    }
    assert actions[..k] == actions;
    r := Some(Organization(clients, entries));
  }

  /** `organize_by_client`: the inner loop for each file, in order. */
  method OrganizeByClient(files: seq<(string, seq<JsonObject>)>) returns (r: Option<Organization>)
    ensures r.None? <==> !AllHashable(Flatten(files))
    ensures r.Some? ==> r.value == Fold(Flatten(files))
  {
    var org := EmptyOrganization;
    var f := 0;
    while f < |files|
      invariant 0 <= f <= |files|
      invariant AllHashable(Flatten(files[..f]))
      invariant org == Fold(Flatten(files[..f]))
    {
      var next := OrganizeFile(org, files[f].1);
      FlattenSnoc(files, f);
      if next.None? {
        NotHashableInFiles(files, f);
        return None;
      }
      FoldAppend(AddAction, EmptyOrganization, Flatten(files[..f]), files[f].1);
      org := next.value;
      f := f + 1;
    }
    assert files[..f] == files;
    r := Some(org);
  }

  /** An unhashable action in file `f` is an unhashable action of the whole visiting order. */
  lemma NotHashableInFiles(files: seq<(string, seq<JsonObject>)>, f: nat)
    requires f < |files| && !AllHashable(files[f].1)
    ensures !AllHashable(Flatten(files))
  {
    var i :| 0 <= i < |files[f].1| && !HashableAction(files[f].1[i]);
    var done := Flatten(files[..f]);
    var pre, all := Flatten(files[..f + 1]), Flatten(files);
    FlattenSnoc(files, f);
    FlattenPrefix(files, f + 1);
    var j := |done| + i;
    assert pre[j] == files[f].1[i];
    assert all[j] == pre[j];
    assert !HashableAction(all[j]);
  }

  /** Flattening a prefix of the files gives a prefix of the visiting order. */
  lemma {:induction false} FlattenPrefix(files: seq<(string, seq<JsonObject>)>, n: nat)
    requires n <= |files|
    ensures Flatten(files[..n]) <= Flatten(files)
  {
    if n < |files| {
      var m := |files| - 1;
      assert files[..m][..n] == files[..n];
      FlattenPrefix(files[..m], n);
    } else {
      assert files[..n] == files;
    }
  }

  /* ---------- The result in closed form ---------- */

  /** The actions of `xs` whose `key` is `v`, in their order. */
  function Where(xs: seq<JsonObject>, key: JsonObject -> Json, v: Json): seq<JsonObject> {
    if xs == [] then []
    else
      var init := Where(xs[..|xs| - 1], key, v);
      if key(xs[|xs| - 1]) == v then init + [xs[|xs| - 1]] else init
  }

  lemma WhereSnoc(xs: seq<JsonObject>, key: JsonObject -> Json, v: Json, a: JsonObject)
    ensures Where(xs + [a], key, v) == Where(xs, key, v) + (if key(a) == v then [a] else [])
  {
    assert (xs + [a])[..|xs|] == xs;
  }

  /** `sub` is `xs` with some actions left out and the others in their order. */
  predicate IsSubseq(sub: seq<JsonObject>, xs: seq<JsonObject>) {
    if sub == [] then true
    else if xs == [] then false
    else if sub[|sub| - 1] == xs[|xs| - 1] then IsSubseq(sub[..|sub| - 1], xs[..|xs| - 1])
    else IsSubseq(sub, xs[..|xs| - 1])
  }

  lemma {:induction false} SubseqExtend(sub: seq<JsonObject>, xs: seq<JsonObject>, x: JsonObject)
    requires IsSubseq(sub, xs)
    ensures IsSubseq(sub, xs + [x])
    decreases |xs|, 1
  {
    assert (xs + [x])[..|xs|] == xs;
    if sub != [] && sub[|sub| - 1] == x {
      SubseqDropLast(sub, xs);
    }
  }

  lemma {:induction false} SubseqDropLast(sub: seq<JsonObject>, xs: seq<JsonObject>)
    requires sub != [] && IsSubseq(sub, xs)
    ensures IsSubseq(sub[..|sub| - 1], xs)
    decreases |xs|, 0
  {
    var init := xs[..|xs| - 1];
    assert xs == init + [xs[|xs| - 1]];
    if sub[|sub| - 1] == xs[|xs| - 1] {
      SubseqExtend(sub[..|sub| - 1], init, xs[|xs| - 1]);
    } else {
      SubseqDropLast(sub, init);
      SubseqExtend(sub[..|sub| - 1], init, xs[|xs| - 1]);
    }
  }

  /** A filter keeps its actions in order, and keeps exactly those whose key matches. */
  lemma {:induction false} WhereIsSubseq(xs: seq<JsonObject>, key: JsonObject -> Json, v: Json)
    ensures IsSubseq(Where(xs, key, v), xs)
    ensures forall a :: a in Where(xs, key, v) <==> a in xs && key(a) == v
  {
    if xs != [] {
      var init, a := xs[..|xs| - 1], xs[|xs| - 1];
      assert xs == init + [a];
      WhereIsSubseq(init, key, v);
      if key(a) == v {
        assert Where(xs, key, v)[..|Where(xs, key, v)| - 1] == Where(init, key, v);
      } else {
        SubseqExtend(Where(init, key, v), init, a);
      }
    }
  }

  /** The actions filed under client `c`, in visiting order. */
  function OfClient(xs: seq<JsonObject>, c: Json): seq<JsonObject> {
    Where(xs, ClientOf, c)
  }

  /** The actions of `ys` filed in bucket `name`. */
  function InCategory(ys: seq<JsonObject>, name: string): seq<JsonObject> {
    Where(ys, CategoryOf, JStr(name))
  }

  /** How many actions of `ys` have priority `p` (a missing priority reads as "medium"). */
  function CountOf(ys: seq<JsonObject>, p: string): nat {
    |Where(ys, PriorityOf, JStr(p))|
  }

  /** The five buckets holding the actions of `ys`. */
  function Buckets(ys: seq<JsonObject>): map<string, seq<JsonObject>> {
    map n | n in CategoryNames :: InCategory(ys, n)
  }

  /** The entry of client `c` whose actions are `ys`. */
  function EntryFrom(c: Json, ys: seq<JsonObject>): ClientEntry {
    ClientEntry(ClientInfo(c, |ys|, CountOf(ys, "high"), CountOf(ys, "medium"), CountOf(ys, "low")), Buckets(ys), ys)
  }

  lemma BucketsSnoc(ys: seq<JsonObject>, a: JsonObject)
    ensures Buckets(ys + [a]) == FileUnder(Buckets(ys), CategoryOf(a), a)
  {
    var after := FileUnder(Buckets(ys), CategoryOf(a), a);
    forall n | n in CategoryNames ensures Buckets(ys + [a])[n] == after[n] {
      WhereSnoc(ys, CategoryOf, JStr(n), a);
    }
    assert Buckets(ys + [a]).Keys == after.Keys;
  }

  /** Counting and filing one more action of the client is the entry of the longer list. */
  lemma EntryFromSnoc(c: Json, ys: seq<JsonObject>, a: JsonObject)
    ensures EntryFrom(c, ys + [a]) == AddToEntry(EntryFrom(c, ys), a)
  {
    WhereSnoc(ys, PriorityOf, JStr("high"), a);
    WhereSnoc(ys, PriorityOf, JStr("medium"), a);
    WhereSnoc(ys, PriorityOf, JStr("low"), a);
    BucketsSnoc(ys, a);
  }

  /** The distinct clients of `xs` in order of first appearance. */
  function ClientsIn(xs: seq<JsonObject>): seq<Json> {
    if xs == [] then []
    else
      var cs := ClientsIn(xs[..|xs| - 1]);
      var c := ClientOf(xs[|xs| - 1]);
      if c in cs then cs else cs + [c]
  }

  /** Some action of `xs` is filed under `c`. */
  ghost predicate HasClient(xs: seq<JsonObject>, c: Json) {
    exists i :: 0 <= i < |xs| && ClientOf(xs[i]) == c
  }

  predicate Distinct(cs: seq<Json>) {
    forall i, j :: 0 <= i < j < |cs| ==> cs[i] != cs[j]
  }

  /** `ClientsIn` lists each client of the actions once, and nothing else. */
  lemma {:induction false} ClientsInExactly(xs: seq<JsonObject>)
    ensures Distinct(ClientsIn(xs))
    ensures forall c :: c in ClientsIn(xs) <==> HasClient(xs, c)
  {
    if xs != [] {
      var init, a := xs[..|xs| - 1], xs[|xs| - 1];
      ClientsInExactly(init);
      forall c ensures c in ClientsIn(xs) <==> HasClient(xs, c) {
        if HasClient(init, c) {
          var i :| 0 <= i < |init| && ClientOf(init[i]) == c;
          assert xs[i] == init[i];
        }
        if HasClient(xs, c) && c != ClientOf(a) {
          var i :| 0 <= i < |xs| && ClientOf(xs[i]) == c;
          assert init[i] == xs[i];
        }
        if c == ClientOf(a) {
          assert ClientOf(xs[|xs| - 1]) == c;
        }
      }
    }
  }

  /** A client with no action has an empty list. */
  lemma {:induction false} NoActionsOfAbsentClient(xs: seq<JsonObject>, c: Json)
    requires !HasClient(xs, c)
    ensures OfClient(xs, c) == []
  {
    if xs != [] {
      var init := xs[..|xs| - 1];
      assert ClientOf(xs[|xs| - 1]) != c;
      forall i | 0 <= i < |init| ensures ClientOf(init[i]) != c {
        assert init[i] == xs[i];
      }
      NoActionsOfAbsentClient(init, c);
    }
  }

  /**
   * `org` is what `organize_by_client` builds from `xs`: one key per
   * distinct client in order of first appearance (an action without
   * `client` under "Unknown Client"), each entry computed from that
   * client's actions in their order.
   */
  ghost predicate Characterizes(org: Organization, xs: seq<JsonObject>) {
    && org.clients == ClientsIn(xs)
    && (forall c :: c in org.entries <==> c in ClientsIn(xs))
    && (forall c :: c in org.entries ==> org.entries[c] == EntryFrom(c, OfClient(xs, c)))
  }

  /** Visiting the last action of `xs` lists its client once, at first sight. */
  lemma ClientsStep(org: Organization, xs: seq<JsonObject>)
    requires xs != []
    requires org.clients == ClientsIn(xs[..|xs| - 1])
    requires forall c :: c in org.entries <==> c in ClientsIn(xs[..|xs| - 1])
    ensures AddAction(org, xs[|xs| - 1]).clients == ClientsIn(xs)
    ensures forall c :: c in AddAction(org, xs[|xs| - 1]).entries <==> c in ClientsIn(xs)
  {
    var cs, c0 := ClientsIn(xs[..|xs| - 1]), ClientOf(xs[|xs| - 1]);
    assert ClientsIn(xs) == if c0 in cs then cs else cs + [c0];
    var after := AddAction(org, xs[|xs| - 1]);
    forall c ensures c in after.entries <==> c in org.entries || c == c0 { }
  }

  /** The visited action's client gets the entry of its longer action list. */
  lemma EntryStep(org: Organization, xs: seq<JsonObject>)
    requires xs != []
    requires var c0 := ClientOf(xs[|xs| - 1]);
      && (c0 in org.entries <==> c0 in ClientsIn(xs[..|xs| - 1]))
      && (c0 in org.entries ==> org.entries[c0] == EntryFrom(c0, OfClient(xs[..|xs| - 1], c0)))
    ensures var c0 := ClientOf(xs[|xs| - 1]);
      AddToEntry(EntryOf(org, c0), xs[|xs| - 1]) == EntryFrom(c0, OfClient(xs, c0))
  {
    var init, a := xs[..|xs| - 1], xs[|xs| - 1];
    var c0 := ClientOf(a);
    assert OfClient(xs, c0) == OfClient(init, c0) + [a];
    if c0 in org.entries {
      EntryFromSnoc(c0, OfClient(init, c0), a);
    } else {
      ClientsInExactly(init);
      NoActionsOfAbsentClient(init, c0);
      EntryFromSnoc(c0, [], a);
    }
  }

  /** The other clients' entries stay those of their unchanged action lists. */
  lemma OthersStep(org: Organization, xs: seq<JsonObject>)
    requires xs != []
    requires forall c :: c in org.entries ==> org.entries[c] == EntryFrom(c, OfClient(xs[..|xs| - 1], c))
    ensures forall c :: c in org.entries && c != ClientOf(xs[|xs| - 1]) ==> org.entries[c] == EntryFrom(c, OfClient(xs, c))
  {
    forall c | c in org.entries && c != ClientOf(xs[|xs| - 1]) ensures OfClient(xs, c) == OfClient(xs[..|xs| - 1], c) { }
  }

  /** Visiting the last action keeps the closed form. */
  lemma AddActionStep(org: Organization, xs: seq<JsonObject>)
    requires xs != [] && Characterizes(org, xs[..|xs| - 1])
    ensures Characterizes(AddAction(org, xs[|xs| - 1]), xs)
  {
    var after := AddAction(org, xs[|xs| - 1]);
    ClientsStep(org, xs);
    EntryStep(org, xs);
    OthersStep(org, xs);
    forall c | c in after.entries ensures after.entries[c] == EntryFrom(c, OfClient(xs, c)) {
      if c != ClientOf(xs[|xs| - 1]) {
        assert after.entries[c] == org.entries[c];
      }
    }
  }

  /** The fold computes the closed form. */
  lemma {:induction false} FoldCharacterized(xs: seq<JsonObject>)
    ensures Characterizes(Fold(xs), xs)
  {
    if xs != [] {
      var init := xs[..|xs| - 1];
      FoldCharacterized(init);
      AddActionStep(Fold(init), xs);
    }
  }

  /* ---------- Properties of the result ---------- */

  /** The priority is one of the three the counters track. */
  predicate KnownPriority(a: JsonObject) {
    PriorityOf(a) == JStr("high") || PriorityOf(a) == JStr("medium") || PriorityOf(a) == JStr("low")
  }

  /**
   * The three priority counters never exceed the action count, and they add
   * up to it exactly when every action's priority is "high", "medium" or
   * "low" (any other value is counted in `total_actions` only).
   */
  lemma {:induction false} PriorityCounts(ys: seq<JsonObject>)
    ensures CountOf(ys, "high") + CountOf(ys, "medium") + CountOf(ys, "low") <= |ys|
    ensures CountOf(ys, "high") + CountOf(ys, "medium") + CountOf(ys, "low") == |ys|
      <==> forall i :: 0 <= i < |ys| ==> KnownPriority(ys[i])
  {
    if ys != [] {
      var init := ys[..|ys| - 1];
      PriorityCounts(init);
      if forall i :: 0 <= i < |ys| ==> KnownPriority(ys[i]) {
        forall i | 0 <= i < |init| ensures KnownPriority(init[i]) {
          assert init[i] == ys[i];
        }
      }
      if forall i :: 0 <= i < |init| ==> KnownPriority(init[i]) {
        if KnownPriority(ys[|ys| - 1]) {
          forall i | 0 <= i < |ys| ensures KnownPriority(ys[i]) {
            if i < |init| {
              assert ys[i] == init[i];
            }
          }
        }
      }
    }
  }

  /**
   * Each client's entry after `organize_by_client`: its name is the key,
   * `all_actions` holds exactly that client's actions in visiting order,
   * `total_actions` counts them, the priority counters obey
   * `PriorityCounts`, and the five buckets hold exactly the actions whose
   * category names them, in the same order.
   */
  lemma ClientEntryFacts(xs: seq<JsonObject>, c: Json)
    requires c in Fold(xs).entries
    ensures var e := Fold(xs).entries[c];
      && e.info.name == c
      && e.info.totalActions == |e.allActions|
      && IsSubseq(e.allActions, xs)
      && (forall a :: a in e.allActions <==> a in xs && ClientOf(a) == c)
      && (e.info.highPriority + e.info.mediumPriority + e.info.lowPriority == e.info.totalActions
          <==> forall i :: 0 <= i < |e.allActions| ==> KnownPriority(e.allActions[i]))
      && e.info.highPriority + e.info.mediumPriority + e.info.lowPriority <= e.info.totalActions
      && (forall n :: n in e.categories <==> n in CategoryNames)
      && (forall n :: n in e.categories ==> IsSubseq(e.categories[n], e.allActions))
      && (forall n, a :: n in e.categories ==> (a in e.categories[n] <==> a in e.allActions && CategoryOf(a) == JStr(n)))
  {
    FoldCharacterized(xs);
    var ys := OfClient(xs, c);
    WhereIsSubseq(xs, ClientOf, c);
    PriorityCounts(ys);
    forall n | n in CategoryNames
      ensures IsSubseq(InCategory(ys, n), ys)
      ensures forall a :: a in InCategory(ys, n) <==> a in ys && CategoryOf(a) == JStr(n)
    {
      WhereIsSubseq(ys, CategoryOf, JStr(n));
    }
  }

  /** Every visited action is filed under its client (or "Unknown Client"). */
  lemma EveryActionFiled(xs: seq<JsonObject>, i: nat)
    requires i < |xs|
    ensures ClientOf(xs[i]) in Fold(xs).entries
    ensures xs[i] in Fold(xs).entries[ClientOf(xs[i])].allActions
    ensures "client" !in xs[i] ==> ClientOf(xs[i]) == JStr("Unknown Client")
  {
    FoldCharacterized(xs);
    ClientsInExactly(xs);
    assert HasClient(xs, ClientOf(xs[i]));
    WhereIsSubseq(xs, ClientOf, ClientOf(xs[i]));
  }

  /** `total_actions` summed over the clients `cs`. */
  function SumTotals(cs: seq<Json>, entries: map<Json, ClientEntry>): nat {
    if cs == [] then 0
    else
      var c := cs[|cs| - 1];
      SumTotals(cs[..|cs| - 1], entries) + (if c in entries then entries[c].info.totalActions else 0)
  }

  /** The number of actions of `xs` filed under the clients `cs`. */
  function SumSizes(cs: seq<Json>, xs: seq<JsonObject>): nat {
    if cs == [] then 0 else SumSizes(cs[..|cs| - 1], xs) + |OfClient(xs, cs[|cs| - 1])|
  }

  lemma {:induction false} SumTotalsIsSizes(cs: seq<Json>, entries: map<Json, ClientEntry>, xs: seq<JsonObject>)
    requires forall c :: c in entries ==> entries[c] == EntryFrom(c, OfClient(xs, c))
    requires forall i :: 0 <= i < |cs| ==> cs[i] in entries
    ensures SumTotals(cs, entries) == SumSizes(cs, xs)
  {
    if cs != [] {
      var init := cs[..|cs| - 1];
      assert forall i :: 0 <= i < |init| ==> init[i] == cs[i];
      SumTotalsIsSizes(init, entries, xs);
    }
  }

  lemma {:induction false} SumSizesSnoc(cs: seq<Json>, xs: seq<JsonObject>)
    requires xs != [] && Distinct(cs)
    ensures SumSizes(cs, xs) == SumSizes(cs, xs[..|xs| - 1]) + Count(ClientOf(xs[|xs| - 1]) in cs)
  {
    if cs != [] {
      var init := cs[..|cs| - 1];
      assert Distinct(init) by {
        forall i, j | 0 <= i < j < |init| ensures init[i] != init[j] {
          assert init[i] == cs[i] && init[j] == cs[j];
        }
      }
      SumSizesSnoc(init, xs);
      var c := ClientOf(xs[|xs| - 1]);
      if c == cs[|cs| - 1] {
        assert c !in init by {
          forall i | 0 <= i < |init| ensures init[i] != c {
            assert init[i] == cs[i];
          }
        }
      }
      assert c in cs <==> c in init || c == cs[|cs| - 1];
    }
  }

  lemma {:induction false} SumSizesAll(cs: seq<Json>, xs: seq<JsonObject>)
    requires Distinct(cs)
    requires forall i :: 0 <= i < |xs| ==> ClientOf(xs[i]) in cs
    ensures SumSizes(cs, xs) == |xs|
  {
    if xs == [] {
      SumSizesOfNothing(cs);
    } else {
      var init := xs[..|xs| - 1];
      assert forall i :: 0 <= i < |init| ==> init[i] == xs[i];
      SumSizesAll(cs, init);
      SumSizesSnoc(cs, xs);
    }
  }

  lemma {:induction false} SumSizesOfNothing(cs: seq<Json>)
    ensures SumSizes(cs, []) == 0
  {
    if cs != [] {
      SumSizesOfNothing(cs[..|cs| - 1]);
    }
  }

  /** The clients' `total_actions` add up to the number of actions visited. */
  lemma TotalsAddUp(xs: seq<JsonObject>)
    ensures SumTotals(Fold(xs).clients, Fold(xs).entries) == |xs|
  {
    var org := Fold(xs);
    FoldCharacterized(xs);
    ClientsInExactly(xs);
    SumTotalsIsSizes(org.clients, org.entries, xs);
    forall i | 0 <= i < |xs| ensures ClientOf(xs[i]) in org.clients {
      assert HasClient(xs, ClientOf(xs[i]));
    }
    SumSizesAll(org.clients, xs);
  }
}
