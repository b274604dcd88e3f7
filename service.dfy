/**
 * `PayloadsService`: the in-memory catalogue of the Payloads plugin as a
 * class whose three maps the methods update step by step, as the Python
 * object does. Each method is proved to leave the object in the state, and
 * to return the value, that the functions of module `Catalogue` describe.
 */
module Service {
  import opened Wrappers
  import opened Strings
  import opened Values
  import opened Schemas
  import opened Catalogue

  /** The member of `pool` that sorts first, ascending or, when `desc`, descending. */
  method Extreme(keys: map<string, SortKey>, pool: set<string>, desc: bool) returns (best: string)
    requires pool != {} && pool <= keys.Keys
    requires forall a, b :: a in pool && b in pool && a != b ==> Comparable(keys[a], keys[b])
    ensures best in pool
    ensures forall y :: y in pool && y != best ==> InOrder(keys[best], keys[y], desc)
  {
    best :| best in pool;
    var rest := pool - {best};
    while rest != {}
      invariant rest <= pool && best in pool && best !in rest
      invariant forall y :: y in pool - rest && y != best ==> InOrder(keys[best], keys[y], desc)
      decreases |rest|
    {
      var y :| y in rest;
      if !InOrder(keys[best], keys[y], desc) {
        InOrderTotal(keys[best], keys[y], desc);
        forall z | z in pool - rest && z != y
          ensures InOrder(keys[y], keys[z], desc)
        {
          if z != best {
            InOrderTransitive(keys[y], keys[best], keys[z], desc);
          }
        }
        best := y;
      }
      rest := rest - {y};
    }
  }

  /**
   * `ids.sort(key=_key, reverse=desc)` on the distinct ids `ids`: the result
   * lists each of them once, in key order.
   */
  method SortIds(keys: map<string, SortKey>, ids: set<string>, desc: bool) returns (order: seq<string>)
    requires ids <= keys.Keys
    requires forall a, b :: a in ids && b in ids && a != b ==> Comparable(keys[a], keys[b])
    ensures forall x :: x in order <==> x in ids
    ensures Distinct(order)
    ensures SortedBy(order, keys, desc)
  {
    order := [];
    var rest := ids;
    while rest != {}
      invariant rest <= ids
      invariant forall x :: x in ids <==> x in order || x in rest
      invariant forall x :: x in order ==> x !in rest
      invariant Distinct(order)
      invariant SortedBy(order, keys, desc)
      invariant forall i, y :: 0 <= i < |order| && y in rest ==> InOrder(keys[order[i]], keys[y], desc)
      decreases |rest|
    {
      var best := Extreme(keys, rest, desc);
      order := order + [best];
      rest := rest - {best};
    }
  }

  /** The least of a non-empty set of strings. */
  method LeastKey(pool: set<string>) returns (least: string)
    requires pool != {}
    ensures least in pool
    ensures forall y :: y in pool ==> StrLe(least, y)
  {
    least :| least in pool;
    StrLeReflexive(least);
    var rest := pool - {least};
    while rest != {}
      invariant rest <= pool && least in pool
      invariant forall y :: y in pool - rest ==> StrLe(least, y)
      decreases |rest|
    {
      var y :| y in rest;
      if !StrLe(least, y) {
        StrLeTotal(least, y);
        forall z | z in pool - rest
          ensures StrLe(y, z)
        {
          StrLeTransitive(y, least, z);
        }
        StrLeReflexive(y);
        least := y;
      }
      rest := rest - {y};
    }
  }

  /** `s = s2 if s is None else s.intersection(s2)` over the sets in turn. */
  method Intersect(sets: seq<set<string>>) returns (r: set<string>)
    requires sets != []
    ensures r == Meet(sets)
  {
    r := sets[0];
    var i := 1;
    while i < |sets|
      invariant 1 <= i <= |sets|
      invariant r == Meet(sets[..i])
    {
      assert sets[..i + 1][..i] == sets[..i];
      r := r * sets[i];
      i := i + 1;
    }
    assert sets[..|sets|] == sets;
  }

  class PayloadsService {
    /** `_payloads`: the records by id. */
    var payloads: map<string, Item>
    /** `_index`: for each facet and key, the ids filed under it. */
    var index: map<IndexKey, set<string>>
    /** `_by_words`: for each word, the ids whose text contains it. */
    var words: map<string, set<string>>

    function Snapshot(): State
      reads this
    {
      State(payloads, index, words)
    }

    constructor ()
      ensures Snapshot() == State(map[], map[], map[])
      ensures Consistent(Snapshot())
    {
      payloads := map[];
      index := map[];
      words := map[];
    }

    /** `self._index[f][k].add(pid)`. */
    method AddKey(f: Facet, k: string, pid: string)
      modifies this
      ensures index == AddAll(old(index), {IndexKey(f, k)}, pid)
      ensures payloads == old(payloads) && words == old(words)
    {
      AddOne(index, IndexKey(f, k), pid);
      index := index[IndexKey(f, k) := Postings(index, IndexKey(f, k)) + {pid}];
    }

    /** Files `pid` under `[c]` for each character `c` of a string being iterated. */
    method AddChars(f: Facet, s: string, pid: string)
      modifies this
      ensures index == AddAll(old(index), Keyed(f, set c | c in s :: [c]), pid)
      ensures payloads == old(payloads) && words == old(words)
    {
      var i := 0;
      ghost var seen: set<string> := {};
      KeyedNone(index, f, pid);
      while i < |s|
        invariant 0 <= i <= |s|
        invariant seen == set c | c in s[..i] :: [c]
        invariant index == AddAll(old(index), Keyed(f, seen), pid)
        invariant payloads == old(payloads) && words == old(words)
      {
        AddKey(f, [s[i]], pid);
        AddKeyed(old(index), f, seen, [s[i]], pid);
        assert s[..i + 1] == s[..i] + [s[i]];
        seen := seen + {[s[i]]};
        i := i + 1;
      }
      assert s[..|s|] == s;
    }

    /** Files `pid` under each key of a dict being iterated. */
    method AddDictKeys(f: Facet, keys: set<string>, pid: string)
      modifies this
      ensures index == AddAll(old(index), Keyed(f, keys), pid)
      ensures payloads == old(payloads) && words == old(words)
    {
      var rest := keys;
      ghost var seen: set<string> := {};
      KeyedNone(index, f, pid);
      while rest != {}
        invariant seen !! rest && seen + rest == keys
        invariant index == AddAll(old(index), Keyed(f, seen), pid)
        invariant payloads == old(payloads) && words == old(words)
        decreases |rest|
      {
        var k :| k in rest;
        AddKey(f, k, pid);
        AddKeyed(old(index), f, seen, k, pid);
        seen := seen + {k};
        rest := rest - {k};
      }
    }

    /**
     * `for key in v: self._index[f][key].add(pid)` where the keys must be
     * strings: returns whether the loop ran to the end.
     */
    method AddStrings(f: Facet, v: Value, pid: string) returns (ok: bool)
      modifies this
      ensures ok == StrKeys(v).1
      ensures index == AddAll(old(index), Keyed(f, StrKeys(v).0), pid)
      ensures payloads == old(payloads) && words == old(words)
    {
      match v {
        case List(e) =>
          ok := AddStringList(f, e, pid);
        case Str(s) =>
          AddChars(f, s, pid);
          ok := true;
        case Dict(m) =>
          AddDictKeys(f, m.Keys, pid);
          ok := true;
        case _ =>
          ok := false;
          KeyedNone(index, f, pid);
      }
    }

    /** The list case of `AddStrings`: the leading strings are filed; a non-string stops the loop. */
    method AddStringList(f: Facet, e: seq<Value>, pid: string) returns (ok: bool)
      modifies this
      ensures ok == StrKeys(List(e)).1
      ensures index == AddAll(old(index), Keyed(f, StrKeys(List(e)).0), pid)
      ensures payloads == old(payloads) && words == old(words)
    {
      ghost var start := index;
      var i := 0;
      ghost var seen: set<string> := {};
      KeyedNone(index, f, pid);
      while i < |e| && e[i].Str?
        invariant 0 <= i <= |e|
        invariant forall j :: 0 <= j < i ==> e[j].Str?
        invariant seen == set j | 0 <= j < i && e[j].Str? :: e[j].s
        invariant index == AddAll(start, Keyed(f, seen), pid)
        invariant payloads == old(payloads) && words == old(words)
      {
        AddKey(f, e[i].s, pid);
        AddKeyed(start, f, seen, e[i].s, pid);
        seen := seen + {e[i].s};
        i := i + 1;
      }
      LeadingStrsStop(e, i);
      assert seen == set j | 0 <= j < i :: e[j].s;
      ok := i == |e|;
    }

    /** The list case of `AddTactics`: the `str()` of every element is filed. */
    method AddTacticList(e: seq<Value>, pid: string)
      modifies this
      ensures index == AddAll(old(index), Keyed(Tactics, TacticKeys(List(e)).0), pid)
      ensures payloads == old(payloads) && words == old(words)
    {
      ghost var start := index;
      var i := 0;
      ghost var seen: set<string> := {};
      KeyedNone(index, Tactics, pid);
      while i < |e|
        invariant 0 <= i <= |e|
        invariant seen == set x | x in e[..i] :: PyStr(x)
        invariant index == AddAll(start, Keyed(Tactics, seen), pid)
        invariant payloads == old(payloads) && words == old(words)
      {
        AddKey(Tactics, PyStr(e[i]), pid);
        AddKeyed(start, Tactics, seen, PyStr(e[i]), pid);
        assert e[..i + 1] == e[..i] + [e[i]];
        TacticKeysAppend(e[..i], e[i]);
        seen := seen + {PyStr(e[i])};
        i := i + 1;
      }
      assert e[..|e|] == e;
      assert seen == TacticKeys(List(e)).0;
    }

    /** `for tac in v: self._index['tactics'][str(tac)].add(pid)`. */
    method AddTactics(v: Value, pid: string) returns (ok: bool)
      modifies this
      ensures ok == TacticKeys(v).1
      ensures index == AddAll(old(index), Keyed(Tactics, TacticKeys(v).0), pid)
      ensures payloads == old(payloads) && words == old(words)
    {
      match v {
        case List(e) =>
          AddTacticList(e, pid);
          ok := true;
        case Str(s) =>
          AddChars(Tactics, s, pid);
          ok := true;
        case Dict(m) =>
          AddDictKeys(Tactics, m.Keys, pid);
          ok := true;
        case _ =>
          ok := false;
          KeyedNone(index, Tactics, pid);
      }
    }

    /** The facet statements of `_upsert_item`, stopping where Python would raise. */
    method IndexFacets(it: Item, pid: string) returns (ok: bool)
      modifies this
      ensures Indexed(ok, index) == FacetSteps(old(index), it, pid)
      ensures payloads == old(payloads) && words == old(words)
    {
      ok := AddStrings(Os, ListOr(Get(it, "os")), pid);
      if !ok {
        return;
      }
      ok := AddTactics(ListOr(Get(it, "tactics")), pid);
      if !ok {
        return;
      }
      var ft := Get(it, "file_type");
      if Truthy(ft) {
        if !ft.Str? {
          return false;
        }
        AddKey(FileType, ft.s, pid);
      }
      ok := AddStrings(Tags, TagsOf(it), pid);
      if !ok {
        return;
      }
      var status := GetOr(it, "status", Str("active"));
      if !status.Str? {
        return false;
      }
      AddKey(Status, status.s, pid);
      var sev := Or(Get(it, "severity"), Str("medium"));
      if !sev.Str? {
        return false;
      }
      AddKey(Severity, sev.s, pid);
    }

    /** `for w in tokens: self._by_words[w].add(pid)`. */
    method AddWords(tokens: seq<string>, pid: string)
      modifies this
      ensures words == AddAll(old(words), (set t | t in tokens), pid)
      ensures payloads == old(payloads) && index == old(index)
    {
      var i := 0;
      AddAllNone(words, pid);
      while i < |tokens|
        invariant 0 <= i <= |tokens|
        invariant words == AddAll(old(words), (set t | t in tokens[..i]), pid)
        invariant payloads == old(payloads) && index == old(index)
      {
        ghost var seen := set t | t in tokens[..i];
        AddOne(words, tokens[i], pid);
        AddAllUnion(old(words), seen, {tokens[i]}, pid);
        words := words[tokens[i] := Postings(words, tokens[i]) + {pid}];
        assert tokens[..i + 1] == tokens[..i] + [tokens[i]];
        SeqSetAppend(tokens[..i], tokens[i]);
        i := i + 1;
      }
      assert tokens[..|tokens|] == tokens;
    }

    /**
     * `_upsert_item(item)`: fill in the defaults, store the record, index
     * its facets, then its words. Returns whether it ran to the end; when
     * it raises part-way, the changes made before stay.
     */
    method Upsert(item: Item, now: string) returns (ok: bool)
      modifies this
      ensures Applied(ok, Snapshot()) == UpsertSpec(old(Snapshot()), item, now)
    {
      var id := PidOf(item);
      if !id.Str? {
        return false;
      }
      var pid := id.s;
      var it := item;
      if !Truthy(Get(it, "name")) {
        it := it["name" := Str(pid)];
      }
      if !Truthy(Get(it, "severity")) {
        it := it["severity" := Str("medium")];
      }
      if !Truthy(Get(it, "status")) {
        it := it["status" := Str("active")];
      }
      if !Truthy(Get(it, "updated_at")) {
        it := it["updated_at" := Str(now)];
      }
      assert it == WithDefaults(item, pid, now);
      payloads := payloads[pid := it];
      ok := IndexFacets(it, pid);
      if !ok {
        return;
      }
      var text := TextOf(it);
      if text.Fault? {
        return false;
      }
      AddWords(Tokenize(text.value), pid);
    }

    /** `_upsert_item` on each item in turn, stopping at the first that raises. */
    method UpsertItems(items: seq<Value>, now: string) returns (ok: bool)
      requires forall x :: x in items ==> x.Dict?
      modifies this
      ensures Applied(ok, Snapshot()) == UpsertAll(old(Snapshot()), items, now)
    {
      var i := 0;
      while i < |items|
        invariant 0 <= i <= |items|
        invariant forall x :: x in items[..i] ==> x in items
        invariant Applied(true, Snapshot()) == UpsertAll(old(Snapshot()), items[..i], now)
      {
        assert items[..i + 1][..i] == items[..i];
        ok := Upsert(items[i].fields, now);
        if !ok {
          UpsertAllStops(old(Snapshot()), items, i + 1, now);
          return;
        }
        i := i + 1;
      }
      assert items[..|items|] == items;
      ok := true;
    }

    /**
     * `_match_filters(q)`: one set for the search terms, one for each facet
     * with requested values, intersected; every stored id when there is none.
     */
    method MatchFilters(q: Query) returns (ids: set<string>)
      ensures ids == MatchSpec(Snapshot(), q)
    {
      var sets: seq<set<string>> := [];
      var terms := SearchTerms(q);
      if terms != [] {
        var s := Intersect(WordSets(words, terms));
        sets := sets + [s];
      }
      assert sets == SearchSets(Snapshot(), q);
      sets := AppendFacetSets(q, sets);
      if sets == [] {
        return payloads.Keys;
      }
      ids := Intersect(sets);
    }

    /** The facet loop of `_match_filters`, appending one set per facet with requested values. */
    method AppendFacetSets(q: Query, start: seq<set<string>>) returns (sets: seq<set<string>>)
      ensures sets == start + FacetSets(Snapshot(), q, FacetOrder)
    {
      ghost var st := Snapshot();
      sets := start;
      assert FacetOrder[..0] == [];
      var j := 0;
      while j < |FacetOrder|
        invariant 0 <= j <= |FacetOrder|
        invariant sets == start + FacetSets(st, q, FacetOrder[..j])
      {
        var f := FacetOrder[j];
        FacetSetsStep(st, q, FacetOrder, j);
        var vals := Filter(q, f);
        if vals != [] {
          var s := Intersect(ValueSets(index, f, vals));
          ghost var facets := FacetSets(st, q, FacetOrder[..j]);
          assert (start + facets) + [s] == start + (facets + [s]);
          sets := sets + [s];
        }
        j := j + 1;
      }
      assert FacetOrder[..|FacetOrder|] == FacetOrder;
    }

    /** `_key` for every matched id, raising `KeyError` on an id with no record. */
    method SortKeys(ids: set<string>, field: string) returns (r: Outcome<map<string, SortKey>>)
      ensures r.Fault? <==> exists id :: id in ids && id !in payloads
      ensures r.Ok? ==> r.value == KeysOf(Snapshot(), ids, field)
    {
      var keys: map<string, SortKey> := map[];
      var rest := ids;
      while rest != {}
        invariant rest <= ids
        invariant ids - rest <= payloads.Keys
        invariant keys == KeysOf(Snapshot(), ids - rest, field)
        decreases |rest|
      {
        var id :| id in rest;
        if id !in payloads {
          return Fault;
        }
        keys := keys[id := SortKeyOf(payloads[id], field)];
        rest := rest - {id};
      }
      assert ids - rest == ids;
      return Ok(keys);
    }

    /**
     * `list_payloads(q)`: the matched ids sorted by the requested field,
     * then one page of their records. It raises when a matched id has no
     * record or when two keys cannot be compared.
     */
    method ListPayloads(q: Query) returns (r: Outcome<Listing>, order: seq<string>)
      ensures r.Fault? <==> ListRaises(Snapshot(), q)
      ensures r.Ok? ==>
        && (forall x :: x in order <==> x in MatchSpec(Snapshot(), q))
        && Distinct(order)
        && SortedBy(order, KeysOf(Snapshot(), MatchSpec(Snapshot(), q), SortField(q)), Descending(q))
        && r.value == ListingOf(Snapshot(), q, order)
        && r.value.total == |MatchSpec(Snapshot(), q)|
    {
      order := [];
      var ids := MatchFilters(q);
      var field := SortField(q);
      var keys := SortKeys(ids, field);
      if keys.Fault? {
        return Fault, [];
      }
      if |ids| >= 2 && !SameKind(keys.value) {
        return Fault, [];
      }
      forall a, b | a in ids && b in ids && a != b
        ensures Comparable(keys.value[a], keys.value[b])
      {
        TwoMembers(ids, a, b);
        SameKindComparable(keys.value, a, b);
      }
      order := SortIds(keys.value, ids, Descending(q));
      DistinctCard(order, ids);
      r := Ok(ListingOf(Snapshot(), q, order));
    }

    /**
     * The counts of one facet: for each key of `_index[f]`, in increasing
     * order, the number of ids of `ids` filed under it.
     */
    method CountFacet(ids: set<string>, f: Facet) returns (counts: seq<Count>)
      ensures FacetCounts(Snapshot(), ids, f, counts)
    {
      counts := [];
      var all := DimKeys(Snapshot(), f);
      var rest := all;
      while rest != {}
        invariant rest <= all
        invariant forall k :: k in all <==> k in rest || k in (set c | c in counts :: c.key)
        invariant forall c, y :: c in counts && y in rest ==> StrLt(c.key, y)
        invariant forall i, j :: 0 <= i < j < |counts| ==> StrLt(counts[i].key, counts[j].key)
        invariant forall c :: c in counts ==> c.count == |ids * Postings(index, IndexKey(f, c.key))|
        decreases |rest|
      {
        var k := LeastKey(rest);
        counts := counts + [Count(k, |ids * Postings(index, IndexKey(f, k))|)];
        rest := rest - {k};
      }
    }

    /**
     * `facets(q)`: the ids matched by the search text alone, counted under
     * every key of every facet.
     */
    method Facets(search: string) returns (res: map<Facet, seq<Count>>)
      ensures forall f :: f in res && FacetCounts(Snapshot(), MatchSpec(Snapshot(), SearchOnly(search)), f, res[f])
    {
      var ids := MatchFilters(SearchOnly(search));
      res := map[];
      var j := 0;
      while j < |FacetOrder|
        invariant 0 <= j <= |FacetOrder|
        invariant forall i :: 0 <= i < j ==> FacetOrder[i] in res && FacetCounts(Snapshot(), ids, FacetOrder[i], res[FacetOrder[i]])
      {
        var counts := CountFacet(ids, FacetOrder[j]);
        res := res[FacetOrder[j] := counts];
        j := j + 1;
      }
      forall f
        ensures f in res && FacetCounts(Snapshot(), ids, f, res[f])
      {
        AllFacets(f);
        var i :| 0 <= i < |FacetOrder| && FacetOrder[i] == f;
      }
    }

    /**
     * `handle_yaml_import` on the loaded document: validate it and, when it
     * is `ok`, upsert every item; report how many were imported and the errors.
     */
    method HandleYamlImport(doc: Value, now: string) returns (r: Outcome<ImportResult>)
      modifies this
      ensures Imported(r, Snapshot()) == ImportSpec(old(Snapshot()), doc, now)
    {
      var d := Or(doc, Dict(map[]));
      var result := ValidateManifest(d);
      if result.Fault? {
        return Fault;
      }
      var errors := result.value.errors;
      var imported := 0;
      if result.value.ok {
        AcceptedManifestItems(d);
        var items := ItemsOf(d).value.elems;
        var ok := UpsertItems(items, now);
        if !ok {
          return Fault;
        }
        imported := |items|;
      }
      return Ok(ImportResult(imported, |errors|, errors));
    }

    /**
     * `load_from_disk` over the documents the directory walk loads, in
     * order: a document that is no dict, or whose manifest is not `ok`, is
     * skipped. Returns whether it ran to the end.
     */
    method LoadFromDisk(docs: seq<Value>, now: string) returns (ok: bool)
      modifies this
      ensures Applied(ok, Snapshot()) == LoadSpec(old(Snapshot()), docs, now)
    {
      var i := 0;
      while i < |docs|
        invariant 0 <= i <= |docs|
        invariant Applied(true, Snapshot()) == LoadSpec(old(Snapshot()), docs[..i], now)
      {
        assert docs[..i + 1][..i] == docs[..i];
        var d := Or(docs[i], Dict(map[]));
        if d.Dict? {
          var result := ValidateManifest(d);
          if result.Fault? {
            LoadStops(old(Snapshot()), docs, i + 1, now);
            return false;
          }
          if result.value.ok {
            AcceptedManifestItems(d);
            ok := UpsertItems(ItemsOf(d).value.elems, now);
            if !ok {
              LoadStops(old(Snapshot()), docs, i + 1, now);
              return;
            }
          }
        }
        i := i + 1;
      }
      assert docs[..|docs|] == docs;
      ok := true;
    }
  }
}
