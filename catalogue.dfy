/**
 * The in-memory catalogue of the Payloads plugin (`PayloadsService`) as
 * values: its state (records by id, facet postings, word postings), what
 * `_upsert_item` does to that state, which ids a query matches, how matched
 * ids are keyed for sorting, and which slice a listing shows.
 *
 * The class in module `Service` changes its fields step by step and is
 * proved to follow these functions; the lemmas here say what the functions
 * mean.
 */
module Catalogue {
  import opened Wrappers
  import opened Strings
  import opened Values
  import opened Schemas

  /** A payload record: the dict of one manifest item. */
  type Item = map<string, Value>

  /** The facets `_upsert_item` indexes, in the order `_match_filters` visits them. */
  datatype Facet = Tactics | Os | FileType | Tags | Status | Severity

  const FacetOrder: seq<Facet> := [Tactics, Os, FileType, Tags, Status, Severity]

  /** `_index[facet][key]`: the two levels of nested default dicts as one key. */
  datatype IndexKey = IndexKey(facet: Facet, key: string)

  /** The three maps of `PayloadsService`: `_payloads`, `_index` and `_by_words`. */
  datatype State = State(
    payloads: map<string, Item>,
    index: map<IndexKey, set<string>>,
    words: map<string, set<string>>)

  /** Every id that the indices hold names a stored record. */
  predicate Consistent(s: State) {
    && (forall k :: k in s.index ==> s.index[k] <= s.payloads.Keys)
    && (forall w :: w in s.words ==> s.words[w] <= s.payloads.Keys)
  }

  /** `d.get(k, set())` on a `defaultdict(set)`. */
  function Postings<K(!new)>(m: map<K, set<string>>, k: K): set<string> {
    if k in m then m[k] else {}
  }

  /** `m[k].add(pid)` for every `k` in `keys`, on a `defaultdict(set)`. */
  function AddAll<K(!new)>(m: map<K, set<string>>, keys: set<K>, pid: string): (r: map<K, set<string>>)
    ensures r.Keys == m.Keys + keys
    ensures forall k :: Postings(r, k) == Postings(m, k) + (if k in keys then {pid} else {})
  {
    map k | k in m.Keys + keys :: Postings(m, k) + (if k in keys then {pid} else {})
  }

  function Keyed(f: Facet, keys: set<string>): set<IndexKey> {
    set k | k in keys :: IndexKey(f, k)
  }

  // ----- _upsert_item -----

  /**
   * The defaults `_upsert_item` writes into the item before storing it: a
   * falsy name becomes the id, a falsy severity `'medium'`, a falsy status
   * `'active'` and a falsy `updated_at` the current time.
   */
  function WithDefaults(item: Item, pid: string, now: string): (r: Item)
    ensures r.Keys == item.Keys + {"name", "severity", "status", "updated_at"}
    ensures r["name"] == Or(Get(item, "name"), Str(pid))
    ensures r["severity"] == Or(Get(item, "severity"), Str("medium"))
    ensures r["status"] == Or(Get(item, "status"), Str("active"))
    ensures r["updated_at"] == Or(Get(item, "updated_at"), Str(now))
    ensures forall k :: k in item && k !in {"name", "severity", "status", "updated_at"} ==> r[k] == item[k]
  {
    var a := if !Truthy(Get(item, "name")) then item["name" := Str(pid)] else item;
    var b := if !Truthy(Get(a, "severity")) then a["severity" := Str("medium")] else a;
    var c := if !Truthy(Get(b, "status")) then b["status" := Str("active")] else b;
    if !Truthy(Get(c, "updated_at")) then c["updated_at" := Str(now)] else c
  }

  /** The strings at the front of `xs`, up to the first element that is not a string. */
  function LeadingStrs(xs: seq<Value>): (r: seq<string>)
    ensures |r| <= |xs|
    ensures forall i :: 0 <= i < |r| ==> xs[i] == Str(r[i])
    ensures |r| < |xs| ==> !xs[|r|].Str?
  {
    if xs == [] || !xs[0].Str? then [] else [xs[0].s] + LeadingStrs(xs[1..])
  }

  /** `v or []`, as `item.get(k, []) or []` gives it. */
  function ListOr(v: Value): Value {
    Or(v, List([]))
  }

  /** `item.get('tags') or []`. */
  function TagsOf(it: Item): Value {
    ListOr(Get(it, "tags"))
  }

  /**
   * The string keys `for k in v` visits before it stops, and whether it runs
   * to the end: a list gives its strings (an element that is no string stops
   * the model), a string its characters, a dict its keys; a truthy number or
   * boolean is not iterable.
   */
  function StrKeys(v: Value): (r: (set<string>, bool))
    ensures v.List? ==> (r.1 <==> forall x :: x in v.elems ==> x.Str?)
    ensures v.List? && r.1 ==> r.0 == set x | x in v.elems && x.Str? :: x.s
  {
    match v
    case List(e) =>
      LeadingStrsAll(e);
      LeadingStrsSet(e);
      ((set t | t in LeadingStrs(e)), |LeadingStrs(e)| == |e|)
    case Str(s) => ((set c | c in s :: [c]), true)
    case Dict(f) => (f.Keys, true)
    case _ => ({}, false)
  }

  /** The keys `for tac in v` gives to `str(tac)`, and whether it runs to the end. */
  function TacticKeys(v: Value): (set<string>, bool) {
    match v
    case List(e) => ((set x | x in e :: PyStr(x)), true)
    case Str(s) => ((set c | c in s :: [c]), true)
    case Dict(f) => (f.Keys, true)
    case _ => ({}, false)
  }

  /** How far the facet-indexing statements of `_upsert_item` get, and the index then. */
  datatype Indexed = Indexed(ok: bool, index: map<IndexKey, set<string>>)

  function FacetSteps(idx: map<IndexKey, set<string>>, it: Item, pid: string): Indexed {
    var os := StrKeys(ListOr(Get(it, "os")));
    var i1 := AddAll(idx, Keyed(Os, os.0), pid);
    if !os.1 then Indexed(false, i1)
    else
      var tac := TacticKeys(ListOr(Get(it, "tactics")));
      var i2 := AddAll(i1, Keyed(Tactics, tac.0), pid);
      if !tac.1 then Indexed(false, i2)
      else
        var ft := Get(it, "file_type");
        if Truthy(ft) && !ft.Str? then Indexed(false, i2)
        else
          var i3 := if Truthy(ft) then AddAll(i2, {IndexKey(FileType, ft.s)}, pid) else i2;
          var tags := StrKeys(TagsOf(it));
          var i4 := AddAll(i3, Keyed(Tags, tags.0), pid);
          if !tags.1 then Indexed(false, i4)
          else
            var st := GetOr(it, "status", Str("active"));
            if !st.Str? then Indexed(false, i4)
            else
              var i5 := AddAll(i4, {IndexKey(Status, st.s)}, pid);
              var sev := Or(Get(it, "severity"), Str("medium"));
              if !sev.Str? then Indexed(false, i5)
              else Indexed(true, AddAll(i5, {IndexKey(Severity, sev.s)}, pid))
  }

  /** `' '.join([name, description] + tags)`, which raises unless all are strings. */
  function TextOf(it: Item): Outcome<string> {
    var name := GetOr(it, "name", Str(""));
    var desc := GetOr(it, "description", Str(""));
    var tags := TagsOf(it);
    if name.Str? && desc.Str? && tags.List? && |LeadingStrs(tags.elems)| == |tags.elems|
    then Ok(Join(" ", [name.s, desc.s] + LeadingStrs(tags.elems)))
    else Fault
  }

  /** `_tokenize`: the lower-cased text split at white space. */
  function Tokenize(text: string): seq<string> {
    Split(Lower(text))
  }

  /** The distinct tokens of `text`. */
  function WordSet(text: string): set<string> {
    set w | w in Tokenize(text)
  }

  /** `item.get('id') or ''`. */
  function PidOf(item: Item): Value {
    Or(Get(item, "id"), Str(""))
  }

  /** The state after a step that may raise part-way, and whether it completed. */
  datatype Applied = Applied(ok: bool, state: State)

  /**
   * `_upsert_item(item)`: store the item with its defaults under its id, add
   * the id to the postings of each of its facet values, then to the postings
   * of each word of its text. A step that raises leaves the changes made
   * before it in place.
   */
  function UpsertSpec(s: State, item: Item, now: string): Applied {
    var id := PidOf(item);
    if !id.Str? then Applied(false, s)
    else
      var pid := id.s;
      var it := WithDefaults(item, pid, now);
      var stored := s.payloads[pid := it];
      var ix := FacetSteps(s.index, it, pid);
      if !ix.ok then Applied(false, State(stored, ix.index, s.words))
      else
        match TextOf(it)
        case Fault => Applied(false, State(stored, ix.index, s.words))
        case Ok(text) => Applied(true, State(stored, ix.index, AddAll(s.words, WordSet(text), pid)))
  }

  /** The items `_upsert_item` goes through without raising. */
  predicate Upsertable(item: Item) {
    && PidOf(item).Str?
    && StrKeys(ListOr(Get(item, "os"))).1
    && TacticKeys(ListOr(Get(item, "tactics"))).1
    && (!Truthy(Get(item, "file_type")) || Get(item, "file_type").Str?)
    && TagsOf(item).List? && (forall x :: x in TagsOf(item).elems ==> x.Str?)
    && (!Truthy(Get(item, "status")) || Get(item, "status").Str?)
    && (!Truthy(Get(item, "severity")) || Get(item, "severity").Str?)
    && (!Truthy(Get(item, "name")) || Get(item, "name").Str?)
    && GetOr(item, "description", Str("")).Str?
  }

  lemma {:induction false} LeadingStrsAll(xs: seq<Value>)
    ensures |LeadingStrs(xs)| == |xs| <==> forall x :: x in xs ==> x.Str?
  {
    var r := LeadingStrs(xs);
    if |r| < |xs| {
      assert xs[|r|] in xs;
    } else {
      forall x | x in xs
        ensures x.Str?
      {
        var i :| 0 <= i < |xs| && xs[i] == x;
        assert xs[i] == Str(r[i]);
      }
    }
  }

  lemma {:induction false} LeadingStrsSet(xs: seq<Value>)
    ensures |LeadingStrs(xs)| == |xs| ==> (set t | t in LeadingStrs(xs)) == set x | x in xs && x.Str? :: x.s
  {
    var r := LeadingStrs(xs);
    if |r| < |xs| {
      return;
    }
    forall t | t in r
      ensures t in set x | x in xs && x.Str? :: x.s
    {
      var i :| 0 <= i < |r| && r[i] == t;
      assert xs[i] == Str(t);
    }
    forall x | x in xs && x.Str?
      ensures x.s in r
    {
      var i :| 0 <= i < |xs| && xs[i] == x;
      assert r[i] == x.s;
    }
  }

  /** The facet statements run to the end exactly when each value they meet has the shape it needs. */
  predicate FacetShaped(it: Item) {
    && StrKeys(ListOr(Get(it, "os"))).1
    && TacticKeys(ListOr(Get(it, "tactics"))).1
    && (!Truthy(Get(it, "file_type")) || Get(it, "file_type").Str?)
    && StrKeys(TagsOf(it)).1
    && GetOr(it, "status", Str("active")).Str?
    && Or(Get(it, "severity"), Str("medium")).Str?
  }

  lemma {:induction false} FacetStepsOk(idx: map<IndexKey, set<string>>, it: Item, pid: string)
    ensures FacetSteps(idx, it, pid).ok <==> FacetShaped(it)
  {
  }

  /** Every posting of `a` is in `b`, and `b` adds at most `pid` to it. */
  ghost predicate Grown<K(!new)>(a: map<K, set<string>>, b: map<K, set<string>>, pid: string) {
    forall k :: Postings(a, k) <= Postings(b, k) <= Postings(a, k) + {pid}
  }

  lemma GrownAddAll<K(!new)>(m: map<K, set<string>>, keys: set<K>, pid: string)
    ensures Grown(m, AddAll(m, keys, pid), pid)
  {
  }

  lemma GrownTrans<K(!new)>(a: map<K, set<string>>, b: map<K, set<string>>, c: map<K, set<string>>, pid: string)
    requires Grown(a, b, pid) && Grown(b, c, pid)
    ensures Grown(a, c, pid)
  {
  }

  /** The facet statements add `pid` to some postings and change nothing else. */
  lemma {:induction false} FacetStepsBounds(idx: map<IndexKey, set<string>>, it: Item, pid: string)
    ensures Grown(idx, FacetSteps(idx, it, pid).index, pid)
  {
    var os := StrKeys(ListOr(Get(it, "os")));
    var i1 := AddAll(idx, Keyed(Os, os.0), pid);
    GrownAddAll(idx, Keyed(Os, os.0), pid);
    if !os.1 { return; }
    var tac := TacticKeys(ListOr(Get(it, "tactics")));
    var i2 := AddAll(i1, Keyed(Tactics, tac.0), pid);
    GrownAddAll(i1, Keyed(Tactics, tac.0), pid);
    GrownTrans(idx, i1, i2, pid);
    if !tac.1 { return; }
    var ft := Get(it, "file_type");
    if Truthy(ft) && !ft.Str? { return; }
    var i3 := if Truthy(ft) then AddAll(i2, {IndexKey(FileType, ft.s)}, pid) else i2;
    if Truthy(ft) {
      GrownAddAll(i2, {IndexKey(FileType, ft.s)}, pid);
      GrownTrans(idx, i2, i3, pid);
    }
    var tags := StrKeys(TagsOf(it));
    var i4 := AddAll(i3, Keyed(Tags, tags.0), pid);
    GrownAddAll(i3, Keyed(Tags, tags.0), pid);
    GrownTrans(idx, i3, i4, pid);
    if !tags.1 { return; }
    var st := GetOr(it, "status", Str("active"));
    if !st.Str? { return; }
    var i5 := AddAll(i4, {IndexKey(Status, st.s)}, pid);
    GrownAddAll(i4, {IndexKey(Status, st.s)}, pid);
    GrownTrans(idx, i4, i5, pid);
    var sev := Or(Get(it, "severity"), Str("medium"));
    if !sev.Str? { return; }
    GrownAddAll(i5, {IndexKey(Severity, sev.s)}, pid);
    GrownTrans(idx, i5, AddAll(i5, {IndexKey(Severity, sev.s)}, pid), pid);
  }

  /** When they run to the end, `pid` is in the postings of every facet value. */
  lemma {:induction false} FacetStepsIndexes(idx: map<IndexKey, set<string>>, it: Item, pid: string)
    requires FacetShaped(it)
    ensures var r := FacetSteps(idx, it, pid).index;
      && (forall k :: k in StrKeys(ListOr(Get(it, "os"))).0 ==> pid in Postings(r, IndexKey(Os, k)))
      && (forall k :: k in TacticKeys(ListOr(Get(it, "tactics"))).0 ==> pid in Postings(r, IndexKey(Tactics, k)))
      && (Truthy(Get(it, "file_type")) ==> pid in Postings(r, IndexKey(FileType, Get(it, "file_type").s)))
      && (forall k :: k in StrKeys(TagsOf(it)).0 ==> pid in Postings(r, IndexKey(Tags, k)))
      && pid in Postings(r, IndexKey(Status, GetOr(it, "status", Str("active")).s))
      && pid in Postings(r, IndexKey(Severity, Or(Get(it, "severity"), Str("medium")).s))
  {
    var i0 := AddAll(idx, Keyed(Os, StrKeys(ListOr(Get(it, "os"))).0), pid);
    var r := FacetSteps(idx, it, pid).index;
    FacetStepsBounds(i0, it, pid);
    forall k | k in StrKeys(ListOr(Get(it, "os"))).0
      ensures pid in Postings(r, IndexKey(Os, k))
    {
      assert IndexKey(Os, k) in Keyed(Os, StrKeys(ListOr(Get(it, "os"))).0);
    }
    forall k | k in TacticKeys(ListOr(Get(it, "tactics"))).0
      ensures pid in Postings(r, IndexKey(Tactics, k))
    {
      assert IndexKey(Tactics, k) in Keyed(Tactics, TacticKeys(ListOr(Get(it, "tactics"))).0);
    }
    forall k | k in StrKeys(TagsOf(it)).0
      ensures pid in Postings(r, IndexKey(Tags, k))
    {
      assert IndexKey(Tags, k) in Keyed(Tags, StrKeys(TagsOf(it)).0);
    }
  }

  lemma {:induction false} TextOfOk(it: Item)
    ensures TextOf(it).Ok? <==>
      && GetOr(it, "name", Str("")).Str? && GetOr(it, "description", Str("")).Str?
      && TagsOf(it).List? && forall x :: x in TagsOf(it).elems ==> x.Str?
  {
    if TagsOf(it).List? {
      LeadingStrsAll(TagsOf(it).elems);
    }
  }

  /** The fields of the stored record that the indexing statements read, in terms of the item. */
  lemma {:induction false} DefaultedFields(item: Item, pid: string, now: string)
    ensures var it := WithDefaults(item, pid, now);
      && Get(it, "os") == Get(item, "os") && Get(it, "tactics") == Get(item, "tactics")
      && Get(it, "file_type") == Get(item, "file_type") && TagsOf(it) == TagsOf(item)
      && GetOr(it, "description", Str("")) == GetOr(item, "description", Str(""))
      && GetOr(it, "status", Str("active")) == Or(Get(item, "status"), Str("active"))
      && Or(Get(it, "severity"), Str("medium")) == Or(Get(item, "severity"), Str("medium"))
      && GetOr(it, "name", Str("")) == Or(Get(item, "name"), Str(pid))
  {
    DefaultedCopies(item, pid, now);
    DefaultedFilled(item, pid, now);
  }

  /** The fields the defaults leave alone come through unchanged. */
  lemma DefaultedCopies(item: Item, pid: string, now: string)
    ensures var it := WithDefaults(item, pid, now);
      && Get(it, "os") == Get(item, "os") && Get(it, "tactics") == Get(item, "tactics")
      && Get(it, "file_type") == Get(item, "file_type") && Get(it, "tags") == Get(item, "tags")
      && GetOr(it, "description", Str("")) == GetOr(item, "description", Str(""))
  {
    var it := WithDefaults(item, pid, now);
    assert forall k :: k in {"os", "tactics", "file_type", "tags", "description"} ==>
      (k in it <==> k in item) && (k in item ==> it[k] == item[k]);
  }

  /** The defaulted fields are present, holding the item's value or the default. */
  lemma DefaultedFilled(item: Item, pid: string, now: string)
    ensures var it := WithDefaults(item, pid, now);
      && GetOr(it, "status", Str("active")) == Or(Get(item, "status"), Str("active"))
      && Or(Get(it, "severity"), Str("medium")) == Or(Get(item, "severity"), Str("medium"))
      && GetOr(it, "name", Str("")) == Or(Get(item, "name"), Str(pid))
  {
  }

  /**
   * `_upsert_item` runs to the end exactly when the id, the facet values,
   * name, description and tags have the shapes it needs; otherwise it raises
   * part-way.
   */
  lemma {:induction false} UpsertOkIff(s: State, item: Item, now: string)
    ensures UpsertSpec(s, item, now).ok <==> Upsertable(item)
  {
    var id := PidOf(item);
    if id.Str? {
      var it := WithDefaults(item, id.s, now);
      DefaultedFields(item, id.s, now);
      FacetStepsOk(s.index, it, id.s);
      TextOfOk(it);
    }
  }

  /** The state after an upsert that completes, step by step. */
  lemma {:induction false} UpsertOkState(s: State, item: Item, now: string)
    requires Upsertable(item)
    ensures var pid := PidOf(item).s;
      var it := WithDefaults(item, pid, now);
      && FacetShaped(it) && TextOf(it).Ok?
      && UpsertSpec(s, item, now) == Applied(true, State(
           s.payloads[pid := it],
           FacetSteps(s.index, it, pid).index,
           AddAll(s.words, WordSet(TextOf(it).value), pid)))
  {
    UpsertOkIff(s, item, now);
    var pid := PidOf(item).s;
    var it := WithDefaults(item, pid, now);
    DefaultedFields(item, pid, now);
    FacetStepsOk(s.index, it, pid);
    TextOfOk(it);
  }

  /**
   * After an upsert that completes, the record is stored under its id with
   * its defaults, and the id is in the postings of every `os` value, every
   * `str(tactic)`, the truthy file type, every tag, the status and the severity.
   */
  lemma {:induction false} UpsertIndexes(s: State, item: Item, now: string)
    requires Upsertable(item)
    ensures var r := UpsertSpec(s, item, now).state;
      var pid := PidOf(item).s;
      var it := WithDefaults(item, pid, now);
      && r.payloads == s.payloads[pid := it]
      && (forall x :: x in ElemsOf(Get(item, "os")) ==> x.Str? && pid in Postings(r.index, IndexKey(Os, x.s)))
      && (forall x :: x in ElemsOf(Get(item, "tactics")) ==> pid in Postings(r.index, IndexKey(Tactics, PyStr(x))))
      && (Truthy(Get(item, "file_type")) ==> pid in Postings(r.index, IndexKey(FileType, Get(item, "file_type").s)))
      && (forall x :: x in TagsOf(item).elems ==> pid in Postings(r.index, IndexKey(Tags, x.s)))
      && pid in Postings(r.index, IndexKey(Status, it["status"].s))
      && pid in Postings(r.index, IndexKey(Severity, it["severity"].s))
  {
    UpsertOkState(s, item, now);
    var pid := PidOf(item).s;
    var it := WithDefaults(item, pid, now);
    DefaultedFields(item, pid, now);
    var ix := FacetSteps(s.index, it, pid).index;
    FacetStepsIndexes(s.index, it, pid);
    assert UpsertSpec(s, item, now).state.index == ix;
    var os := Get(item, "os");
    if os.List? && Truthy(os) {
      assert ListOr(os) == os;
      forall x | x in os.elems
        ensures x.Str? && pid in Postings(ix, IndexKey(Os, x.s))
      {
        assert x.s in StrKeys(ListOr(os)).0;
      }
    }
    var tac := Get(item, "tactics");
    if tac.List? && Truthy(tac) {
      assert ListOr(tac) == tac;
      forall x | x in tac.elems
        ensures pid in Postings(ix, IndexKey(Tactics, PyStr(x)))
      {
        assert PyStr(x) in TacticKeys(ListOr(tac)).0;
      }
    }
    var tags := TagsOf(item);
    forall x | x in tags.elems
      ensures pid in Postings(ix, IndexKey(Tags, x.s))
    {
      assert x.s in StrKeys(tags).0;
    }
  }

  /** Upserting never removes anything: every posting and every stored id survives. */
  lemma {:induction false} UpsertGrows(s: State, item: Item, now: string)
    ensures var r := UpsertSpec(s, item, now).state;
      && s.payloads.Keys <= r.payloads.Keys
      && (forall k :: Postings(s.index, k) <= Postings(r.index, k))
      && (forall w :: Postings(s.words, w) <= Postings(r.words, w))
  {
    var id := PidOf(item);
    if id.Str? {
      FacetStepsBounds(s.index, WithDefaults(item, id.s, now), id.s);
    }
  }

  /** Upserting keeps the indices within the stored ids, whether or not it raises. */
  lemma {:induction false} UpsertConsistent(s: State, item: Item, now: string)
    requires Consistent(s)
    ensures Consistent(UpsertSpec(s, item, now).state)
  {
    var r := UpsertSpec(s, item, now).state;
    var id := PidOf(item);
    if id.Str? {
      var pid := id.s;
      FacetStepsBounds(s.index, WithDefaults(item, pid, now), pid);
      assert pid in r.payloads;
      forall k | k in r.index
        ensures r.index[k] <= r.payloads.Keys
      {
        assert r.index[k] == Postings(r.index, k);
        assert Postings(r.index, k) <= Postings(s.index, k) + {pid};
      }
      forall w | w in r.words
        ensures r.words[w] <= r.payloads.Keys
      {
        assert r.words[w] == Postings(r.words, w);
        assert Postings(r.words, w) <= Postings(s.words, w) + {pid};
      }
    }
  }

  // ----- _tokenize -----

  /**
   * Every token is non-empty, holds no white space and no upper-case letter,
   * and the tokens together are exactly the non-space characters of the
   * lower-cased text.
   */
  lemma {:induction false} TokenizeMeaning(text: string)
    ensures forall t :: t in Tokenize(text) ==>
      t != [] && forall c :: c in t ==> !IsSpace(c) && !IsUpper(c)
    ensures Concat(Tokenize(text)) == NonSpace(Lower(text))
  {
    SplitTokens(Lower(text));
    LowerIsLower(text);
    forall t | t in Tokenize(text)
      ensures forall c :: c in t ==> !IsUpper(c)
    {
      SplitWithin(Lower(text), t);
    }
  }

  /** Every character of a token of `split()` comes from the input. */
  lemma {:induction false} SplitWithin(s: string, t: string)
    requires t in Split(s)
    ensures forall c :: c in t ==> c in s
    decreases |s|
  {
    if IsSpace(s[0]) {
      SplitWithin(s[1..], t);
      assert forall c :: c in s[1..] ==> c in s;
    } else {
      var n := TokenLen(s);
      if t != s[..n] {
        assert t in Split(s[n..]);
        SplitWithin(s[n..], t);
        assert forall c :: c in s[n..] ==> c in s;
      } else {
        assert forall c :: c in s[..n] ==> c in s;
      }
    }
  }

  /** Tokenizing text joined by spaces yields the tokens of each part. */
  lemma {:induction false} TokenizeJoin(parts: seq<string>)
    ensures forall i, w :: 0 <= i < |parts| && w in Tokenize(parts[i]) ==> w in Tokenize(Join(" ", parts))
  {
    if |parts| >= 2 {
      var rest := Join(" ", parts[1..]);
      TokenizeJoin(parts[1..]);
      assert Join(" ", parts) == parts[0] + (" " + rest);
      LowerAppend(parts[0], " " + rest);
      LowerAppend(" ", rest);
      assert Lower(" ") == " ";
      var tail := Lower(" " + rest);
      assert tail == " " + Lower(rest);
      SplitAppend(Lower(parts[0]), tail);
      assert tail[1..] == Lower(rest);
      assert Split(tail) == Split(Lower(rest));
      assert Tokenize(Join(" ", parts)) == Tokenize(parts[0]) + Tokenize(rest);
      forall i, w | 0 <= i < |parts| && w in Tokenize(parts[i])
        ensures w in Tokenize(Join(" ", parts))
      {
        if i > 0 {
          assert parts[1..][i - 1] == parts[i];
        }
      }
    }
  }

  /**
   * After an upsert that completes, the id is in the word postings of every
   * token of the record's name, description and tags.
   */
  lemma {:induction false} UpsertWords(s: State, item: Item, now: string)
    requires Upsertable(item)
    ensures var r := UpsertSpec(s, item, now).state;
      var pid := PidOf(item).s;
      var it := WithDefaults(item, pid, now);
      && (forall w :: w in Tokenize(it["name"].s) ==> pid in Postings(r.words, w))
      && (forall w :: w in Tokenize(GetOr(item, "description", Str("")).s) ==> pid in Postings(r.words, w))
      && (forall x, w :: x in TagsOf(item).elems && w in Tokenize(x.s) ==> pid in Postings(r.words, w))
  {
    var pid := PidOf(item).s;
    var it := WithDefaults(item, pid, now);
    var parts := TextParts(item, pid, now);
    var ws := UpsertWordsState(s, item, now);
    var r := UpsertSpec(s, item, now).state;
    assert r.words == ws;
    WordsOfParts(s.words, parts, pid);
    var elems := TagsOf(item).elems;
    forall w | w in Tokenize(it["name"].s)
      ensures pid in Postings(ws, w)
    {
      assert parts[0] == it["name"].s;
    }
    forall w | w in Tokenize(GetOr(item, "description", Str("")).s)
      ensures pid in Postings(ws, w)
    {
      assert parts[1] == GetOr(item, "description", Str("")).s;
    }
    forall x, w | x in elems && w in Tokenize(x.s)
      ensures pid in Postings(ws, w)
    {
      var i :| 0 <= i < |elems| && elems[i] == x;
      assert parts[i + 2] == x.s;
    }
  }

  /** The strings `_upsert_item` joins into the text of an item it accepts. */
  function TextParts(item: Item, pid: string, now: string): (parts: seq<string>)
    requires Upsertable(item) && pid == PidOf(item).s
    ensures |parts| == 2 + |TagsOf(item).elems|
    ensures parts[0] == WithDefaults(item, pid, now)["name"].s
    ensures parts[1] == GetOr(item, "description", Str("")).s
    ensures forall i :: 0 <= i < |TagsOf(item).elems| ==> parts[i + 2] == TagsOf(item).elems[i].s
  {
    var it := WithDefaults(item, pid, now);
    [it["name"].s, GetOr(item, "description", Str("")).s] + seq(|TagsOf(item).elems|, i requires 0 <= i < |TagsOf(item).elems| => TagsOf(item).elems[i].s)
  }

  lemma {:induction false} UpsertWordsState(s: State, item: Item, now: string) returns (ws: map<string, set<string>>)
    requires Upsertable(item)
    ensures ws == AddAll(s.words, WordSet(Join(" ", TextParts(item, PidOf(item).s, now))), PidOf(item).s)
    ensures UpsertSpec(s, item, now).state.words == ws
  {
    UpsertOkState(s, item, now);
    TextOfParts(item, now);
    ws := AddAll(s.words, WordSet(Join(" ", TextParts(item, PidOf(item).s, now))), PidOf(item).s);
  }

  lemma {:induction false} TextOfParts(item: Item, now: string)
    requires Upsertable(item)
    ensures TextOf(WithDefaults(item, PidOf(item).s, now)) == Ok(Join(" ", TextParts(item, PidOf(item).s, now)))
  {
    var pid := PidOf(item).s;
    var it := WithDefaults(item, pid, now);
    DefaultedFields(item, pid, now);
    TextOfOk(it);
    var elems := TagsOf(item).elems;
    LeadingStrsAll(elems);
    var parts := TextParts(item, pid, now);
    var ls := LeadingStrs(elems);
    assert |ls| == |elems|;
    assert forall i :: 0 <= i < |ls| ==> ls[i] == parts[i + 2];
    assert ls == parts[2..];
    assert parts == [it["name"].s, GetOr(item, "description", Str("")).s] + parts[2..];
  }

  lemma {:induction false} WordsOfParts(words: map<string, set<string>>, parts: seq<string>, pid: string)
    ensures var ws := AddAll(words, WordSet(Join(" ", parts)), pid);
      forall i, w :: 0 <= i < |parts| && w in Tokenize(parts[i]) ==> pid in Postings(ws, w)
  {
    TokenizeJoin(parts);
  }

  // ----- _match_filters -----

  /**
   * A query as the HTTP handlers build it: the search text, the values asked
   * for each facet (absent means none), the page, the page size and the sort.
   */
  datatype Query = Query(search: string, filters: map<Facet, seq<string>>, page: int, pageSize: int, sort: string)

  function Filter(q: Query, f: Facet): seq<string> {
    if f in q.filters then q.filters[f] else []
  }

  /** `(q.get('search') or '').strip().lower().split()`. */
  function SearchTerms(q: Query): seq<string> {
    Split(Lower(Strip(q.search)))
  }

  /** `s = s2 if s is None else s.intersection(s2)` over `sets`, left to right. */
  function Meet(sets: seq<set<string>>): set<string>
    requires sets != []
    decreases |sets|
  {
    if |sets| == 1 then sets[0] else Meet(sets[..|sets| - 1]) * sets[|sets| - 1]
  }

  /** `_by_words.get(t, set())` for each search term. */
  function WordSets(words: map<string, set<string>>, terms: seq<string>): (r: seq<set<string>>)
    ensures |r| == |terms| && forall i :: 0 <= i < |terms| ==> r[i] == Postings(words, terms[i])
  {
    seq(|terms|, i requires 0 <= i < |terms| => Postings(words, terms[i]))
  }

  /** `idx.get(v, set())` for each requested value of facet `f`. */
  function ValueSets(index: map<IndexKey, set<string>>, f: Facet, vals: seq<string>): (r: seq<set<string>>)
    ensures |r| == |vals| && forall i :: 0 <= i < |vals| ==> r[i] == Postings(index, IndexKey(f, vals[i]))
  {
    seq(|vals|, i requires 0 <= i < |vals| => Postings(index, IndexKey(f, vals[i])))
  }

  /** The set the keyword block appends: present only when there are search terms. */
  function SearchSets(s: State, q: Query): seq<set<string>> {
    var terms := SearchTerms(q);
    if terms == [] then [] else [Meet(WordSets(s.words, terms))]
  }

  /** The sets the facet loop appends for the facets `fs`, one per facet with values. */
  function FacetSets(s: State, q: Query, fs: seq<Facet>): seq<set<string>>
    decreases |fs|
  {
    if fs == [] then []
    else
      var pre := FacetSets(s, q, fs[..|fs| - 1]);
      var f := fs[|fs| - 1];
      if Filter(q, f) == [] then pre else pre + [Meet(ValueSets(s.index, f, Filter(q, f)))]
  }

  /** One more facet of the loop appends its set, if it has values. */
  lemma {:induction false} FacetSetsStep(s: State, q: Query, fs: seq<Facet>, j: nat)
    requires j < |fs|
    ensures FacetSets(s, q, fs[..j + 1]) == FacetSets(s, q, fs[..j])
      + if Filter(q, fs[j]) == [] then [] else [Meet(ValueSets(s.index, fs[j], Filter(q, fs[j])))]
  {
    assert fs[..j + 1][..j] == fs[..j];
  }

  function Constraints(s: State, q: Query): seq<set<string>> {
    SearchSets(s, q) + FacetSets(s, q, FacetOrder)
  }

  /** The ids `_match_filters(q)` returns, as a set: Python's list of a set has no fixed order. */
  function MatchSpec(s: State, q: Query): set<string> {
    var cs := Constraints(s, q);
    if cs == [] then s.payloads.Keys else Meet(cs)
  }

  /** A query with no search term and no facet value. */
  predicate Unconstrained(q: Query) {
    SearchTerms(q) == [] && forall f :: Filter(q, f) == []
  }

  lemma {:induction false} MeetMeaning(sets: seq<set<string>>, x: string)
    requires sets != []
    ensures x in Meet(sets) <==> forall i :: 0 <= i < |sets| ==> x in sets[i]
    decreases |sets|
  {
    if |sets| > 1 {
      var init := sets[..|sets| - 1];
      MeetMeaning(init, x);
      assert forall i :: 0 <= i < |init| ==> init[i] == sets[i];
    }
  }

  lemma {:induction false} FacetSetsMeaning(s: State, q: Query, fs: seq<Facet>, x: string)
    ensures FacetSets(s, q, fs) == [] <==> forall f :: f in fs ==> Filter(q, f) == []
    ensures (forall i :: 0 <= i < |FacetSets(s, q, fs)| ==> x in FacetSets(s, q, fs)[i]) <==>
      forall f, v :: f in fs && v in Filter(q, f) ==> x in Postings(s.index, IndexKey(f, v))
    decreases |fs|
  {
    if fs != [] {
      var init := fs[..|fs| - 1];
      var f := fs[|fs| - 1];
      FacetSetsMeaning(s, q, init, x);
      assert forall g :: g in fs <==> g in init || g == f;
      var pre := FacetSets(s, q, init);
      if Filter(q, f) != [] {
        var vs := ValueSets(s.index, f, Filter(q, f));
        MeetMeaning(vs, x);
        var all := pre + [Meet(vs)];
        assert forall i :: 0 <= i < |pre| ==> all[i] == pre[i];
        assert all[|pre|] == Meet(vs);
        assert (forall i :: 0 <= i < |vs| ==> x in vs[i]) <==>
          forall v :: v in Filter(q, f) ==> x in Postings(s.index, IndexKey(f, v));
      }
    }
  }

  lemma AllFacets(f: Facet)
    ensures f in FacetOrder
  {
  }

  lemma {:induction false} ConstraintsEmpty(s: State, q: Query)
    ensures Constraints(s, q) == [] <==> Unconstrained(q)
  {
    FacetSetsMeaning(s, q, FacetOrder, "");
    forall f
      ensures f in FacetOrder
    {
      AllFacets(f);
    }
  }

  lemma {:induction false} SearchSetsMeaning(s: State, q: Query, x: string)
    ensures (forall i :: 0 <= i < |SearchSets(s, q)| ==> x in SearchSets(s, q)[i]) <==>
      forall t :: t in SearchTerms(q) ==> x in Postings(s.words, t)
  {
    var terms := SearchTerms(q);
    if terms != [] {
      var ws := WordSets(s.words, terms);
      MeetMeaning(ws, x);
      var ss := SearchSets(s, q);
      assert ss == [Meet(ws)];
      assert (forall i :: 0 <= i < |ss| ==> x in ss[i]) <==> x in ss[0];
      if x in Meet(ws) {
        forall t | t in terms
          ensures x in Postings(s.words, t)
        {
          var i :| 0 <= i < |terms| && terms[i] == t;
          assert x in ws[i];
        }
      }
      if forall t :: t in terms ==> x in Postings(s.words, t) {
        forall i | 0 <= i < |ws|
          ensures x in ws[i]
        {
          assert terms[i] in terms;
        }
        assert x in Meet(ws);
        assert x in SearchSets(s, q)[0];
      }
    }
  }

  lemma {:induction false} ConstraintsMeaning(s: State, q: Query, x: string)
    ensures (forall i :: 0 <= i < |Constraints(s, q)| ==> x in Constraints(s, q)[i]) <==>
      && (forall t :: t in SearchTerms(q) ==> x in Postings(s.words, t))
      && (forall f, v :: v in Filter(q, f) ==> x in Postings(s.index, IndexKey(f, v)))
  {
    SearchSetsMeaning(s, q, x);
    FacetSetsMeaning(s, q, FacetOrder, x);
    forall f
      ensures f in FacetOrder
    {
      AllFacets(f);
    }
    InAllConcat(SearchSets(s, q), FacetSets(s, q, FacetOrder), x);
    assert Constraints(s, q) == SearchSets(s, q) + FacetSets(s, q, FacetOrder);
    assert (forall f, v :: f in FacetOrder && v in Filter(q, f) ==> x in Postings(s.index, IndexKey(f, v))) <==>
      (forall f, v :: v in Filter(q, f) ==> x in Postings(s.index, IndexKey(f, v)));
  }

  /** `x` is in every set of a concatenation exactly when it is in every set of both parts. */
  lemma InAllConcat(a: seq<set<string>>, b: seq<set<string>>, x: string)
    ensures (forall i :: 0 <= i < |a + b| ==> x in (a + b)[i]) <==>
      (forall i :: 0 <= i < |a| ==> x in a[i]) && (forall i :: 0 <= i < |b| ==> x in b[i])
  {
    var c := a + b;
    assert forall i :: 0 <= i < |a| ==> c[i] == a[i];
    assert forall i :: 0 <= i < |b| ==> c[|a| + i] == b[i];
  }

  /**
   * With no search term and no facet value `_match_filters` returns every
   * stored id. Otherwise an id matches exactly when it is in the word
   * postings of every search term and in the postings of every requested
   * value of every facet: the values of one facet are combined with AND.
   */
  lemma {:induction false} MatchMeaning(s: State, q: Query, x: string)
    ensures Unconstrained(q) ==> (x in MatchSpec(s, q) <==> x in s.payloads)
    ensures !Unconstrained(q) ==> (x in MatchSpec(s, q) <==>
      && (forall t :: t in SearchTerms(q) ==> x in Postings(s.words, t))
      && (forall f, v :: v in Filter(q, f) ==> x in Postings(s.index, IndexKey(f, v))))
  {
    ConstraintsEmpty(s, q);
    ConstraintsMeaning(s, q, x);
    if Constraints(s, q) != [] {
      MeetMeaning(Constraints(s, q), x);
    }
  }

  /** When the indices hold only stored ids, so does every match. */
  lemma {:induction false} MatchWithinStore(s: State, q: Query)
    requires Consistent(s)
    ensures MatchSpec(s, q) <= s.payloads.Keys
  {
    forall x | x in MatchSpec(s, q)
      ensures x in s.payloads
    {
      MatchMeaning(s, q, x);
      if !Unconstrained(q) {
        if SearchTerms(q) != [] {
          assert SearchTerms(q)[0] in SearchTerms(q);
          assert x in Postings(s.words, SearchTerms(q)[0]);
        } else {
          var f :| Filter(q, f) != [];
          assert Filter(q, f)[0] in Filter(q, f);
          assert x in Postings(s.index, IndexKey(f, Filter(q, f)[0]));
        }
      }
    }
  }

  // ----- list_payloads -----

  /** A sort key as `_key` returns it: a number, a string, or anything else. */
  datatype SortKey = Num(n: int) | Text(t: string) | Other

  const SeverityOrder: map<string, int> := map["low" := 0, "medium" := 1, "high" := 2, "critical" := 3]

  /**
   * `_key(pid)` for the record `it`: a missing or null field sorts as `''`;
   * for `severity` the key is the ordinal of the lower-cased value, 1 when
   * unknown; any other field sorts by its own value.
   */
  function SortKeyOf(it: Item, field: string): SortKey {
    var v := Get(it, field);
    if v.Null? then Text("")
    else if field == "severity" then
      var t := Lower(PyStr(v));
      Num(if t in SeverityOrder then SeverityOrder[t] else 1)
    else
      match v
      case Bool(b) => Num(if b then 1 else 0)
      case Int(i) => Num(i)
      case Str(t) => Text(t)
      case _ => Other
  }

  /** For `severity`, the ordinals run low 0, medium 1, high 2, critical 3, and 1 for anything else. */
  lemma SeverityKey(it: Item, sev: string)
    requires Get(it, "severity") == Str(sev)
    ensures SortKeyOf(it, "severity") == Num(
      if Lower(sev) == "low" then 0
      else if Lower(sev) == "high" then 2
      else if Lower(sev) == "critical" then 3
      else 1)
  {
  }

  /** `q.get('sort') or 'updated_at:desc'`. */
  function SortOf(q: Query): string {
    if q.sort == [] then "updated_at:desc" else q.sort
  }

  /** `sort.split(':')[0]`. */
  function SortField(q: Query): string {
    BeforeFirst(SortOf(q), ':')
  }

  predicate Descending(q: Query) {
    EndsWith(SortOf(q), ":desc")
  }

  /** `int(q.get('page') or 1)`. */
  function PageNumber(q: Query): int {
    if q.page == 0 then 1 else q.page
  }

  /** `int(q.get('page_size') or 20)`. */
  function PageSize(q: Query): int {
    if q.pageSize == 0 then 20 else q.pageSize
  }

  function PageStart(q: Query): int {
    (PageNumber(q) - 1) * PageSize(q)
  }

  /** The sort key of every matched id that is stored. */
  function KeysOf(s: State, ids: set<string>, field: string): (r: map<string, SortKey>)
    ensures r.Keys == ids * s.payloads.Keys
  {
    map id | id in ids && id in s.payloads :: SortKeyOf(s.payloads[id], field)
  }

  /** Keys Python can compare with one another: all numbers or all strings. */
  predicate SameKind(keys: map<string, SortKey>) {
    (forall id :: id in keys ==> keys[id].Num?) || (forall id :: id in keys ==> keys[id].Text?)
  }

  predicate KeyLe(a: SortKey, b: SortKey) {
    if a.Num? && b.Num? then a.n <= b.n
    else if a.Text? && b.Text? then StrLe(a.t, b.t)
    else false
  }

  /** `a` may come before `b` in a list sorted ascending, or descending when `desc`. */
  predicate InOrder(a: SortKey, b: SortKey, desc: bool) {
    if desc then KeyLe(b, a) else KeyLe(a, b)
  }

  predicate SortedBy(order: seq<string>, keys: map<string, SortKey>, desc: bool) {
    forall i, j :: 0 <= i < j < |order| && order[i] in keys && order[j] in keys ==>
      InOrder(keys[order[i]], keys[order[j]], desc)
  }

  /**
   * `list_payloads` raises when a matched id has no record (`KeyError`), or
   * when at least two ids are matched and their keys are not all numbers or
   * all strings (`TypeError` from the comparison).
   */
  predicate ListRaises(s: State, q: Query) {
    var m := MatchSpec(s, q);
    || (exists id :: id in m && id !in s.payloads)
    || (|m| >= 2 && !SameKind(KeysOf(s, m, SortField(q))))
  }

  /** What `list_payloads` returns. */
  datatype Listing = Listing(items: seq<Item>, total: nat, page: int, pageSize: int)

  /** The records of the ids in `ids`, in order. */
  function RecordsOf(s: State, ids: seq<string>): (r: seq<Item>)
    requires forall id :: id in ids ==> id in s.payloads
    ensures |r| == |ids| && forall i :: 0 <= i < |ids| ==> r[i] == s.payloads[ids[i]]
  {
    seq(|ids|, i requires 0 <= i < |ids| => s.payloads[ids[i]])
  }

  /** The ids of the page: `ids[start:start + size]`. */
  function PageIds(q: Query, order: seq<string>): (r: seq<string>)
    ensures forall id :: id in r ==> id in order
  {
    PySliceWithin(order, PageStart(q), PageStart(q) + PageSize(q));
    PySlice(order, PageStart(q), PageStart(q) + PageSize(q))
  }

  /** The listing for the sorted ids `order`: the records of the page, and the total. */
  function ListingOf(s: State, q: Query, order: seq<string>): Listing
    requires forall id :: id in order ==> id in s.payloads
  {
    Listing(RecordsOf(s, PageIds(q, order)), |order|, PageNumber(q), PageSize(q))
  }

  lemma PySliceWithin<T>(s: seq<T>, i: int, j: int)
    ensures forall x :: x in PySlice(s, i, j) ==> x in s
  {
    var lo := ClipIndex(i, |s|);
    var hi := ClipIndex(j, |s|);
    if lo < hi {
      assert forall x :: x in s[lo..hi] ==> x in s;
    }
  }

  /**
   * A page of positive number and size holds at most `size` ids, namely
   * those at positions `[start, start + size)` of the sorted ids; a page
   * that starts past the end is empty.
   */
  lemma {:induction false} PageWindow(q: Query, order: seq<string>)
    requires PageNumber(q) >= 1 && PageSize(q) >= 1
    ensures var start := PageStart(q);
      var ids := PageIds(q, order);
      && |ids| <= PageSize(q)
      && (start >= |order| ==> ids == [])
      && (start < |order| ==> ids == order[start..Min(start + PageSize(q), |order|)])
  {
    MulNonNegative(PageNumber(q) - 1, PageSize(q));
    SliceWindow(order, PageStart(q), PageSize(q));
  }

  lemma SliceWindow<T>(order: seq<T>, start: int, size: int)
    requires start >= 0 && size >= 1
    ensures var ids := PySlice(order, start, start + size);
      && |ids| <= size
      && (start >= |order| ==> ids == [])
      && (start < |order| ==> ids == order[start..Min(start + size, |order|)])
  {
    PySliceNonNegative(order, start, start + size);
  }

  lemma MulNonNegative(a: int, b: int)
    requires a >= 0 && b >= 0
    ensures a * b >= 0
  {
  }

  // ----- facets -----

  /** `facets` matches on the search text alone. */
  function SearchOnly(search: string): Query {
    Query(search, map[], 1, 20, "")
  }

  /** The keys of `_index[f]`. */
  function DimKeys(s: State, f: Facet): set<string> {
    set k | k in s.index && k.facet == f :: k.key
  }

  datatype Count = Count(key: string, count: nat)

  predicate StrLt(a: string, b: string) {
    StrLe(a, b) && a != b
  }

  /**
   * The counts `facets` reports for facet `f`: one per key of `_index[f]`,
   * in strictly increasing key order, each the number of search-matched ids
   * in that key's postings.
   */
  predicate FacetCounts(s: State, ids: set<string>, f: Facet, counts: seq<Count>) {
    && (forall i, j :: 0 <= i < j < |counts| ==> StrLt(counts[i].key, counts[j].key))
    && DimKeys(s, f) == (set c | c in counts :: c.key)
    && (forall c :: c in counts ==> c.count == |ids * Postings(s.index, IndexKey(f, c.key))|)
  }

  // ----- handle_yaml_import and load_from_disk -----

  /** `_upsert_item` on each item in turn, stopping at the first that raises. */
  function UpsertAll(s: State, items: seq<Value>, now: string): Applied
    requires forall x :: x in items ==> x.Dict?
    decreases |items|
  {
    if items == [] then Applied(true, s)
    else
      var a := UpsertAll(s, items[..|items| - 1], now);
      if !a.ok then a else UpsertSpec(a.state, items[|items| - 1].fields, now)
  }

  /** A manifest that validates has a list of items, each of them well formed. */
  lemma {:induction false} AcceptedManifestItems(doc: Value)
    requires ManifestSpec(doc).Ok? && ManifestSpec(doc).value.ok
    ensures ItemsOf(doc).value.List?
    ensures forall x :: x in ItemsOf(doc).value.elems ==> WellFormedItem(x)
  {
    ManifestMeaning(doc);
    var items := ItemsOf(doc).value;
    forall x | x in items.elems
      ensures WellFormedItem(x)
    {
      var i :| 0 <= i < |items.elems| && items.elems[i] == x;
      ItemAcceptedIff(x);
    }
  }

  datatype ImportResult = ImportResult(imported: nat, failed: nat, errors: seq<ManifestError>)

  datatype Imported = Imported(result: Outcome<ImportResult>, state: State)

  /**
   * `handle_yaml_import` on the loaded document `doc`: validate it; when it
   * is `ok`, upsert every item and count them; otherwise change nothing and
   * report the errors.
   */
  function ImportSpec(s: State, doc: Value, now: string): Imported {
    var d := Or(doc, Dict(map[]));
    match ManifestSpec(d)
    case Fault => Imported(Fault, s)
    case Ok(rep) =>
      if !rep.ok then Imported(Ok(ImportResult(0, |rep.errors|, rep.errors)), s)
      else
        AcceptedManifestItems(d);
        var items := ItemsOf(d).value.elems;
        var a := UpsertAll(s, items, now);
        if !a.ok then Imported(Fault, a.state)
        else Imported(Ok(ImportResult(|items|, |rep.errors|, rep.errors)), a.state)
  }

  /** One document of `load_from_disk`: skipped unless it is a dict whose manifest is `ok`. */
  function LoadDoc(s: State, doc: Value, now: string): Applied {
    var d := Or(doc, Dict(map[]));
    if !d.Dict? then Applied(true, s)
    else
      match ManifestSpec(d)
      case Fault => Applied(false, s)
      case Ok(rep) =>
        if !rep.ok then Applied(true, s)
        else
          AcceptedManifestItems(d);
          UpsertAll(s, ItemsOf(d).value.elems, now)
  }

  /** `load_from_disk` over the loaded documents in the order the walk finds them. */
  function LoadSpec(s: State, docs: seq<Value>, now: string): Applied
    decreases |docs|
  {
    if docs == [] then Applied(true, s)
    else
      var a := LoadSpec(s, docs[..|docs| - 1], now);
      if !a.ok then a else LoadDoc(a.state, docs[|docs| - 1], now)
  }

  /** Upserting items in turn keeps the indices within the stored ids. */
  lemma {:induction false} UpsertAllConsistent(s: State, items: seq<Value>, now: string)
    requires forall x :: x in items ==> x.Dict?
    requires Consistent(s)
    ensures Consistent(UpsertAll(s, items, now).state)
    decreases |items|
  {
    if items != [] {
      var init := items[..|items| - 1];
      assert forall x :: x in init ==> x in items;
      UpsertAllConsistent(s, init, now);
      var a := UpsertAll(s, init, now);
      if a.ok {
        UpsertConsistent(a.state, items[|items| - 1].fields, now);
      }
    }
  }

  /** When every upsert completes, the id of every item is stored and nothing stored before is lost. */
  lemma {:induction false} UpsertAllStores(s: State, items: seq<Value>, now: string)
    requires forall x :: x in items ==> x.Dict?
    requires UpsertAll(s, items, now).ok
    ensures s.payloads.Keys <= UpsertAll(s, items, now).state.payloads.Keys
    ensures forall x :: x in items ==> PidOf(x.fields).Str? && PidOf(x.fields).s in UpsertAll(s, items, now).state.payloads
    decreases |items|
  {
    if items != [] {
      var init := items[..|items| - 1];
      var last := items[|items| - 1];
      assert forall x :: x in init ==> x in items;
      var a := UpsertAll(s, init, now);
      assert a.ok;
      UpsertAllStores(s, init, now);
      var r := UpsertSpec(a.state, last.fields, now);
      assert UpsertAll(s, items, now) == r;
      UpsertStores(a.state, last.fields, now);
      forall x | x in items
        ensures PidOf(x.fields).Str? && PidOf(x.fields).s in r.state.payloads
      {
        InInitOrLast(items, x);
      }
    }
  }

  lemma InInitOrLast<T>(xs: seq<T>, x: T)
    requires x in xs
    ensures x in xs[..|xs| - 1] || x == xs[|xs| - 1]
  {
    var k :| 0 <= k < |xs| && xs[k] == x;
    if k < |xs| - 1 {
      assert xs[..|xs| - 1][k] == x;
    }
  }

  /** An upsert that completes stores the record under its id and keeps every other record. */
  lemma {:induction false} UpsertStores(s: State, item: Item, now: string)
    requires UpsertSpec(s, item, now).ok
    ensures PidOf(item).Str?
    ensures UpsertSpec(s, item, now).state.payloads == s.payloads[PidOf(item).s := WithDefaults(item, PidOf(item).s, now)]
  {
    UpsertOkIff(s, item, now);
    UpsertOkState(s, item, now);
  }

  /** `validate_manifest` reports at least one error for a manifest that is not `ok`. */
  lemma {:induction false} RejectedHasErrors(doc: Value)
    requires ManifestSpec(doc).Ok? && !ManifestSpec(doc).value.ok
    ensures ManifestSpec(doc).value.errors != []
  {
  }

  /**
   * An import whose manifest is not `ok` changes nothing, imports nothing
   * and reports every error, of which there is at least one.
   */
  lemma {:induction false} ImportRejected(s: State, doc: Value, now: string)
    requires var d := Or(doc, Dict(map[])); ManifestSpec(d).Ok? && !ManifestSpec(d).value.ok
    ensures var r := ImportSpec(s, doc, now);
      var errs := ManifestSpec(Or(doc, Dict(map[]))).value.errors;
      && r.state == s
      && r.result == Ok(ImportResult(0, |errs|, errs))
      && |errs| >= 1
  {
    RejectedHasErrors(Or(doc, Dict(map[])));
  }

  /**
   * An import whose manifest is `ok` and that completes imports every item,
   * reports no failure, and stores the id of every item.
   */
  lemma {:induction false} ImportAccepted(s: State, doc: Value, now: string)
    requires var d := Or(doc, Dict(map[])); ManifestSpec(d).Ok? && ManifestSpec(d).value.ok
    requires ImportSpec(s, doc, now).result.Ok?
    ensures var d := Or(doc, Dict(map[]));
      var r := ImportSpec(s, doc, now);
      && ItemsOf(d).value.List?
      && r.result.value.imported == |ItemsOf(d).value.elems|
      && r.result.value.failed == 0
      && s.payloads.Keys <= r.state.payloads.Keys
      && forall x :: x in ItemsOf(d).value.elems ==> x.Dict? && PidOf(x.fields).Str? && PidOf(x.fields).s in r.state.payloads
  {
    var d := Or(doc, Dict(map[]));
    AcceptedManifestItems(d);
    var items := ItemsOf(d).value.elems;
    UpsertAllStores(s, items, now);
  }

  /** Importing keeps the indices within the stored ids, even when it raises part-way. */
  lemma {:induction false} ImportConsistent(s: State, doc: Value, now: string)
    requires Consistent(s)
    ensures Consistent(ImportSpec(s, doc, now).state)
  {
    var d := Or(doc, Dict(map[]));
    if ManifestSpec(d).Ok? && ManifestSpec(d).value.ok {
      AcceptedManifestItems(d);
      UpsertAllConsistent(s, ItemsOf(d).value.elems, now);
    }
  }

  /** A loaded document changes the catalogue only when it is a dict whose manifest is `ok`. */
  lemma {:induction false} LoadDocAccepts(s: State, doc: Value, now: string)
    ensures var d := Or(doc, Dict(map[]));
      LoadDoc(s, doc, now).state != s ==> d.Dict? && ManifestSpec(d).Ok? && ManifestSpec(d).value.ok
    ensures Consistent(s) ==> Consistent(LoadDoc(s, doc, now).state)
  {
    var d := Or(doc, Dict(map[]));
    if d.Dict? && ManifestSpec(d).Ok? && ManifestSpec(d).value.ok && Consistent(s) {
      AcceptedManifestItems(d);
      UpsertAllConsistent(s, ItemsOf(d).value.elems, now);
    }
  }

  /** Loading keeps the indices within the stored ids. */
  lemma {:induction false} LoadConsistent(s: State, docs: seq<Value>, now: string)
    requires Consistent(s)
    ensures Consistent(LoadSpec(s, docs, now).state)
    decreases |docs|
  {
    if docs != [] {
      LoadConsistent(s, docs[..|docs| - 1], now);
      var a := LoadSpec(s, docs[..|docs| - 1], now);
      if a.ok {
        LoadDocAccepts(a.state, docs[|docs| - 1], now);
      }
    }
  }

  // ----- steps of the imperative class -----

  /** `m[k].add(pid)` on a `defaultdict(set)` is `AddAll` of the single key. */
  lemma AddOne<K(!new)>(m: map<K, set<string>>, k: K, pid: string)
    ensures m[k := Postings(m, k) + {pid}] == AddAll(m, {k}, pid)
  {
    var l := m[k := Postings(m, k) + {pid}];
    var r := AddAll(m, {k}, pid);
    forall x | x in l
      ensures x in r && l[x] == r[x]
    {
      assert Postings(r, x) == r[x];
    }
    assert l.Keys == r.Keys;
  }

  /** Adding `pid` under two sets of keys in turn adds it under their union. */
  lemma AddAllUnion<K(!new)>(m: map<K, set<string>>, a: set<K>, b: set<K>, pid: string)
    ensures AddAll(AddAll(m, a, pid), b, pid) == AddAll(m, a + b, pid)
  {
    var l := AddAll(AddAll(m, a, pid), b, pid);
    var r := AddAll(m, a + b, pid);
    assert l.Keys == r.Keys;
    forall x | x in l
      ensures l[x] == r[x]
    {
      AddAllUnionAt(m, a, b, pid, x);
    }
  }

  lemma AddAllUnionAt<K(!new)>(m: map<K, set<string>>, a: set<K>, b: set<K>, pid: string, x: K)
    ensures Postings(AddAll(AddAll(m, a, pid), b, pid), x) == Postings(AddAll(m, a + b, pid), x)
  {
  }

  /** Filing `pid` under one more key of facet `f`. */
  lemma AddKeyed(m: map<IndexKey, set<string>>, f: Facet, seen: set<string>, k: string, pid: string)
    ensures AddAll(AddAll(m, Keyed(f, seen), pid), {IndexKey(f, k)}, pid) == AddAll(m, Keyed(f, seen + {k}), pid)
  {
    AddAllUnion(m, Keyed(f, seen), {IndexKey(f, k)}, pid);
    KeyedAdd(f, seen, k);
  }

  lemma KeyedNone(m: map<IndexKey, set<string>>, f: Facet, pid: string)
    ensures AddAll(m, Keyed(f, {}), pid) == m
  {
    assert Keyed(f, {}) == {};
    AddAllNone(m, pid);
  }

  lemma KeyedAdd(f: Facet, keys: set<string>, k: string)
    ensures Keyed(f, keys + {k}) == Keyed(f, keys) + {IndexKey(f, k)}
  {
  }

  /** The strings before the first non-string element `i` are what `LeadingStrs` collects. */
  lemma {:induction false} LeadingStrsStop(xs: seq<Value>, i: nat)
    requires i <= |xs|
    requires forall j :: 0 <= j < i ==> xs[j].Str?
    requires i == |xs| || !xs[i].Str?
    ensures |LeadingStrs(xs)| == i
    ensures (set t | t in LeadingStrs(xs)) == set j | 0 <= j < i :: xs[j].s
  {
    var r := LeadingStrs(xs);
    forall t | t in r
      ensures t in set j | 0 <= j < i :: xs[j].s
    {
      var j :| 0 <= j < |r| && r[j] == t;
      assert xs[j] == Str(t);
    }
  }

  /** Two keys Python can compare: both numbers or both strings. */
  predicate Comparable(a: SortKey, b: SortKey) {
    (a.Num? && b.Num?) || (a.Text? && b.Text?)
  }

  lemma InOrderTotal(a: SortKey, b: SortKey, desc: bool)
    requires Comparable(a, b)
    ensures InOrder(a, b, desc) || InOrder(b, a, desc)
  {
    if a.Text? {
      StrLeTotal(a.t, b.t);
    }
  }

  lemma InOrderTransitive(a: SortKey, b: SortKey, c: SortKey, desc: bool)
    requires InOrder(a, b, desc) && InOrder(b, c, desc)
    ensures InOrder(a, c, desc)
  {
    if desc {
      if c.Text? {
        StrLeTransitive(c.t, b.t, a.t);
      }
    } else if a.Text? {
      StrLeTransitive(a.t, b.t, c.t);
    }
  }

  /** Keys of one kind compare pairwise. */
  lemma SameKindComparable(keys: map<string, SortKey>, a: string, b: string)
    requires SameKind(keys) && a in keys && b in keys
    ensures Comparable(keys[a], keys[b])
  {
  }

  /** Two distinct members make a set of at least two. */
  lemma TwoMembers<T>(s: set<T>, a: T, b: T)
    requires a in s && b in s && a != b
    ensures |s| >= 2
  {
    var t := s - {a};
    assert b in t;
    assert |s| == |t| + 1;
  }

  /** A sequence without repetitions that lists exactly the members of `s` has `|s|` elements. */
  lemma {:induction false} DistinctCard<T>(xs: seq<T>, s: set<T>)
    requires Distinct(xs)
    requires forall x :: x in xs <==> x in s
    ensures |xs| == |s|
    decreases |xs|
  {
    if xs != [] {
      var last := xs[|xs| - 1];
      var init := xs[..|xs| - 1];
      forall x
        ensures x in init <==> x in s - {last}
      {
        if x in init {
          var j :| 0 <= j < |init| && init[j] == x;
          assert xs[j] == x;
        }
        if x in s - {last} {
          var j :| 0 <= j < |xs| && xs[j] == x;
          assert j < |xs| - 1;
          assert init[j] == x;
        }
      }
      DistinctCard(init, s - {last});
    }
  }

  lemma AddAllNone<K(!new)>(m: map<K, set<string>>, pid: string)
    ensures AddAll(m, {}, pid) == m
  {
    var r := AddAll(m, {}, pid);
    forall x | x in r
      ensures r[x] == m[x]
    {
      assert Postings(r, x) == r[x];
    }
  }

  lemma TacticKeysAppend(xs: seq<Value>, x: Value)
    ensures (set y | y in xs + [x] :: PyStr(y)) == (set y | y in xs :: PyStr(y)) + {PyStr(x)}
  {
    var l := set y | y in xs + [x] :: PyStr(y);
    var r := (set y | y in xs :: PyStr(y)) + {PyStr(x)};
    forall t | t in l
      ensures t in r
    {
      var y :| y in xs + [x] && PyStr(y) == t;
      if y != x {
        assert y in xs;
      }
    }
    assert PyStr(x) in l;
  }

  lemma SeqSetAppend<T>(xs: seq<T>, x: T)
    ensures (set t | t in xs + [x]) == (set t | t in xs) + {x}
  {
  }

  /** Once an upsert raises, the later items are not reached. */
  lemma {:induction false} UpsertAllStops(s: State, items: seq<Value>, k: nat, now: string)
    requires k <= |items|
    requires forall x :: x in items ==> x.Dict?
    requires forall x :: x in items[..k] ==> x in items
    requires !UpsertAll(s, items[..k], now).ok
    ensures UpsertAll(s, items, now) == UpsertAll(s, items[..k], now)
    decreases |items|
  {
    if k < |items| {
      var init := items[..|items| - 1];
      assert init[..k] == items[..k];
      assert forall x :: x in init ==> x in items;
      UpsertAllStops(s, init, k, now);
    } else {
      assert items[..k] == items;
    }
  }

  /** Once a document raises, the later documents are not reached. */
  lemma {:induction false} LoadStops(s: State, docs: seq<Value>, k: nat, now: string)
    requires k <= |docs|
    requires !LoadSpec(s, docs[..k], now).ok
    ensures LoadSpec(s, docs, now) == LoadSpec(s, docs[..k], now)
    decreases |docs|
  {
    if k < |docs| {
      var init := docs[..|docs| - 1];
      assert init[..k] == docs[..k];
      LoadStops(s, init, k, now);
    } else {
      assert docs[..k] == docs;
    }
  }
}
