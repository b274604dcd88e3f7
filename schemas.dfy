/**
 * The manifest validator of the Payloads plugin: the per-item rules of
 * `validate_payload_item` and the per-document report of `validate_manifest`.
 *
 * Each rule is a specification function over the item's fields; the two
 * validator methods accumulate messages in loops, as the Python code does,
 * and are proved equal to those functions. Lemmas then state what the rules
 * mean: which item is accepted, and how many messages of each kind appear.
 */
module Schemas {
  import opened Wrappers
  import opened Strings
  import opened Values

  const Required: seq<string> :=
    ["id", "name", "description", "md5", "file_type", "os", "tactics", "source", "executor"]
  const AllowedOs: set<string> := {"windows", "linux", "darwin"}
  const AllowedSeverity: set<string> := {"low", "medium", "high", "critical"}
  const ArgTypes: seq<Value> := [Str("string"), Str("int"), Str("bool"), Str("enum"), Str("path")]

  // The longer messages are written as two literals joined, which keeps their
  // first characters visible to the verifier.
  const Md5Message := "md5 must be " + "32 lowercase hex characters"
  const OsMessage := "os must be one of " + "['darwin', 'linux', 'windows']"
  const OsListMessage := "os must be a list"
  const TacticMessage := "tactics must be " + "ATT&CK tactic keys like TA0001"
  const TacticListMessage := "tactics must be a list"
  const SeverityMessage := "severity must be one of " + "['critical', 'high', " + "'low', 'medium']"
  const LocalSourceMessage := "source_path required " + "for local source"
  const UrlSourceMessage := "download_url required " + "for url source"
  const ArgKeyMessage := "each arg must have key"
  const ItemsMessage := "items must be a list"

  function MissingMessage(k: string): string { "missing required field: " + k }

  function ArgTypeMessage(key: string): string { "arg " + key + " type invalid" }

  predicate IsHexLower(c: char) { '0' <= c <= '9' || 'a' <= c <= 'f' }

  predicate IsDigit(c: char) { '0' <= c <= '9' }

  /**
   * `re.match(r'^[a-f0-9]{32}$', s)`. Python's `$` also matches just before a
   * final newline, so a 33rd character `\n` is accepted.
   */
  predicate Md5Matches(s: string) {
    (|s| == 32 || (|s| == 33 && s[32] == '\n'))
    && forall i :: 0 <= i < 32 ==> IsHexLower(s[i])
  }

  /** `re.match(r'^TA\d{4}$', s)`, with the same treatment of a final newline. */
  predicate TacticMatches(s: string) {
    (|s| == 6 || (|s| == 7 && s[6] == '\n'))
    && s[0] == 'T' && s[1] == 'A'
    && forall i :: 2 <= i < 6 ==> IsDigit(s[i])
  }

  // ----- the rules, one per block of `validate_payload_item` -----

  /** One message per required key, in the order of `keys`, whose value is absent or falsy. */
  function MissingFrom(f: map<string, Value>, keys: seq<string>): seq<string> {
    if keys == [] then []
    else
      var k := keys[|keys| - 1];
      MissingFrom(f, keys[..|keys| - 1]) + (if Truthy(Get(f, k)) then [] else [MissingMessage(k)])
  }

  /** A truthy `md5` must be a string of 32 lower-case hex digits; a non-string raises. */
  function Md5Rule(f: map<string, Value>): Outcome<seq<string>> {
    var m := Get(f, "md5");
    if !Truthy(m) then Ok([])
    else if !m.Str? then Fault
    else if Md5Matches(m.s) then Ok([])
    else Ok([Md5Message])
  }

  predicate BadOs(x: Value) { !(x.Str? && x.s in AllowedOs) }

  /** One message per listed operating system outside the allowed set. */
  function OsErrors(xs: seq<Value>): (r: seq<string>)
    ensures forall m :: m in r ==> m == OsMessage
  {
    if xs == [] then []
    else OsErrors(xs[..|xs| - 1]) + (if BadOs(xs[|xs| - 1]) then [OsMessage] else [])
  }

  /** `os` (absent means `[]`) must be a list; testing an unhashable member against the set raises. */
  function OsRule(f: map<string, Value>): Outcome<seq<string>> {
    var v := Or(Get(f, "os"), List([]));
    if !v.List? then Ok([OsListMessage])
    else if exists x :: x in v.elems && !Hashable(x) then Fault
    else Ok(OsErrors(v.elems))
  }

  predicate BadTactic(x: Value) { !TacticMatches(PyStr(x)) }

  /** One message per tactic whose `str()` is not a tactic key. */
  function TacticErrors(xs: seq<Value>): (r: seq<string>)
    ensures forall m :: m in r ==> m == TacticMessage
  {
    if xs == [] then []
    else TacticErrors(xs[..|xs| - 1]) + (if BadTactic(xs[|xs| - 1]) then [TacticMessage] else [])
  }

  function TacticRule(f: map<string, Value>): seq<string> {
    var v := Or(Get(f, "tactics"), List([]));
    if !v.List? then [TacticListMessage] else TacticErrors(v.elems)
  }

  /** A truthy `severity` must be one of the four levels; an unhashable one raises. */
  function SeverityRule(f: map<string, Value>): Outcome<seq<string>> {
    var s := Get(f, "severity");
    if !Truthy(s) then Ok([])
    else if !Hashable(s) then Fault
    else if s.Str? && s.s in AllowedSeverity then Ok([])
    else Ok([SeverityMessage])
  }

  function SourceRule(f: map<string, Value>): seq<string> {
    var src := Get(f, "source");
    (if src == Str("local") && !Truthy(Get(f, "source_path")) then [LocalSourceMessage] else [])
    + (if src == Str("url") && !Truthy(Get(f, "download_url")) then [UrlSourceMessage] else [])
  }

  predicate KeyMissing(g: map<string, Value>) { "key" !in g || !Truthy(g["key"]) }

  predicate BadArgType(g: map<string, Value>) { Truthy(Get(g, "type")) && Get(g, "type") !in ArgTypes }

  /** The messages for one argument description. */
  function ArgMessages(g: map<string, Value>): seq<string> {
    (if KeyMissing(g) then [ArgKeyMessage] else [])
    + (if BadArgType(g) then [ArgTypeMessage(PyStr(GetOr(g, "key", Str("?"))))] else [])
  }

  function ArgErrors(xs: seq<Value>): seq<string>
    requires forall x :: x in xs ==> x.Dict?
  {
    if xs == [] then []
    else ArgErrors(xs[..|xs| - 1]) + ArgMessages(xs[|xs| - 1].fields)
  }

  /**
   * `args` (absent means `[]`) is iterated and every element is used as a
   * dict: anything truthy that is not a list of dicts raises.
   */
  function ArgsRule(f: map<string, Value>): Outcome<seq<string>> {
    var a := Or(Get(f, "args"), List([]));
    if !a.List? || exists x :: x in a.elems && !x.Dict? then Fault
    else Ok(ArgErrors(a.elems))
  }

  /** The messages of every block after the missing-field block, or the exception one of them raises. */
  function LaterErrors(f: map<string, Value>): Outcome<seq<string>> {
    var md5, os, sev, args := Md5Rule(f), OsRule(f), SeverityRule(f), ArgsRule(f);
    if md5.Fault? || os.Fault? || sev.Fault? || args.Fault? then Fault
    else Ok(md5.value + os.value + TacticRule(f) + sev.value + SourceRule(f) + args.value)
  }

  /** What `validate_payload_item(item)` returns, or raises. */
  function ItemErrors(item: Value): Outcome<seq<string>> {
    if !item.Dict? then Fault
    else
      match LaterErrors(item.fields)
      case Fault => Fault
      case Ok(later) => Ok(MissingFrom(item.fields, Required) + later)
  }

  /** The required-field loop of `validate_payload_item`. */
  method CheckRequired(f: map<string, Value>) returns (errors: seq<string>)
    ensures errors == MissingFrom(f, Required)
  {
    errors := [];
    for i := 0 to |Required|
      invariant errors == MissingFrom(f, Required[..i])
    {
      assert Required[..i + 1][..i] == Required[..i];
      if !Truthy(Get(f, Required[i])) {
        errors := errors + [MissingMessage(Required[i])];
      }
    }
    assert Required[..|Required|] == Required;
  }

  /** The `os` loop of `validate_payload_item`. */
  method CheckOs(f: map<string, Value>) returns (r: Outcome<seq<string>>)
    ensures r == OsRule(f)
  {
    var osList := Or(Get(f, "os"), List([]));
    if !osList.List? {
      return Ok([OsListMessage]);
    }
    var xs := osList.elems;
    var errors: seq<string> := [];
    for i := 0 to |xs|
      invariant errors == OsErrors(xs[..i])
      invariant forall j :: 0 <= j < i ==> Hashable(xs[j])
    {
      assert xs[..i + 1][..i] == xs[..i];
      if !Hashable(xs[i]) {
        assert xs[i] in xs;
        return Fault;
      }
      if BadOs(xs[i]) {
        errors := errors + [OsMessage];
      }
    }
    assert xs[..|xs|] == xs;
    r := Ok(errors);
  }

  /** The `tactics` loop of `validate_payload_item`. */
  method CheckTactics(f: map<string, Value>) returns (errors: seq<string>)
    ensures errors == TacticRule(f)
  {
    var tactics := Or(Get(f, "tactics"), List([]));
    if !tactics.List? {
      return [TacticListMessage];
    }
    var xs := tactics.elems;
    errors := [];
    for i := 0 to |xs|
      invariant errors == TacticErrors(xs[..i])
    {
      assert xs[..i + 1][..i] == xs[..i];
      if BadTactic(xs[i]) {
        errors := errors + [TacticMessage];
      }
    }
    assert xs[..|xs|] == xs;
  }

  /** The `args` loop of `validate_payload_item`. */
  method CheckArgs(f: map<string, Value>) returns (r: Outcome<seq<string>>)
    ensures r == ArgsRule(f)
  {
    var args := Or(Get(f, "args"), List([]));
    if !args.List? {
      return Fault;
    }
    var xs := args.elems;
    var errors: seq<string> := [];
    for i := 0 to |xs|
      invariant forall j :: 0 <= j < i ==> xs[j].Dict?
      invariant errors == ArgErrors(xs[..i])
    {
      assert xs[..i + 1][..i] == xs[..i];
      if !xs[i].Dict? {
        assert xs[i] in xs;
        return Fault;
      }
      errors := errors + ArgMessages(xs[i].fields);
    }
    assert xs[..|xs|] == xs;
    r := Ok(errors);
  }

  /**
   * `validate_payload_item`, accumulating its messages block by block: the
   * missing-field messages first, then those of the later blocks.
   */
  method ValidatePayloadItem(item: Value) returns (r: Outcome<seq<string>>)
    ensures r == ItemErrors(item)
  {
    if !item.Dict? {
      return Fault;
    }
    var f := item.fields;
    var missing := CheckRequired(f);
    var later: seq<string> := [];
    var md5 := Get(f, "md5");
    if Truthy(md5) {
      if !md5.Str? {
        return Fault;
      }
      if !Md5Matches(md5.s) {
        later := later + [Md5Message];
        assert later == [Md5Message];
      }
    }
    assert Md5Rule(f) == Ok(later);
    var os := CheckOs(f);
    if os.Fault? {
      return Fault;
    }
    later := later + os.value;
    var tactics := CheckTactics(f);
    later := later + tactics;
    var severity := Get(f, "severity");
    if Truthy(severity) {
      if !Hashable(severity) {
        return Fault;
      }
      if !(severity.Str? && severity.s in AllowedSeverity) {
        later := later + [SeverityMessage];
      }
    }
    assert SeverityRule(f).Ok?;
    assert later == Md5Rule(f).value + OsRule(f).value + TacticRule(f) + SeverityRule(f).value;
    var source := Get(f, "source");
    var sourceErrors: seq<string> := [];
    if source == Str("local") && !Truthy(Get(f, "source_path")) {
      sourceErrors := sourceErrors + [LocalSourceMessage];
    }
    if source == Str("url") && !Truthy(Get(f, "download_url")) {
      sourceErrors := sourceErrors + [UrlSourceMessage];
    }
    assert sourceErrors == SourceRule(f);
    later := later + sourceErrors;
    var args := CheckArgs(f);
    if args.Fault? {
      return Fault;
    }
    later := later + args.value;
    assert LaterErrors(f) == Ok(later);
    r := Ok(missing + later);
  }

  // ----- what an accepted item looks like -----

  predicate GoodArg(x: Value) {
    x.Dict? && !KeyMissing(x.fields) && !BadArgType(x.fields)
  }

  predicate Md5Ok(f: map<string, Value>) {
    Get(f, "md5").Str? && Md5Matches(Get(f, "md5").s)
  }

  predicate OsOk(f: map<string, Value>) {
    Get(f, "os").List? && forall x :: x in Get(f, "os").elems ==> x.Str? && x.s in AllowedOs
  }

  predicate TacticsOk(f: map<string, Value>) {
    Get(f, "tactics").List? && forall x :: x in Get(f, "tactics").elems ==> x.Str? && TacticMatches(x.s)
  }

  predicate SeverityOk(f: map<string, Value>) {
    var s := Get(f, "severity");
    !Truthy(s) || (s.Str? && s.s in AllowedSeverity)
  }

  predicate SourceOk(f: map<string, Value>) {
    && (Get(f, "source") == Str("local") ==> Truthy(Get(f, "source_path")))
    && (Get(f, "source") == Str("url") ==> Truthy(Get(f, "download_url")))
  }

  predicate ArgsOk(f: map<string, Value>) {
    var a := Get(f, "args");
    !Truthy(a) || (a.List? && forall x :: x in a.elems ==> GoodArg(x))
  }

  /**
   * The item `validate_payload_item` accepts, stated field by field: a dict
   * with every required field truthy, a well-formed md5, a list of allowed
   * operating systems, a list of tactic keys, an allowed severity if any, the
   * location its source needs, and well-formed arguments if any.
   */
  predicate WellFormedItem(item: Value) {
    && item.Dict?
    && (forall k :: k in Required ==> Truthy(Get(item.fields, k)))
    && Md5Ok(item.fields) && OsOk(item.fields) && TacticsOk(item.fields)
    && SeverityOk(item.fields) && SourceOk(item.fields) && ArgsOk(item.fields)
  }

  lemma {:induction false} MissingFromEmpty(f: map<string, Value>, keys: seq<string>)
    ensures MissingFrom(f, keys) == [] <==> forall k :: k in keys ==> Truthy(Get(f, k))
  {
    if keys != [] {
      MissingFromEmpty(f, keys[..|keys| - 1]);
      assert keys == keys[..|keys| - 1] + [keys[|keys| - 1]];
    }
  }

  lemma {:induction false} OsErrorsEmpty(xs: seq<Value>)
    ensures OsErrors(xs) == [] <==> forall x :: x in xs ==> !BadOs(x)
  {
    if xs != [] {
      OsErrorsEmpty(xs[..|xs| - 1]);
      assert xs == xs[..|xs| - 1] + [xs[|xs| - 1]];
    }
  }

  lemma {:induction false} TacticErrorsEmpty(xs: seq<Value>)
    ensures TacticErrors(xs) == [] <==> forall x :: x in xs ==> !BadTactic(x)
  {
    if xs != [] {
      TacticErrorsEmpty(xs[..|xs| - 1]);
      assert xs == xs[..|xs| - 1] + [xs[|xs| - 1]];
    }
  }

  lemma {:induction false} ArgErrorsEmpty(xs: seq<Value>)
    requires forall x :: x in xs ==> x.Dict?
    ensures ArgErrors(xs) == [] <==> forall x :: x in xs ==> GoodArg(x)
  {
    if xs != [] {
      var init, last := xs[..|xs| - 1], xs[|xs| - 1];
      assert forall x :: x in init ==> x in xs;
      ArgErrorsEmpty(init);
      assert xs == init + [last];
      assert ArgErrors(xs) == ArgErrors(init) + ArgMessages(last.fields);
      assert ArgMessages(last.fields) == [] <==> GoodArg(last);
    }
  }

  /** A tactic passes the pattern exactly when it is a string that matches it. */
  lemma {:induction false} GoodTactic(x: Value)
    ensures !BadTactic(x) <==> x.Str? && TacticMatches(x.s)
  {
    if !x.Str? {
      StrOfNonStringShape(x);
    }
  }

  lemma {:induction false} Md5Empty(f: map<string, Value>)
    requires Truthy(Get(f, "md5"))
    ensures Md5Rule(f) == Ok([]) <==> Md5Ok(f)
  {
  }

  lemma {:induction false} OsEmpty(f: map<string, Value>)
    requires Truthy(Get(f, "os"))
    ensures OsRule(f) == Ok([]) <==> OsOk(f)
  {
    var os := Get(f, "os");
    if os.List? {
      OsErrorsEmpty(os.elems);
    }
  }

  lemma {:induction false} TacticsEmpty(f: map<string, Value>)
    requires Truthy(Get(f, "tactics"))
    ensures TacticRule(f) == [] <==> TacticsOk(f)
  {
    var tactics := Get(f, "tactics");
    if tactics.List? {
      TacticErrorsEmpty(tactics.elems);
      forall x | x in tactics.elems
        ensures !BadTactic(x) <==> x.Str? && TacticMatches(x.s)
      {
        GoodTactic(x);
      }
    }
  }

  lemma {:induction false} ArgsEmpty(f: map<string, Value>)
    ensures ArgsRule(f) == Ok([]) <==> ArgsOk(f)
  {
    var args := Or(Get(f, "args"), List([]));
    if args.List? && forall x :: x in args.elems ==> x.Dict? {
      ArgErrorsEmpty(args.elems);
    }
  }

  lemma {:induction false} LaterEmpty(f: map<string, Value>)
    ensures LaterErrors(f) == Ok([]) <==>
      && Md5Rule(f) == Ok([]) && OsRule(f) == Ok([]) && TacticRule(f) == []
      && SeverityRule(f) == Ok([]) && SourceRule(f) == [] && ArgsRule(f) == Ok([])
  {
  }

  /** `validate_payload_item` returns no message exactly for the well-formed items. */
  lemma {:induction false} ItemAcceptedIff(item: Value)
    ensures ItemErrors(item) == Ok([]) <==> WellFormedItem(item)
  {
    if item.Dict? {
      var f := item.fields;
      MissingFromEmpty(f, Required);
      LaterEmpty(f);
      ArgsEmpty(f);
      if forall k :: k in Required ==> Truthy(Get(f, k)) {
        assert "md5" in Required && "os" in Required && "tactics" in Required;
        Md5Empty(f);
        OsEmpty(f);
        TacticsEmpty(f);
      }
    }
  }

  // ----- how many messages of each kind an item gets -----

  /** Number of listed operating systems outside the allowed set. */
  function CountBadOs(xs: seq<Value>): nat {
    if xs == [] then 0 else CountBadOs(xs[1..]) + (if BadOs(xs[0]) then 1 else 0)
  }

  /** Number of tactics that are not tactic keys. */
  function CountBadTactics(xs: seq<Value>): nat {
    if xs == [] then 0 else CountBadTactics(xs[1..]) + (if BadTactic(xs[0]) then 1 else 0)
  }

  lemma {:induction false} CountBadOsSnoc(xs: seq<Value>, x: Value)
    ensures CountBadOs(xs + [x]) == CountBadOs(xs) + (if BadOs(x) then 1 else 0)
  {
    if xs != [] {
      assert (xs + [x])[1..] == xs[1..] + [x];
      CountBadOsSnoc(xs[1..], x);
    }
  }

  lemma {:induction false} CountBadTacticsSnoc(xs: seq<Value>, x: Value)
    ensures CountBadTactics(xs + [x]) == CountBadTactics(xs) + (if BadTactic(x) then 1 else 0)
  {
    if xs != [] {
      assert (xs + [x])[1..] == xs[1..] + [x];
      CountBadTacticsSnoc(xs[1..], x);
    }
  }

  lemma {:induction false} OsErrorsCount(xs: seq<Value>)
    ensures |OsErrors(xs)| == CountBadOs(xs)
  {
    if xs != [] {
      var init := xs[..|xs| - 1];
      OsErrorsCount(init);
      assert xs == init + [xs[|xs| - 1]];
      CountBadOsSnoc(init, xs[|xs| - 1]);
    }
  }

  lemma {:induction false} TacticErrorsCount(xs: seq<Value>)
    ensures |TacticErrors(xs)| == CountBadTactics(xs)
  {
    if xs != [] {
      var init := xs[..|xs| - 1];
      TacticErrorsCount(init);
      assert xs == init + [xs[|xs| - 1]];
      CountBadTacticsSnoc(init, xs[|xs| - 1]);
    }
  }

  /** A sequence all of whose elements equal `m` holds `m` once per element. */
  lemma {:induction false} AllSameCount(s: seq<string>, m: string)
    requires forall x :: x in s ==> x == m
    ensures multiset(s)[m] == |s|
  {
    if s != [] {
      assert s == [s[0]] + s[1..];
      assert forall x :: x in s[1..] ==> x in s;
      AllSameCount(s[1..], m);
      assert s[0] in s;
      assert multiset(s) == multiset([s[0]]) + multiset(s[1..]);
    }
  }

  /** Begins as a missing-field message does; no other message begins with "mi". */
  predicate MissingShaped(m: string) {
    |m| >= 2 && m[0] == 'm' && m[1] == 'i'
  }

  lemma {:induction false} MissingFromShape(f: map<string, Value>, keys: seq<string>)
    ensures forall m :: m in MissingFrom(f, keys) ==> MissingShaped(m)
  {
    if keys != [] {
      MissingFromShape(f, keys[..|keys| - 1]);
      var k := keys[|keys| - 1];
      assert MissingShaped(MissingMessage(k));
    }
  }

  /** Messages an argument block can hold: the key message, or a type message naming the key. */
  predicate ArgShaped(m: string) {
    m == ArgKeyMessage || (m != [] && m[0] == 'a')
  }

  lemma {:induction false} ArgErrorsShape(xs: seq<Value>)
    requires forall x :: x in xs ==> x.Dict?
    ensures forall m :: m in ArgErrors(xs) ==> ArgShaped(m)
  {
    if xs != [] {
      ArgErrorsShape(xs[..|xs| - 1]);
      assert xs[|xs| - 1] in xs;
      var g := xs[|xs| - 1].fields;
      var key := PyStr(GetOr(g, "key", Str("?")));
      assert ArgTypeMessage(key)[0] == 'a';
    }
  }

  /** What each block after the missing-field block can contain. */
  lemma {:induction false} LaterShapes(f: map<string, Value>)
    requires LaterErrors(f).Ok?
    ensures forall m :: m in Md5Rule(f).value ==> m == Md5Message
    ensures forall m :: m in OsRule(f).value ==> m == OsMessage || m == OsListMessage
    ensures forall m :: m in TacticRule(f) ==> m == TacticMessage || m == TacticListMessage
    ensures forall m :: m in SeverityRule(f).value ==> m == SeverityMessage
    ensures forall m :: m in SourceRule(f) ==> m == LocalSourceMessage || m == UrlSourceMessage
    ensures forall m :: m in ArgsRule(f).value ==> ArgShaped(m)
  {
    ArgErrorsShape(Or(Get(f, "args"), List([])).elems);
  }

  /** The count of a message in an item's errors is the sum of its counts over the blocks. */
  lemma {:induction false} ItemCount(f: map<string, Value>, m: string)
    requires ItemErrors(Dict(f)).Ok?
    ensures LaterErrors(f).Ok?
    ensures multiset(ItemErrors(Dict(f)).value)[m]
      == multiset(MissingFrom(f, Required))[m] + multiset(Md5Rule(f).value)[m]
       + multiset(OsRule(f).value)[m] + multiset(TacticRule(f))[m] + multiset(SeverityRule(f).value)[m]
       + multiset(SourceRule(f))[m] + multiset(ArgsRule(f).value)[m]
  {
  }

  /** A fixed message that does not begin like a missing-field message is not in that block. */
  lemma {:induction false} NotMissing(f: map<string, Value>, m: string)
    requires !MissingShaped(m)
    ensures multiset(MissingFrom(f, Required))[m] == 0
  {
    MissingFromShape(f, Required);
  }

  lemma {:induction false} MissingFromCount(f: map<string, Value>, keys: seq<string>, k: string)
    requires Distinct(keys)
    ensures multiset(MissingFrom(f, keys))[MissingMessage(k)]
      == if k in keys && !Truthy(Get(f, k)) then 1 else 0
  {
    if keys != [] {
      var init, last := keys[..|keys| - 1], keys[|keys| - 1];
      DistinctInit(keys);
      MissingFromCount(f, init, k);
      MissingFromLast(f, keys, k);
      assert k in keys <==> k in init || k == last by {
        assert keys == init + [last];
      }
    }
  }

  /** The nine required fields begin with nine different letters. */
  lemma RequiredDistinct()
    ensures Distinct(Required)
  {
    var firsts := "indmfotse";
    assert forall i :: 0 <= i < |Required| ==> Required[i] != [] && Required[i][0] == firsts[i];
  }

  lemma {:induction false} DistinctInit(keys: seq<string>)
    requires Distinct(keys) && keys != []
    ensures Distinct(keys[..|keys| - 1]) && keys[|keys| - 1] !in keys[..|keys| - 1]
  {
  }

  /** The last key adds its own message, if any, to the count. */
  lemma {:induction false} MissingFromLast(f: map<string, Value>, keys: seq<string>, k: string)
    requires keys != []
    ensures var init, last := keys[..|keys| - 1], keys[|keys| - 1];
      multiset(MissingFrom(f, keys))[MissingMessage(k)]
        == multiset(MissingFrom(f, init))[MissingMessage(k)] + if last == k && !Truthy(Get(f, k)) then 1 else 0
  {
    var init, last := keys[..|keys| - 1], keys[|keys| - 1];
    var m := MissingMessage(k);
    var tail := if Truthy(Get(f, last)) then [] else [MissingMessage(last)];
    assert MissingFrom(f, keys) == MissingFrom(f, init) + tail;
    assert multiset(MissingFrom(f, keys))[m] == multiset(MissingFrom(f, init))[m] + multiset(tail)[m];
    if last != k {
      MissingMessageInjective(last, k);
    }
  }

  /** Different fields give different missing-field messages. */
  lemma {:induction false} MissingMessageInjective(a: string, b: string)
    requires a != b
    ensures MissingMessage(a) != MissingMessage(b)
  {
    assert MissingMessage(a)[24..] == a && MissingMessage(b)[24..] == b;
  }

  /**
   * Each of the nine required fields that is absent or falsy yields exactly
   * one `missing required field` message naming it, and a present truthy one
   * yields none.
   */
  lemma {:induction false} MissingFieldReported(f: map<string, Value>, k: string)
    requires k in Required
    requires ItemErrors(Dict(f)).Ok?
    ensures multiset(ItemErrors(Dict(f)).value)[MissingMessage(k)] == if Truthy(Get(f, k)) then 0 else 1
  {
    RequiredDistinct();
    MissingFromCount(f, Required, k);
    MissingNotLater(f, k);
    assert ItemErrors(Dict(f)).value == MissingFrom(f, Required) + LaterErrors(f).value;
  }

  lemma {:induction false} MissingNotLater(f: map<string, Value>, k: string)
    requires LaterErrors(f).Ok?
    ensures multiset(LaterErrors(f).value)[MissingMessage(k)] == 0
  {
    var m := MissingMessage(k);
    LaterAllShaped(f);
    assert !LaterShaped(m) by {
      assert m[0] == 'm' && m[1] == 'i';
      assert Md5Message[1] == 'd';
      assert OsMessage[0] == 'o' && OsListMessage[0] == 'o';
      assert TacticMessage[0] == 't' && TacticListMessage[0] == 't';
      assert SeverityMessage[0] == 's' && LocalSourceMessage[0] == 's';
      assert UrlSourceMessage[0] == 'd' && ArgKeyMessage[0] == 'e';
    }
  }

  /** Any message of the later blocks: one of their fixed messages or an argument message. */
  predicate LaterShaped(m: string) {
    || m == Md5Message || m == OsMessage || m == OsListMessage || m == TacticMessage || m == TacticListMessage
    || m == SeverityMessage || m == LocalSourceMessage || m == UrlSourceMessage || ArgShaped(m)
  }

  lemma {:induction false} LaterAllShaped(f: map<string, Value>)
    requires LaterErrors(f).Ok?
    ensures forall m :: m in LaterErrors(f).value ==> LaterShaped(m)
  {
    LaterShapes(f);
  }

  /** The fixed messages of the blocks after the missing-field block. */
  predicate Fixed(m: string) {
    m in {Md5Message, OsMessage, OsListMessage, TacticMessage, TacticListMessage, SeverityMessage,
          LocalSourceMessage, UrlSourceMessage}
  }

  lemma {:induction false} FixedShape(m: string)
    requires Fixed(m)
    ensures !ArgShaped(m) && !MissingShaped(m)
  {
    assert m[0] != 'a' && m != ArgKeyMessage by {
      if m == Md5Message { assert m[0] == 'm'; }
      else if m == OsMessage { assert m[0] == 'o'; }
      else if m == OsListMessage { assert m[0] == 'o'; }
      else if m == TacticMessage { assert m[0] == 't'; }
      else if m == TacticListMessage { assert m[0] == 't'; }
      else if m == SeverityMessage { assert m[0] == 's'; }
      else if m == LocalSourceMessage { assert m[0] == 's'; }
      else { assert m[0] == 'd'; }
    }
    assert m[0] != 'm' || m[1] != 'i' by {
      if m == Md5Message { assert m[1] == 'd'; }
    }
  }

  /** A fixed message comes only from its own block. */
  lemma {:induction false} OnlyOwnBlock(f: map<string, Value>, m: string)
    requires LaterErrors(f).Ok?
    requires Fixed(m)
    ensures multiset(MissingFrom(f, Required))[m] == 0
    ensures m != Md5Message ==> multiset(Md5Rule(f).value)[m] == 0
    ensures m != OsMessage && m != OsListMessage ==> multiset(OsRule(f).value)[m] == 0
    ensures m != TacticMessage && m != TacticListMessage ==> multiset(TacticRule(f))[m] == 0
    ensures m != SeverityMessage ==> multiset(SeverityRule(f).value)[m] == 0
    ensures m != LocalSourceMessage && m != UrlSourceMessage ==> multiset(SourceRule(f))[m] == 0
    ensures multiset(ArgsRule(f).value)[m] == 0
  {
    FixedShape(m);
    NotMissing(f, m);
    LaterShapes(f);
    assert m !in ArgsRule(f).value;
    if m != Md5Message { assert m !in Md5Rule(f).value; }
    if m != OsMessage && m != OsListMessage { assert m !in OsRule(f).value; }
    if m != TacticMessage && m != TacticListMessage { assert m !in TacticRule(f); }
    if m != SeverityMessage { assert m !in SeverityRule(f).value; }
    if m != LocalSourceMessage && m != UrlSourceMessage { assert m !in SourceRule(f); }
  }

  /**
   * A truthy md5 that does not match the pattern gets exactly one md5
   * message; a matching, absent or falsy md5 gets none (an absent one is only
   * reported as missing).
   */
  lemma {:induction false} Md5Reported(f: map<string, Value>)
    requires ItemErrors(Dict(f)).Ok?
    ensures Truthy(Get(f, "md5")) ==> Get(f, "md5").Str?
    ensures multiset(ItemErrors(Dict(f)).value)[Md5Message]
      == if Truthy(Get(f, "md5")) && !Md5Matches(Get(f, "md5").s) then 1 else 0
  {
    ItemCount(f, Md5Message);
    OnlyOwnBlock(f, Md5Message);
  }

  /**
   * A list-valued `os` yields one message per member outside the allowed set
   * and no "must be a list" message; a truthy non-list `os` yields exactly
   * the "must be a list" message.
   */
  lemma {:induction false} OsReported(f: map<string, Value>)
    requires ItemErrors(Dict(f)).Ok?
    ensures var os := Or(Get(f, "os"), List([]));
      var all := multiset(ItemErrors(Dict(f)).value);
      if os.List? then all[OsMessage] == CountBadOs(os.elems) && all[OsListMessage] == 0
      else all[OsMessage] == 0 && all[OsListMessage] == 1
  {
    ItemCount(f, OsMessage);
    ItemCount(f, OsListMessage);
    OnlyOwnBlock(f, OsMessage);
    OnlyOwnBlock(f, OsListMessage);
    OsBlockCounts(f);
  }

  /** The counts of the two os messages within the os block itself. */
  lemma {:induction false} OsBlockCounts(f: map<string, Value>)
    requires OsRule(f).Ok?
    ensures var os := Or(Get(f, "os"), List([]));
      var block := multiset(OsRule(f).value);
      if os.List? then block[OsMessage] == CountBadOs(os.elems) && block[OsListMessage] == 0
      else block[OsMessage] == 0 && block[OsListMessage] == 1
  {
    var os := Or(Get(f, "os"), List([]));
    if os.List? {
      AllSameCount(OsErrors(os.elems), OsMessage);
      OsErrorsCount(os.elems);
      assert OsListMessage !in OsErrors(os.elems);
    }
  }

  /**
   * A list-valued `tactics` yields one message per entry whose string form is
   * not a tactic key; a truthy non-list yields exactly the "must be a list" message.
   */
  lemma {:induction false} TacticsReported(f: map<string, Value>)
    requires ItemErrors(Dict(f)).Ok?
    ensures var t := Or(Get(f, "tactics"), List([]));
      var all := multiset(ItemErrors(Dict(f)).value);
      if t.List? then all[TacticMessage] == CountBadTactics(t.elems) && all[TacticListMessage] == 0
      else all[TacticMessage] == 0 && all[TacticListMessage] == 1
  {
    var t := Or(Get(f, "tactics"), List([]));
    ItemCount(f, TacticMessage);
    ItemCount(f, TacticListMessage);
    OnlyOwnBlock(f, TacticMessage);
    OnlyOwnBlock(f, TacticListMessage);
    if t.List? {
      AllSameCount(TacticErrors(t.elems), TacticMessage);
      TacticErrorsCount(t.elems);
      assert TacticListMessage !in TacticErrors(t.elems);
    }
  }

  /** `severity` is checked only when truthy, against the four allowed levels. */
  lemma {:induction false} SeverityReported(f: map<string, Value>)
    requires ItemErrors(Dict(f)).Ok?
    ensures var s := Get(f, "severity");
      multiset(ItemErrors(Dict(f)).value)[SeverityMessage]
        == if Truthy(s) && !(s.Str? && s.s in AllowedSeverity) then 1 else 0
  {
    ItemCount(f, SeverityMessage);
    OnlyOwnBlock(f, SeverityMessage);
    SeverityBlockCount(f);
  }

  lemma {:induction false} SeverityBlockCount(f: map<string, Value>)
    requires SeverityRule(f).Ok?
    ensures var s := Get(f, "severity");
      multiset(SeverityRule(f).value)[SeverityMessage]
        == if Truthy(s) && !(s.Str? && s.s in AllowedSeverity) then 1 else 0
  {
  }

  /**
   * A local source without `source_path`, or a url source without
   * `download_url`, is reported once; any other source is not reported.
   */
  lemma {:induction false} SourceReported(f: map<string, Value>)
    requires ItemErrors(Dict(f)).Ok?
    ensures var src := Get(f, "source");
      var all := multiset(ItemErrors(Dict(f)).value);
      && all[LocalSourceMessage] == (if src == Str("local") && !Truthy(Get(f, "source_path")) then 1 else 0)
      && all[UrlSourceMessage] == (if src == Str("url") && !Truthy(Get(f, "download_url")) then 1 else 0)
  {
    ItemCount(f, LocalSourceMessage);
    ItemCount(f, UrlSourceMessage);
    OnlyOwnBlock(f, LocalSourceMessage);
    OnlyOwnBlock(f, UrlSourceMessage);
  }

  /** Number of argument descriptions without a truthy `key`. */
  function CountKeyMissing(xs: seq<Value>): nat
    requires forall x :: x in xs ==> x.Dict?
  {
    if xs == [] then 0 else CountKeyMissing(xs[..|xs| - 1]) + (if KeyMissing(xs[|xs| - 1].fields) then 1 else 0)
  }

  /** Number of argument descriptions with a truthy `type` outside the allowed five. */
  function CountBadArgType(xs: seq<Value>): nat
    requires forall x :: x in xs ==> x.Dict?
  {
    if xs == [] then 0 else CountBadArgType(xs[..|xs| - 1]) + (if BadArgType(xs[|xs| - 1].fields) then 1 else 0)
  }

  /**
   * Each argument without a truthy `key` gets one "each arg must have key"
   * message and each argument with a bad truthy `type` one type message, so
   * the argument block holds exactly one message per such defect.
   */
  lemma {:induction false} ArgsReported(xs: seq<Value>)
    requires forall x :: x in xs ==> x.Dict?
    ensures multiset(ArgErrors(xs))[ArgKeyMessage] == CountKeyMissing(xs)
    ensures |ArgErrors(xs)| == CountKeyMissing(xs) + CountBadArgType(xs)
  {
    if xs != [] {
      ArgsReported(xs[..|xs| - 1]);
      assert xs[|xs| - 1] in xs;
      var g := xs[|xs| - 1].fields;
      if BadArgType(g) {
        var t := ArgTypeMessage(PyStr(GetOr(g, "key", Str("?"))));
        assert t[0] == 'a' && ArgKeyMessage[0] == 'e';
      }
    }
  }

  // ----- validate_manifest -----

  datatype ManifestError = ManifestError(index: int, reason: string)

  datatype ManifestReport = ManifestReport(ok: bool, items: nat, errors: seq<ManifestError>)

  /** The number of accepted items and the errors of the rejected ones, so far. */
  datatype Tally = Tally(valid: nat, errors: seq<ManifestError>)

  /** The loop of `validate_manifest` over the entries of `items`. */
  function Entries(xs: seq<Value>): Outcome<Tally> {
    Tallied(Validations(xs))
  }

  /** What `validate_payload_item` gives for each entry, in order. */
  function Validations(xs: seq<Value>): (rs: seq<Outcome<seq<string>>>)
    ensures |rs| == |xs|
  {
    seq(|xs|, i requires 0 <= i < |xs| => ItemErrors(xs[i]))
  }

  lemma ValidationsMeaning(xs: seq<Value>)
    ensures forall i :: 0 <= i < |xs| ==> Validations(xs)[i] == ItemErrors(xs[i])
  {
  }

  /** `validate_payload_item` on the entry at position `i`. */
  method ValidateAt(xs: seq<Value>, i: nat) returns (r: Outcome<seq<string>>)
    requires i < |xs|
    ensures r == Validations(xs)[i]
  {
    r := ValidatePayloadItem(xs[i]);
  }

  /** The tally after one more entry whose validation did not raise. */
  method TallyEntry(okCount: nat, errors: seq<ManifestError>, errs: seq<string>, i: nat) returns (okCount': nat, errors': seq<ManifestError>)
    ensures TallyNext(Ok(Tally(okCount, errors)), Ok(errs), i) == Ok(Tally(okCount', errors'))
  {
    if errs != [] {
      okCount', errors' := okCount, errors + [ManifestError(i, Join("; ", errs))];
    } else {
      okCount', errors' := okCount + 1, errors;
    }
  }

  /** The tally the loop builds from the validation results of the entries. */
  function Tallied(rs: seq<Outcome<seq<string>>>): Outcome<Tally> {
    if rs == [] then Ok(Tally(0, []))
    else TallyNext(Tallied(rs[..|rs| - 1]), rs[|rs| - 1], |rs| - 1)
  }

  /** One turn of that loop: the entry at position `i` with validation result `r`, after the tally so far. */
  function TallyNext(before: Outcome<Tally>, r: Outcome<seq<string>>, i: nat): Outcome<Tally> {
    match before
    case Fault => Fault
    case Ok(t) =>
      match r
      case Fault => Fault
      case Ok(errs) =>
        if errs == [] then Ok(Tally(t.valid + 1, t.errors))
        else Ok(Tally(t.valid, t.errors + [ManifestError(i, Join("; ", errs))]))
  }

  /** `(doc or {}).get('items') or []`; `.get` on a truthy non-dict raises. */
  function ItemsOf(doc: Value): Outcome<Value> {
    if !Truthy(doc) then Ok(List([]))
    else if !doc.Dict? then Fault
    else Ok(Or(Get(doc.fields, "items"), List([])))
  }

  /** What `validate_manifest(doc)` returns, or raises. */
  function ManifestSpec(doc: Value): Outcome<ManifestReport> {
    match ItemsOf(doc)
    case Fault => Fault
    case Ok(items) =>
      if !items.List? then Ok(ManifestReport(false, 0, [ManifestError(-1, ItemsMessage)]))
      else
        match Entries(items.elems)
        case Fault => Fault
        case Ok(t) => Ok(ManifestReport(t.errors == [], t.valid, t.errors))
  }

  /** `validate_manifest`: validate every entry in order, counting the good ones. */
  method ValidateManifest(doc: Value) returns (r: Outcome<ManifestReport>)
    ensures r == ManifestSpec(doc)
  {
    var items: Value;
    if !Truthy(doc) {
      items := List([]);
    } else if !doc.Dict? {
      return Fault;
    } else {
      items := Or(Get(doc.fields, "items"), List([]));
    }
    if !items.List? {
      return Ok(ManifestReport(false, 0, [ManifestError(-1, ItemsMessage)]));
    }
    var t := ValidateEntries(items.elems);
    if t.Fault? {
      return Fault;
    }
    r := Ok(ManifestReport(t.value.errors == [], t.value.valid, t.value.errors));
  }

  /** The loop of `validate_manifest`: validate each entry, counting the good ones and collecting the errors. */
  method ValidateEntries(xs: seq<Value>) returns (r: Outcome<Tally>)
    ensures r == Entries(xs)
  {
    ghost var rs := Validations(xs);
    var errors: seq<ManifestError> := [];
    var okCount := 0;
    for i := 0 to |xs|
      invariant Tallied(rs[..i]) == Ok(Tally(okCount, errors))
    {
      TalliedStep(rs, i);
      var errs := ValidateAt(xs, i);
      if errs.Fault? {
        TalliedFault(rs);
        return Fault;
      }
      okCount, errors := TallyEntry(okCount, errors, errs.value, i);
    }
    assert rs[..|xs|] == rs;
    r := Ok(Tally(okCount, errors));
  }

  lemma TalliedStep(rs: seq<Outcome<seq<string>>>, i: nat)
    requires i < |rs|
    ensures Tallied(rs[..i + 1]) == TallyNext(Tallied(rs[..i]), rs[i], i)
  {
    assert rs[..i + 1][..i] == rs[..i];
  }

  /** The tally fails exactly when the validation of some entry raises. */
  lemma {:induction false} TalliedFault(rs: seq<Outcome<seq<string>>>)
    ensures Tallied(rs).Fault? <==> exists i :: 0 <= i < |rs| && rs[i].Fault?
  {
    if rs != [] {
      var init := rs[..|rs| - 1];
      TalliedFault(init);
      assert Tallied(rs).Fault? <==> Tallied(init).Fault? || rs[|rs| - 1].Fault?;
      if Tallied(rs).Fault? {
        if Tallied(init).Fault? {
          var i :| 0 <= i < |init| && init[i].Fault?;
          assert init[i] == rs[i];
        }
      } else {
        forall i | 0 <= i < |rs|
          ensures rs[i].Ok?
        {
          if i < |init| {
            assert init[i] == rs[i];
          }
        }
      }
    }
  }

  lemma {:induction false} TalliedCount(rs: seq<Outcome<seq<string>>>)
    requires Tallied(rs).Ok?
    ensures Tallied(rs).value.valid + |Tallied(rs).value.errors| == |rs|
  {
    if rs != [] {
      TalliedCount(rs[..|rs| - 1]);
    }
  }

  lemma {:induction false} TalliedErrorsValid(rs: seq<Outcome<seq<string>>>)
    requires Tallied(rs).Ok?
    ensures forall e :: e in Tallied(rs).value.errors ==>
      && 0 <= e.index < |rs|
      && rs[e.index].Ok? && rs[e.index].value != []
      && e.reason == Join("; ", rs[e.index].value)
  {
    if rs != [] {
      var init := rs[..|rs| - 1];
      TalliedErrorsValid(init);
      assert forall i :: 0 <= i < |init| ==> init[i] == rs[i];
    }
  }

  lemma {:induction false} TalliedSorted(rs: seq<Outcome<seq<string>>>)
    requires Tallied(rs).Ok?
    ensures var es := Tallied(rs).value.errors;
      forall j, k :: 0 <= j < k < |es| ==> es[j].index < es[k].index
  {
    if rs != [] {
      var init := rs[..|rs| - 1];
      TalliedSorted(init);
      TalliedErrorsValid(init);
      var es0 := Tallied(init).value.errors;
      assert forall j :: 0 <= j < |es0| ==> es0[j] in es0;
    }
  }

  lemma {:induction false} TalliedCover(rs: seq<Outcome<seq<string>>>)
    requires Tallied(rs).Ok?
    ensures forall i :: 0 <= i < |rs| && rs[i] != Ok([]) ==>
      exists e :: e in Tallied(rs).value.errors && e.index == i
  {
    if rs != [] {
      var init := rs[..|rs| - 1];
      TalliedCover(init);
      assert forall i :: 0 <= i < |init| ==> init[i] == rs[i];
      var t0 := Tallied(init).value;
      var t := Tallied(rs).value;
      forall i | 0 <= i < |rs| && rs[i] != Ok([])
        ensures exists e :: e in t.errors && e.index == i
      {
        if i < |init| {
          var e :| e in t0.errors && e.index == i;
          assert e in t.errors;
        } else {
          assert t.errors[|t.errors| - 1] in t.errors;
        }
      }
    }
  }

  /** The entries loop raises exactly when the validation of some entry raises. */
  lemma EntriesFault(xs: seq<Value>)
    ensures Entries(xs).Fault? <==> exists i :: 0 <= i < |xs| && ItemErrors(xs[i]).Fault?
  {
    ValidationsMeaning(xs);
    TalliedFault(Validations(xs));
  }

  /** Every entry is either counted as accepted or has one error. */
  lemma EntriesCount(xs: seq<Value>)
    requires Entries(xs).Ok?
    ensures Entries(xs).value.valid + |Entries(xs).value.errors| == |xs|
  {
    ValidationsMeaning(xs);
    TalliedCount(Validations(xs));
  }

  /**
   * Each error names an entry that validation rejected, carrying that entry's
   * messages joined by `"; "`.
   */
  lemma EntriesErrorsValid(xs: seq<Value>)
    requires Entries(xs).Ok?
    ensures forall e :: e in Entries(xs).value.errors ==>
      && 0 <= e.index < |xs|
      && ItemErrors(xs[e.index]).Ok? && ItemErrors(xs[e.index]).value != []
      && e.reason == Join("; ", ItemErrors(xs[e.index]).value)
  {
    ValidationsMeaning(xs);
    TalliedErrorsValid(Validations(xs));
  }

  /** The errors come in increasing order of entry index. */
  lemma EntriesSorted(xs: seq<Value>)
    requires Entries(xs).Ok?
    ensures var es := Entries(xs).value.errors;
      forall j, k :: 0 <= j < k < |es| ==> es[j].index < es[k].index
  {
    ValidationsMeaning(xs);
    TalliedSorted(Validations(xs));
  }

  /** Every entry that validation rejects has an error. */
  lemma EntriesCover(xs: seq<Value>)
    requires Entries(xs).Ok?
    ensures forall i :: 0 <= i < |xs| && ItemErrors(xs[i]) != Ok([]) ==>
      exists e :: e in Entries(xs).value.errors && e.index == i
  {
    ValidationsMeaning(xs);
    TalliedCover(Validations(xs));
  }

  /**
   * The manifest is `ok` exactly when every entry is accepted, and `items`
   * counts the accepted entries; a truthy non-list `items` gives the single
   * error at index -1.
   */
  lemma {:induction false} ManifestMeaning(doc: Value)
    requires ManifestSpec(doc).Ok?
    ensures var r := ManifestSpec(doc);
      var items := ItemsOf(doc).value;
      if !items.List? then r.value == ManifestReport(false, 0, [ManifestError(-1, ItemsMessage)])
      else
        && (r.value.ok <==> forall i :: 0 <= i < |items.elems| ==> ItemErrors(items.elems[i]) == Ok([]))
        && r.value.items + |r.value.errors| == |items.elems|
  {
    var items := ItemsOf(doc).value;
    if items.List? {
      var xs := items.elems;
      EntriesCount(xs);
      EntriesErrorsValid(xs);
      EntriesCover(xs);
      var t := Entries(xs).value;
      if t.errors != [] {
        assert t.errors[0] in t.errors;
      }
    }
  }
}
