/**
 * `PayloadManagerService` of the payloadmanager plugin: the required-field
 * check of `create_payload`, the file names and paths it writes to, the
 * `get_payloads` filter, the attribute merge of `update_payload`, the id
 * selection of `export_payloads` and the id normalisation of the YAML
 * loader. File contents, digests and sizes are parameters.
 */
module PayloadManager {
  import opened Wrappers
  import opened Strings
  import opened Values
  import opened PayloadObject
  import opened AgentAccess

  // ----- paths -----

  /** `posixpath.join(a, b)`: an absolute `b` replaces `a`; otherwise one `/` separates them. */
  function PathJoin(a: string, b: string): (r: string)
    ensures StartsWith(b, "/") ==> r == b
    ensures !StartsWith(b, "/") ==> EndsWith(r, b)
  {
    if StartsWith(b, "/") then b
    else if a == "" || EndsWith(a, "/") then a + b
    else a + "/" + b
  }

  /** `payload.name.lower().replace(' ', '-')`, which raises when the name is `None`. */
  function NameStem(name: Option<string>): (r: Outcome<string>)
    ensures r.Ok? <==> name.Some?
    ensures r.Ok? ==> |r.value| == |name.value| && ' ' !in r.value
  {
    match name
    case None => Fault
    case Some(n) => Ok(ReplaceChar(Lower(n), ' ', '-'))
  }

  /** `payloads_dir/<first platform or windows>/<first tactic or execution>`, joined as `os.path.join` does. */
  function PayloadDir(payloadsDir: string, platforms: seq<string>, tactics: seq<string>): string {
    PathJoin(PathJoin(payloadsDir, FirstOr(platforms, "windows")), FirstOr(tactics, "execution"))
  }

  /** `xs[0] if xs else default`. */
  function FirstOr(xs: seq<string>, default: string): string {
    if xs != [] then xs[0] else default
  }

  /** `_get_payload_yaml_path(payload)`. */
  function YamlPath(payloadsDir: string, p: PayloadRecord): Outcome<string> {
    match NameStem(p.name)
    case Fault => Fault
    case Ok(stem) => Ok(PathJoin(PayloadDir(payloadsDir, p.platforms, p.tactics), stem + ".yml"))
  }

  /** The path `_save_payload_file(payload, data)` writes the artifact to. */
  function ArtifactPath(payloadsDir: string, p: PayloadRecord): Outcome<string> {
    match NameStem(p.name)
    case Fault => Fault
    case Ok(stem) =>
      var ext := if TruthyStr(p.fileType) then p.fileType.value else "bin";
      Ok(PathJoin(PayloadDir(payloadsDir, p.platforms, p.tactics), stem + "." + ext))
  }

  /**
   * With a relative directory component for the platform, the tactic and
   * the name, the YAML file lies at
   * `<payloads_dir>/<platform>/<tactic>/<stem>.yml`, the platform and
   * tactic defaulting to `windows` and `execution`.
   */
  lemma YamlPathLayout(payloadsDir: string, p: PayloadRecord)
    requires payloadsDir != "" && !EndsWith(payloadsDir, "/")
    requires p.name.Some? && !StartsWith(Lower(p.name.value), "/")
    requires p.platforms != [] ==> RelativeComponent(p.platforms[0])
    requires p.tactics != [] ==> RelativeComponent(p.tactics[0])
    ensures YamlPath(payloadsDir, p) == Ok(payloadsDir + "/" + FirstOr(p.platforms, "windows") + "/"
      + FirstOr(p.tactics, "execution") + "/" + NameStem(p.name).value + ".yml")
  {
    var platform := FirstOr(p.platforms, "windows");
    var tactic := FirstOr(p.tactics, "execution");
    var stem := NameStem(p.name).value;
    assert RelativeComponent("windows") && RelativeComponent("execution");
    PayloadDirLayout(payloadsDir, platform, tactic);
    var d := payloadsDir + "/" + platform + "/" + tactic;
    assert PayloadDir(payloadsDir, p.platforms, p.tactics) == d;
    StemRelative(p.name.value);
    JoinRelative(d, stem + ".yml");
    assert YamlPath(payloadsDir, p) == Ok(d + "/" + (stem + ".yml"));
    assert d + "/" + (stem + ".yml") == payloadsDir + "/" + platform + "/" + tactic + "/" + stem + ".yml";
  }

  /** The file name of a name whose lower-cased form is not absolute does not start with `/`. */
  lemma StemRelative(name: string)
    requires !StartsWith(Lower(name), "/")
    ensures (NameStem(Some(name)).value + ".yml")[0] != '/'
  {
    var stem := NameStem(Some(name)).value;
    if stem != [] {
      assert Lower(name)[0] != '/';
      assert (stem + ".yml")[0] == stem[0];
    }
  }

  /** A path component that is neither empty nor absolute and does not end in `/`. */
  predicate RelativeComponent(c: string) {
    c != "" && c[0] != '/' && c[|c| - 1] != '/'
  }

  /** The payload's directory, for relative platform and tactic components. */
  lemma PayloadDirLayout(dir: string, platform: string, tactic: string)
    requires dir != "" && !EndsWith(dir, "/")
    requires RelativeComponent(platform) && RelativeComponent(tactic)
    ensures PathJoin(PathJoin(dir, platform), tactic) == dir + "/" + platform + "/" + tactic
  {
    JoinRelative(dir, platform);
    JoinRelative(dir + "/" + platform, tactic);
  }

  /** Joining a relative, non-empty component to a directory that does not end in `/`. */
  lemma JoinRelative(a: string, b: string)
    requires a != "" && !EndsWith(a, "/") && b != [] && b[0] != '/'
    ensures PathJoin(a, b) == a + "/" + b
    ensures b[|b| - 1] != '/' ==> !EndsWith(a + "/" + b, "/")
  {
    assert !StartsWith(b, "/");
    var r := a + "/" + b;
    assert r[|r| - 1] == b[|b| - 1];
  }

  /**
   * A name that lower-cases to an absolute path puts the YAML file there,
   * whatever the payloads directory: `os.path.join` drops every earlier
   * component.
   */
  lemma YamlPathAbsoluteName(payloadsDir: string, p: PayloadRecord)
    requires p.name.Some? && StartsWith(Lower(p.name.value), "/")
    ensures YamlPath(payloadsDir, p) == Ok(NameStem(p.name).value + ".yml")
  {
    var stem := NameStem(p.name).value;
    assert stem[0] == '/';
    assert StartsWith(stem + ".yml", "/");
  }

  /** The last component of a path: what follows its last `/`. */
  function Basename(p: string): (r: string)
    ensures '/' !in r && EndsWith(p, r)
  {
    if p == [] || p[|p| - 1] == '/' then []
    else Basename(p[..|p| - 1]) + [p[|p| - 1]]
  }

  /** The position of the last `.` in `s`. */
  function LastDot(s: string): (r: Option<nat>)
    ensures r.Some? ==> r.value < |s| && s[r.value] == '.' && '.' !in s[r.value + 1..]
    ensures r.None? ==> '.' !in s
  {
    if s == [] then None
    else if s[|s| - 1] == '.' then Some(|s| - 1)
    else
      var r := LastDot(s[..|s| - 1]);
      assert r.Some? ==> s[r.value + 1..] == s[..|s| - 1][r.value + 1..] + [s[|s| - 1]];
      r
  }

  /**
   * `os.path.splitext(p)[1]`: from the last `.` of the last component,
   * unless only dots precede it there (a leading-dot name has no extension).
   */
  function Extension(p: string): string {
    BaseExtension(Basename(p))
  }

  /** The extension of a last path component. */
  function BaseExtension(base: string): string {
    match LastDot(base)
    case None => ""
    case Some(d) => if exists j :: 0 <= j < d && base[j] != '.' then base[d..] else ""
  }

  /** `os.path.splitext(file_path)[1][1:].lower()`: the file type `create_payload` infers. */
  function InferredFileType(path: string): string {
    ExtensionType(Extension(path))
  }

  function ExtensionType(e: string): string {
    if e == [] then "" else Lower(e[1..])
  }

  lemma BasenameJoin(a: string, b: string)
    requires '/' !in b
    ensures Basename(PathJoin(a, b)) == b
  {
    var r := PathJoin(a, b);
    assert EndsWith(r, b);
    BasenameSuffix(r, b);
  }

  lemma {:induction false} BasenameSuffix(r: string, b: string)
    requires '/' !in b && EndsWith(r, b)
    requires |r| > |b| ==> r[|r| - |b| - 1] == '/'
    ensures Basename(r) == b
    decreases |b|
  {
    if b != [] {
      var r' := r[..|r| - 1];
      var b' := b[..|b| - 1];
      assert b[|b| - 1] == r[|r| - 1];
      assert EndsWith(r', b') by { assert r'[|r'| - |b'|..] == r[|r| - |b|..][..|b| - 1]; }
      assert '/' !in b' by { assert forall c :: c in b' ==> c in b; }
      if |r'| > |b'| {
        assert r'[|r'| - |b'| - 1] == r[|r| - |b| - 1];
      }
      BasenameSuffix(r', b');
    }
  }

  /**
   * The file type inferred for an uploaded artifact whose payload has no
   * file type is always `bin`, the extension `_save_payload_file` itself
   * chose, as long as the name's stem holds no `/` and is not made only of
   * dots; a stem of only dots, such as the empty one, infers `''`.
   */
  lemma InferredTypeOfDefaultArtifact(payloadsDir: string, p: PayloadRecord)
    requires !TruthyStr(p.fileType) && p.name.Some?
    requires '/' !in NameStem(p.name).value
    ensures var stem := NameStem(p.name).value;
      && ArtifactPath(payloadsDir, p).Ok?
      && ((exists j :: 0 <= j < |stem| && stem[j] != '.') ==> InferredFileType(ArtifactPath(payloadsDir, p).value) == "bin")
      && ((forall j :: 0 <= j < |stem| ==> stem[j] == '.') ==> InferredFileType(ArtifactPath(payloadsDir, p).value) == "")
  {
    DefaultArtifactPath(payloadsDir, p);
    BinFileType(PayloadDir(payloadsDir, p.platforms, p.tactics), NameStem(p.name).value);
  }

  /** The file type inferred for `<dir>/<stem>.bin`. */
  lemma BinFileType(dir: string, stem: string)
    requires '/' !in stem
    ensures (exists j :: 0 <= j < |stem| && stem[j] != '.') ==> InferredFileType(PathJoin(dir, stem + ".bin")) == "bin"
    ensures (forall j :: 0 <= j < |stem| ==> stem[j] == '.') ==> InferredFileType(PathJoin(dir, stem + ".bin")) == ""
  {
    var file := stem + ".bin";
    assert '/' !in file;
    BasenameJoin(dir, file);
    ExtensionOfBin(stem);
    ExtensionTypes();
  }

  lemma ExtensionTypes()
    ensures ExtensionType(".bin") == "bin" && ExtensionType("") == ""
  {
    assert ".bin"[1..] == "bin";
  }

  /** Without a file type, the artifact is `<stem>.bin` in the payload's directory. */
  lemma DefaultArtifactPath(payloadsDir: string, p: PayloadRecord)
    requires !TruthyStr(p.fileType) && p.name.Some?
    ensures ArtifactPath(payloadsDir, p)
      == Ok(PathJoin(PayloadDir(payloadsDir, p.platforms, p.tactics), NameStem(p.name).value + ".bin"))
  {
    assert NameStem(p.name).value + "." + "bin" == NameStem(p.name).value + ".bin";
  }


  /** The extension of `<stem>.bin` for a stem with no `/`. */
  lemma ExtensionOfBin(stem: string)
    ensures var file := stem + ".bin";
      && ((exists j :: 0 <= j < |stem| && stem[j] != '.') ==> BaseExtension(file) == ".bin")
      && ((forall j :: 0 <= j < |stem| ==> stem[j] == '.') ==> BaseExtension(file) == "")
  {
    var file := stem + ".bin";
    assert LastDot(file) == Some(|stem|) by {
      assert file[|stem|] == '.';
      assert file[|stem| + 1..] == "bin";
    }
    if exists j :: 0 <= j < |stem| && stem[j] != '.' {
      var j :| 0 <= j < |stem| && stem[j] != '.';
      assert file[j] != '.';
      assert file[|stem|..] == ".bin";
    } else {
      assert forall j :: 0 <= j < |stem| ==> file[j] == '.';
    }
  }

  // ----- create_payload -----

  /** The fields `create_payload` requires, in the order it checks them. */
  const CreateRequired: seq<string> := ["name", "description", "tactics", "platforms", "threat_level"]

  /**
   * The required-field loop of `create_payload`: the first required field
   * whose value is absent or falsy, which the method raises on, or none.
   */
  method CheckRequired(data: map<string, Value>) returns (missing: Option<string>)
    ensures missing.None? <==> forall k :: k in CreateRequired ==> Truthy(Get(data, k))
    ensures missing.Some? ==>
      exists i :: (0 <= i < |CreateRequired| && missing.value == CreateRequired[i]
        && !Truthy(Get(data, CreateRequired[i]))
        && forall j :: 0 <= j < i ==> Truthy(Get(data, CreateRequired[j])))
  {
    var i := 0;
    while i < |CreateRequired|
      invariant 0 <= i <= |CreateRequired|
      invariant forall j :: 0 <= j < i ==> Truthy(Get(data, CreateRequired[j]))
    {
      if !Truthy(Get(data, CreateRequired[i])) {
        return Some(CreateRequired[i]);
      }
      i := i + 1;
    }
    return None;
  }
  // ----- get_payloads -----

  /** The filters `get_payloads` receives; `None` is a key that is not in the dict. */
  datatype PayloadFilters = PayloadFilters(
    platforms: Option<seq<string>>,
    tactics: Option<seq<string>>,
    threatLevel: Option<string>,
    search: Option<string>)

  /** `if filters:`: the dict has some key. */
  predicate AnyFilter(f: PayloadFilters) {
    f.platforms.Some? || f.tactics.Some? || f.threatLevel.Some? || f.search.Some?
  }

  /** `key in filters and filters[key]` for a list-valued filter. */
  predicate ListActive(x: Option<seq<string>>) { x.Some? && x.value != [] }

  /** Some wanted value is listed: `any(v in listed for v in wanted)`. */
  predicate AnyIn(wanted: seq<string>, listed: seq<string>) {
    exists v :: v in wanted && v in listed
  }

  /**
   * Whether `get_payloads` keeps the payload `p`: every active filter must
   * hold, platforms and tactics matching when any wanted value is listed
   * (OR within a filter, AND across filters). Every active check runs, so
   * an active search raises on a payload without a name, or without a
   * description when the name does not contain the search term, even when
   * an earlier check has already rejected the payload.
   */
  function Matches(p: PayloadRecord, f: PayloadFilters): Outcome<bool> {
    var platformsOk := !ListActive(f.platforms) || AnyIn(f.platforms.value, p.platforms);
    var tacticsOk := !ListActive(f.tactics) || AnyIn(f.tactics.value, p.tactics);
    var levelOk := !TruthyStr(f.threatLevel) || p.threatLevel == f.threatLevel;
    if !TruthyStr(f.search) then Ok(platformsOk && tacticsOk && levelOk)
    else
      var term := Lower(f.search.value);
      match p.name
      case None => Fault
      case Some(n) =>
        if Contains(Lower(n), term) then Ok(platformsOk && tacticsOk && levelOk)
        else
          match p.description
          case None => Fault
          case Some(d) => Ok(platformsOk && tacticsOk && levelOk && Contains(Lower(d), term))
  }

  /** The payloads of `ps` that `Matches` keeps, in list order, or `Fault` when a check raises. */
  function FilterSpec(ps: seq<Payload>, f: PayloadFilters): Outcome<seq<Payload>>
    reads ps
  {
    if ps == [] then Ok([])
    else
      match FilterSpec(ps[..|ps| - 1], f)
      case Fault => Fault
      case Ok(kept) =>
        match Matches(ps[|ps| - 1].Record(), f)
        case Fault => Fault
        case Ok(m) => Ok(if m then kept + [ps[|ps| - 1]] else kept)
  }

  /**
   * The filtered list holds exactly the listed payloads that every active
   * filter accepts, as an order-preserving sub-list of the list.
   */
  lemma {:induction false} FilterSpecMeaning(ps: seq<Payload>, f: PayloadFilters)
    ensures FilterSpec(ps, f).Ok? <==> forall i :: 0 <= i < |ps| ==> Matches(ps[i].Record(), f).Ok?
    ensures FilterSpec(ps, f).Ok? ==>
      && |FilterSpec(ps, f).value| <= |ps|
      && IsSublist(FilterSpec(ps, f).value, ps)
      && forall x :: x in FilterSpec(ps, f).value <==> x in ps && Matches(x.Record(), f) == Ok(true)
    decreases |ps|
  {
    if FilterSpec(ps, f).Ok? {
      FilterSpecSublist(ps, f);
    }
    if ps != [] {
      var init := ps[..|ps| - 1];
      FilterSpecMeaning(init, f);
      assert forall x :: x in ps <==> x in init || x == ps[|ps| - 1];
      assert forall i :: 0 <= i < |init| ==> init[i] == ps[i];
    }
  }

  /** The filter keeps the order of the list. */
  lemma {:induction false} FilterSpecSublist(ps: seq<Payload>, f: PayloadFilters)
    requires FilterSpec(ps, f).Ok?
    ensures IsSublist(FilterSpec(ps, f).value, ps)
    decreases |ps|
  {
    if ps != [] {
      var init, last := ps[..|ps| - 1], ps[|ps| - 1];
      FilterSpecSublist(init, f);
      SublistSnoc(FilterSpec(init, f).value, init, last);
      assert init + [last] == ps;
    }
  }

  /**
   * A platform (or tactic) filter keeps a payload that lists any one of the
   * wanted values; a threat-level filter only an exact match; a search only
   * a payload whose lower-cased name or description contains the
   * lower-cased term. A payload that passes all active filters is kept.
   */
  lemma MatchesMeaning(p: PayloadRecord, f: PayloadFilters)
    ensures Matches(p, f) == Ok(true) <==>
      && (ListActive(f.platforms) ==> exists v :: v in f.platforms.value && v in p.platforms)
      && (ListActive(f.tactics) ==> exists v :: v in f.tactics.value && v in p.tactics)
      && (TruthyStr(f.threatLevel) ==> p.threatLevel == f.threatLevel)
      && (TruthyStr(f.search) ==>
            p.name.Some?
            && (Contains(Lower(p.name.value), Lower(f.search.value))
                || (p.description.Some? && Contains(Lower(p.description.value), Lower(f.search.value)))))
    ensures Matches(p, f).Fault? <==>
      TruthyStr(f.search) && (p.name.None? || (!Contains(Lower(p.name.value), Lower(f.search.value)) && p.description.None?))
  {
  }

  /**
   * `get_payloads(filters)`: every payload without filters; otherwise the
   * payloads the filter loop keeps, in order, or `[]` when a check raises
   * (the method catches the exception and returns an empty list).
   */
  method GetPayloads(ram: PayloadRam, f: PayloadFilters) returns (r: seq<Payload>)
    ensures !AnyFilter(f) ==> r == ram.payloads
    ensures AnyFilter(f) && FilterSpec(ram.payloads, f).Ok? ==> r == FilterSpec(ram.payloads, f).value
    ensures AnyFilter(f) && FilterSpec(ram.payloads, f).Fault? ==> r == []
  {
    var payloads := ram.payloads;
    if !AnyFilter(f) {
      return payloads;
    }
    var filtered: seq<Payload> := [];
    var i := 0;
    while i < |payloads|
      invariant 0 <= i <= |payloads|
      invariant FilterSpec(payloads[..i], f) == Ok(filtered)
    {
      assert payloads[..i + 1][..i] == payloads[..i];
      var p := payloads[i];
      var m := CheckPayload(p, f);
      if m.Fault? {
        FilterSpecFaultExtends(payloads, i, f);
        return [];
      }
      if m.value {
        filtered := filtered + [p];
      }
      i := i + 1;
    }
    assert payloads[..|payloads|] == payloads;
    r := filtered;
  }

  /** The checks of the filter loop on one payload: whether it is kept, or `Fault` where a check raises. */
  method CheckPayload(p: Payload, f: PayloadFilters) returns (r: Outcome<bool>)
    ensures r == Matches(p.Record(), f)
  {
    var match_ := true;
    if f.platforms.Some? && f.platforms.value != [] {
      if !(exists v :: v in f.platforms.value && v in p.platforms) {
        match_ := false;
      }
    }
    if f.tactics.Some? && f.tactics.value != [] {
      if !(exists v :: v in f.tactics.value && v in p.tactics) {
        match_ := false;
      }
    }
    if f.threatLevel.Some? && f.threatLevel.value != "" {
      if p.threatLevel != f.threatLevel {
        match_ := false;
      }
    }
    if f.search.Some? && f.search.value != "" {
      var term := Lower(f.search.value);
      if p.name.None? {
        return Fault;
      }
      if !Contains(Lower(p.name.value), term) {
        if p.description.None? {
          return Fault;
        }
        if !Contains(Lower(p.description.value), term) {
          match_ := false;
        }
      }
    }
    r := Ok(match_);
  }

  /** A payload whose check raises makes the whole filter raise. */
  lemma FilterSpecFaultExtends(ps: seq<Payload>, i: nat, f: PayloadFilters)
    requires i < |ps| && Matches(ps[i].Record(), f).Fault?
    ensures FilterSpec(ps, f).Fault?
  {
    FilterSpecMeaning(ps, f);
  }

  // ----- export_payloads -----

  /** `[p for p in payloads if p.payload_id in payload_ids]` when `payload_ids` is truthy. */
  function ExportSelection(ps: seq<Payload>, ids: seq<string>): (r: seq<Payload>)
    reads ps
    ensures |r| <= |ps|
    ensures ids == [] ==> r == ps
    ensures ids != [] ==> forall i :: 0 <= i < |r| ==> r[i] in ps && r[i].payloadId in ids
    ensures ids != [] ==> forall i :: 0 <= i < |ps| && ps[i].payloadId in ids ==> ps[i] in r
    ensures IsSublist(r, ps)
    decreases |ps|
  {
    if ids == [] then SublistRefl(ps); ps
    else if ps == [] then []
    else
      var rest := ExportSelection(ps[1..], ids);
      assert forall i :: 0 < i < |ps| ==> ps[i] == ps[1..][i - 1];
      if ps[0].payloadId in ids then assert ([ps[0]] + rest)[1..] == rest; [ps[0]] + rest else rest
  }

  /** The archive entry an exported payload's YAML goes to. */
  function ExportEntryName(id: string): string {
    "payloads/" + id + ".yml"
  }

  /** `data['id'] = data.pop('payload_id')`, which raises when there is no `payload_id`. */
  function ExportRename(data: map<string, Value>): (r: Outcome<map<string, Value>>)
    ensures r.Ok? <==> "payload_id" in data
    ensures r.Ok? ==> "payload_id" !in r.value && "id" in r.value && r.value["id"] == data["payload_id"]
  {
    if "payload_id" in data then Ok((data - {"payload_id"})["id" := data["payload_id"]]) else Fault
  }

  /**
   * The exported YAML reads back to the same attributes: the schema's
   * `fix_id` undoes the export's rename, and the export's rename undoes
   * `fix_id`.
   */
  lemma ExportThenFixId(data: map<string, Value>)
    ensures "payload_id" in data && "id" !in data ==> FixId(ExportRename(data).value) == data
    ensures "id" in data && "payload_id" !in data ==> ExportRename(FixId(data)) == Ok(data)
  {
    if "payload_id" in data && "id" !in data {
      var back := FixId(ExportRename(data).value);
      assert back.Keys == data.Keys;
      assert forall k :: k in back ==> back[k] == data[k];
    }
    if "id" in data && "payload_id" !in data {
      var fixed := FixId(data);
      assert "payload_id" in fixed;
      var back := ExportRename(fixed).value;
      assert back.Keys == data.Keys;
      assert forall k :: k in back ==> back[k] == data[k];
      assert back == data;
    }
  }

  // ----- _load_payload_from_yaml -----

  /**
   * The attributes `_load_payload_from_yaml` passes to `Payload(...)` for a
   * loaded YAML document: none for an empty or non-list document, or one
   * whose first entry is not a dict (the error is caught and logged);
   * otherwise the first entry with `id` renamed to `payload_id`, or with
   * `freshId` as its `payload_id` when it has neither key.
   */
  function LoadedAttributes(doc: Value, freshId: string): (r: Option<map<string, Value>>)
    ensures r.Some? <==> doc.List? && doc.elems != [] && doc.elems[0].Dict?
    ensures r.Some? ==> "payload_id" in r.value && "id" !in r.value
    ensures r.Some? && "id" in doc.elems[0].fields ==> r.value == FixId(doc.elems[0].fields)
    ensures r.Some? && "id" !in doc.elems[0].fields && "payload_id" in doc.elems[0].fields ==>
      r.value == doc.elems[0].fields
    ensures r.Some? && "id" !in doc.elems[0].fields && "payload_id" !in doc.elems[0].fields ==>
      r.value["payload_id"] == Str(freshId)
  {
    if !Truthy(doc) || !doc.List? then None
    else
      var first := doc.elems[0];
      if !first.Dict? then None
      else if "id" in first.fields then Some(FixId(first.fields))
      else if "payload_id" !in first.fields then Some(first.fields["payload_id" := Str(freshId)])
      else Some(first.fields)
  }
  // ----- building and updating payload objects -----

  /** A string-valued attribute as Python holds it: a string or `None`. */
  function TextOf(v: Value): Option<string> {
    if v.Str? then Some(v.s) else None
  }

  function IntOf(v: Value): Option<int> {
    if v.Int? then Some(v.i) else None
  }

  /** The strings of a list of strings. */
  function StringsOf(v: Value): seq<string>
    requires v.List?
  {
    seq(|v.elems|, i requires 0 <= i < |v.elems| => if v.elems[i].Str? then v.elems[i].s else "")
  }

  predicate TextShaped(v: Value) { v.Null? || v.Str? }

  predicate IntShaped(v: Value) { v.Null? || v.Int? }

  predicate ListShaped(v: Value) {
    v.Null? || (v.List? && forall x :: x in v.elems ==> x.Str?)
  }

  const TextAttributes: seq<string> :=
    ["name", "description", "md5", "file_type", "payload_file", "threat_level"]
  const ListAttributes: seq<string> :=
    ["tactics", "platforms", "cve_references", "apt_groups", "tags"]
  const IntAttributes: seq<string> := ["file_size", "created_date", "modified_date"]

  /** The attributes a `Payload` object has: `hasattr` holds for these keys. */
  const Attributes: seq<string> :=
    ["payload_id"] + TextAttributes + ListAttributes + IntAttributes + ["access", "plugin"]

  /** Properties without a setter: `hasattr` holds for these keys, but `setattr` raises. */
  const ReadOnlyAttributes: seq<string> := ["unique"]

  /** A key `hasattr` rejects, so that `update_payload` skips it. */
  predicate UnknownKey(key: string) {
    key !in Attributes && key !in ReadOnlyAttributes
  }

  /**
   * The keyword arguments of `Payload(**data)` have shapes the model's
   * attributes can hold: an id and a plugin are strings, texts are
   * strings or `None`, sizes and dates integers or `None`, lists lists of
   * strings or `None`. Other keys are swallowed by `**kwargs`.
   */
  predicate ArgsShaped(d: map<string, Value>) {
    && TextShaped(Get(d, "name")) && TextShaped(Get(d, "description")) && TextShaped(Get(d, "md5"))
    && TextShaped(Get(d, "file_type")) && TextShaped(Get(d, "payload_file")) && TextShaped(Get(d, "threat_level"))
    && IntShaped(Get(d, "file_size")) && IntShaped(Get(d, "created_date")) && IntShaped(Get(d, "modified_date"))
    && ListShaped(Get(d, "tactics")) && ListShaped(Get(d, "platforms")) && ListShaped(Get(d, "cve_references"))
    && ListShaped(Get(d, "apt_groups")) && ListShaped(Get(d, "tags"))
    && TextShaped(Get(d, "payload_id"))
    && ("plugin" in d ==> d["plugin"].Str?)
  }

  function ListArg(v: Value): Option<seq<string>> {
    if v.List? then Some(StringsOf(v)) else None
  }

  /** `Payload(**data)`'s arguments, or `Fault` for a value the model's attributes cannot hold. */
  function ArgsOf(d: map<string, Value>): (r: Outcome<PayloadArgs>)
    ensures r.Ok? <==> ArgsShaped(d)
    ensures r.Ok? ==> r.value.name == TextOf(Get(d, "name")) && r.value.threatLevel == TextOf(Get(d, "threat_level"))
  {
    if !ArgsShaped(d) then Fault
    else
      var id := Get(d, "payload_id");
      Ok(PayloadArgs(
        if id.Str? then id.s else "",
        TextOf(Get(d, "name")), TextOf(Get(d, "description")), TextOf(Get(d, "md5")),
        TextOf(Get(d, "file_type")), IntOf(Get(d, "file_size")), TextOf(Get(d, "payload_file")),
        ListArg(Get(d, "tactics")), TextOf(Get(d, "threat_level")), ListArg(Get(d, "platforms")),
        ListArg(Get(d, "cve_references")), ListArg(Get(d, "apt_groups")), ListArg(Get(d, "tags")),
        Get(d, "access"), if "plugin" in d then d["plugin"].s else "",
        IntOf(Get(d, "created_date")), IntOf(Get(d, "modified_date"))))
  }

  /**
   * `setattr(payload, key, value)` when `hasattr(payload, key)`; a key
   * that is not an attribute leaves the payload as it was, and the
   * setter-less property `unique` raises. A value of a
   * shape the attribute cannot hold in the model is `Fault`; a list
   * attribute cannot hold `None` here.
   */
  function WithAttr(p: PayloadRecord, key: string, v: Value): (r: Outcome<PayloadRecord>)
    ensures UnknownKey(key) ==> r == Ok(p)
    ensures key in ReadOnlyAttributes ==> r.Fault?
    ensures r.Ok? && key == "payload_id" ==> v.Str? && r.value.payloadId == v.s
    ensures r.Ok? && key != "payload_id" ==> r.value.payloadId == p.payloadId
  {
    if key in ReadOnlyAttributes then Fault
    else if key !in Attributes then Ok(p)
    else if key in TextAttributes then
      if !TextShaped(v) then Fault
      else if key == "name" then Ok(p.(name := TextOf(v)))
      else if key == "description" then Ok(p.(description := TextOf(v)))
      else if key == "md5" then Ok(p.(md5 := TextOf(v)))
      else if key == "file_type" then Ok(p.(fileType := TextOf(v)))
      else if key == "payload_file" then Ok(p.(payloadFile := TextOf(v)))
      else Ok(p.(threatLevel := TextOf(v)))
    else if key in ListAttributes then
      if !v.List? || !ListShaped(v) then Fault
      else if key == "tactics" then Ok(p.(tactics := StringsOf(v)))
      else if key == "platforms" then Ok(p.(platforms := StringsOf(v)))
      else if key == "cve_references" then Ok(p.(cveReferences := StringsOf(v)))
      else if key == "apt_groups" then Ok(p.(aptGroups := StringsOf(v)))
      else Ok(p.(tags := StringsOf(v)))
    else if key in IntAttributes then
      if !IntShaped(v) then Fault
      else if key == "file_size" then Ok(p.(fileSize := IntOf(v)))
      else if key == "created_date" then Ok(p.(createdDate := IntOf(v)))
      else Ok(p.(modifiedDate := IntOf(v)))
    else if key == "access" then Ok(p.(access := if v.Null? then None else Some(v)))
    else if key == "plugin" then (if v.Str? then Ok(p.(plugin := v.s)) else Fault)
    else if v.Str? then Ok(p.(payloadId := v.s)) else Fault
  }

  /** The `setattr` loop of `update_payload` over the items of `payload_data`, in order. */
  function ApplyPatch(p: PayloadRecord, patch: seq<(string, Value)>): Outcome<PayloadRecord>
    decreases |patch|
  {
    if patch == [] then Ok(p)
    else
      match ApplyPatch(p, patch[..|patch| - 1])
      case Fault => Fault
      case Ok(q) => WithAttr(q, patch[|patch| - 1].0, patch[|patch| - 1].1)
  }

  /** Keys that are not attributes of a payload are ignored: a patch of only such keys changes nothing. */
  lemma {:induction false} PatchIgnoresUnknownKeys(p: PayloadRecord, patch: seq<(string, Value)>)
    requires forall i :: 0 <= i < |patch| ==> UnknownKey(patch[i].0)
    ensures ApplyPatch(p, patch) == Ok(p)
    decreases |patch|
  {
    if patch != [] {
      PatchIgnoresUnknownKeys(p, patch[..|patch| - 1]);
    }
  }

  /** Adding an unknown key anywhere after a patch changes nothing more. */
  lemma PatchUnknownKeyAppended(p: PayloadRecord, patch: seq<(string, Value)>, key: string, v: Value)
    requires UnknownKey(key)
    ensures ApplyPatch(p, patch + [(key, v)]) == ApplyPatch(p, patch)
  {
    assert (patch + [(key, v)])[..|patch|] == patch;
  }

  /** What `calculate_md5` and `get_file_size` yield for a saved or found artifact (`None` on an I/O error). */
  datatype FileFacts = FileFacts(md5: Option<string>, size: Option<int>)

  /**
   * The attributes after an artifact is saved: its path, digest and size,
   * and a file type inferred from the path when the payload had none.
   * Raises when the name is `None`.
   */
  function WithUpload(payloadsDir: string, p: PayloadRecord, facts: FileFacts): (r: Outcome<PayloadRecord>)
    ensures r.Ok? <==> p.name.Some?
    ensures r.Ok? ==> r.value.payloadFile == Some(ArtifactPath(payloadsDir, p).value)
    ensures r.Ok? && TruthyStr(p.fileType) ==> r.value.fileType == p.fileType
  {
    match ArtifactPath(payloadsDir, p)
    case Fault => Fault
    case Ok(path) =>
      Ok(p.(payloadFile := Some(path), md5 := facts.md5, fileSize := facts.size,
            fileType := if TruthyStr(p.fileType) then p.fileType else Some(InferredFileType(path))))
  }

  /**
   * `_save_payload_file` and the assignments after it: the artifact's path,
   * digest and size, and a file type inferred from the path when the
   * payload has none. The path needs the name, so a payload without one
   * cannot get here.
   */
  method SaveUpload(p: Payload, payloadsDir: string, facts: FileFacts)
    requires p.name.Some?
    modifies p
    ensures WithUpload(payloadsDir, old(p.Record()), facts) == Ok(p.Record())
  {
    ghost var before := p.Record();
    var filePath := SavePayloadFile(p, payloadsDir);
    SetUploaded(p, filePath, facts);
    UploadedRecord(payloadsDir, before, facts, filePath, p.Record());
  }

  /** The assignments after `_save_payload_file`: path, digest, size, and a type inferred only when falsy. */
  method SetUploaded(p: Payload, filePath: string, facts: FileFacts)
    modifies p
    ensures p.Record() == old(p.Record()).(payloadFile := Some(filePath), md5 := facts.md5, fileSize := facts.size,
      fileType := if TruthyStr(old(p.fileType)) then old(p.fileType) else Some(InferredFileType(filePath)))
  {
    p.payloadFile := Some(filePath);
    p.md5 := facts.md5;
    p.fileSize := facts.size;
    if !TruthyStr(p.fileType) {
      p.fileType := Some(InferredFileType(filePath));
    }
  }

  /** A record that took the artifact's path, digest and size, and kept a truthy type or inferred one, is `WithUpload`'s. */
  lemma UploadedRecord(payloadsDir: string, before: PayloadRecord, facts: FileFacts, path: string, after: PayloadRecord)
    requires ArtifactPath(payloadsDir, before) == Ok(path)
    requires after == before.(payloadFile := Some(path), md5 := facts.md5, fileSize := facts.size,
                              fileType := if TruthyStr(before.fileType) then before.fileType else Some(InferredFileType(path)))
    ensures WithUpload(payloadsDir, before, facts) == Ok(after)
  {
  }

  /** `_save_payload_file(payload, file_data)`: the path the artifact is written to. */
  method SavePayloadFile(p: Payload, payloadsDir: string) returns (filePath: string)
    requires p.name.Some?
    ensures ArtifactPath(payloadsDir, p.Record()) == Ok(filePath)
  {
    filePath := ArtifactPath(payloadsDir, p.Record()).value;
  }

  /**
   * The record the located payload holds once `update_payload` has applied
   * a patch that raised nothing: the upload's attributes if there is one,
   * then the modification time. Saving an upload needs the name, so with a
   * `None` name the upload raises before the time is stamped.
   */
  function AfterUpdate(p: PayloadRecord, patch: seq<(string, Value)>, upload: Option<FileFacts>,
                       payloadsDir: string, now: int): PayloadRecord
    requires ApplyPatch(p, patch).Ok?
  {
    var q := ApplyPatch(p, patch).value;
    if upload.None? then q.(modifiedDate := Some(now))
    else
      match WithUpload(payloadsDir, q, upload.value)
      case Fault => q
      case Ok(u) => u.(modifiedDate := Some(now))
  }

  /**
   * What `update_payload` returns for the located payload: the record after
   * the patch, the upload and the time stamp, or a raise from the patch,
   * from saving the upload, or from `_save_payload_to_file`, whose YAML
   * path needs the name.
   */
  function UpdateSpec(p: PayloadRecord, patch: seq<(string, Value)>, upload: Option<FileFacts>,
                      payloadsDir: string, now: int): Outcome<PayloadRecord>
  {
    if ApplyPatch(p, patch).Fault? then Fault
    else
      var q := ApplyPatch(p, patch).value;
      if upload.Some? && q.name.None? then Fault
      else
        var u := AfterUpdate(p, patch, upload, payloadsDir, now);
        if YamlPath(payloadsDir, u).Fault? then Fault else Ok(u)
  }

  /**
   * An update raises exactly when the patch raises or leaves the payload
   * without a name. When it returns, the record carries the new
   * modification time, the patch's attributes and, with an upload, the
   * upload's path and file facts; the id, access and creation time are
   * those the patch left.
   */
  lemma UpdateSpecMeaning(p: PayloadRecord, patch: seq<(string, Value)>, upload: Option<FileFacts>,
                          payloadsDir: string, now: int)
    ensures UpdateSpec(p, patch, upload, payloadsDir, now).Ok? <==>
      ApplyPatch(p, patch).Ok? && ApplyPatch(p, patch).value.name.Some?
    ensures UpdateSpec(p, patch, upload, payloadsDir, now).Ok? ==>
      var q := ApplyPatch(p, patch).value;
      var r := UpdateSpec(p, patch, upload, payloadsDir, now).value;
      && r.modifiedDate == Some(now)
      && r.(modifiedDate := q.modifiedDate, payloadFile := q.payloadFile, md5 := q.md5, fileSize := q.fileSize,
            fileType := q.fileType) == q
      && (upload.None? ==> r == q.(modifiedDate := Some(now)))
      && (upload.Some? ==> r.payloadFile == Some(ArtifactPath(payloadsDir, q).value)
                           && r.md5 == upload.value.md5 && r.fileSize == upload.value.size)
    ensures ApplyPatch(p, patch).Ok? && ApplyPatch(p, patch).value.name.None? ==>
      var q := ApplyPatch(p, patch).value;
      && UpdateSpec(p, patch, upload, payloadsDir, now).Fault?
      && AfterUpdate(p, patch, upload, payloadsDir, now) == if upload.None? then q.(modifiedDate := Some(now)) else q
  {
    if ApplyPatch(p, patch).Ok? {
      var q := ApplyPatch(p, patch).value;
      if upload.Some? && q.name.Some? {
        assert WithUpload(payloadsDir, q, upload.value).Ok?;
      }
    }
  }

  /** Sets every attribute of `p` to those of `rec`. */
  method Assign(p: Payload, rec: PayloadRecord)
    modifies p
    ensures p.Record() == rec
  {
    AssignText(p, rec);
    AssignRest(p, rec);
  }

  method AssignText(p: Payload, rec: PayloadRecord)
    modifies p
    ensures p.Record() == old(p.Record()).(payloadId := rec.payloadId, name := rec.name, description := rec.description,
      md5 := rec.md5, fileType := rec.fileType, fileSize := rec.fileSize, payloadFile := rec.payloadFile)
  {
    p.payloadId := rec.payloadId;
    p.name := rec.name;
    p.description := rec.description;
    p.md5 := rec.md5;
    p.fileType := rec.fileType;
    p.fileSize := rec.fileSize;
    p.payloadFile := rec.payloadFile;
  }

  method AssignRest(p: Payload, rec: PayloadRecord)
    modifies p
    ensures p.Record() == old(p.Record()).(tactics := rec.tactics, threatLevel := rec.threatLevel,
      platforms := rec.platforms, cveReferences := rec.cveReferences, aptGroups := rec.aptGroups, tags := rec.tags,
      access := rec.access, plugin := rec.plugin, createdDate := rec.createdDate, modifiedDate := rec.modifiedDate)
  {
    p.tactics := rec.tactics;
    p.threatLevel := rec.threatLevel;
    p.platforms := rec.platforms;
    p.cveReferences := rec.cveReferences;
    p.aptGroups := rec.aptGroups;
    p.tags := rec.tags;
    p.access := rec.access;
    p.plugin := rec.plugin;
    p.createdDate := rec.createdDate;
    p.modifiedDate := rec.modifiedDate;
  }

  /**
   * `update_payload(payload_id, payload_data, file_data)`: raises for an id
   * that no stored payload has; otherwise sets, in order, each item whose
   * key is an attribute of the first payload with that id, saves the
   * upload if any, stamps the modification time and returns that payload.
   * No other payload changes.
   */
  method UpdatePayload(ram: PayloadRam, id: string, patch: seq<(string, Value)>, upload: Option<FileFacts>,
                       payloadsDir: string, now: int) returns (r: Outcome<Payload>)
    modifies ram.payloads
    ensures old(FindId(ram.payloads, id)).None? ==> r.Fault?
    ensures old(FindId(ram.payloads, id)).Some? ==>
      var p := old(ram.payloads[FindId(ram.payloads, id).value]);
      && (r.Ok? <==> UpdateSpec(old(p.Record()), patch, upload, payloadsDir, now).Ok?)
      && (r.Ok? ==> r.value == p && p.Record() == UpdateSpec(old(p.Record()), patch, upload, payloadsDir, now).value)
      && (ApplyPatch(old(p.Record()), patch).Ok? ==>
            p.Record() == AfterUpdate(old(p.Record()), patch, upload, payloadsDir, now))
      && (forall q :: q in old(ram.payloads) && q != p ==> q.Record() == old(q.Record()))
  {
    var found := FindId(ram.payloads, id);
    if found.None? {
      r := Fault;
      return;
    }
    var p := ram.payloads[found.value];
    r := UpdateObject(p, patch, upload, payloadsDir, now);
  }

  /** The changes `update_payload` makes to the payload it has located. */
  method UpdateObject(p: Payload, patch: seq<(string, Value)>, upload: Option<FileFacts>,
                      payloadsDir: string, now: int) returns (r: Outcome<Payload>)
    modifies p
    ensures r.Ok? <==> UpdateSpec(old(p.Record()), patch, upload, payloadsDir, now).Ok?
    ensures r.Ok? ==> r.value == p && p.Record() == UpdateSpec(old(p.Record()), patch, upload, payloadsDir, now).value
    ensures ApplyPatch(old(p.Record()), patch).Ok? ==>
      p.Record() == AfterUpdate(old(p.Record()), patch, upload, payloadsDir, now)
  {
    var ok := SetAttributes(p, patch);
    if !ok {
      return Fault;
    }
    if upload.Some? {
      if p.name.None? {
        return Fault;
      }
      SaveUpload(p, payloadsDir, upload.value);
    }
    p.modifiedDate := Some(now);
    var yamlFile := YamlPath(payloadsDir, p.Record());
    if yamlFile.Fault? {
      return Fault;
    }
    r := Ok(p);
  }

  /** The loop of `update_payload` that sets each item of the patch whose key is an attribute. */
  method SetAttributes(p: Payload, patch: seq<(string, Value)>) returns (ok: bool)
    modifies p
    ensures ok <==> ApplyPatch(old(p.Record()), patch).Ok?
    ensures ok ==> ApplyPatch(old(p.Record()), patch) == Ok(p.Record())
  {
    ghost var start := p.Record();
    var i := 0;
    while i < |patch|
      invariant 0 <= i <= |patch|
      invariant ApplyPatch(start, patch[..i]) == Ok(p.Record())
    {
      assert patch[..i + 1][..i] == patch[..i];
      var next := WithAttr(p.Record(), patch[i].0, patch[i].1);
      if next.Fault? {
        ApplyPatchFaultExtends(start, patch, i + 1);
        return false;
      }
      Assign(p, next.value);
      i := i + 1;
    }
    assert patch[..|patch|] == patch;
    ok := true;
  }

  /** A patch whose prefix raises raises as a whole. */
  lemma {:induction false} ApplyPatchFaultExtends(p: PayloadRecord, patch: seq<(string, Value)>, i: nat)
    requires i <= |patch| && ApplyPatch(p, patch[..i]).Fault?
    ensures ApplyPatch(p, patch).Fault?
    decreases |patch| - i
  {
    if i < |patch| {
      assert patch[..i + 1][..i] == patch[..i];
      ApplyPatchFaultExtends(p, patch, i + 1);
    } else {
      assert patch[..i] == patch;
    }
  }
  // ----- create_payload and _load_payload_from_yaml -----

  /** The arguments of `Payload()` called with none: what a ghost record holds before anything is built. */
  const NoArgs: PayloadArgs :=
    PayloadArgs("", None, None, None, None, None, None, None, None, None, None, None, None, Null, "", None, None)

  /** Every field `create_payload` requires is present and truthy. */
  predicate HasRequired(data: map<string, Value>) {
    forall k :: k in CreateRequired ==> Truthy(Get(data, k))
  }

  /**
   * The payload `create_payload` builds before storing it: the object
   * constructed from `data` (with `freshId` standing for the generated
   * uuid), the saved upload if any, and both dates set to `now`.
   */
  function CreatedRecord(data: map<string, Value>, upload: Option<FileFacts>, payloadsDir: string,
                         now: int, freshId: string): Outcome<PayloadRecord>
  {
    match ArgsOf(data)
    case Fault => Fault
    case Ok(a) => CreatedFrom(a, upload, payloadsDir, now, freshId)
  }

  /** The payload constructed from arguments already read off the data, with its upload saved and its dates set. */
  function CreatedFrom(a: PayloadArgs, upload: Option<FileFacts>, payloadsDir: string,
                       now: int, freshId: string): Outcome<PayloadRecord>
  {
    var p := Initial(a, freshId);
    var u := if upload.None? then Ok(p) else WithUpload(payloadsDir, p, upload.value);
    match u
    case Fault => Fault
    case Ok(q) => Ok(q.(createdDate := Some(now), modifiedDate := Some(now)))
  }

  /**
   * Once the required fields are there, building fails only on a value the
   * model cannot hold; the result is stamped with `now`, keeps the id given
   * (or takes the fresh one), and records where an upload was saved.
   */
  lemma CreatedRecordMeaning(data: map<string, Value>, upload: Option<FileFacts>, payloadsDir: string,
                             now: int, freshId: string)
    requires HasRequired(data)
    ensures CreatedRecord(data, upload, payloadsDir, now, freshId).Ok? <==> ArgsShaped(data)
    ensures var c := CreatedRecord(data, upload, payloadsDir, now, freshId);
      c.Ok? ==>
        && c.value.createdDate == Some(now) && c.value.modifiedDate == Some(now)
        && c.value.name.Some? && c.value.name.value != ""
        && c.value.payloadId == (if Get(data, "payload_id").Str? && Get(data, "payload_id").s != ""
                                 then Get(data, "payload_id").s else freshId)
        && (upload.Some? ==> c.value.payloadFile.Some? && c.value.md5 == upload.value.md5)
  {
    assert "name" in CreateRequired;
  }

  /**
   * `create_payload(payload_data, file_data)`: raises when a required field
   * is missing or falsy, before anything changes; otherwise builds the
   * payload and stores it by `Payload.store`, which either appends it
   * (renamed on a name collision) or merges it into the payload that
   * already has its id. No other payload changes.
   */
  method CreatePayload(ram: PayloadRam, data: map<string, Value>, upload: Option<FileFacts>, payloadsDir: string,
                       now: int, freshId: string, rule: UpdateRule) returns (r: Outcome<Payload>, ghost c: PayloadRecord)
    modifies ram, ram.payloads
    ensures !HasRequired(data) ==> r.Fault? && ram.payloads == old(ram.payloads)
    ensures HasRequired(data) ==> (r.Ok? <==> CreatedRecord(data, upload, payloadsDir, now, freshId).Ok?)
    ensures r.Fault? ==> ram.payloads == old(ram.payloads)
    ensures r.Ok? ==> CreatedRecord(data, upload, payloadsDir, now, freshId) == Ok(c) && c.name.Some?
    ensures r.Ok? ==>
      if old(FindId(ram.payloads, c.payloadId)).None? then
        && fresh(r.value)
        && ram.payloads == old(ram.payloads) + [r.value]
        && r.value.Record() == c.(name := if old(NameTaken(ram.payloads, c.name)) && c.name.Some? then Some(c.name.value + " (2)") else c.name)
      else
        && r.value == old(ram.payloads[FindId(ram.payloads, c.payloadId).value])
        && ram.payloads == old(ram.payloads)
        && r.value.Record() == Merge(old(r.value.Record()), c, rule)
    ensures forall q :: q in old(ram.payloads) && (r.Fault? || q != r.value) ==> q.Record() == old(q.Record())
  {
    c := Initial(NoArgs, freshId);
    var built := BuildPayload(data, upload, payloadsDir, now, freshId);
    if built.Fault? {
      r := Fault;
      return;
    }
    var p := built.value;
    c := p.Record();
    assert ram.payloads == old(ram.payloads);
    assert FindId(ram.payloads, c.payloadId) == old(FindId(ram.payloads, c.payloadId));
    assert NameTaken(ram.payloads, c.name) == old(NameTaken(ram.payloads, c.name));
    r := StoreBuilt(ram, p, c, rule);
  }

  /** The object `create_payload` constructs, before it is stored, or `Fault` where it raises first. */
  method BuildPayload(data: map<string, Value>, upload: Option<FileFacts>, payloadsDir: string,
                      now: int, freshId: string) returns (built: Outcome<Payload>)
    ensures !HasRequired(data) ==> built.Fault?
    ensures HasRequired(data) ==> (built.Ok? <==> CreatedRecord(data, upload, payloadsDir, now, freshId).Ok?)
    ensures built.Ok? ==>
      && fresh(built.value) && built.value.name.Some?
      && CreatedRecord(data, upload, payloadsDir, now, freshId) == Ok(built.value.Record())
  {
    var missing := CheckRequired(data);
    if missing.Some? {
      return Fault;
    }
    if !ArgsShaped(data) {
      CreatedRecordMeaning(data, upload, payloadsDir, now, freshId);
      return Fault;
    }
    var p := Construct(data, upload, payloadsDir, now, freshId);
    built := Ok(p);
  }

  /** Constructing, saving the upload and stamping the dates, for data that passes the checks. */
  method Construct(data: map<string, Value>, upload: Option<FileFacts>, payloadsDir: string,
                   now: int, freshId: string) returns (p: Payload)
    requires HasRequired(data) && ArgsShaped(data)
    ensures fresh(p) && p.name.Some? && CreatedRecord(data, upload, payloadsDir, now, freshId) == Ok(p.Record())
  {
    CreatedRecordMeaning(data, upload, payloadsDir, now, freshId);
    var args := ArgsOf(data);
    assert CreatedFrom(args.value, upload, payloadsDir, now, freshId).Ok?;
    p := ConstructFrom(args.value, upload, payloadsDir, now, freshId);
  }

  method ConstructFrom(a: PayloadArgs, upload: Option<FileFacts>, payloadsDir: string,
                       now: int, freshId: string) returns (p: Payload)
    requires CreatedFrom(a, upload, payloadsDir, now, freshId).Ok?
    ensures fresh(p) && CreatedFrom(a, upload, payloadsDir, now, freshId) == Ok(p.Record())
  {
    p := new Payload(a, freshId);
    if upload.Some? {
      SaveUpload(p, payloadsDir, upload.value);
    }
    p.createdDate := Some(now);
    p.modifiedDate := Some(now);
  }

  /**
   * The payload `_load_payload_from_yaml` builds from a loaded document:
   * the object constructed from `LoadedAttributes`, with the digest and
   * size of its artifact filled in where they are falsy and the file
   * exists (`found` holds what `calculate_md5` and `get_file_size` yield,
   * or `None` when `os.path.exists` is false). `None` when nothing is built.
   */
  function LoadedRecord(doc: Value, found: Option<FileFacts>, freshId: string): Option<PayloadRecord>
  {
    match LoadedAttributes(doc, freshId)
    case None => None
    case Some(attrs) =>
      match ArgsOf(attrs)
      case Fault => None
      case Ok(a) => Some(LoadedFrom(a, found, freshId))
  }

  /** The payload constructed from the loaded arguments, with the artifact's digest and size filled in. */
  function LoadedFrom(a: PayloadArgs, found: Option<FileFacts>, freshId: string): PayloadRecord {
    var p := Initial(a, freshId);
    if !TruthyStr(p.payloadFile) || found.None? then p
    else
      p.(md5 := if TruthyStr(p.md5) then p.md5 else found.value.md5,
         fileSize := if TruthyInt(p.fileSize) then p.fileSize else found.value.size)
  }

  /**
   * A document loads exactly when it is a non-empty list whose first entry
   * is a dict the model's attributes can hold. A truthy digest or size in
   * the document is kept; the artifact's are used only when it has a
   * truthy path and the file exists.
   */
  lemma LoadedRecordMeaning(doc: Value, found: Option<FileFacts>, freshId: string)
    ensures LoadedRecord(doc, found, freshId).Some? <==>
      LoadedAttributes(doc, freshId).Some? && ArgsShaped(LoadedAttributes(doc, freshId).value)
    ensures LoadedRecord(doc, found, freshId).Some? ==>
      var a := ArgsOf(LoadedAttributes(doc, freshId).value).value;
      var r := LoadedRecord(doc, found, freshId).value;
      && r.name == a.name && r.payloadFile == a.payloadFile
      && (TruthyStr(a.md5) ==> r.md5 == a.md5)
      && (TruthyInt(a.fileSize) ==> r.fileSize == a.fileSize)
      && (!TruthyStr(a.payloadFile) || found.None? ==> r == Initial(a, freshId))
      && (TruthyStr(a.payloadFile) && found.Some? && !TruthyStr(a.md5) ==> r.md5 == found.value.md5)
  {
  }

  /**
   * `_load_payload_from_yaml` on a parsed document: stores the built
   * payload by `Payload.store` and yields it, or stores nothing when no
   * payload can be built or `store` raises (the error is logged). No other
   * payload changes.
   */
  method LoadPayloadFromYaml(ram: PayloadRam, doc: Value, found: Option<FileFacts>, freshId: string,
                             rule: UpdateRule) returns (stored: Option<Payload>, ghost c: PayloadRecord)
    modifies ram, ram.payloads
    ensures LoadedRecord(doc, found, freshId).None? ==> stored.None?
    ensures stored.None? ==> ram.payloads == old(ram.payloads)
    ensures stored.Some? ==> LoadedRecord(doc, found, freshId) == Some(c)
    ensures stored.Some? ==>
      if old(FindId(ram.payloads, c.payloadId)).None? then
        && fresh(stored.value)
        && ram.payloads == old(ram.payloads) + [stored.value]
        && stored.value.Record() == c.(name := if old(NameTaken(ram.payloads, c.name)) && c.name.Some? then Some(c.name.value + " (2)") else c.name)
      else
        && stored.value == old(ram.payloads[FindId(ram.payloads, c.payloadId).value])
        && ram.payloads == old(ram.payloads)
        && stored.value.Record() == Merge(old(stored.value.Record()), c, rule)
    ensures forall q :: q in old(ram.payloads) && (stored.None? || q != stored.value) ==> q.Record() == old(q.Record())
  {
    c := Initial(NoArgs, freshId);
    var built := BuildLoaded(doc, found, freshId);
    if built.None? {
      stored := None;
      return;
    }
    var p := built.value;
    c := p.Record();
    var r := StoreBuilt(ram, p, c, rule);
    stored := if r.Ok? then Some(r.value) else None;
  }
  /** `payload.store(ram)` for a payload just built with attributes `c`, stated in terms of `c`. */
  method StoreBuilt(ram: PayloadRam, p: Payload, ghost c: PayloadRecord, rule: UpdateRule) returns (r: Outcome<Payload>)
    requires p.Record() == c
    modifies p, ram, ram.payloads
    ensures r.Fault? <==> old(FindId(ram.payloads, c.payloadId)).None? && old(NameTaken(ram.payloads, c.name)) && c.name.None?
    ensures r.Fault? ==> ram.payloads == old(ram.payloads)
    ensures r.Ok? ==>
      if old(FindId(ram.payloads, c.payloadId)).None? then
        && r.value == p
        && ram.payloads == old(ram.payloads) + [r.value]
        && r.value.Record() == c.(name := if old(NameTaken(ram.payloads, c.name)) && c.name.Some? then Some(c.name.value + " (2)") else c.name)
      else
        && r.value == old(ram.payloads[FindId(ram.payloads, c.payloadId).value])
        && ram.payloads == old(ram.payloads)
        && r.value.Record() == Merge(old(r.value.Record()), c, rule)
    ensures forall q :: q in old(ram.payloads) && (r.Fault? || q != r.value) ==> q.Record() == old(q.Record())
  {
    assert c.payloadId == p.payloadId && c.name == p.name;
    r := p.Store(ram, rule);
  }
  /** The object `_load_payload_from_yaml` constructs, before it is stored. */
  method BuildLoaded(doc: Value, found: Option<FileFacts>, freshId: string) returns (built: Option<Payload>)
    ensures built.None? <==> LoadedRecord(doc, found, freshId).None?
    ensures built.Some? ==> fresh(built.value) && LoadedRecord(doc, found, freshId) == Some(built.value.Record())
  {
    var attrs := LoadedAttributes(doc, freshId);
    if attrs.None? {
      return None;
    }
    var args := ArgsOf(attrs.value);
    if args.Fault? {
      return None;
    }
    var p := ConstructLoaded(args.value, found, freshId);
    built := Some(p);
  }

  method ConstructLoaded(a: PayloadArgs, found: Option<FileFacts>, freshId: string) returns (p: Payload)
    ensures fresh(p) && p.Record() == LoadedFrom(a, found, freshId)
  {
    p := new Payload(a, freshId);
    if TruthyStr(p.payloadFile) && found.Some? {
      if !TruthyStr(p.md5) {
        p.md5 := found.value.md5;
      }
      if !TruthyInt(p.fileSize) {
        p.fileSize := found.value.size;
      }
    }
  }
}
