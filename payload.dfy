/**
 * The `Payload` object of the payloadmanager plugin: its constructor
 * defaults, `store` into the in-memory list `ram['payloads']` (with the
 * name-collision rename), the schema's `fix_id`, the enumeration validators
 * and the display lookups.
 *
 * `BaseObject.retrieve` and `BaseObject.update` belong to the host
 * framework, whose code is not part of this model: `retrieve` is taken to
 * return the first listed object whose `unique` equals the key, and the
 * behaviour of `update` is the parameter `UpdateRule`.
 */
module PayloadObject {
  import opened Wrappers
  import opened Strings
  import opened Values
  import Schemas

  const ThreatLevels: seq<string> := ["Low", "Medium", "High", "Critical"]
  const SupportedPlatforms: seq<string> := ["windows", "linux", "darwin"]
  const SupportedFileTypes: seq<string> :=
    ["exe", "dll", "ps1", "sh", "py", "bat", "cmd", "scr", "zip", "rar", "bin"]

  /** The tactic slugs that `get_tactic_display_name` knows. */
  const KnownTactics: seq<string> :=
    ["discovery", "execution", "persistence", "privilege-escalation", "defense-evasion",
     "credential-access", "collection", "command-and-control", "exfiltration", "impact",
     "lateral-movement"]

  /** The keyword arguments of `Payload(...)`; `None` stands for an argument left at `None`. */
  datatype PayloadArgs = PayloadArgs(
    payloadId: string,
    name: Option<string>,
    description: Option<string>,
    md5: Option<string>,
    fileType: Option<string>,
    fileSize: Option<int>,
    payloadFile: Option<string>,
    tactics: Option<seq<string>>,
    threatLevel: Option<string>,
    platforms: Option<seq<string>>,
    cveReferences: Option<seq<string>>,
    aptGroups: Option<seq<string>>,
    tags: Option<seq<string>>,
    access: Value,
    plugin: string,
    createdDate: Option<int>,
    modifiedDate: Option<int>)

  /** The attributes of a `Payload` object, as a value. Dates are timestamps. */
  datatype PayloadRecord = PayloadRecord(
    payloadId: string,
    name: Option<string>,
    description: Option<string>,
    md5: Option<string>,
    fileType: Option<string>,
    fileSize: Option<int>,
    payloadFile: Option<string>,
    tactics: seq<string>,
    threatLevel: Option<string>,
    platforms: seq<string>,
    cveReferences: seq<string>,
    aptGroups: seq<string>,
    tags: seq<string>,
    access: Option<Value>,
    plugin: string,
    createdDate: Option<int>,
    modifiedDate: Option<int>)

  /** `x if x else []` for a list argument. */
  function ListOrEmpty(x: Option<seq<string>>): seq<string> {
    if x.Some? then x.value else []
  }

  /**
   * The attributes `Payload.__init__` sets from `args`, with `freshId`
   * standing for `str(uuid.uuid4())`.
   */
  function Initial(args: PayloadArgs, freshId: string): (r: PayloadRecord) {
    PayloadRecord(
      if args.payloadId != "" then args.payloadId else freshId,
      args.name, args.description, args.md5, args.fileType, args.fileSize, args.payloadFile,
      ListOrEmpty(args.tactics), args.threatLevel, ListOrEmpty(args.platforms),
      ListOrEmpty(args.cveReferences), ListOrEmpty(args.aptGroups), ListOrEmpty(args.tags),
      if Truthy(args.access) then Some(args.access) else None,
      args.plugin, args.createdDate, args.modifiedDate)
  }

  /**
   * A new payload always has an id: the given one when it is not empty, the
   * fresh one otherwise. Its lists are the given lists, or empty for an
   * absent or empty one; every other attribute is the argument itself.
   */
  lemma InitialDefaults(args: PayloadArgs, freshId: string)
    requires freshId != ""
    ensures var r := Initial(args, freshId);
      && r.payloadId != ""
      && (args.payloadId != "" ==> r.payloadId == args.payloadId)
      && (args.payloadId == "" ==> r.payloadId == freshId)
      && (args.tactics.None? ==> r.tactics == []) && (args.tactics.Some? ==> r.tactics == args.tactics.value)
      && (args.platforms.None? ==> r.platforms == []) && (args.platforms.Some? ==> r.platforms == args.platforms.value)
      && (args.cveReferences.None? ==> r.cveReferences == [])
      && (args.aptGroups.None? ==> r.aptGroups == [])
      && (args.tags.None? ==> r.tags == [])
      && r.name == args.name && r.threatLevel == args.threatLevel && r.plugin == args.plugin
      && (r.access.Some? <==> Truthy(args.access))
  {
  }

  /**
   * How `BaseObject.update(field, value)` treats the value it is given:
   * `Overwrite` always assigns it; `SkipFalsy` assigns it only when it is
   * truthy or a list (the behaviour of the host framework's `update`).
   */
  datatype UpdateRule = Overwrite | SkipFalsy

  /** The field after `update`, given whether the new value is truthy or a list. */
  function Updated<T>(rule: UpdateRule, current: T, given: T, assigns: bool): T {
    if rule.Overwrite? || assigns then given else current
  }

  predicate TruthyStr(x: Option<string>) { x.Some? && x.value != "" }

  predicate TruthyInt(x: Option<int>) { x.Some? && x.value != 0 }

  /**
   * The attributes of the stored payload `cur` after `store` copies the
   * fields of the new object `given` into it, one `update` per field. The
   * id, the access and the creation date are not copied; lists always count
   * as assignable and a timestamp is always truthy.
   */
  function Merge(cur: PayloadRecord, given: PayloadRecord, rule: UpdateRule): (r: PayloadRecord)
    ensures r.payloadId == cur.payloadId && r.access == cur.access && r.createdDate == cur.createdDate
  {
    MergeRest(MergeText(cur, given, rule), given, rule)
  }

  /** The first half of `Merge`: the text attributes and the file size. */
  function MergeText(cur: PayloadRecord, given: PayloadRecord, rule: UpdateRule): PayloadRecord {
    cur.(
      name := Updated(rule, cur.name, given.name, TruthyStr(given.name)),
      description := Updated(rule, cur.description, given.description, TruthyStr(given.description)),
      md5 := Updated(rule, cur.md5, given.md5, TruthyStr(given.md5)),
      fileType := Updated(rule, cur.fileType, given.fileType, TruthyStr(given.fileType)),
      fileSize := Updated(rule, cur.fileSize, given.fileSize, TruthyInt(given.fileSize)),
      payloadFile := Updated(rule, cur.payloadFile, given.payloadFile, TruthyStr(given.payloadFile)))
  }

  /** The second half of `Merge`: the lists, the threat level, the plugin and the modification date. */
  function MergeRest(cur: PayloadRecord, given: PayloadRecord, rule: UpdateRule): PayloadRecord {
    cur.(
      tactics := given.tactics,
      threatLevel := Updated(rule, cur.threatLevel, given.threatLevel, TruthyStr(given.threatLevel)),
      platforms := given.platforms,
      cveReferences := given.cveReferences,
      aptGroups := given.aptGroups,
      tags := given.tags,
      plugin := Updated(rule, cur.plugin, given.plugin, given.plugin != ""),
      modifiedDate := Updated(rule, cur.modifiedDate, given.modifiedDate, given.modifiedDate.Some?))
  }

  /** Storing an object over itself changes nothing, whatever `update` does. */
  lemma MergeSelf(x: PayloadRecord, rule: UpdateRule)
    ensures Merge(x, x, rule) == x
  {
  }

  /**
   * When `update` always assigns, the stored payload takes every attribute
   * of the new one except its id, access and creation date.
   */
  lemma MergeOverwrite(cur: PayloadRecord, given: PayloadRecord)
    ensures Merge(cur, given, Overwrite) ==
      given.(payloadId := cur.payloadId, access := cur.access, createdDate := cur.createdDate)
  {
  }

  /**
   * When `update` skips falsy values, a stored attribute is only ever
   * replaced by a truthy value: an empty name or description in the new
   * object keeps the stored one, while its lists always replace the
   * stored lists, empty or not.
   */
  lemma MergeSkipFalsy(cur: PayloadRecord, given: PayloadRecord)
    ensures var r := Merge(cur, given, SkipFalsy);
      && (TruthyStr(given.name) ==> r.name == given.name)
      && (!TruthyStr(given.name) ==> r.name == cur.name)
      && (!TruthyStr(given.description) ==> r.description == cur.description)
      && (!TruthyStr(given.threatLevel) ==> r.threatLevel == cur.threatLevel)
      && r.tactics == given.tactics && r.platforms == given.platforms && r.tags == given.tags
  {
  }

  /** `ram['payloads']`: the list the host framework keeps the stored payloads in. */
  class PayloadRam {
    var payloads: seq<Payload>

    constructor()
      ensures payloads == []
    {
      payloads := [];
    }
  }

  /**
   * The position `retrieve(ps, id)` finds: the first payload whose id is
   * `id`, or none.
   */
  function FindId(ps: seq<Payload>, id: string): (r: Option<nat>)
    reads ps
    ensures r.Some? ==> r.value < |ps| && ps[r.value].payloadId == id
    ensures r.Some? ==> forall j :: 0 <= j < r.value ==> ps[j].payloadId != id
    ensures r.None? ==> forall j :: 0 <= j < |ps| ==> ps[j].payloadId != id
    decreases |ps|
  {
    if ps == [] then None
    else if ps[0].payloadId == id then Some(0)
    else
      match FindId(ps[1..], id)
      case None => None
      case Some(i) => Some(i + 1)
  }

  /** Appending a payload with a new id makes it the one `retrieve` finds for that id. */
  lemma {:induction false} FindIdAppend(ps: seq<Payload>, p: Payload, id: string)
    requires FindId(ps, id).None? && p.payloadId == id
    ensures FindId(ps + [p], id) == Some(|ps|)
    decreases |ps|
  {
    if ps != [] {
      assert (ps + [p])[1..] == ps[1..] + [p];
      FindIdAppend(ps[1..], p, id);
    }
  }

  /** Some stored payload has the name `name` (`None` matching `None`). */
  predicate NameTaken(ps: seq<Payload>, name: Option<string>)
    reads ps
  {
    exists j :: 0 <= j < |ps| && ps[j].name == name
  }

  /** A payload object. */
  class Payload {
    var payloadId: string
    var name: Option<string>
    var description: Option<string>
    var md5: Option<string>
    var fileType: Option<string>
    var fileSize: Option<int>
    var payloadFile: Option<string>
    var tactics: seq<string>
    var threatLevel: Option<string>
    var platforms: seq<string>
    var cveReferences: seq<string>
    var aptGroups: seq<string>
    var tags: seq<string>
    var access: Option<Value>
    var plugin: string
    var createdDate: Option<int>
    var modifiedDate: Option<int>

    /** The object's attributes. */
    function Record(): PayloadRecord
      reads this
    {
      PayloadRecord(payloadId, name, description, md5, fileType, fileSize, payloadFile,
        tactics, threatLevel, platforms, cveReferences, aptGroups, tags, access, plugin,
        createdDate, modifiedDate)
    }

    /** `Payload(**args)`, with `freshId` standing for the uuid it would draw. */
    constructor(args: PayloadArgs, freshId: string)
      ensures Record() == Initial(args, freshId)
    {
      payloadId := if args.payloadId != "" then args.payloadId else freshId;
      name := args.name;
      description := args.description;
      md5 := args.md5;
      fileType := args.fileType;
      fileSize := args.fileSize;
      payloadFile := args.payloadFile;
      tactics := if args.tactics.Some? then args.tactics.value else [];
      threatLevel := args.threatLevel;
      platforms := if args.platforms.Some? then args.platforms.value else [];
      cveReferences := if args.cveReferences.Some? then args.cveReferences.value else [];
      aptGroups := if args.aptGroups.Some? then args.aptGroups.value else [];
      tags := if args.tags.Some? then args.tags.value else [];
      access := if Truthy(args.access) then Some(args.access) else None;
      plugin := args.plugin;
      createdDate := args.createdDate;
      modifiedDate := args.modifiedDate;
    }

    /**
     * `store(ram)`. A payload whose id is not yet listed is appended, once,
     * after its name gets `" (2)"` appended if some listed payload already
     * has that name (raising when the name is `None`); the result is the
     * payload itself. Otherwise the listed payload with that id takes the
     * new attributes by `Merge`, the list stays as it was, and the result
     * is the listed payload. No other payload changes.
     */
    method Store(ram: PayloadRam, rule: UpdateRule) returns (r: Outcome<Payload>)
      modifies this, ram, ram.payloads
      ensures old(FindId(ram.payloads, payloadId)).None? ==>
        if old(NameTaken(ram.payloads, name)) && old(name).None? then
          && r.Fault? && ram.payloads == old(ram.payloads) && Record() == old(Record())
        else
          && r == Ok(this)
          && ram.payloads == old(ram.payloads) + [this]
          && |ram.payloads| == |old(ram.payloads)| + 1
          && Record() == old(Record()).(name :=
               if old(NameTaken(ram.payloads, name)) then Some(old(name).value + " (2)") else old(name))
      ensures old(FindId(ram.payloads, payloadId)).None? ==>
        forall p :: p in old(ram.payloads) ==> p.Record() == old(p.Record())
      ensures old(FindId(ram.payloads, payloadId)).Some? ==>
        var e := old(ram.payloads[FindId(ram.payloads, payloadId).value]);
        && r == Ok(e)
        && ram.payloads == old(ram.payloads)
        && e.Record() == Merge(old(e.Record()), old(Record()), rule)
        && (forall p :: p in old(ram.payloads) && p != e ==> p.Record() == old(p.Record()))
        && (this != e ==> Record() == old(Record()))
    {
      var found := FindId(ram.payloads, payloadId);
      if found.None? {
        r := Append(ram);
      } else {
        var e := ram.payloads[found.value];
        CopyInto(e, rule);
        r := Ok(e);
      }
    }

    /** The branch of `store` for an id that is not listed yet. */
    method Append(ram: PayloadRam) returns (r: Outcome<Payload>)
      requires FindId(ram.payloads, payloadId).None?
      modifies this, ram
      ensures if old(NameTaken(ram.payloads, name)) && old(name).None? then
          && r.Fault? && ram.payloads == old(ram.payloads) && Record() == old(Record())
        else
          && r == Ok(this)
          && ram.payloads == old(ram.payloads) + [this]
          && Record() == old(Record()).(name :=
               if old(NameTaken(ram.payloads, name)) then Some(old(name).value + " (2)") else old(name))
      ensures forall p :: p in old(ram.payloads) ==> p.Record() == old(p.Record())
    {
      assert this !in ram.payloads;
      if NameTaken(ram.payloads, name) {
        if name.None? {
          return Fault;
        }
        name := Some(name.value + " (2)");
      }
      FindIdAppend(ram.payloads, this, payloadId);
      ram.payloads := ram.payloads + [this];
      var again := FindId(ram.payloads, payloadId);
      return Ok(ram.payloads[again.value]);
    }

    /** The branch of `store` for a listed id: one `update` per copied field of the listed payload `e`. */
    method CopyInto(e: Payload, rule: UpdateRule)
      modifies e
      ensures e.Record() == Merge(old(e.Record()), old(Record()), rule)
      ensures this != e ==> Record() == old(Record())
    {
      var g := Record();
      CopyText(e, g, rule);
      CopyRest(e, g, rule);
    }
  }

  /** The `update` calls of `store` for the text attributes and the file size. */
  method CopyText(e: Payload, g: PayloadRecord, rule: UpdateRule)
    modifies e
    ensures e.Record() == MergeText(old(e.Record()), g, rule)
  {
    e.name := Updated(rule, e.name, g.name, TruthyStr(g.name));
    e.description := Updated(rule, e.description, g.description, TruthyStr(g.description));
    e.md5 := Updated(rule, e.md5, g.md5, TruthyStr(g.md5));
    e.fileType := Updated(rule, e.fileType, g.fileType, TruthyStr(g.fileType));
    e.fileSize := Updated(rule, e.fileSize, g.fileSize, TruthyInt(g.fileSize));
    e.payloadFile := Updated(rule, e.payloadFile, g.payloadFile, TruthyStr(g.payloadFile));
  }

  /** The remaining `update` calls of `store`. */
  method CopyRest(e: Payload, g: PayloadRecord, rule: UpdateRule)
    modifies e
    ensures e.Record() == MergeRest(old(e.Record()), g, rule)
  {
    e.tactics := g.tactics;
    e.threatLevel := Updated(rule, e.threatLevel, g.threatLevel, TruthyStr(g.threatLevel));
    e.platforms := g.platforms;
    e.cveReferences := g.cveReferences;
    e.aptGroups := g.aptGroups;
    e.tags := g.tags;
    e.plugin := Updated(rule, e.plugin, g.plugin, g.plugin != "");
    e.modifiedDate := Updated(rule, e.modifiedDate, g.modifiedDate, g.modifiedDate.Some?);
  }
  /**
   * Three payloads with the same name stored under three ids: the second
   * is renamed once, and so is the third, to the same name as the second,
   * since the new name is not checked again.
   */
  method StoreRenamesOnce(n: string) returns (names: seq<Option<string>>, count: nat)
    ensures names == [Some(n), Some(n + " (2)"), Some(n + " (2)")]
    ensures count == 3
  {
    var ram := new PayloadRam();
    var a := StoreNamed(ram, "a", n);
    assert ram.payloads == [a] && a.name == Some(n);
    ghost var aRec := a.Record();
    assert ram.payloads[0].payloadId != "b";
    var b := StoreNamed(ram, "b", n);
    assert a in [a];
    assert ram.payloads == [a, b] && a.Record() == aRec;
    assert ram.payloads[0].name == Some(n);
    assert b.name == Some(n + " (2)");
    ghost var bRec := b.Record();
    assert ram.payloads[0].payloadId != "c" && ram.payloads[1].payloadId != "c";
    var c := StoreNamed(ram, "c", n);
    assert a in [a, b] && b in [a, b];
    assert a.Record() == aRec && b.Record() == bRec;
    assert ram.payloads[0].name == Some(n);
    names := [a.name, b.name, c.name];
    count := |ram.payloads|;
  }

  /** `Payload(payload_id=id, name=name).store(ram)` for an id not listed yet. */
  method StoreNamed(ram: PayloadRam, id: string, name: string) returns (p: Payload)
    requires id != "" && FindId(ram.payloads, id).None?
    modifies ram, ram.payloads
    ensures fresh(p) && ram.payloads == old(ram.payloads) + [p] && p.payloadId == id
    ensures p.name == if old(NameTaken(ram.payloads, Some(name))) then Some(name + " (2)") else Some(name)
    ensures forall q :: q in old(ram.payloads) ==> q.Record() == old(q.Record())
  {
    p := new Payload(NamedArgs(id, name), "fresh");
    var r := p.Store(ram, SkipFalsy);
  }

  /** The arguments of `Payload(payload_id=id, name=name)`. */
  function NamedArgs(id: string, name: string): PayloadArgs {
    PayloadArgs(id, Some(name), None, None, None, None, None, None, None, None, None, None, None,
      Null, "", None, None)
  }

  /** `validate_threat_level`: one of the four capitalised levels. */
  predicate ValidateThreatLevel(level: string) { level in ThreatLevels }

  /** `validate_platform`. */
  predicate ValidatePlatform(platform: string) { platform in SupportedPlatforms }

  /** `validate_file_type`. */
  predicate ValidateFileType(fileType: string) { fileType in SupportedFileTypes }

  /**
   * The platforms a payload may name are exactly the operating systems a
   * manifest of the Payloads plugin may list, while the threat levels are
   * the manifest severities capitalised: no string is valid as both.
   */
  lemma PlatformsAndLevelsAgainstManifest()
    ensures forall p :: ValidatePlatform(p) <==> p in Schemas.AllowedOs
    ensures (set t | t in ThreatLevels :: Lower(t)) == Schemas.AllowedSeverity
    ensures forall t :: !(ValidateThreatLevel(t) && t in Schemas.AllowedSeverity)
  {
    assert Lower("Low") == "low";
    assert Lower("Medium") == "medium";
    assert Lower("High") == "high";
    assert Lower("Critical") == "critical";
  }

  /** `get_threat_level_color()` for the payload's `threat_level`. */
  function ThreatLevelColor(level: Option<string>): (c: string)
    ensures c != "is-light" <==> level.Some? && ValidateThreatLevel(level.value)
  {
    if level == Some("Low") then "is-info"
    else if level == Some("Medium") then "is-warning"
    else if level == Some("High") then "is-danger"
    else if level == Some("Critical") then "is-dark"
    else "is-light"
  }

  /** Different valid threat levels get different colours. */
  lemma ThreatLevelColorsDistinct(a: string, b: string)
    requires ValidateThreatLevel(a) && ValidateThreatLevel(b) && a != b
    ensures ThreatLevelColor(Some(a)) != ThreatLevelColor(Some(b))
  {
  }

  /** `get_tactic_display_name(tactic)`: a fixed name for a known slug, else `tactic.title()`. */
  function TacticDisplayName(tactic: string): (r: string)
    ensures tactic !in KnownTactics ==> r == Title(tactic)
  {
    if tactic == "discovery" then "Discovery"
    else if tactic == "execution" then "Execution"
    else if tactic == "persistence" then "Persistence"
    else if tactic == "privilege-escalation" then "Privilege Escalation"
    else if tactic == "defense-evasion" then "Defense Evasion"
    else if tactic == "credential-access" then "Credential Access"
    else if tactic == "collection" then "Collection"
    else if tactic == "command-and-control" then "Command and Control"
    else if tactic == "exfiltration" then "Exfiltration"
    else if tactic == "impact" then "Impact"
    else if tactic == "lateral-movement" then "Lateral Movement"
    else Title(tactic)
  }

  /** A title-cased string never starts with a lower-case letter. */
  lemma TitleStart(s: string)
    requires s != []
    ensures !IsLowerLetter(Title(s)[0])
  {
  }

  /**
   * The display name of an unknown tactic is itself displayed unchanged:
   * title-casing is idempotent and never produces a known (lower-case) slug.
   */
  lemma {:induction false} UnknownTacticDisplayStable(tactic: string)
    requires tactic !in KnownTactics
    ensures TacticDisplayName(TacticDisplayName(tactic)) == TacticDisplayName(tactic)
  {
    var t := Title(tactic);
    if t != [] {
      TitleStart(tactic);
      assert forall k :: k in KnownTactics ==> IsLowerLetter(k[0]);
    }
    assert t !in KnownTactics;
    TitleIdempotent(tactic, false);
  }

  /** `get_platform_display_name(platform)`. */
  function PlatformDisplayName(platform: string): (r: string)
    ensures platform !in SupportedPlatforms ==> r == Title(platform)
  {
    if platform == "windows" then "Windows"
    else if platform == "linux" then "Linux"
    else if platform == "darwin" then "macOS"
    else Title(platform)
  }

  /**
   * `PayloadSchema.fix_id`: an `id` key is renamed to `payload_id`,
   * replacing any `payload_id` already there; nothing else changes.
   */
  function FixId(data: map<string, Value>): (r: map<string, Value>)
    ensures "id" !in r
    ensures "payload_id" in r <==> "id" in data || "payload_id" in data
    ensures "id" in data ==> r["payload_id"] == data["id"]
    ensures "id" !in data ==> r == data
    ensures forall k :: k in data && k != "id" && k != "payload_id" ==> k in r && r[k] == data[k]
    ensures r.Keys <= data.Keys + {"payload_id"}
  {
    if "id" in data then (data - {"id"})["payload_id" := data["id"]] else data
  }
}
