/**
 * The `Profile` object: its constructor defaults and extra attributes,
 * `store` into the in-memory list `ram['profiles']`, the `search_tags`
 * matcher, and the enumerations its schema accepts. The object's `unique`
 * key is `hash(str(profile_id))`; the hash is a parameter, as is the
 * behaviour of `update` (`UpdateRule`).
 */
module Profiles {
  import opened Wrappers
  import opened Strings
  import opened Values
  import opened PayloadObject

  // ----- schema enumerations -----

  /** The values the schema accepts for `risk`. */
  const ProfileRisks: set<string> := {"Low", "Medium", "High"}

  /** The values the schema accepts for each entry of `platform`. */
  const ProfilePlatforms: set<string> := {"Windows", "Linux", "macOS", "Other"}

  /** The values the schema accepts for each entry of `tactic`. */
  const ProfileTactics: set<string> :=
    {"Discovery", "Execution", "Persistence", "Privilege Escalation", "Defense Evasion",
     "Credential Access", "Collection", "Command and Control", "Exfiltration", "Impact",
     "Lateral Movement"}

  /** The schema's `OneOf` checks: the names of the fields it rejects. */
  function SchemaErrors(risk: Option<string>, platform: Option<seq<string>>, tactic: Option<seq<string>>): (r: set<string>)
    ensures r <= {"risk", "platform", "tactic"}
    ensures "risk" !in r <==> risk.None? || risk.value in ProfileRisks
    ensures "platform" !in r <==> platform.None? || forall x :: x in platform.value ==> x in ProfilePlatforms
    ensures "tactic" !in r <==> tactic.None? || forall x :: x in tactic.value ==> x in ProfileTactics
  {
    (if risk.Some? && risk.value !in ProfileRisks then {"risk"} else {})
    + (if platform.Some? && exists x :: x in platform.value && x !in ProfilePlatforms then {"platform"} else {})
    + (if tactic.Some? && exists x :: x in tactic.value && x !in ProfileTactics then {"tactic"} else {})
  }

  /**
   * The payload catalogue and the profile schema agree on tactics: the
   * display names of the eleven known tactic slugs are exactly the eleven
   * tactics a profile may list.
   */
  lemma TacticNamesMatchSchema()
    ensures (set t | t in KnownTactics :: TacticDisplayName(t)) == ProfileTactics
  {
    var names := set t | t in KnownTactics :: TacticDisplayName(t);
    KnownTacticNamesAllowed();
    AllowedTacticsNamed();
    assert names <= ProfileTactics;
    assert ProfileTactics <= names;
  }

  lemma KnownTacticNamesAllowed()
    ensures forall t :: t in KnownTactics ==> TacticDisplayName(t) in ProfileTactics
  {
  }

  lemma AllowedTacticsNamed()
    ensures forall n :: n in ProfileTactics ==> exists t :: t in KnownTactics && TacticDisplayName(t) == n
  {
    forall n | n in ProfileTactics
      ensures exists t :: t in KnownTactics && TacticDisplayName(t) == n
    {
      if n == "Discovery" {
        assert KnownTactics[0] == "discovery" && TacticDisplayName(KnownTactics[0]) == n;
      } else if n == "Execution" {
        assert KnownTactics[1] == "execution" && TacticDisplayName(KnownTactics[1]) == n;
      } else if n == "Persistence" {
        assert KnownTactics[2] == "persistence" && TacticDisplayName(KnownTactics[2]) == n;
      } else if n == "Privilege Escalation" {
        assert KnownTactics[3] == "privilege-escalation" && TacticDisplayName(KnownTactics[3]) == n;
      } else if n == "Defense Evasion" {
        assert KnownTactics[4] == "defense-evasion" && TacticDisplayName(KnownTactics[4]) == n;
      } else if n == "Credential Access" {
        assert KnownTactics[5] == "credential-access" && TacticDisplayName(KnownTactics[5]) == n;
      } else if n == "Collection" {
        assert KnownTactics[6] == "collection" && TacticDisplayName(KnownTactics[6]) == n;
      } else if n == "Command and Control" {
        assert KnownTactics[7] == "command-and-control" && TacticDisplayName(KnownTactics[7]) == n;
      } else if n == "Exfiltration" {
        assert KnownTactics[8] == "exfiltration" && TacticDisplayName(KnownTactics[8]) == n;
      } else if n == "Impact" {
        assert KnownTactics[9] == "impact" && TacticDisplayName(KnownTactics[9]) == n;
      } else {
        assert KnownTactics[10] == "lateral-movement" && TacticDisplayName(KnownTactics[10]) == n;
      }
    }
  }

  /**
   * The display names of the payload platforms are platforms a profile may
   * list, but a payload's `Critical` threat level is not a risk a profile
   * may carry.
   */
  lemma PlatformsAndRisksAgainstSchema()
    ensures forall p :: p in SupportedPlatforms ==> PlatformDisplayName(p) in ProfilePlatforms
    ensures (set l | l in ThreatLevels) - ProfileRisks == {"Critical"}
  {
    var levels := set l | l in ThreatLevels;
    assert levels == {"Low", "Medium", "High", "Critical"} by {
      assert forall l :: l in ThreatLevels ==> l in {"Low", "Medium", "High", "Critical"};
      assert ThreatLevels[0] in levels && ThreatLevels[1] in levels;
      assert ThreatLevels[2] in levels && ThreatLevels[3] in levels;
    }
  }

  // ----- the object -----

  /** Who may see a profile: `Access.RED`, or whatever an extra `access` argument sets. */
  datatype ProfileAccess = Red | Given(v: Value)

  /** The declared parameters of `Profile.__init__`: a keyword with one of these names binds to it. */
  const ProfileParams: set<string> :=
    {"profile_id", "name", "file_name", "file_type", "tactic", "risk", "platform", "description"}

  /** The arguments of `Profile(...)`; `extras` are the other keyword arguments. */
  datatype ProfileArgs = ProfileArgs(
    profileId: Option<string>,
    name: string,
    fileName: string,
    fileType: string,
    tactic: Option<seq<string>>,
    risk: Option<string>,
    platform: Option<seq<string>>,
    description: Option<string>,
    extras: map<string, Value>)

  /** The attributes of a `Profile` object, as a value. */
  datatype ProfileRecord = ProfileRecord(
    profileId: string,
    name: string,
    fileName: string,
    fileType: string,
    platform: seq<string>,
    tactic: seq<string>,
    risk: string,
    description: string,
    access: ProfileAccess,
    extras: map<string, Value>)

  function StrOr(x: Option<string>, default: string): string {
    if x.Some? && x.value != "" then x.value else default
  }

  function ListOr(x: Option<seq<string>>): seq<string> {
    if x.Some? then x.value else []
  }

  /** The attributes `Profile(**args)` sets, with `freshId` standing for the uuid it would draw. */
  function ProfileInitial(args: ProfileArgs, freshId: string): ProfileRecord {
    ProfileRecord(
      StrOr(args.profileId, freshId), args.name, args.fileName, args.fileType,
      ListOr(args.platform), ListOr(args.tactic), StrOr(args.risk, "Low"), StrOr(args.description, ""),
      if "access" in args.extras then Given(args.extras["access"]) else Red,
      args.extras)
  }

  /**
   * A new profile has the given id or a fresh one, empty lists for missing
   * ones, risk `Low` and an empty description when those are missing or
   * empty; its extra arguments are kept as they were given, and an extra
   * `access` replaces the default `RED`. A profile built with no risk,
   * platforms or tactics passes the schema.
   */
  lemma ProfileInitialDefaults(args: ProfileArgs, freshId: string)
    ensures var r := ProfileInitial(args, freshId);
      && (args.profileId.None? || args.profileId.value == "" ==> r.profileId == freshId)
      && (args.profileId.Some? && args.profileId.value != "" ==> r.profileId == args.profileId.value)
      && (args.platform.None? ==> r.platform == [])
      && (args.tactic.None? ==> r.tactic == [])
      && (args.risk.None? || args.risk == Some("") ==> r.risk == "Low")
      && (args.description.None? ==> r.description == "")
      && r.extras == args.extras
      && (r.access.Red? <==> "access" !in args.extras)
    ensures var r := ProfileInitial(args, freshId);
      args.risk.None? && args.platform.None? && args.tactic.None? ==>
        SchemaErrors(Some(r.risk), Some(r.platform), Some(r.tactic)) == {}
  {
    var r := ProfileInitial(args, freshId);
    if args.risk.None? && args.platform.None? && args.tactic.None? {
      assert r.risk == "Low" && r.platform == [] && r.tactic == [];
      assert "risk" !in SchemaErrors(Some(r.risk), Some(r.platform), Some(r.tactic));
    }
  }

  /**
   * `store`'s copy of a profile onto the listed one with the same `unique`:
   * `update` of name, file name, platform, description, tactic and risk.
   * Lists are always assigned, like in `Merge`.
   */
  function MergeProfile(cur: ProfileRecord, given: ProfileRecord, rule: UpdateRule): (r: ProfileRecord)
    ensures r.profileId == cur.profileId && r.fileType == cur.fileType
    ensures r.access == cur.access && r.extras == cur.extras
  {
    cur.(
      name := Updated(rule, cur.name, given.name, given.name != ""),
      fileName := Updated(rule, cur.fileName, given.fileName, given.fileName != ""),
      platform := given.platform,
      description := Updated(rule, cur.description, given.description, given.description != ""),
      tactic := given.tactic,
      risk := Updated(rule, cur.risk, given.risk, given.risk != ""))
  }

  /**
   * When `update` always assigns, the listed profile takes all six copied
   * attributes of the new one and keeps its own id, file type, access and
   * extras; when it skips falsy values, an empty name, file name,
   * description or risk keeps the listed one.
   */
  lemma MergeProfileRules(cur: ProfileRecord, given: ProfileRecord)
    ensures MergeProfile(cur, given, Overwrite) ==
      given.(profileId := cur.profileId, fileType := cur.fileType, access := cur.access, extras := cur.extras)
    ensures var r := MergeProfile(cur, given, SkipFalsy);
      && (given.name == "" ==> r.name == cur.name) && (given.name != "" ==> r.name == given.name)
      && (given.fileName == "" ==> r.fileName == cur.fileName) && (given.fileName != "" ==> r.fileName == given.fileName)
      && (given.description == "" ==> r.description == cur.description)
      && (given.description != "" ==> r.description == given.description)
      && (given.risk == "" ==> r.risk == cur.risk) && (given.risk != "" ==> r.risk == given.risk)
      && r.platform == given.platform && r.tactic == given.tactic
  {
  }

  /** Storing a profile over itself changes nothing. */
  lemma MergeProfileSelf(x: ProfileRecord, rule: UpdateRule)
    ensures MergeProfile(x, x, rule) == x
  {
  }

  /** `ram['profiles']`. */
  class ProfileRam {
    var profiles: seq<Profile>

    constructor()
      ensures profiles == []
    {
      profiles := [];
    }
  }

  /** The position `retrieve(ps, unique)` finds: the first profile whose `unique` is `u`, or none. */
  function FindUnique(ps: seq<Profile>, hash: string -> string, u: string): (r: Option<nat>)
    reads ps
    ensures r.Some? ==> r.value < |ps| && hash(ps[r.value].profileId) == u
    ensures r.Some? ==> forall j :: 0 <= j < r.value ==> hash(ps[j].profileId) != u
    ensures r.None? ==> forall j :: 0 <= j < |ps| ==> hash(ps[j].profileId) != u
    decreases |ps|
  {
    if ps == [] then None
    else if hash(ps[0].profileId) == u then Some(0)
    else
      match FindUnique(ps[1..], hash, u)
      case None => None
      case Some(i) => Some(i + 1)
  }

  /**
   * With a collision-free hash, the profile `store` finds for an id is the
   * first listed profile with that very id.
   */
  lemma FindUniqueById(ps: seq<Profile>, hash: string -> string, id: string)
    requires forall a, b :: hash(a) == hash(b) ==> a == b
    ensures var r := FindUnique(ps, hash, hash(id));
      && (r.Some? ==> ps[r.value].profileId == id)
      && (r.None? <==> forall j :: 0 <= j < |ps| ==> ps[j].profileId != id)
  {
  }

  /** A profile object. */
  class Profile {
    var profileId: string
    var name: string
    var fileName: string
    var fileType: string
    var platform: seq<string>
    var tactic: seq<string>
    var risk: string
    var description: string
    var access: ProfileAccess
    var extras: map<string, Value>

    /** The object's attributes. */
    function Record(): ProfileRecord
      reads this
    {
      ProfileRecord(profileId, name, fileName, fileType, platform, tactic, risk, description, access, extras)
    }

    /**
     * `Profile(**args)` when no extra argument is named `unique` (the
     * property has no setter); an extra argument never has the name of a
     * declared parameter, since Python binds such a keyword to it.
     */
    constructor(args: ProfileArgs, freshId: string)
      requires "unique" !in args.extras
      requires forall k :: k in args.extras ==> k !in ProfileParams
      ensures Record() == ProfileInitial(args, freshId)
    {
      profileId := StrOr(args.profileId, freshId);
      name := args.name;
      fileName := args.fileName;
      platform := ListOr(args.platform);
      tactic := ListOr(args.tactic);
      risk := StrOr(args.risk, "Low");
      description := StrOr(args.description, "");
      fileType := args.fileType;
      access := Red;
      extras := map[];
      new;
      SetExtras(args.extras);
    }

    /**
     * The loop of `__init__` that sets each extra argument as an attribute:
     * `access` replaces the access, every other one is kept among the extras.
     */
    method SetExtras(given: map<string, Value>)
      requires extras == map[] && access == Red
      modifies this
      ensures extras == given
      ensures access == if "access" in given then Given(given["access"]) else Red
      ensures profileId == old(profileId) && name == old(name) && fileName == old(fileName)
      ensures fileType == old(fileType) && platform == old(platform) && tactic == old(tactic)
      ensures risk == old(risk) && description == old(description)
    {
      var rest := given.Keys;
      while rest != {}
        invariant rest <= given.Keys
        invariant extras.Keys == given.Keys - rest
        invariant forall k :: k in extras ==> extras[k] == given[k]
        invariant access == if "access" in extras then Given(given["access"]) else Red
        invariant profileId == old(profileId) && name == old(name) && fileName == old(fileName)
        invariant fileType == old(fileType) && platform == old(platform) && tactic == old(tactic)
        invariant risk == old(risk) && description == old(description)
        decreases rest
      {
        var k :| k in rest;
        extras := extras[k := given[k]];
        if k == "access" {
          access := Given(given[k]);
        }
        rest := rest - {k};
      }
      assert extras.Keys == given.Keys;
      assert extras == given;
    }

    /**
     * `store(ram)`: when no listed profile has the same `unique`, the
     * profile is appended and is the result; otherwise the first such
     * profile takes the new name, file name, platform, description, tactic
     * and risk by `MergeProfile` (never the file type), the list stays as
     * it was, and that profile is the result. No other profile changes.
     */
    method Store(ram: ProfileRam, hash: string -> string, rule: UpdateRule) returns (r: Profile)
      modifies ram, ram.profiles
      ensures old(FindUnique(ram.profiles, hash, hash(profileId))).None? ==>
        && r == this
        && ram.profiles == old(ram.profiles) + [this]
        && Record() == old(Record())
        && forall p :: p in old(ram.profiles) ==> p.Record() == old(p.Record())
      ensures old(FindUnique(ram.profiles, hash, hash(profileId))).Some? ==>
        var e := old(ram.profiles[FindUnique(ram.profiles, hash, hash(profileId)).value]);
        && r == e
        && ram.profiles == old(ram.profiles)
        && e.Record() == MergeProfile(old(e.Record()), old(Record()), rule)
        && (forall p :: p in old(ram.profiles) && p != e ==> p.Record() == old(p.Record()))
        && (this != e ==> Record() == old(Record()))
    {
      var found := FindUnique(ram.profiles, hash, hash(profileId));
      if found.None? {
        ghost var before := ram.profiles;
        ram.profiles := ram.profiles + [this];
        FindUniqueAppend(before, this, hash, hash(profileId));
        var again := FindUnique(ram.profiles, hash, hash(profileId));
        r := ram.profiles[again.value];
      } else {
        r := ram.profiles[found.value];
        var g := Record();
        CopyProfile(r, g, rule);
      }
    }
  }

  /** Appending a profile whose `unique` is new makes it the one `retrieve` finds. */
  lemma {:induction false} FindUniqueAppend(ps: seq<Profile>, p: Profile, hash: string -> string, u: string)
    requires FindUnique(ps, hash, u).None? && hash(p.profileId) == u
    ensures FindUnique(ps + [p], hash, u) == Some(|ps|)
    decreases |ps|
  {
    if ps != [] {
      assert (ps + [p])[1..] == ps[1..] + [p];
      FindUniqueAppend(ps[1..], p, hash, u);
    }
  }

  /** The six `update` calls of `store` on the listed profile `e`. */
  method CopyProfile(e: Profile, g: ProfileRecord, rule: UpdateRule)
    modifies e
    ensures e.Record() == MergeProfile(old(e.Record()), g, rule)
  {
    e.name := Updated(rule, e.name, g.name, g.name != "");
    e.fileName := Updated(rule, e.fileName, g.fileName, g.fileName != "");
    e.platform := g.platform;
    e.description := Updated(rule, e.description, g.description, g.description != "");
    e.tactic := g.tactic;
    e.risk := Updated(rule, e.risk, g.risk, g.risk != "");
  }

  /**
   * Storing two profiles with the same id leaves one listed profile, which
   * keeps the file type it was stored with.
   */
  method StoreSameIdTwice(hash: string -> string) returns (count: nat, kept: string)
    ensures count == 1 && kept == "exe"
  {
    var ram := new ProfileRam();
    var a := new Profile(ProfileArgs(Some("p1"), "first", "a.exe", "exe", None, None, None, None, map[]), "fresh");
    var r1 := a.Store(ram, hash, SkipFalsy);
    var b := new Profile(ProfileArgs(Some("p1"), "second", "b.ps1", "ps1", None, None, None, None, map[]), "fresh");
    var r2 := b.Store(ram, hash, SkipFalsy);
    count := |ram.profiles|;
    kept := ram.profiles[0].fileType;
  }

  // ----- search_tags -----

  /**
   * `search_tags(value)`: whether the lower-cased `value` occurs in the
   * lower-cased `str()` of some tag. Raises when the profile has no `tags`
   * attribute (none was given as an extra argument) or when a truthy
   * `tags` cannot be iterated. A string iterates over its characters and a
   * dict over its keys.
   */
  function SearchTags(p: ProfileRecord, value: string): (r: Outcome<bool>)
    ensures "tags" !in p.extras ==> r.Fault?
    ensures r == Ok(true) ==> "tags" in p.extras && Truthy(p.extras["tags"])
  {
    if "tags" !in p.extras then Fault
    else
      var tags := p.extras["tags"];
      if !Truthy(tags) then Ok(false)
      else
        match tags
        case List(elems) => Ok(exists t :: t in elems && Contains(Lower(PyStr(t)), Lower(value)))
        case Str(s) => Ok(exists i :: 0 <= i < |s| && Contains(Lower([s[i]]), Lower(value)))
        case Dict(fields) => Ok(exists k :: k in fields && Contains(Lower(k), Lower(value)))
        case _ => Fault
  }

  /**
   * The match ignores case on both sides; an empty value matches exactly
   * when there is some tag; and a list of tags matches exactly when one of
   * its tags does on its own.
   */
  lemma SearchTagsMeaning(p: ProfileRecord, value: string)
    ensures SearchTags(p, Lower(value)) == SearchTags(p, value)
    ensures "tags" in p.extras && p.extras["tags"].List? ==>
      (SearchTags(p, "") == Ok(true) <==> p.extras["tags"].elems != [])
    ensures "tags" in p.extras && p.extras["tags"].List? ==>
      (SearchTags(p, value) == Ok(true) <==>
        exists t :: t in p.extras["tags"].elems &&
          SearchTags(p.(extras := p.extras["tags" := List([t])]), value) == Ok(true))
  {
    LowerIsLower(value);
    if "tags" in p.extras && p.extras["tags"].List? {
      var elems := p.extras["tags"].elems;
      if elems != [] {
        assert OccursAt(Lower(PyStr(elems[0])), Lower(""), 0);
      }
      forall t | t in elems
        ensures SearchTags(p.(extras := p.extras["tags" := List([t])]), value) == Ok(true) <==>
                Contains(Lower(PyStr(t)), Lower(value))
      {
        assert t in [t];
      }
    }
  }
}
