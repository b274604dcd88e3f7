/**
 * The logic of `PayloadsAPI` in the Payloads plugin, apart from HTTP: the
 * command a dispatched payload runs on an agent, the download address and
 * executor chosen for it, the per-agent loop of `_dispatch_single`, the
 * in-place `batch_actions`, the agent and history listings, the CSV row of
 * an export, and the status `dispatch` answers with.
 *
 * The orchestration services are oracles passed in as values: what
 * `rest_svc.create_operation` returns for an operation request, what
 * `data_svc.locate('agents', ...)` returns for a paw, and what
 * `rest_svc.add_manual_command` returns for a request. The calls to
 * `create_operation` and `add_manual_command` are recorded, in order;
 * `locate` calls, which change nothing, are not.
 */
module Api {
  import opened Wrappers
  import opened Strings
  import opened Values
  import opened Catalogue
  import opened Service
  import AgentAccess

  // ----- build_command -----

  const WinExe := "Start-Process -FilePath $p " + "-WindowStyle Hidden;"
  const WinPs1 := "powershell -ExecutionPolicy " + "Bypass -File $p;"
  const WinPy := "python $p;"
  const WinOther := "Write-Host " + "'Downloaded payload';"
  const UnixSh := "bash $p;"
  const UnixPy := "python3 $p;"
  const UnixOther := "$p &"

  /** The last statement of the PowerShell command, chosen by file type. */
  function WindowsSuffix(fileType: string): string {
    if fileType == "exe" then WinExe
    else if fileType == "ps1" then WinPs1
    else if fileType == "py" then WinPy
    else WinOther
  }

  /** The last statement of the shell command, chosen by file type. */
  function UnixSuffix(fileType: string): string {
    if fileType == "sh" then UnixSh
    else if fileType == "py" then UnixPy
    else UnixOther
  }

  /** Download to `%TEMP%\<pid>` with `Invoke-WebRequest`. */
  function WindowsHead(pid: string, url: string): string {
    "$p=$env:TEMP+'\\\\" + pid + "';"
      + "Invoke-WebRequest -UseBasicParsing -Uri '" + url + "' -OutFile $p;"
  }

  /** Download to `/tmp/<pid>` with `curl` and make it executable. */
  function UnixHead(pid: string, url: string): string {
    "p=/tmp/" + pid + "; curl -fsSL '" + url + "' -o $p; chmod +x $p; "
  }

  /**
   * `build_command(platform)`: the download statements for the platform,
   * then one statement that runs the file. Never empty.
   */
  function BuildCommand(platform: string, pid: string, url: string, fileType: string): (r: string)
    ensures r != []
    ensures platform == "windows" ==> StartsWith(r, WindowsHead(pid, url))
    ensures platform != "windows" ==> StartsWith(r, UnixHead(pid, url))
  {
    if platform == "windows" then WindowsHead(pid, url) + WindowsSuffix(fileType)
    else UnixHead(pid, url) + UnixSuffix(fileType)
  }

  /** The four Windows run statements differ in their fifth character from the end. */
  lemma WindowsMark(s: string, t: string)
    requires s in [WinExe, WinPs1, WinPy, WinOther] && t in [WinExe, WinPs1, WinPy, WinOther]
    requires s[|s| - 5] == t[|t| - 5]
    ensures s == t
  {
  }

  /**
   * The three shell run statements differ in their last character, or else
   * in their fifth from the end.
   */
  lemma UnixMark(s: string, t: string)
    requires s in [UnixSh, UnixPy, UnixOther] && t in [UnixSh, UnixPy, UnixOther]
    requires s[|s| - 1] == t[|t| - 1]
    requires |s| >= 5 && |t| >= 5 ==> s[|s| - 5] == t[|t| - 5]
    ensures s == t
  {
  }

  lemma EndChar(h: string, t: string, k: int)
    requires 1 <= k <= |t|
    ensures (h + t)[|h + t| - k] == t[|t| - k]
  {
  }

  /**
   * A Windows command ends with exactly one of the four run statements:
   * the one its file type selects.
   */
  lemma {:induction false} WindowsSuffixExactlyOne(pid: string, url: string, fileType: string, s: string)
    requires s in [WinExe, WinPs1, WinPy, WinOther]
    ensures EndsWith(BuildCommand("windows", pid, url, fileType), s) <==> s == WindowsSuffix(fileType)
  {
    var r := BuildCommand("windows", pid, url, fileType);
    var t := WindowsSuffix(fileType);
    assert r == WindowsHead(pid, url) + t;
    assert r[|r| - 5..] == t[|t| - 5..];
    if EndsWith(r, s) {
      assert s[|s| - 5] == r[|r| - 5];
      WindowsMark(s, t);
    }
  }

  /**
   * A command for any other platform ends with exactly one of the three run
   * statements: the one its file type selects.
   */
  lemma {:induction false} UnixSuffixExactlyOne(platform: string, pid: string, url: string, fileType: string, s: string)
    requires platform != "windows"
    requires s in [UnixSh, UnixPy, UnixOther]
    ensures EndsWith(BuildCommand(platform, pid, url, fileType), s) <==> s == UnixSuffix(fileType)
  {
    var r := BuildCommand(platform, pid, url, fileType);
    var t := UnixSuffix(fileType);
    var h := UnixHead(pid, url);
    assert r == h + t;
    if EndsWith(r, s) {
      EndChar(h, t, 1);
      assert s[|s| - 1] == r[|r| - 1];
      if |s| >= 5 && |t| >= 5 {
        EndChar(h, t, 5);
        assert s[|s| - 5] == r[|r| - 5];
      }
      UnixMark(s, t);
    }
  }

  // ----- download URL, file type and executor -----

  /**
   * The address the agent downloads from: the record's own `download_url`
   * when its source is `'url'`, otherwise the plugin's download route under
   * the server's base address with its trailing slashes removed.
   */
  function DownloadUrl(item: Item, base: string, pid: string): (r: string)
    ensures Get(item, "source") == Str("url") ==> r == PyStr(Get(item, "download_url"))
    ensures Get(item, "source") != Str("url") ==>
      && StartsWith(r, StripRightChar(base, '/') + "/plugin/payloads/")
      && EndsWith(r, "/" + pid + "/download")
  {
    if Get(item, "source") == Str("url") then PyStr(Get(item, "download_url"))
    else StripRightChar(base, '/') + "/plugin/payloads/" + pid + "/download"
  }

  /** The route address never holds `//` where the base meets the route. */
  lemma DownloadUrlJoin(item: Item, base: string, pid: string)
    requires Get(item, "source") != Str("url")
    ensures var b := StripRightChar(base, '/');
      var r := DownloadUrl(item, base, pid);
      && StartsWith(base, b)
      && (b == [] || r[|b| - 1] != '/')
      && r[|b|] == '/'
  {
  }

  /** `(item.get('file_type') or '').lower()`, which raises on a value that is no string. */
  function FileTypeOf(item: Item): (r: Outcome<string>)
    ensures r.Ok? <==> (!Truthy(Get(item, "file_type")) || Get(item, "file_type").Str?)
    ensures r.Ok? ==> forall c :: c in r.value ==> !IsUpper(c)
    ensures r.Ok? && !Truthy(Get(item, "file_type")) ==> r.value == ""
  {
    var v := Or(Get(item, "file_type"), Str(""));
    if v.Str? then LowerIsLower(v.s); Ok(Lower(v.s)) else Fault
  }

  /**
   * The executor for an agent: `powershell` on Windows and `bash` elsewhere,
   * replaced by the agent's first executor when the agent lacks it and has any.
   */
  function ChooseExecutor(platform: string, executors: seq<string>): (r: string)
    ensures var preferred := if platform == "windows" then "powershell" else "bash";
      && (preferred in executors ==> r == preferred)
      && (preferred !in executors && executors != [] ==> r == executors[0])
      && (executors == [] ==> r == preferred)
  {
    var preferred := if platform == "windows" then "powershell" else "bash";
    if preferred !in executors && executors != [] then executors[0] else preferred
  }

  /** The chosen executor is one the agent has, whenever it has any. */
  lemma ExecutorAvailable(platform: string, executors: seq<string>)
    requires executors != []
    ensures ChooseExecutor(platform, executors) in executors
  {
  }

  // ----- _dispatch_single -----

  /** An agent record as `data_svc.locate('agents')` returns it. */
  datatype Agent = Agent(paw: string, host: string, platform: string, executors: seq<string>, watchdog: int)

  /** The request `add_manual_command` receives. */
  datatype CommandRequest = CommandRequest(operation: Value, agent: Value, executor: string, command: string)

  /** A call made to the orchestration services. */
  datatype Call =
    | CreateOperation(name: string, agentIds: Value)
    | AddCommand(request: CommandRequest)

  /** The entry of `results` for one agent id. */
  datatype AgentResult = AgentMissing(paw: Value) | CommandAdded(paw: Value, link: Value)

  /** What `_dispatch_single` returns: an error, or the operation and one result per agent id. */
  datatype Dispatch =
    | NotFound
    | NoOperation
    | Started(operationId: Value, results: seq<AgentResult>)

  /**
   * The services `_dispatch_single` calls, as given functions: what
   * `create_operation` answers for an operation's name and agent ids, what
   * `locate` finds for a paw, and what `add_manual_command` answers for a
   * request.
   */
  datatype Oracles = Oracles(
    created: (string, Value) -> Value,
    locate: Value -> seq<Agent>,
    addCommand: CommandRequest -> Value)

  /** What `for x in v` visits, for the values it can visit in a fixed order. */
  function IterOf(v: Value): Outcome<seq<Value>> {
    match v
    case List(e) => Ok(e)
    case Str(s) => Ok(seq(|s|, i requires 0 <= i < |s| => Str([s[i]])))
    case _ => Fault
  }

  /** `ops[0].get('id') if isinstance(ops, list) else None`. */
  function OperationIdOf(ops: Value): Outcome<Value> {
    if !ops.List? then Ok(Null)
    else if ops.elems == [] || !ops.elems[0].Dict? then Fault
    else Ok(Get(ops.elems[0].fields, "id"))
  }

  /** The record `_payloads.get(pid)` finds for `pid`, if it is truthy. */
  function FindItem(payloads: map<string, Item>, pid: Value): Option<Item> {
    if pid.Str? && pid.s in payloads && payloads[pid.s] != map[] then Some(payloads[pid.s]) else None
  }

  /** The result for one agent id, and the calls made for it. */
  function AgentStep(paw: Value, opId: Value, pid: string, url: string, fileType: string, o: Oracles): (AgentResult, seq<Call>) {
    var agents := o.locate(paw);
    if agents == [] then (AgentMissing(paw), [])
    else
      var agent := agents[0];
      var req := CommandRequest(opId, paw, ChooseExecutor(agent.platform, agent.executors),
        BuildCommand(agent.platform, pid, url, fileType));
      var res := o.addCommand(req);
      (CommandAdded(paw, if res.Dict? then Get(res.fields, "link") else Null), [AddCommand(req)])
  }

  /** The per-agent loop, over the first `|paws|` agent ids. */
  function AgentSteps(paws: seq<Value>, opId: Value, pid: string, url: string, fileType: string, o: Oracles): (seq<AgentResult>, seq<Call>)
    decreases |paws|
  {
    if paws == [] then ([], [])
    else
      var pre := AgentSteps(paws[..|paws| - 1], opId, pid, url, fileType, o);
      var step := AgentStep(paws[|paws| - 1], opId, pid, url, fileType, o);
      (pre.0 + [step.0], pre.1 + step.1)
  }

  /**
   * `_dispatch_single(payload)`: the result and the calls made to the
   * services, in order. Raising is `Fault`.
   */
  function DispatchSpec(payloads: map<string, Item>, body: Value, base: string, o: Oracles): (Outcome<Dispatch>, seq<Call>) {
    if !body.Dict? then (Fault, [])
    else
      var pid := Get(body.fields, "id");
      var targets := Or(Get(body.fields, "targets"), Dict(map[]));
      if !targets.Dict? || !Hashable(pid) then (Fault, [])
      else
        var agentIds := Or(Get(targets.fields, "agent_ids"), List([]));
        match FindItem(payloads, pid)
        case None => (Ok(NotFound), [])
        case Some(item) =>
          var url := DownloadUrl(item, base, pid.s);
          match FileTypeOf(item)
          case Fault => (Fault, [])
          case Ok(ft) =>
            var create := [CreateOperation("payload-" + pid.s, agentIds)];
            match OperationIdOf(o.created("payload-" + pid.s, agentIds))
            case Fault => (Fault, create)
            case Ok(opId) =>
              if !Truthy(opId) then (Ok(NoOperation), create)
              else
                match IterOf(agentIds)
                case Fault => (Fault, create)
                case Ok(paws) =>
                  var steps := AgentSteps(paws, opId, pid.s, url, ft, o);
                  (Ok(Started(opId, steps.0)), create + steps.1)
  }

  /** One result per agent id, in order, each naming its agent id; an unknown agent gives `agent not found`. */
  lemma {:induction false} AgentStepsResults(paws: seq<Value>, opId: Value, pid: string, url: string, fileType: string, o: Oracles)
    ensures var r := AgentSteps(paws, opId, pid, url, fileType, o).0;
      && |r| == |paws|
      && (forall i :: 0 <= i < |paws| ==> r[i].paw == paws[i])
      && (forall i :: 0 <= i < |paws| ==> (r[i].AgentMissing? <==> o.locate(paws[i]) == []))
    decreases |paws|
  {
    if paws != [] {
      var init, paw := paws[..|paws| - 1], paws[|paws| - 1];
      AgentStepsResults(init, opId, pid, url, fileType, o);
      var pre := AgentSteps(init, opId, pid, url, fileType, o).0;
      var last := AgentStep(paw, opId, pid, url, fileType, o).0;
      assert AgentSteps(paws, opId, pid, url, fileType, o).0 == pre + [last];
      AgentStepResult(paw, opId, pid, url, fileType, o);
      ResultsFitSnoc(pre, init, last, paw, o);
      assert paws == init + [paw];
    }
  }

  /** One result per agent id, naming it, and `agent not found` exactly for the ids the lookup does not find. */
  predicate ResultsFit(r: seq<AgentResult>, paws: seq<Value>, o: Oracles) {
    && |r| == |paws|
    && (forall i :: 0 <= i < |paws| ==> r[i].paw == paws[i])
    && (forall i :: 0 <= i < |paws| ==> (r[i].AgentMissing? <==> o.locate(paws[i]) == []))
  }

  lemma ResultsFitSnoc(r: seq<AgentResult>, paws: seq<Value>, x: AgentResult, paw: Value, o: Oracles)
    requires ResultsFit(r, paws, o)
    requires x.paw == paw && (x.AgentMissing? <==> o.locate(paw) == [])
    ensures ResultsFit(r + [x], paws + [paw], o)
  {
    var r', paws' := r + [x], paws + [paw];
    forall i | 0 <= i < |paws'|
      ensures r'[i].paw == paws'[i] && (r'[i].AgentMissing? <==> o.locate(paws'[i]) == [])
    {
      if i < |paws| {
        assert r'[i] == r[i] && paws'[i] == paws[i];
      }
    }
  }

  /** One agent id's step names that id, and reports `agent not found` exactly when the lookup finds nothing. */
  lemma AgentStepResult(paw: Value, opId: Value, pid: string, url: string, fileType: string, o: Oracles)
    ensures var r := AgentStep(paw, opId, pid, url, fileType, o).0;
      r.paw == paw && (r.AgentMissing? <==> o.locate(paw) == [])
  {
  }

  /** Every call the loop makes adds a command to the operation for one of the agent ids. */
  lemma {:induction false} AgentStepsCalls(paws: seq<Value>, opId: Value, pid: string, url: string, fileType: string, o: Oracles)
    ensures forall c :: c in AgentSteps(paws, opId, pid, url, fileType, o).1 ==>
      c.AddCommand? && c.request.operation == opId && c.request.agent in paws
    decreases |paws|
  {
    if paws != [] {
      var init := paws[..|paws| - 1];
      AgentStepsCalls(init, opId, pid, url, fileType, o);
      assert forall x :: x in init ==> x in paws;
    }
  }

  /**
   * An unknown id is reported as `not found` before any operation is
   * created; a started dispatch created one operation first and reports
   * one result per agent id, in order.
   */
  lemma {:induction false} DispatchMeaning(payloads: map<string, Item>, body: Value, base: string, o: Oracles)
    ensures var (r, calls) := DispatchSpec(payloads, body, base, o);
      && (r == Ok(NotFound) ==> calls == [])
      && (r == Ok(NotFound) <==>
            body.Dict? && Or(Get(body.fields, "targets"), Dict(map[])).Dict?
            && Hashable(Get(body.fields, "id")) && FindItem(payloads, Get(body.fields, "id")).None?)
      && (r == Ok(NoOperation) ==> |calls| == 1 && calls[0].CreateOperation?)
      && (r.Ok? && r.value.Started? ==>
            && Truthy(r.value.operationId)
            && OperationIdOf(o.created(calls[0].name, calls[0].agentIds)) == Ok(r.value.operationId)
            && calls[0] == CreateOperation("payload-" + Get(body.fields, "id").s,
                 Or(Get(Or(Get(body.fields, "targets"), Dict(map[])).fields, "agent_ids"), List([])))
            && IterOf(Or(Get(Or(Get(body.fields, "targets"), Dict(map[])).fields, "agent_ids"), List([]))).Ok?
            && |r.value.results| == |IterOf(Or(Get(Or(Get(body.fields, "targets"), Dict(map[])).fields, "agent_ids"), List([]))).value|)
  {
    if body.Dict? {
      var pid := Get(body.fields, "id");
      var targets := Or(Get(body.fields, "targets"), Dict(map[]));
      if targets.Dict? && Hashable(pid) && FindItem(payloads, pid).Some? {
        var item := FindItem(payloads, pid).value;
        var agentIds := Or(Get(targets.fields, "agent_ids"), List([]));
        var opId := OperationIdOf(o.created("payload-" + pid.s, agentIds));
        if FileTypeOf(item).Ok? && opId.Ok? && Truthy(opId.value) && IterOf(agentIds).Ok? {
          AgentStepsResults(IterOf(agentIds).value, opId.value, pid.s,
            DownloadUrl(item, base, pid.s), FileTypeOf(item).value, o);
        }
      }
    }
  }

  /**
   * `_dispatch_single`, step by step: the per-agent loop appends one result
   * per agent id and calls the services in order.
   */
  method DispatchSingle(payloads: map<string, Item>, body: Value, base: string, o: Oracles)
    returns (r: Outcome<Dispatch>, calls: seq<Call>)
    ensures (r, calls) == DispatchSpec(payloads, body, base, o)
  {
    if !body.Dict? {
      return Fault, [];
    }
    var pid := Get(body.fields, "id");
    var targets := Or(Get(body.fields, "targets"), Dict(map[]));
    if !targets.Dict? || !Hashable(pid) {
      return Fault, [];
    }
    var agentIds := Or(Get(targets.fields, "agent_ids"), List([]));
    var found := FindItem(payloads, pid);
    if found.None? {
      return Ok(NotFound), [];
    }
    var item := found.value;
    var url := DownloadUrl(item, base, pid.s);
    var ft := FileTypeOf(item);
    if ft.Fault? {
      return Fault, [];
    }
    calls := [CreateOperation("payload-" + pid.s, agentIds)];
    var opId := OperationIdOf(o.created("payload-" + pid.s, agentIds));
    if opId.Fault? {
      return Fault, calls;
    }
    if !Truthy(opId.value) {
      return Ok(NoOperation), calls;
    }
    var paws := IterOf(agentIds);
    if paws.Fault? {
      return Fault, calls;
    }
    var results: seq<AgentResult> := [];
    var sent: seq<Call> := [];
    var i := 0;
    assert paws.value[..0] == [];
    while i < |paws.value|
      invariant 0 <= i <= |paws.value|
      invariant (results, sent) == AgentSteps(paws.value[..i], opId.value, pid.s, url, ft.value, o)
    {
      assert paws.value[..i + 1][..i] == paws.value[..i];
      var paw := paws.value[i];
      ghost var step := AgentStep(paw, opId.value, pid.s, url, ft.value, o);
      ghost var pre := (results, sent);
      var agents := o.locate(paw);
      if agents == [] {
        results := results + [AgentMissing(paw)];
        assert step == (AgentMissing(paw), []);
        assert sent == pre.1 + [];
      } else {
        var agent := agents[0];
        var cmd := BuildCommand(agent.platform, pid.s, url, ft.value);
        var exec := ChooseExecutor(agent.platform, agent.executors);
        var req := CommandRequest(opId.value, paw, exec, cmd);
        var res := o.addCommand(req);
        assert step.1 == [AddCommand(req)];
        sent := sent + [AddCommand(req)];
        results := results + [CommandAdded(paw, if res.Dict? then Get(res.fields, "link") else Null)];
      }
      assert (results, sent) == (pre.0 + [step.0], pre.1 + step.1);
      i := i + 1;
    }
    assert paws.value[..|paws.value|] == paws.value;
    calls := calls + sent;
    r := Ok(Started(opId.value, results));
  }

  /** `dispatch`: `not found` answers 400, another error 500, a started dispatch 200. */
  function DispatchStatus(d: Dispatch): (code: int)
    ensures code == 400 <==> d.NotFound?
    ensures code == 500 <==> d.NoOperation?
    ensures code == 200 <==> d.Started?
  {
    match d
    case NotFound => 400
    case NoOperation => 500
    case Started(_, _) => 200
  }

  // ----- batch_actions -----

  /** `set(v or [])`, which raises on an element that cannot be hashed or on a value that is not iterable. */
  function IdSet(v: Value): Outcome<set<Value>> {
    if !Truthy(v) then Ok({})
    else
      match v
      case List(e) => if forall x :: x in e ==> Hashable(x) then Ok(set x | x in e) else Fault
      case Str(s) => Ok(set c | c in s :: Str([c]))
      case Dict(f) => Ok(set k | k in f :: Str(k))
      case _ => Fault
  }

  /** What `batch_actions` answers. */
  datatype BatchResult =
    | Counted(affected: nat, errors: seq<Value>)
    | Dispatched(results: seq<(Value, Dispatch)>)
    | Unsupported

  /** The ids of `ids` that name a truthy stored record. */
  function FoundIds(payloads: map<string, Item>, ids: set<Value>): set<Value> {
    set x | x in ids && FindItem(payloads, x).Some?
  }

  /** The ids of `ids` that name a stored record, truthy or not. */
  function StoredIds(payloads: map<string, Item>, ids: set<Value>): set<Value> {
    set x | x in ids && x.Str? && x.s in payloads
  }

  /** The record with its status set, as `item['status'] = new_status` leaves it. */
  function WithStatus(payloads: map<string, Item>, ids: set<Value>, status: string): (r: map<string, Item>)
    ensures r.Keys == payloads.Keys
    ensures forall k :: k in r ==> r[k] == if Str(k) in ids && payloads[k] != map[] then payloads[k]["status" := Str(status)] else payloads[k]
  {
    map k | k in payloads :: if Str(k) in ids && payloads[k] != map[] then payloads[k]["status" := Str(status)] else payloads[k]
  }

  /** Appending a new element keeps a sequence free of repetitions. */
  lemma DistinctAppend<T>(xs: seq<T>, x: T)
    requires Distinct(xs) && x !in xs
    ensures Distinct(xs + [x])
  {
    var ys := xs + [x];
    forall a, b | 0 <= a < b < |ys|
      ensures ys[a] != ys[b]
    {
      if b < |xs| {
        assert ys[a] == xs[a] && ys[b] == xs[b];
      } else {
        assert ys[a] == xs[a] && ys[b] == x;
      }
    }
  }

  /** Visiting one more id leaves the record of every other id as it was, and sets its own status if it was found. */
  lemma WithStatusStep(before: map<string, Item>, done: set<Value>, pid: Value, status: string)
    requires pid !in done
    ensures FindItem(WithStatus(before, done, status), pid) == FindItem(before, pid)
    ensures FindItem(before, pid).Some? ==>
      WithStatus(before, done + {pid}, status) == WithStatus(before, done, status)[pid.s := before[pid.s]["status" := Str(status)]]
    ensures FindItem(before, pid).None? ==>
      WithStatus(before, done + {pid}, status) == WithStatus(before, done, status)
  {
    if FindItem(before, pid).Some? {
      WithStatusFound(before, done, pid, status);
    } else {
      WithStatusNotFound(before, done, pid, status);
    }
  }

  lemma WithStatusFound(before: map<string, Item>, done: set<Value>, pid: Value, status: string)
    requires pid !in done && FindItem(before, pid).Some?
    ensures FindItem(WithStatus(before, done, status), pid) == FindItem(before, pid)
    ensures WithStatus(before, done + {pid}, status) == WithStatus(before, done, status)[pid.s := before[pid.s]["status" := Str(status)]]
  {
    var now := WithStatus(before, done, status);
    var next := WithStatus(before, done + {pid}, status);
    assert pid == Str(pid.s);
    assert now[pid.s] == before[pid.s];
    var m := now[pid.s := before[pid.s]["status" := Str(status)]];
    assert next.Keys == m.Keys;
    forall k | k in m
      ensures next[k] == m[k]
    {
      if k != pid.s {
        assert Str(k) in done + {pid} <==> Str(k) in done;
      } else {
        assert Str(k) in done + {pid};
      }
    }
  }

  lemma WithStatusNotFound(before: map<string, Item>, done: set<Value>, pid: Value, status: string)
    requires pid !in done && FindItem(before, pid).None?
    ensures FindItem(WithStatus(before, done, status), pid) == FindItem(before, pid)
    ensures WithStatus(before, done + {pid}, status) == WithStatus(before, done, status)
  {
    var now := WithStatus(before, done, status);
    var next := WithStatus(before, done + {pid}, status);
    forall k | k in now
      ensures next[k] == now[k]
    {
      assert Str(k) in done + {pid} <==> Str(k) in done || (pid.Str? && k == pid.s);
    }
  }

  /** Visiting one more id adds it to the found ids exactly when it names a truthy record. */
  lemma FoundStep(before: map<string, Item>, done: set<Value>, pid: Value)
    requires pid !in done
    ensures FindItem(before, pid).Some? ==>
      FoundIds(before, done + {pid}) == FoundIds(before, done) + {pid} && pid !in FoundIds(before, done)
    ensures FindItem(before, pid).None? ==> FoundIds(before, done + {pid}) == FoundIds(before, done)
  {
  }

  /** Visiting one more id adds it to the stored ids exactly when it names a stored record. */
  lemma StoredStep(before: map<string, Item>, done: set<Value>, pid: Value)
    requires pid !in done
    ensures pid.Str? && pid.s in before ==>
      StoredIds(before, done + {pid}) == StoredIds(before, done) + {pid} && pid !in StoredIds(before, done)
    ensures !(pid.Str? && pid.s in before) ==> StoredIds(before, done + {pid}) == StoredIds(before, done)
  {
  }

  /** An id that is not found joins the reported ids, and nothing else does. */
  lemma ErrorsStep(errors: seq<Value>, done: set<Value>, found: set<Value>, pid: Value)
    requires pid !in done && found <= done
    requires Distinct(errors) && forall x :: x in errors <==> x in done - found
    ensures Distinct(errors + [pid])
    ensures forall x :: x in errors + [pid] <==> x in (done + {pid}) - found
  {
    DistinctAppend(errors, pid);
  }

  /** Sets the status of each found record, reporting the others as `not found`. */
  method SetStatus(svc: PayloadsService, ids: set<Value>, status: string) returns (affected: nat, errors: seq<Value>)
    modifies svc
    ensures svc.payloads == WithStatus(old(svc.payloads), ids, status)
    ensures svc.index == old(svc.index) && svc.words == old(svc.words)
    ensures affected == |FoundIds(old(svc.payloads), ids)|
    ensures Distinct(errors) && forall x :: x in errors <==> x in ids - FoundIds(old(svc.payloads), ids)
  {
    ghost var before := svc.payloads;
    ghost var done: set<Value> := {};
    var rest := ids;
    affected := 0;
    errors := [];
    assert WithStatus(before, {}, status) == before;
    while rest != {}
      invariant done !! rest && done + rest == ids
      invariant svc.payloads == WithStatus(before, done, status)
      invariant svc.index == old(svc.index) && svc.words == old(svc.words)
      invariant affected == |FoundIds(before, done)| && FoundIds(before, done) <= done
      invariant Distinct(errors) && forall x :: x in errors <==> x in done - FoundIds(before, done)
      decreases |rest|
    {
      var pid :| pid in rest;
      affected, errors := SetStatusOne(svc, before, done, pid, status, affected, errors);
      done := done + {pid};
      rest := rest - {pid};
    }
  }

  /** One turn of the status loop: `pid` joins the ids handled so far. */
  method SetStatusOne(svc: PayloadsService, ghost before: map<string, Item>, ghost done: set<Value>, pid: Value,
                      status: string, affected: nat, errors: seq<Value>)
    returns (affected': nat, errors': seq<Value>)
    requires pid !in done
    requires svc.payloads == WithStatus(before, done, status)
    requires affected == |FoundIds(before, done)| && FoundIds(before, done) <= done
    requires Distinct(errors) && forall x :: x in errors <==> x in done - FoundIds(before, done)
    modifies svc
    ensures svc.payloads == WithStatus(before, done + {pid}, status)
    ensures svc.index == old(svc.index) && svc.words == old(svc.words)
    ensures affected' == |FoundIds(before, done + {pid})| && FoundIds(before, done + {pid}) <= done + {pid}
    ensures Distinct(errors') && forall x :: x in errors' <==> x in (done + {pid}) - FoundIds(before, done + {pid})
  {
    WithStatusStep(before, done, pid, status);
    FoundStep(before, done, pid);
    affected', errors' := affected, errors;
    var item := FindItem(svc.payloads, pid);
    if item.Some? {
      svc.payloads := svc.payloads[pid.s := item.value["status" := Str(status)]];
      affected' := affected + 1;
    } else {
      ErrorsStep(errors, done, FoundIds(before, done), pid);
      errors' := errors + [pid];
    }
  }

  /** The names of the string ids among `done`: what the deletions so far removed. */
  function Removed(done: set<Value>): set<string> {
    set x | x in done && x.Str? :: x.s
  }

  /** Deleting one more id removes its record, if it has one, and nothing else. */
  lemma RemovedStep(before: map<string, Item>, done: set<Value>, pid: Value)
    requires pid !in done
    ensures pid.Str? ==> pid.s !in Removed(done)
    ensures pid.Str? && pid.s in before ==> before - Removed(done + {pid}) == (before - Removed(done)) - {pid.s}
    ensures !(pid.Str? && pid.s in before) ==> before - Removed(done + {pid}) == before - Removed(done)
  {
    assert Removed(done + {pid}) == if pid.Str? then Removed(done) + {pid.s} else Removed(done);
  }

  /** Deletes each stored id from `_payloads` only, reporting the others as `not found`. */
  method DeleteIds(svc: PayloadsService, ids: set<Value>) returns (affected: nat, errors: seq<Value>)
    modifies svc
    ensures svc.payloads == old(svc.payloads) - Removed(ids)
    ensures svc.index == old(svc.index) && svc.words == old(svc.words)
    ensures affected == |StoredIds(old(svc.payloads), ids)|
    ensures Distinct(errors) && forall x :: x in errors <==> x in ids - StoredIds(old(svc.payloads), ids)
  {
    ghost var before := svc.payloads;
    ghost var done: set<Value> := {};
    var rest := ids;
    affected := 0;
    errors := [];
    assert before - Removed({}) == before;
    while rest != {}
      invariant done !! rest && done + rest == ids
      invariant svc.payloads == before - Removed(done)
      invariant svc.index == old(svc.index) && svc.words == old(svc.words)
      invariant affected == |StoredIds(before, done)| && StoredIds(before, done) <= done
      invariant Distinct(errors) && forall x :: x in errors <==> x in done - StoredIds(before, done)
      decreases |rest|
    {
      var pid :| pid in rest;
      affected, errors := DeleteOne(svc, before, done, pid, affected, errors);
      done := done + {pid};
      rest := rest - {pid};
    }
  }

  /** One turn of the delete loop: `pid` joins the ids handled so far. */
  method DeleteOne(svc: PayloadsService, ghost before: map<string, Item>, ghost done: set<Value>, pid: Value,
                   affected: nat, errors: seq<Value>)
    returns (affected': nat, errors': seq<Value>)
    requires pid !in done
    requires svc.payloads == before - Removed(done)
    requires affected == |StoredIds(before, done)| && StoredIds(before, done) <= done
    requires Distinct(errors) && forall x :: x in errors <==> x in done - StoredIds(before, done)
    modifies svc
    ensures svc.payloads == before - Removed(done + {pid})
    ensures svc.index == old(svc.index) && svc.words == old(svc.words)
    ensures affected' == |StoredIds(before, done + {pid})| && StoredIds(before, done + {pid}) <= done + {pid}
    ensures Distinct(errors') && forall x :: x in errors' <==> x in (done + {pid}) - StoredIds(before, done + {pid})
  {
    RemovedStep(before, done, pid);
    StoredStep(before, done, pid);
    affected', errors' := affected, errors;
    if pid.Str? && pid.s in svc.payloads {
      svc.payloads := svc.payloads - {pid.s};
      affected' := affected + 1;
    } else {
      ErrorsStep(errors, done, StoredIds(before, done), pid);
      errors' := errors + [pid];
    }
  }

  /** The request `batch_actions` hands `_dispatch_single` for one id. */
  function BatchRequest(pid: Value, args: Value, targets: Value, mode: Value): Value {
    Dict(map["id" := pid, "args" := args, "targets" := targets, "mode" := mode])
  }

  /** The ids the results of a batch dispatch name, in order. */
  function ResultIds(rs: seq<(Value, Dispatch)>): (ids: seq<Value>)
    ensures |ids| == |rs| && forall i :: 0 <= i < |rs| ==> ids[i] == rs[i].0
  {
    seq(|rs|, i requires 0 <= i < |rs| => rs[i].0)
  }

  /** The calls dispatching each id of `order` in turn makes, one dispatch after the other. */
  function BatchCalls(payloads: map<string, Item>, order: seq<Value>, args: Value, targets: Value, mode: Value,
                      base: string, o: Oracles): seq<Call>
    decreases |order|
  {
    if order == [] then []
    else
      BatchCalls(payloads, order[..|order| - 1], args, targets, mode, base, o)
      + DispatchSpec(payloads, BatchRequest(order[|order| - 1], args, targets, mode), base, o).1
  }

  /** The calls of one more id follow those of the ids before it. */
  lemma BatchCallsSnoc(payloads: map<string, Item>, order: seq<Value>, pid: Value, args: Value,
                       targets: Value, mode: Value, base: string, o: Oracles)
    ensures BatchCalls(payloads, order + [pid], args, targets, mode, base, o)
      == BatchCalls(payloads, order, args, targets, mode, base, o)
         + DispatchSpec(payloads, BatchRequest(pid, args, targets, mode), base, o).1
  {
    assert (order + [pid])[..|order|] == order;
  }

  /**
   * What the dispatch branch of `batch_actions` promises: it raises exactly
   * when dispatching one of the ids raises; otherwise each id comes back
   * once, paired with what `_dispatch_single` returns for it, and the calls
   * are those of the single dispatches, one after the other in the order of
   * the results.
   */
  ghost predicate BatchDispatched(payloads: map<string, Item>, ids: set<Value>, args: Value, targets: Value, mode: Value,
                            base: string, o: Oracles, r: Outcome<BatchResult>, calls: seq<Call>) {
    && (r.Fault? <==> exists pid :: pid in ids && DispatchSpec(payloads, BatchRequest(pid, args, targets, mode), base, o).0.Fault?)
    && (r.Ok? ==>
          && r.value.Dispatched?
          && Distinct(ResultIds(r.value.results))
          && (forall pid :: pid in ids <==> pid in ResultIds(r.value.results))
          && (forall i :: 0 <= i < |r.value.results| ==>
                DispatchSpec(payloads, BatchRequest(r.value.results[i].0, args, targets, mode), base, o).0
                  == Ok(r.value.results[i].1))
          && calls == BatchCalls(payloads, ResultIds(r.value.results), args, targets, mode, base, o))
  }

  /** The invariant of the dispatch loop survives one more id whose dispatch does not raise. */
  lemma DispatchedStep(payloads: map<string, Item>, ids: set<Value>, rest: set<Value>, results: seq<(Value, Dispatch)>,
                       calls: seq<Call>, pid: Value, d: Dispatch, made: seq<Call>,
                       args: Value, targets: Value, mode: Value, base: string, o: Oracles)
    requires pid in rest && rest <= ids
    requires Distinct(ResultIds(results))
    requires forall x :: x in ResultIds(results) <==> x in ids && x !in rest
    requires forall i :: 0 <= i < |results| ==>
      DispatchSpec(payloads, BatchRequest(results[i].0, args, targets, mode), base, o).0 == Ok(results[i].1)
    requires calls == BatchCalls(payloads, ResultIds(results), args, targets, mode, base, o)
    requires DispatchSpec(payloads, BatchRequest(pid, args, targets, mode), base, o) == (Ok(d), made)
    ensures var results', rest' := results + [(pid, d)], rest - {pid};
      && Distinct(ResultIds(results'))
      && (forall x :: x in ResultIds(results') <==> x in ids && x !in rest')
      && (forall i :: 0 <= i < |results'| ==>
            DispatchSpec(payloads, BatchRequest(results'[i].0, args, targets, mode), base, o).0 == Ok(results'[i].1))
      && calls + made == BatchCalls(payloads, ResultIds(results'), args, targets, mode, base, o)
  {
    var results' := results + [(pid, d)];
    BatchCallsSnoc(payloads, ResultIds(results), pid, args, targets, mode, base, o);
    DistinctAppend(ResultIds(results), pid);
    assert ResultIds(results') == ResultIds(results) + [pid];
    forall i | 0 <= i < |results'|
      ensures DispatchSpec(payloads, BatchRequest(results'[i].0, args, targets, mode), base, o).0 == Ok(results'[i].1)
    {
      if i < |results| {
        assert results'[i] == results[i];
      }
    }
  }

  /** The dispatch loop of `batch_actions`: `_dispatch_single` for each id, in the order the set yields them. */
  method DispatchEach(payloads: map<string, Item>, ids: set<Value>, args: Value, targets: Value, mode: Value,
                      base: string, o: Oracles)
    returns (r: Outcome<BatchResult>, calls: seq<Call>)
    ensures BatchDispatched(payloads, ids, args, targets, mode, base, o, r, calls)
  {
    var results: seq<(Value, Dispatch)> := [];
    calls := [];
    var rest := ids;
    while rest != {}
      invariant rest <= ids
      invariant Distinct(ResultIds(results))
      invariant forall x :: x in ResultIds(results) <==> x in ids && x !in rest
      invariant forall i :: 0 <= i < |results| ==>
        DispatchSpec(payloads, BatchRequest(results[i].0, args, targets, mode), base, o).0 == Ok(results[i].1)
      invariant calls == BatchCalls(payloads, ResultIds(results), args, targets, mode, base, o)
      decreases |rest|
    {
      var pid :| pid in rest;
      var resp, made := DispatchSingle(payloads, BatchRequest(pid, args, targets, mode), base, o);
      if resp.Fault? {
        return Fault, calls + made;
      }
      DispatchedStep(payloads, ids, rest, results, calls, pid, resp.value, made, args, targets, mode, base, o);
      calls := calls + made;
      results := results + [(pid, resp.value)];
      rest := rest - {pid};
    }
    forall pid | pid in ids
      ensures DispatchSpec(payloads, BatchRequest(pid, args, targets, mode), base, o).0.Ok?
    {
      var i :| 0 <= i < |results| && ResultIds(results)[i] == pid;
    }
    r := Ok(Dispatched(results));
  }

  /**
   * `batch_actions(body)`: the distinct ids of the body, then `enable` and
   * `disable` set the status of the records found, `delete` removes them
   * from the primary map only, `dispatch` dispatches each of them, and any
   * other action is unsupported.
   */
  method BatchActions(svc: PayloadsService, body: Value, base: string, o: Oracles)
    returns (r: Outcome<BatchResult>, calls: seq<Call>)
    modifies svc
    ensures svc.index == old(svc.index) && svc.words == old(svc.words)
    ensures !body.Dict? || IdSet(Get(body.fields, "ids")).Fault? ==> r.Fault? && svc.payloads == old(svc.payloads)
    ensures body.Dict? && IdSet(Get(body.fields, "ids")).Ok? ==>
      var action := Get(body.fields, "action");
      var ids := IdSet(Get(body.fields, "ids")).value;
      && (action == Str("enable") || action == Str("disable") ==>
            && svc.payloads == WithStatus(old(svc.payloads), ids, if action == Str("disable") then "disabled" else "active")
            && r.Ok? && r.value.Counted? && r.value.affected == |FoundIds(old(svc.payloads), ids)|
            && forall x :: x in r.value.errors <==> x in ids - FoundIds(old(svc.payloads), ids))
      && (action == Str("delete") ==>
            && svc.payloads == old(svc.payloads) - Removed(ids)
            && r.Ok? && r.value.Counted? && r.value.affected == |StoredIds(old(svc.payloads), ids)|
            && forall x :: x in r.value.errors <==> x in ids - StoredIds(old(svc.payloads), ids))
      && (action == Str("dispatch") ==>
            && svc.payloads == old(svc.payloads)
            && BatchDispatched(old(svc.payloads), ids, Or(Get(body.fields, "args"), Dict(map[])),
                 Or(Get(body.fields, "targets"), Dict(map[])),
                 Or(Get(body.fields, "mode"), Str("dispatch_to_agents")), base, o, r, calls))
      && (action !in {Str("enable"), Str("disable"), Str("delete"), Str("dispatch")} ==>
            r == Ok(Unsupported) && svc.payloads == old(svc.payloads) && calls == [])
  {
    calls := [];
    if !body.Dict? {
      return Fault, [];
    }
    var idSet := IdSet(Get(body.fields, "ids"));
    if idSet.Fault? {
      return Fault, [];
    }
    var ids := idSet.value;
    var action := Get(body.fields, "action");
    var targets := Or(Get(body.fields, "targets"), Dict(map[]));
    if action == Str("enable") || action == Str("disable") {
      var affected, errors := SetStatus(svc, ids, if action == Str("disable") then "disabled" else "active");
      return Ok(Counted(affected, errors)), [];
    } else if action == Str("delete") {
      var affected, errors := DeleteIds(svc, ids);
      return Ok(Counted(affected, errors)), [];
    } else if action == Str("dispatch") {
      var args := Or(Get(body.fields, "args"), Dict(map[]));
      var mode := Or(Get(body.fields, "mode"), Str("dispatch_to_agents"));
      r, calls := DispatchEach(svc.payloads, ids, args, targets, mode, base, o);
    } else {
      return Ok(Unsupported), [];
    }
  }

  /**
   * After a batch `delete`, an id still filed under a facet key is matched
   * by a query on that key, and listing that query raises: the record is
   * gone but the index still holds its id.
   */
  lemma {:induction false} DeleteThenListRaises(s: State, pid: string, f: Facet, key: string)
    requires pid in Postings(s.index, IndexKey(f, key))
    ensures var after := State(s.payloads - {pid}, s.index, s.words);
      ListRaises(after, Query("", map[f := [key]], 1, 20, ""))
  {
    var after := State(s.payloads - {pid}, s.index, s.words);
    var q := Query("", map[f := [key]], 1, 20, "");
    assert Filter(q, f) == [key];
    assert SearchTerms(q) == [];
    assert !Unconstrained(q);
    MatchMeaning(after, q, pid);
    forall g, v | v in Filter(q, g)
      ensures pid in Postings(after.index, IndexKey(g, v))
    {
      assert g == f && v == key;
    }
    assert pid in MatchSpec(after, q);
  }

  // ----- list_agents -----

  /** An agent as `list_agents` lists it. */
  datatype AgentRow = AgentRow(paw: string, host: string, platform: string, executors: seq<string>)

  datatype AgentPage = AgentPage(items: seq<AgentRow>, total: nat, page: int, pageSize: int)

  function RowOf(a: Agent): AgentRow {
    AgentRow(a.paw, a.host, a.platform, a.executors)
  }

  /** The search keeps agents whose host or paw holds it, ignoring case; online-only drops silent agents. */
  predicate AgentListed(a: Agent, search: string, onlineOnly: bool) {
    && (search == [] || Contains(Lower(a.host), search) || Contains(Lower(a.paw), search))
    && (!onlineOnly || a.watchdog != 0)
  }

  /** The rows of the agents listed, in order. */
  function KeptAgents(agents: seq<Agent>, search: string, onlineOnly: bool): seq<AgentRow>
    decreases |agents|
  {
    if agents == [] then []
    else
      var pre := KeptAgents(agents[..|agents| - 1], search, onlineOnly);
      var a := agents[|agents| - 1];
      if AgentListed(a, search, onlineOnly) then pre + [RowOf(a)] else pre
  }

  /** Filtering a concatenation filters each part: the kept rows keep the agents' order. */
  lemma {:induction false} KeptAgentsAppend(a: seq<Agent>, b: seq<Agent>, search: string, onlineOnly: bool)
    ensures KeptAgents(a + b, search, onlineOnly) == KeptAgents(a, search, onlineOnly) + KeptAgents(b, search, onlineOnly)
    decreases |b|
  {
    if b == [] {
      assert a + b == a;
    } else {
      assert (a + b)[..|a + b| - 1] == a + b[..|b| - 1];
      KeptAgentsAppend(a, b[..|b| - 1], search, onlineOnly);
    }
  }

  /** Exactly the listed agents are kept, and no more rows than agents. */
  lemma {:induction false} KeptAgentsMeaning(agents: seq<Agent>, search: string, onlineOnly: bool)
    ensures |KeptAgents(agents, search, onlineOnly)| <= |agents|
    ensures forall a :: a in agents && AgentListed(a, search, onlineOnly) ==> RowOf(a) in KeptAgents(agents, search, onlineOnly)
    ensures forall r :: r in KeptAgents(agents, search, onlineOnly) ==>
      exists a :: a in agents && AgentListed(a, search, onlineOnly) && RowOf(a) == r
    decreases |agents|
  {
    if agents != [] {
      var init := agents[..|agents| - 1];
      KeptAgentsMeaning(init, search, onlineOnly);
      assert forall a :: a in agents ==> a in init || a == agents[|agents| - 1];
      assert forall a :: a in init ==> a in agents;
    }
  }

  /**
   * `list_agents`: keep the agents matching the lower-cased, stripped search
   * and, when asked, only those online; return the page and the count kept.
   */
  method ListAgents(agents: seq<Agent>, searchParam: string, onlineParam: string, page: int, pageSize: int)
    returns (r: AgentPage)
    ensures var kept := KeptAgents(agents, Strip(Lower(searchParam)), Lower(onlineParam) == "true");
      var start := (page - 1) * pageSize;
      r == AgentPage(PySlice(kept, start, start + pageSize), |kept|, page, pageSize)
  {
    var search := Strip(Lower(searchParam));
    var onlineOnly := Lower(onlineParam) == "true";
    var filtered: seq<AgentRow> := [];
    var i := 0;
    while i < |agents|
      invariant 0 <= i <= |agents|
      invariant filtered == KeptAgents(agents[..i], search, onlineOnly)
    {
      assert agents[..i + 1][..i] == agents[..i];
      var a := agents[i];
      if search != [] && !Contains(Lower(a.host), search) && !Contains(Lower(a.paw), search) {
      } else if onlineOnly && a.watchdog == 0 {
      } else {
        filtered := filtered + [RowOf(a)];
      }
      i := i + 1;
    }
    assert agents[..|agents|] == agents;
    var start := (page - 1) * pageSize;
    r := AgentPage(PySlice(filtered, start, start + pageSize), |filtered|, page, pageSize);
  }

  // ----- history -----

  /** An operation record as `data_svc.locate('operations')` returns it. */
  datatype Operation = Operation(id: Value, name: string, state: string, start: Value)

  datatype HistoryItem = HistoryItem(id: Value, name: string, state: string, created: Value)

  /** The plugin's operations among `ops`, in order. */
  function PluginOps(ops: seq<Operation>): seq<HistoryItem>
    decreases |ops|
  {
    if ops == [] then []
    else
      var pre := PluginOps(ops[..|ops| - 1]);
      var op := ops[|ops| - 1];
      if StartsWith(op.name, "payload-") then pre + [HistoryItem(op.id, op.name, op.state, op.start)] else pre
  }

  function Reverse<T>(xs: seq<T>): (r: seq<T>)
    ensures |r| == |xs| && forall i :: 0 <= i < |xs| ==> r[i] == xs[|xs| - 1 - i]
  {
    if xs == [] then [] else [xs[|xs| - 1]] + Reverse(xs[..|xs| - 1])
  }

  /**
   * `history`: of the last 200 operations, those whose name starts with
   * `payload-`, newest first.
   */
  method History(ops: seq<Operation>) returns (items: seq<HistoryItem>)
    ensures items == Reverse(PluginOps(PySlice(ops, -200, |ops|)))
  {
    var recent := PySlice(ops, -200, |ops|);
    var kept: seq<HistoryItem> := [];
    var i := 0;
    while i < |recent|
      invariant 0 <= i <= |recent|
      invariant kept == PluginOps(recent[..i])
    {
      assert recent[..i + 1][..i] == recent[..i];
      var op := recent[i];
      if StartsWith(op.name, "payload-") {
        kept := kept + [HistoryItem(op.id, op.name, op.state, op.start)];
      }
      i := i + 1;
    }
    assert recent[..|recent|] == recent;
    items := Reverse(kept);
  }

  /** Every plugin operation kept comes from `ops` and has a `payload-` name. */
  lemma PluginOpsMeaning(ops: seq<Operation>)
    ensures |PluginOps(ops)| <= |ops|
    ensures forall h :: h in PluginOps(ops) ==> (StartsWith(h.name, "payload-") &&
      exists op :: op in ops && op.id == h.id && op.name == h.name)
    ensures forall op :: op in ops && StartsWith(op.name, "payload-") ==>
      HistoryItem(op.id, op.name, op.state, op.start) in PluginOps(ops)
  {
    PluginOpsSound(ops);
    PluginOpsComplete(ops);
  }

  lemma {:induction false} PluginOpsSound(ops: seq<Operation>)
    ensures |PluginOps(ops)| <= |ops|
    ensures forall h :: h in PluginOps(ops) ==> (StartsWith(h.name, "payload-") &&
      exists op :: op in ops && op.id == h.id && op.name == h.name)
    decreases |ops|
  {
    if ops != [] {
      var init, last := ops[..|ops| - 1], ops[|ops| - 1];
      PluginOpsSound(init);
      var kept := PluginOps(init);
      var item := HistoryItem(last.id, last.name, last.state, last.start);
      assert PluginOps(ops) == if StartsWith(last.name, "payload-") then kept + [item] else kept;
      forall h | h in PluginOps(ops)
        ensures StartsWith(h.name, "payload-") && exists op :: op in ops && op.id == h.id && op.name == h.name
      {
        if h in kept {
          var op :| op in init && op.id == h.id && op.name == h.name;
          assert op in ops;
        } else {
          assert h == item && last in ops;
        }
      }
    }
  }

  lemma {:induction false} PluginOpsComplete(ops: seq<Operation>)
    ensures forall op :: op in ops && StartsWith(op.name, "payload-") ==>
      HistoryItem(op.id, op.name, op.state, op.start) in PluginOps(ops)
    decreases |ops|
  {
    if ops != [] {
      var init, last := ops[..|ops| - 1], ops[|ops| - 1];
      PluginOpsComplete(init);
      assert ops == init + [last];
      forall op | op in ops && StartsWith(op.name, "payload-")
        ensures HistoryItem(op.id, op.name, op.state, op.start) in PluginOps(ops)
      {
        if op != last {
          assert op in init;
        }
      }
    }
  }

  /** The history shows at most 200 operations, all from the most recent 200. */
  lemma HistoryWindow(ops: seq<Operation>)
    ensures var recent := PySlice(ops, -200, |ops|);
      && |recent| <= 200
      && (|ops| <= 200 ==> recent == ops)
      && (|ops| > 200 ==> recent == ops[|ops| - 200..])
  {
  }

  // ----- export_payloads (CSV) -----

  const CsvFields: seq<string> := ["id", "name", "md5", "file_type", "os", "tactics", "severity", "status", "updated_at", "tags"]

  /** A cell as `csv.DictWriter` writes a value: empty for `None`, else `str(v)`. */
  function CsvCell(v: Value): string {
    if v.Null? then "" else PyStr(v)
  }

  /** `','.join(v or [])`, which raises unless every element is a string. */
  function JoinedStrs(v: Value): Outcome<string> {
    var w := ListOr(v);
    match w
    case List(e) => if forall x :: x in e ==> x.Str? then Ok(Join(",", seq(|e|, i requires 0 <= i < |e| => e[i].s))) else Fault
    case Str(s) => Ok(Join(",", seq(|s|, i requires 0 <= i < |s| => [s[i]])))
    case _ => Fault
  }

  /** `','.join(str(x) for x in (v or []))`. */
  function JoinedReprs(v: Value): Outcome<string> {
    var w := ListOr(v);
    match w
    case List(e) => Ok(Join(",", seq(|e|, i requires 0 <= i < |e| => PyStr(e[i]))))
    case Str(s) => Ok(Join(",", seq(|s|, i requires 0 <= i < |s| => [s[i]])))
    case _ => Fault
  }

  /** The row `export_payloads` writes for a record, in the order of the header. */
  function CsvRow(it: Item): (r: Outcome<seq<string>>)
    ensures r.Ok? ==> |r.value| == |CsvFields|
    ensures r.Ok? ==> forall i :: 0 <= i < |CsvFields| && CsvFields[i] !in {"os", "tactics", "tags"} ==>
      r.value[i] == CsvCell(GetOr(it, CsvFields[i], Str("")))
    ensures r.Ok? <==> JoinedStrs(Get(it, "os")).Ok? && JoinedReprs(Get(it, "tactics")).Ok? && JoinedStrs(Get(it, "tags")).Ok?
    ensures r.Ok? ==> && r.value[4] == JoinedStrs(Get(it, "os")).value
                      && r.value[5] == JoinedReprs(Get(it, "tactics")).value
                      && r.value[9] == JoinedStrs(Get(it, "tags")).value
  {
    match (JoinedStrs(Get(it, "os")), JoinedReprs(Get(it, "tactics")), JoinedStrs(Get(it, "tags")))
    case (Ok(os), Ok(tactics), Ok(tags)) =>
      Ok([CsvCell(GetOr(it, "id", Str(""))), CsvCell(GetOr(it, "name", Str(""))),
          CsvCell(GetOr(it, "md5", Str(""))), CsvCell(GetOr(it, "file_type", Str(""))),
          os, tactics,
          CsvCell(GetOr(it, "severity", Str(""))), CsvCell(GetOr(it, "status", Str(""))),
          CsvCell(GetOr(it, "updated_at", Str(""))), tags])
    case _ => Fault
  }

  /**
   * The `os` cell of a row splits back at its commas into the record's `os`
   * list, when the list is non-empty and no name holds a comma.
   */
  lemma CsvOsRoundTrip(it: Item, os: seq<string>)
    requires Get(it, "os") == List(seq(|os|, i requires 0 <= i < |os| => Str(os[i])))
    requires os != [] && forall o :: o in os ==> ',' !in o
    requires CsvRow(it).Ok?
    ensures SplitOn(CsvRow(it).value[4], ',') == os
  {
    var e := Get(it, "os").elems;
    assert seq(|e|, i requires 0 <= i < |e| => e[i].s) == os;
    SplitOnJoin(os, ',');
  }

  /** `[payloads[i] for i in ids if i in payloads]`: the records of the stored ids, in the order asked. */
  function ExportSelect(payloads: map<string, Item>, ids: seq<string>): (r: seq<Item>)
    ensures |r| <= |ids|
    ensures (forall i :: i in ids ==> i in payloads) ==> |r| == |ids| && forall k :: 0 <= k < |ids| ==> r[k] == payloads[ids[k]]
    ensures forall x :: x in r ==> exists i :: i in ids && i in payloads && payloads[i] == x
    decreases |ids|
  {
    if ids == [] then []
    else
      var rest := ExportSelect(payloads, ids[1..]);
      assert forall i :: i in ids[1..] ==> i in ids;
      if ids[0] in payloads then [payloads[ids[0]]] + rest else rest
  }

  /** The requested ids that are stored, in request order. */
  function StoredAsked(payloads: map<string, Item>, ids: seq<string>): seq<string> {
    AgentAccess.Select(ids, (i: string) => i in payloads)
  }

  /** The export is `StoredAsked(payloads, ids)` with each id replaced by its record. */
  lemma {:induction false} ExportSelectKept(payloads: map<string, Item>, ids: seq<string>)
    ensures var kept := StoredAsked(payloads, ids);
      && |ExportSelect(payloads, ids)| == |kept|
      && forall k :: 0 <= k < |kept| ==> kept[k] in payloads && ExportSelect(payloads, ids)[k] == payloads[kept[k]]
    decreases |ids|
  {
    if ids != [] {
      ExportSelectKept(payloads, ids[1..]);
      var p := (i: string) => i in payloads;
      assert StoredAsked(payloads, ids[1..]) == AgentAccess.Select(ids[1..], p);
      if ids[0] in payloads {
        assert StoredAsked(payloads, ids) == [ids[0]] + StoredAsked(payloads, ids[1..]);
      } else {
        assert StoredAsked(payloads, ids) == StoredAsked(payloads, ids[1..]);
      }
    }
  }

  /**
   * The export is the stored ids among those asked, kept in request order,
   * each replaced by its record: every requested id that is stored has its
   * record exported, and no other record is.
   */
  lemma ExportSelectMeaning(payloads: map<string, Item>, ids: seq<string>)
    ensures var kept := StoredAsked(payloads, ids);
      && AgentAccess.IsSublist(kept, ids)
      && (forall i :: i in kept <==> i in ids && i in payloads)
      && |ExportSelect(payloads, ids)| == |kept|
      && forall k :: 0 <= k < |kept| ==> kept[k] in payloads && ExportSelect(payloads, ids)[k] == payloads[kept[k]]
    ensures forall i :: i in ids && i in payloads ==> payloads[i] in ExportSelect(payloads, ids)
  {
    AgentAccess.SelectMeaning(ids, (i: string) => i in payloads);
    ExportSelectKept(payloads, ids);
    var kept := StoredAsked(payloads, ids);
    forall i | i in ids && i in payloads
      ensures payloads[i] in ExportSelect(payloads, ids)
    {
      var k :| 0 <= k < |kept| && kept[k] == i;
    }
  }
}
