/** The fleet agent's message handling: how a decoded server message turns
    into an ordered sequence of effects (fetching an image, pruning old
    images, regenerating the boot menu, sending a report, rebooting).

    Every handler is specified by a `Script`: the effects it issues in order
    when each of them succeeds, and how it ends after the last one (normally,
    or by a Python exception raised between effects). Effects are external
    commands numbered by their trace position, and a failing one raises
    (see module `Faults`). */
module FleetClient {
  import opened Wrappers
  import opened Faults
  import opened Decimal

  /** A JSON value as `json.loads` returns it. */
  datatype Json =
    | JNull
    | JBool(b: bool)
    | JInt(i: int)
    | JStr(s: string)
    | JList(items: seq<Json>)
    | JObject(fields: map<string, Json>)

  /** The Python exceptions the handlers can raise. */
  datatype Error =
    | KeyError(key: string)
    | TypeError
    | ValueError
    | AssertionError
    | CollaboratorFailed
    | EffectFailed(effect: Effect)

  /** The external actions of the agent. `Fetch` carries the configured
      image type (it names the image URL) and the pinned timestamp, if any. */
  datatype Effect =
    | Fetch(imageType: Json, timestamp: Option<Json>)
    | DeleteOldImages(skip: set<string>)
    | UpdateGrub
    | Send(message: Json)
    | Reboot

  /** What the host answers when a report is built: the host name, the
      uptime in whole seconds, the name of the image that boots next and its
      volume id (`None`: the lookup raised). */
  datatype Probe = Probe(
    hostname: string,
    uptime: int,
    currentImage: Option<string>,
    nextVolumeId: Option<string>)

  /** The environment: what the host answers for a report built when `n`
      effects have been attempted, `probe(n)`, and which effects fail. */
  datatype Env = Env(probe: nat -> Probe, failing: set<nat>)

  // ---------------------------------------------------------------------
  // Python operations on JSON values

  /** Definition of `j[key]` for a string key; its contract spells out the
      three cases of Python's subscript for reference by the handlers. */
  function Subscript(j: Json, key: string): (r: Result<Json, Error>)
    ensures r.Ok? <==> j.JObject? && key in j.fields
    ensures r.Ok? ==> r.value == j.fields[key]
    ensures r.Err? ==> r.error == (if j.JObject? then KeyError(key) else TypeError)
  {
    match j
    case JObject(m) => if key in m then Ok(m[key]) else Err(KeyError(key))
    case _ => Err(TypeError)
  }

  /** Definition of `config[key]` on the configuration object; its contract
      spells out the two cases for reference by the handlers. */
  function ConfigGet(config: map<string, Json>, key: string): (r: Result<Json, Error>)
    ensures r.Ok? <==> key in config
    ensures r.Ok? ==> r.value == config[key]
    ensures r.Err? ==> r.error == KeyError(key)
  {
    if key in config then Ok(config[key]) else Err(KeyError(key))
  }

  /** `t` occurs in `s` at some position. */
  predicate IsSubstring(t: string, s: string)
    decreases |s|
  {
    (|t| <= |s| && s[..|t|] == t) || (s != [] && IsSubstring(t, s[1..]))
  }

  /** `x in container`: membership in a list, a key of an object (a list or
      an object as the key is unhashable), a substring of a string; any other
      container is not iterable. */
  function Contains(container: Json, x: Json): (r: Result<bool, Error>)
    ensures container.JList? ==> r == Ok(x in container.items)
    ensures container.JObject? && x.JStr? ==> r == Ok(x.s in container.fields)
    ensures r.Err? <==>
      (container.JObject? && (x.JList? || x.JObject?)) ||
      (container.JStr? && !x.JStr?) ||
      container.JNull? || container.JBool? || container.JInt?
  {
    match container
    case JList(items) => Ok(x in items)
    case JObject(m) =>
      (match x
       case JStr(k) => Ok(k in m)
       case JList(_) => Err(TypeError)
       case JObject(_) => Err(TypeError)
       case _ => Ok(false))
    case JStr(s) => if x.JStr? then Ok(IsSubstring(x.s, s)) else Err(TypeError)
    case _ => Err(TypeError)
  }

  /** `'%d' % v`: integers (and booleans, which are integers in Python). */
  function FormatD(v: Json): (r: Result<string, Error>)
    ensures r.Ok? <==> v.JInt? || v.JBool?
    ensures v.JInt? ==> r == Ok(FormatInt(v.i))
    ensures v.JBool? ==> r == Ok(if v.b then "1" else "0")
  {
    match v
    case JInt(i) => Ok(FormatInt(i))
    case JBool(b) => Ok(if b then "1" else "0")
    case _ => Err(TypeError)
  }

  // ---------------------------------------------------------------------
  // Scripts and their runs

  /** A handler's behaviour: `effects` in order, then `end`, when every
      effect succeeds. */
  datatype Script = Script(effects: seq<Effect>, end: Result<(), Error>)

  const Done := Script([], Ok(()))

  function Fail(e: Error): Script
  {
    Script([], Err(e))
  }

  function Emit(e: Effect): Script
  {
    Script([e], Ok(()))
  }

  /** `s1` followed by `s2`; an exception ending `s1` skips `s2`. */
  function Then(s1: Script, s2: Script): Script
  {
    if s1.end.Ok? then Script(s1.effects + s2.effects, s2.end) else s1
  }

  /** The effects a run attempts, and how it ends. */
  datatype Outcome = Outcome(attempted: seq<Effect>, result: Result<(), Error>)

  /** Running `s` from trace position `at`: a failing effect raises
      `EffectFailed` and is the last one attempted. */
  function Run(s: Script, failing: set<nat>, at: nat): (o: Outcome)
    ensures o.attempted <= s.effects
    ensures o.result.Ok? ==> o.attempted == s.effects && s.end.Ok?
    ensures (forall i :: at <= i < at + |s.effects| ==> i !in failing) ==> o == Outcome(s.effects, s.end)
  {
    var tried := Attempted(s.effects, failing, at);
    if AllOk(s.effects, failing, at) then Outcome(tried, s.end)
    else Outcome(tried, Err(EffectFailed(tried[|tried| - 1])))
  }

  /** Running `Then(s1, s2)` runs `s1` and, if it ended normally, `s2` right
      after it. */
  lemma RunThen(s1: Script, s2: Script, failing: set<nat>, at: nat)
    ensures Run(s1, failing, at).result.Err? ==> Run(Then(s1, s2), failing, at) == Run(s1, failing, at)
    ensures Run(s1, failing, at).result.Ok? ==>
      var o2 := Run(s2, failing, at + |s1.effects|);
      Run(Then(s1, s2), failing, at) == Outcome(s1.effects + o2.attempted, o2.result)
  {
    if Run(s1, failing, at).result.Err? {
      RunThenRaised(s1, s2, failing, at);
    } else {
      RunThenContinues(s1, s2, failing, at, at + |s1.effects|);
    }
  }

  /** `s1` raised: `s2` is never reached. */
  lemma RunThenRaised(s1: Script, s2: Script, failing: set<nat>, at: nat)
    requires Run(s1, failing, at).result.Err?
    ensures Run(Then(s1, s2), failing, at) == Run(s1, failing, at)
  {
    if s1.end.Ok? {
      RunThenStops(s1, s2, failing, at);
    }
  }

  /** An effect of `s1` failed: `s2` is never reached. */
  lemma RunThenStops(s1: Script, s2: Script, failing: set<nat>, at: nat)
    requires s1.end.Ok? && !AllOk(s1.effects, failing, at)
    ensures Run(Then(s1, s2), failing, at) == Run(s1, failing, at)
  {
    AttemptedAppend(s1.effects, s2.effects, failing, at);
    AllOkAppend(s1.effects, s2.effects, failing, at);
  }

  /** `s1` ended normally: `s2` runs right after it. */
  lemma RunThenContinues(s1: Script, s2: Script, failing: set<nat>, at: nat, mid: nat)
    requires s1.end.Ok? && AllOk(s1.effects, failing, at) && mid == at + |s1.effects|
    ensures var o2 := Run(s2, failing, mid);
      Run(Then(s1, s2), failing, at) == Outcome(s1.effects + o2.attempted, o2.result)
  {
    if AllOk(s2.effects, failing, mid) {
      RunBothOk(s1, s2, failing, at, mid);
    } else {
      RunSecondFails(s1, s2, failing, at, mid);
    }
  }

  lemma RunBothOk(s1: Script, s2: Script, failing: set<nat>, at: nat, mid: nat)
    requires s1.end.Ok? && AllOk(s1.effects, failing, at) && mid == at + |s1.effects|
    requires AllOk(s2.effects, failing, mid)
    ensures var o2 := Run(s2, failing, mid);
      Run(Then(s1, s2), failing, at) == Outcome(s1.effects + o2.attempted, o2.result)
  {
    AttemptedAppend(s1.effects, s2.effects, failing, at);
    AllOkAppend(s1.effects, s2.effects, failing, at);
  }

  lemma RunSecondFails(s1: Script, s2: Script, failing: set<nat>, at: nat, mid: nat)
    requires s1.end.Ok? && AllOk(s1.effects, failing, at) && mid == at + |s1.effects|
    requires !AllOk(s2.effects, failing, mid)
    ensures var o2 := Run(s2, failing, mid);
      Run(Then(s1, s2), failing, at) == Outcome(s1.effects + o2.attempted, o2.result)
  {
    var e1, e2 := s1.effects, s2.effects;
    assert Then(s1, s2).effects == e1 + e2;
    AttemptedAppend(e1, e2, failing, at);
    AllOkAppend(e1, e2, failing, at);
    var tried := Attempted(e2, failing, mid);
    var all := Attempted(e1 + e2, failing, at);
    assert all == e1 + tried && !AllOk(e1 + e2, failing, at);
    assert all[|all| - 1] == tried[|tried| - 1];
  }

  // ---------------------------------------------------------------------
  // The report

  /** `s.split('.', 1)[0]`: the text before the first dot. */
  function BeforeDot(s: string): (r: string)
    ensures r <= s && '.' !in r
    ensures |r| < |s| ==> s[|r|] == '.'
  {
    if s == [] || s[0] == '.' then [] else [s[0]] + BeforeDot(s[1..])
  }

  /** `_NextTimestamp`: the integer before the first dot of the name of
      the image that boots next. */
  function NextTimestamp(currentImage: Option<string>): Result<int, Error>
  {
    match currentImage
    case None => Err(CollaboratorFailed)
    case Some(name) =>
      match ParseInt(BeforeDot(name))
      case None => Err(ValueError)
      case Some(v) => Ok(v)
  }

  /** The image file name `<ts>.iso` gives back `ts`. */
  lemma NextTimestampOfImage(ts: int)
    ensures NextTimestamp(Some(FormatInt(ts) + ".iso")) == Ok(ts)
  {
    var name := FormatInt(ts) + ".iso";
    assert '.' !in FormatInt(ts);
    BeforeDotPrefix(FormatInt(ts), ".iso");
    ParseFormat(ts);
  }

  lemma {:induction false} BeforeDotPrefix(a: string, b: string)
    requires '.' !in a && 0 < |b| && b[0] == '.'
    ensures BeforeDot(a + b) == a
    decreases |a|
  {
    if a != [] {
      assert (a + b)[1..] == a[1..] + b;
      BeforeDotPrefix(a[1..], b);
    }
  }

  /** `_SendReport`'s record: the four host fields, `status` when a non-empty
      one is given, then every configuration entry. */
  function ReportRecord(config: map<string, Json>, host: Probe, ts: int, vol: string, status: Option<string>)
    : map<string, Json>
  {
    var base := map["hostname" := JStr(host.hostname), "uptime_seconds" := JInt(host.uptime),
                    "next_timestamp" := JInt(ts), "next_volume_id" := JStr(vol)];
    var withStatus := if status.Some? && status.value != "" then base["status" := JStr(status.value)] else base;
    withStatus + config
  }

  /** `_SendReport`'s record, when the next image's timestamp and volume id
      can be looked up. */
  function Report(config: map<string, Json>, host: Probe, status: Option<string>): Result<map<string, Json>, Error>
  {
    match NextTimestamp(host.currentImage)
    case Err(e) => Err(e)
    case Ok(ts) =>
      match host.nextVolumeId
      case None => Err(CollaboratorFailed)
      case Some(vol) => Ok(ReportRecord(config, host, ts, vol, status))
  }

  function ReportMessage(report: map<string, Json>): Json
  {
    JObject(map["type" := JStr("report"), "data" := JObject(report)])
  }

  /** The report can be built exactly when the next image's timestamp and
      volume id can be looked up; it holds the host fields, `status` exactly
      when a non-empty status is given or the configuration has one, and the
      configuration's entries override the others. */
  lemma ReportFields(config: map<string, Json>, host: Probe, status: Option<string>)
    ensures Report(config, host, status).Ok? <==> NextTimestamp(host.currentImage).Ok? && host.nextVolumeId.Some?
    ensures Report(config, host, status).Ok? ==>
      var rep := Report(config, host, status).value;
      && rep.Keys == {"hostname", "uptime_seconds", "next_timestamp", "next_volume_id"} + config.Keys +
                     (if status.Some? && status.value != "" then {"status"} else {})
      && (forall k :: k in config ==> rep[k] == config[k])
      && ("hostname" !in config ==> rep["hostname"] == JStr(host.hostname))
      && ("uptime_seconds" !in config ==> rep["uptime_seconds"] == JInt(host.uptime))
      && ("next_timestamp" !in config ==> rep["next_timestamp"] == JInt(NextTimestamp(host.currentImage).value))
      && ("next_volume_id" !in config ==> rep["next_volume_id"] == JStr(host.nextVolumeId.value))
      && ("status" !in config && status.Some? && status.value != "" ==> rep["status"] == JStr(status.value))
  {
  }

  /** `_SendReport` when `at` effects have been attempted: the host is asked
      afresh, and the report, if it can be built, is the effect at `at`. */
  function ReportScript(config: map<string, Json>, env: Env, status: Option<string>, at: nat): (s: Script)
    ensures s.end.Ok? ==> |s.effects| == 1
  {
    match Report(config, env.probe(at), status)
    case Err(e) => Fail(e)
    case Ok(rep) => Emit(Send(ReportMessage(rep)))
  }

  // ---------------------------------------------------------------------
  // The handlers

  /** `_UpdateManifest`: fetch the newest image, prune every other image but
      `<config timestamp>.iso`, regenerate the boot menu. */
  function UpdateManifestScript(config: map<string, Json>): Script
  {
    match ConfigGet(config, "image_type")
    case Err(e) => Fail(e)
    case Ok(imageType) =>
      Then(Emit(Fetch(imageType, None)),
        match ConfigGet(config, "timestamp")
        case Err(e) => Fail(e)
        case Ok(t) =>
          match FormatD(t)
          case Err(e) => Fail(e)
          case Ok(digits) => Then(Emit(DeleteOldImages({digits + ".iso"})), Emit(UpdateGrub)))
  }

  /** `_OnImageTypes`: asserts the configured image type is offered. */
  function ImageTypesScript(config: map<string, Json>, data: Json): Script
  {
    match ConfigGet(config, "image_type")
    case Err(e) => Fail(e)
    case Ok(imageType) =>
      match Subscript(data, "image_types")
      case Err(e) => Fail(e)
      case Ok(types) =>
        match Contains(types, imageType)
        case Err(e) => Fail(e)
        case Ok(found) => if found then Done else Fail(AssertionError)
  }

  /** `_OnNewManifest`: only a manifest of the configured image type
      triggers an update. */
  function NewManifestScript(config: map<string, Json>, data: Json): Script
  {
    match Subscript(data, "image_type")
    case Err(e) => Fail(e)
    case Ok(offered) =>
      match ConfigGet(config, "image_type")
      case Err(e) => Fail(e)
      case Ok(imageType) => if offered != imageType then Done else UpdateManifestScript(config)
  }

  /** `_OnReboot`: with a timestamp, fetch that image and regenerate the
      boot menu first; report, then reboot. */
  function RebootScript(config: map<string, Json>, env: Env, data: Json, at: nat): Script
  {
    match Contains(data, JStr("timestamp"))
    case Err(e) => Fail(e)
    case Ok(pinned) =>
      if pinned then
        match ConfigGet(config, "image_type")
        case Err(e) => Fail(e)
        case Ok(imageType) =>
          match Subscript(data, "timestamp")
          case Err(e) => Fail(e)
          case Ok(ts) =>
            Then(Emit(Fetch(imageType, Some(ts))),
              Then(Emit(UpdateGrub),
                match FormatD(ts)
                case Err(e) => Fail(e)
                case Ok(digits) =>
                  Then(ReportScript(config, env, Some("Rebooting into " + digits + "..."), at + 2), Emit(Reboot))))
      else
        Then(ReportScript(config, env, Some("Rebooting..."), at), Emit(Reboot))
  }

  /** `_OnCommand`: only `reboot` does anything. */
  function CommandScript(config: map<string, Json>, env: Env, data: Json, at: nat): Script
  {
    match Subscript(data, "command")
    case Err(e) => Fail(e)
    case Ok(command) => if command == JStr("reboot") then RebootScript(config, env, data, at) else Done
  }

  /** `received_message` on the decoded message: dispatch on `type`; an
      exception propagates out. */
  function ReceivedScript(config: map<string, Json>, env: Env, parsed: Json, at: nat): Script
  {
    match Subscript(parsed, "type")
    case Err(e) => Fail(e)
    case Ok(t) =>
      if t == JStr("image_types") || t == JStr("new_manifest") || t == JStr("command") then
        match Subscript(parsed, "data")
        case Err(e) => Fail(e)
        case Ok(data) =>
          if t == JStr("image_types") then ImageTypesScript(config, data)
          else if t == JStr("new_manifest") then NewManifestScript(config, data)
          else CommandScript(config, env, data, at)
      else Done
  }

  /** `n` rounds of a loop from trace position `at`, each run only if the
      ones before it ended normally; the last one is given the position
      `at + n - 1`, where it starts when every earlier round attempted one
      effect. */
  function Rounds(round: nat -> Script, n: nat, at: nat): Script
  {
    if n == 0 then Done else Then(Rounds(round, n - 1, at), round(at + n - 1))
  }

  /** The round of `Loop`'s reporting loop that starts at each trace
      position. */
  function Reporting(config: map<string, Json>, env: Env): nat -> Script
  {
    (at: nat) => ReportScript(config, env, None, at)
  }

  /** The first `rounds` reports of `Loop`'s endless reporting loop, from
      trace position `at`: each round reports only if the previous ones
      went through, and asks the host afresh. */
  function ReportsScript(config: map<string, Json>, env: Env, rounds: nat, at: nat): Script
  {
    Rounds(Reporting(config, env), rounds, at)
  }

  /** `Loop`, from trace position `at` up to its `rounds`-th report: one
      manifest update, then one report per round. */
  function LoopScript(config: map<string, Json>, env: Env, rounds: nat, at: nat): Script
  {
    Then(UpdateManifestScript(config), ReportsScript(config, env, rounds, at + |UpdateManifestScript(config).effects|))
  }

  // ---------------------------------------------------------------------
  // Properties of the handlers

  function MessageOf(t: string, data: Json): Json
  {
    JObject(map["type" := JStr(t), "data" := data])
  }

  /** A message of any type but `image_types`, `new_manifest` and `command`
      does nothing; one without a `type` raises `KeyError` and does nothing. */
  lemma OtherTypesIgnored(config: map<string, Json>, env: Env, parsed: Json, at: nat)
    ensures parsed.JObject? && "type" !in parsed.fields ==> ReceivedScript(config, env, parsed, at) == Fail(KeyError("type"))
    ensures parsed.JObject? && "type" in parsed.fields &&
            parsed.fields["type"] !in {JStr("image_types"), JStr("new_manifest"), JStr("command")} ==>
            ReceivedScript(config, env, parsed, at) == Done
  {
  }

  /** Each of the three types goes to its own handler, with the message's
      `data`. */
  lemma Routing(config: map<string, Json>, env: Env, data: Json, at: nat)
    ensures ReceivedScript(config, env, MessageOf("image_types", data), at) == ImageTypesScript(config, data)
    ensures ReceivedScript(config, env, MessageOf("new_manifest", data), at) == NewManifestScript(config, data)
    ensures ReceivedScript(config, env, MessageOf("command", data), at) == CommandScript(config, env, data, at)
  {
    assert JStr("image_types") != JStr("new_manifest") by { assert "image_types"[0] != "new_manifest"[0]; }
    assert JStr("image_types") != JStr("command") by { assert "image_types"[0] != "command"[0]; }
    assert JStr("new_manifest") != JStr("command") by { assert "new_manifest"[0] != "command"[0]; }
  }

  /** `image_types` never has an effect; it raises `AssertionError` exactly
      when the configured type is missing from the offered list. */
  lemma ImageTypesCheck(config: map<string, Json>, types: seq<Json>)
    requires "image_type" in config
    ensures var s := ImageTypesScript(config, JObject(map["image_types" := JList(types)]));
      s.effects == [] && (s.end == Ok(()) <==> config["image_type"] in types) &&
      (s.end.Err? ==> s.end.error == AssertionError)
  {
  }

  /** A manifest for another image type does nothing. */
  lemma ForeignManifestIgnored(config: map<string, Json>, data: Json)
    requires "image_type" in config && data.JObject? && "image_type" in data.fields
    requires data.fields["image_type"] != config["image_type"]
    ensures NewManifestScript(config, data) == Done
  {
  }

  /** A manifest for the configured image type fetches the newest image,
      prunes all but `<config timestamp>.iso` and regenerates the boot menu,
      in that order. */
  lemma OwnManifestUpdates(config: map<string, Json>, data: Json, ts: int)
    requires "image_type" in config && "timestamp" in config && config["timestamp"] == JInt(ts)
    requires data.JObject? && "image_type" in data.fields && data.fields["image_type"] == config["image_type"]
    ensures NewManifestScript(config, data) ==
      Script([Fetch(config["image_type"], None), DeleteOldImages({FormatInt(ts) + ".iso"}), UpdateGrub], Ok(()))
  {
  }

  /** A command other than `reboot` does nothing. */
  lemma OtherCommandsIgnored(config: map<string, Json>, env: Env, data: Json, at: nat)
    requires data.JObject? && "command" in data.fields && data.fields["command"] != JStr("reboot")
    ensures CommandScript(config, env, data, at) == Done
  {
  }

  /** A reboot pinned to a timestamp fetches that image and regenerates the
      boot menu before the report `Rebooting into <ts>...`, built from what
      the host answers after those two effects, and one reboot; nothing is
      pruned. */
  lemma PinnedReboot(config: map<string, Json>, env: Env, data: Json, ts: int, at: nat)
    requires "image_type" in config && Report(config, env.probe(at + 2), Some("Rebooting into " + FormatInt(ts) + "...")).Ok?
    requires data.JObject? && "command" in data.fields && "timestamp" in data.fields
    requires data.fields["command"] == JStr("reboot") && data.fields["timestamp"] == JInt(ts)
    ensures var report := Report(config, env.probe(at + 2), Some("Rebooting into " + FormatInt(ts) + "...")).value;
      CommandScript(config, env, data, at) ==
        Script([Fetch(config["image_type"], Some(JInt(ts))), UpdateGrub, Send(ReportMessage(report)), Reboot], Ok(()))
  {
  }

  /** A reboot without a timestamp sends the report `Rebooting...` and
      reboots once, without fetching or touching the boot menu. */
  lemma PlainReboot(config: map<string, Json>, env: Env, data: Json, at: nat)
    requires Report(config, env.probe(at), Some("Rebooting...")).Ok?
    requires data.JObject? && "command" in data.fields && data.fields["command"] == JStr("reboot")
    requires "timestamp" !in data.fields
    ensures var report := Report(config, env.probe(at), Some("Rebooting...")).value;
      CommandScript(config, env, data, at) == Script([Send(ReportMessage(report)), Reboot], Ok(()))
  {
  }

  /** Unless the report cannot be built, every reboot command ends in
      exactly one reboot, as its last effect, and never prunes images. */
  lemma RebootIsLast(config: map<string, Json>, env: Env, data: Json, at: nat)
    requires data.JObject? && "command" in data.fields && data.fields["command"] == JStr("reboot")
    requires CommandScript(config, env, data, at).end.Ok?
    ensures var es := CommandScript(config, env, data, at).effects;
      0 < |es| && es[|es| - 1] == Reboot &&
      (forall i :: 0 <= i < |es| - 1 ==> es[i] != Reboot) &&
      (forall i :: 0 <= i < |es| ==> !es[i].DeleteOldImages?)
  {
  }

  /** Rounds that all go through attempt one effect each, when every round
      that goes through attempts one effect. */
  lemma {:induction false} RoundsLength(round: nat -> Script, n: nat, at: nat)
    requires forall j :: round(j).end.Ok? ==> |round(j).effects| == 1
    ensures Rounds(round, n, at).end.Ok? ==> |Rounds(round, n, at).effects| == n
  {
    if n > 0 {
      RoundsLength(round, n - 1, at);
    }
  }

  /** Rounds that each end normally end normally together. */
  lemma {:induction false} RoundsOk(round: nat -> Script, n: nat, at: nat)
    requires forall j :: at <= j < at + n ==> round(j).end.Ok?
    ensures Rounds(round, n, at).end.Ok?
  {
    if n > 0 {
      RoundsOk(round, n - 1, at);
    }
  }

  /** Rounds that each emit exactly one effect, `sent(j)` for the round at
      `j`, emit those effects in order. */
  lemma {:induction false} RoundsSent(round: nat -> Script, sent: nat -> Effect, n: nat, at: nat)
    requires forall j :: at <= j < at + n ==> round(j) == Emit(sent(j))
    ensures var s := Rounds(round, n, at);
      && s.end == Ok(())
      && |s.effects| == n
      && forall j :: at <= j < at + n ==> s.effects[j - at] == sent(j)
  {
    if n > 0 {
      RoundsSent(round, sent, n - 1, at);
      var prev, s := Rounds(round, n - 1, at), Rounds(round, n, at);
      assert s.effects == prev.effects + [sent(at + n - 1)];
      forall j | at <= j < at + n
        ensures s.effects[j - at] == sent(j)
      {
        if j < at + n - 1 {
          assert s.effects[j - at] == prev.effects[j - at];
        }
      }
    }
  }

  /** The first round that raises before any effect ends the rounds there,
      with its exception, after the rounds before it. */
  lemma {:induction false} RoundsStop(round: nat -> Script, n: nat, at: nat, k: nat)
    requires k < n && round(at + k).effects == [] && round(at + k).end.Err?
    requires forall j :: at <= j < at + k ==> round(j).end.Ok?
    ensures Rounds(round, n, at) == Script(Rounds(round, k, at).effects, round(at + k).end)
    decreases n
  {
    if n - 1 == k {
      RoundsOk(round, k, at);
      assert Rounds(round, k, at).effects + [] == Rounds(round, k, at).effects;
    } else {
      RoundsStop(round, n - 1, at, k);
    }
  }

  /** Proof helper: one more reporting round is one more report, at the
      position where the earlier rounds stop. */
  lemma ReportsStep(config: map<string, Json>, env: Env, n: nat, at: nat)
    ensures ReportsScript(config, env, n + 1, at) == Then(ReportsScript(config, env, n, at), ReportScript(config, env, None, at + n))
  {
  }

  /** Reporting rounds that all go through attempt one report each. */
  lemma ReportsLength(config: map<string, Json>, env: Env, n: nat, at: nat)
    ensures ReportsScript(config, env, n, at).end.Ok? ==> |ReportsScript(config, env, n, at).effects| == n
  {
    var round := Reporting(config, env);
    forall j
      ensures round(j).end.Ok? ==> |round(j).effects| == 1
    {
    }
    RoundsLength(round, n, at);
  }

  /** When the host can answer each time, the reporting rounds send one
      report per round, in order, the `i`-th built from what the host
      answers when `at + i` effects have been attempted. */
  lemma ReportsSent(config: map<string, Json>, env: Env, rounds: nat, at: nat)
    requires forall j :: at <= j < at + rounds ==> Report(config, env.probe(j), None).Ok?
    ensures var s := ReportsScript(config, env, rounds, at);
      && s.end == Ok(())
      && |s.effects| == rounds
      && forall j :: at <= j < at + rounds ==> s.effects[j - at] == Send(ReportMessage(Report(config, env.probe(j), None).value))
  {
    var sent := (j: nat) =>
      match Report(config, env.probe(j), None)
      case Ok(rep) => Send(ReportMessage(rep))
      case Err(_) => Reboot;
    forall j | at <= j < at + rounds
      ensures sent(j) == Send(ReportMessage(Report(config, env.probe(j), None).value))
      ensures Reporting(config, env)(j) == Emit(sent(j))
    {
    }
    RoundsSent(Reporting(config, env), sent, rounds, at);
  }

  /** The first report the host cannot answer for ends the reporting
      rounds with its exception, after the reports before it. */
  lemma ReportsStop(config: map<string, Json>, env: Env, rounds: nat, at: nat, k: nat)
    requires k < rounds && Report(config, env.probe(at + k), None).Err?
    requires forall j :: at <= j < at + k ==> Report(config, env.probe(j), None).Ok?
    ensures var s := ReportsScript(config, env, rounds, at);
      s.end == Err(Report(config, env.probe(at + k), None).error) && |s.effects| == k
  {
    var round := Reporting(config, env);
    forall j | at <= j < at + k
      ensures round(j).end.Ok?
    {
    }
    RoundsStop(round, rounds, at, k);
    RoundsOk(round, k, at);
    ReportsLength(config, env, k, at);
  }

  // ---------------------------------------------------------------------
  // The agent

  /** The agent: its configuration and the effects it has attempted. */
  class Client {
    const config: map<string, Json>
    const env: Env
    var trace: seq<Effect>

    constructor (config: map<string, Json>, env: Env)
      ensures this.config == config && this.env == env && trace == []
    {
      this.config := config;
      this.env := env;
      trace := [];
    }

    /** `trace` went from `before` to `after` by running `s`, which ended in `r`. */
    predicate Ran(s: Script, before: seq<Effect>, after: seq<Effect>, r: Result<(), Error>)
    {
      var o := Run(s, env.failing, |before|);
      after == before + o.attempted && r == o.result
    }

    method Perform(e: Effect) returns (r: Result<(), Error>)
      modifies this
      ensures |trace| == |old(trace)| + 1
      ensures Ran(Emit(e), old(trace), trace, r)
    {
      var failed := |trace| in env.failing;
      trace := trace + [e];
      if failed {
        r := Err(EffectFailed(e));
      } else {
        r := Ok(());
      }
    }

    /** Proof helper: a run that ended normally attempted all of the
        script's effects. */
    lemma RanOk(s: Script, before: seq<Effect>, after: seq<Effect>)
      requires Ran(s, before, after, Ok(()))
      ensures after == before + s.effects
    {
    }

    /** Running `s1` and then, unless it raised, `s2` from where it stopped is
        running `Then(s1, s2)`. */
    lemma RanThen(s1: Script, s2: Script, t0: seq<Effect>, t1: seq<Effect>, t2: seq<Effect>,
                  r1: Result<(), Error>, r2: Result<(), Error>)
      requires Ran(s1, t0, t1, r1)
      requires r1.Err? ==> t2 == t1 && r2 == r1
      requires r1.Ok? ==> Ran(s2, t1, t2, r2)
      ensures Ran(Then(s1, s2), t0, t2, r2)
    {
      if r1.Ok? {
        RanThenOk(s1, s2, t0, t1, t2, r1, r2);
      } else {
        RunThenRaised(s1, s2, env.failing, |t0|);
      }
    }

    lemma RanThenOk(s1: Script, s2: Script, t0: seq<Effect>, t1: seq<Effect>, t2: seq<Effect>,
                    r1: Result<(), Error>, r2: Result<(), Error>)
      requires r1.Ok? && Ran(s1, t0, t1, r1) && Ran(s2, t1, t2, r2)
      ensures Ran(Then(s1, s2), t0, t2, r2)
    {
      assert s1.end.Ok? && AllOk(s1.effects, env.failing, |t0|);
      RunThenContinues(s1, s2, env.failing, |t0|, |t1|);
      Assoc(t0, s1.effects, Run(s2, env.failing, |t1|).attempted);
    }

    /** `_SendReport`: builds the record step by step, then sends it. */
    method SendReport(status: Option<string>) returns (r: Result<(), Error>)
      modifies this
      ensures Ran(ReportScript(config, env, status, |old(trace)|), old(trace), trace, r)
    {
      var host := env.probe(|trace|);
      var ts := NextTimestamp(host.currentImage);
      if ts.Err? {
        return Err(ts.error);
      }
      if host.nextVolumeId.None? {
        return Err(CollaboratorFailed);
      }
      var report := map["hostname" := JStr(host.hostname), "uptime_seconds" := JInt(host.uptime),
                        "next_timestamp" := JInt(ts.value), "next_volume_id" := JStr(host.nextVolumeId.value)];
      if status.Some? && status.value != "" {
        report := report["status" := JStr(status.value)];
      }
      report := report + config;
      r := Perform(Send(ReportMessage(report)));
    }

    /** `_UpdateManifest`. */
    method UpdateManifest() returns (r: Result<(), Error>)
      modifies this
      ensures Ran(UpdateManifestScript(config), old(trace), trace, r)
    {
      if "image_type" !in config {
        return Err(KeyError("image_type"));
      }
      ghost var rest := match ConfigGet(config, "timestamp")
        case Err(e) => Fail(e)
        case Ok(t) =>
          match FormatD(t)
          case Err(e) => Fail(e)
          case Ok(digits) => Then(Emit(DeleteOldImages({digits + ".iso"})), Emit(UpdateGrub));
      ghost var t0 := trace;
      r := Perform(Fetch(config["image_type"], None));
      ghost var t1, r1 := trace, r;
      if r.Ok? {
        if "timestamp" !in config {
          r := Err(KeyError("timestamp"));
        } else {
          var digits := FormatD(config["timestamp"]);
          if digits.Err? {
            r := Err(digits.error);
          } else {
            var skip := {digits.value + ".iso"};
            r := Perform(DeleteOldImages(skip));
            ghost var t2, r2 := trace, r;
            if r.Ok? {
              r := Perform(UpdateGrub);
            }
            RanThen(Emit(DeleteOldImages(skip)), Emit(UpdateGrub), t1, t2, trace, r2, r);
          }
        }
      }
      RanThen(Emit(Fetch(config["image_type"], None)), rest, t0, t1, trace, r1, r);
    }

    /** `_OnImageTypes`. */
    method OnImageTypes(data: Json) returns (r: Result<(), Error>)
      modifies this
      ensures Ran(ImageTypesScript(config, data), old(trace), trace, r)
    {
      if "image_type" !in config {
        return Err(KeyError("image_type"));
      }
      var types := Subscript(data, "image_types");
      if types.Err? {
        return Err(types.error);
      }
      var found := Contains(types.value, config["image_type"]);
      if found.Err? {
        return Err(found.error);
      }
      if !found.value {
        return Err(AssertionError);
      }
      r := Ok(());
    }

    /** `_OnNewManifest`. */
    method OnNewManifest(data: Json) returns (r: Result<(), Error>)
      modifies this
      ensures Ran(NewManifestScript(config, data), old(trace), trace, r)
    {
      var offered := Subscript(data, "image_type");
      if offered.Err? {
        return Err(offered.error);
      }
      if "image_type" !in config {
        return Err(KeyError("image_type"));
      }
      if offered.value != config["image_type"] {
        return Ok(());
      }
      r := UpdateManifest();
    }

    /** `_OnReboot`. */
    method OnReboot(data: Json) returns (r: Result<(), Error>)
      modifies this
      ensures Ran(RebootScript(config, env, data, |old(trace)|), old(trace), trace, r)
    {
      var pinned := Contains(data, JStr("timestamp"));
      if pinned.Err? {
        return Err(pinned.error);
      }
      ghost var t0 := trace;
      if !pinned.value {
        r := SendReport(Some("Rebooting..."));
        ghost var t1, r1 := trace, r;
        if r.Ok? {
          r := Perform(Reboot);
        }
        RanThen(ReportScript(config, env, Some("Rebooting..."), |t0|), Emit(Reboot), t0, t1, trace, r1, r);
        return;
      }
      if "image_type" !in config {
        return Err(KeyError("image_type"));
      }
      var ts := Subscript(data, "timestamp");
      if ts.Err? {
        return Err(ts.error);
      }
      ghost var finish := match FormatD(ts.value)
        case Err(e) => Fail(e)
        case Ok(digits) => Then(ReportScript(config, env, Some("Rebooting into " + digits + "..."), |t0| + 2), Emit(Reboot));
      r := Perform(Fetch(config["image_type"], Some(ts.value)));
      ghost var t1, r1 := trace, r;
      if r.Ok? {
        r := Perform(UpdateGrub);
        ghost var t2, r2 := trace, r;
        assert |t2| == |t0| + 2;
        if r.Ok? {
          var digits := FormatD(ts.value);
          if digits.Err? {
            r := Err(digits.error);
          } else {
            var status := Some("Rebooting into " + digits.value + "...");
            r := SendReport(status);
            ghost var t3, r3 := trace, r;
            if r.Ok? {
              r := Perform(Reboot);
            }
            RanThen(ReportScript(config, env, status, |t0| + 2), Emit(Reboot), t2, t3, trace, r3, r);
          }
        }
        RanThen(Emit(UpdateGrub), finish, t1, t2, trace, r2, r);
      }
      RanThen(Emit(Fetch(config["image_type"], Some(ts.value))), Then(Emit(UpdateGrub), finish), t0, t1, trace, r1, r);
    }

    /** `_OnCommand`. */
    method OnCommand(data: Json) returns (r: Result<(), Error>)
      modifies this
      ensures Ran(CommandScript(config, env, data, |old(trace)|), old(trace), trace, r)
    {
      var command := Subscript(data, "command");
      if command.Err? {
        return Err(command.error);
      }
      if command.value == JStr("reboot") {
        r := OnReboot(data);
      } else {
        r := Ok(());
      }
    }

    /** `received_message`, on the decoded message. */
    method ReceivedMessage(parsed: Json) returns (r: Result<(), Error>)
      modifies this
      ensures Ran(ReceivedScript(config, env, parsed, |old(trace)|), old(trace), trace, r)
    {
      var t := Subscript(parsed, "type");
      if t.Err? {
        return Err(t.error);
      }
      if t.value == JStr("image_types") {
        var data := Subscript(parsed, "data");
        if data.Err? {
          return Err(data.error);
        }
        r := OnImageTypes(data.value);
      } else if t.value == JStr("new_manifest") {
        var data := Subscript(parsed, "data");
        if data.Err? {
          return Err(data.error);
        }
        r := OnNewManifest(data.value);
      } else if t.value == JStr("command") {
        var data := Subscript(parsed, "data");
        if data.Err? {
          return Err(data.error);
        }
        r := OnCommand(data.value);
      } else {
        r := Ok(());
      }
    }

    /** Once a round raised, later rounds are never reached. */
    lemma {:induction false} RanReportsStopped(k: nat, n: nat, t1: seq<Effect>, t2: seq<Effect>, r: Result<(), Error>)
      requires k <= n && r.Err? && Ran(ReportsScript(config, env, k, |t1|), t1, t2, r)
      ensures Ran(ReportsScript(config, env, n, |t1|), t1, t2, r)
      decreases n
    {
      if n > k {
        RanReportsStopped(k, n - 1, t1, t2, r);
        ReportsStep(config, env, n - 1, |t1|);
        RanThen(ReportsScript(config, env, n - 1, |t1|), ReportScript(config, env, None, |t1| + n - 1), t1, t2, t2, r, r);
      }
    }

    /** The reporting rounds of `Loop`: one report per round, until one
        raises. */
    method ReportRounds(rounds: nat) returns (r: Result<(), Error>)
      modifies this
      ensures Ran(ReportsScript(config, env, rounds, |old(trace)|), old(trace), trace, r)
    {
      ghost var t0 := trace;
      r := Ok(());
      for i := 0 to rounds
        invariant r == Ok(()) && Ran(ReportsScript(config, env, i, |t0|), t0, trace, r)
      {
        r := ReportRound(i, t0);
        if r.Err? {
          RanReportsStopped(i + 1, rounds, t0, trace, r);
          return;
        }
      }
    }

    /** Round `i + 1` of the reporting loop, after `i` rounds that went
        through. */
    method ReportRound(ghost i: nat, ghost t0: seq<Effect>) returns (r: Result<(), Error>)
      requires Ran(ReportsScript(config, env, i, |t0|), t0, trace, Ok(()))
      modifies this
      ensures Ran(ReportsScript(config, env, i + 1, |t0|), t0, trace, r) && (r.Ok? ==> r == Ok(()))
    {
      ghost var ti := trace;
      RanOk(ReportsScript(config, env, i, |t0|), t0, ti);
      ReportsLength(config, env, i, |t0|);
      assert |ti| == |t0| + i;
      r := SendReport(None);
      ReportsStep(config, env, i, |t0|);
      RanThen(ReportsScript(config, env, i, |t0|), ReportScript(config, env, None, |t0| + i), t0, ti, trace, Ok(()), r);
    }

    /** `Loop` up to its `rounds`-th report: `Ok` means it is still running. */
    method Loop(rounds: nat) returns (r: Result<(), Error>)
      modifies this
      ensures Ran(LoopScript(config, env, rounds, |old(trace)|), old(trace), trace, r)
    {
      ghost var t0, update := trace, UpdateManifestScript(config);
      r := UpdateManifest();
      ghost var t1, r1 := trace, r;
      if r.Ok? {
        RanOk(update, t0, t1);
        r := ReportRounds(rounds);
      }
      ghost var reports := ReportsScript(config, env, rounds, |t0| + |update.effects|);
      RanThen(update, reports, t0, t1, trace, r1, r);
      assert LoopScript(config, env, rounds, |t0|) == Then(update, reports);
    }
  }
}
