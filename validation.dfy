/**
 * `Config.validate_config` and its eight `_check_*` steps. Each step looks
 * at its own key(s) only: a present value outside its accepted set becomes
 * `ERROR_VALUE` and one warning is appended, `update_ms` below 100 is
 * clamped, and a network rate whose first character is not a digit is
 * replaced silently. An empty network rate makes `[0]` raise.
 */
module Validation {
  import opened Text
  import opened Schema
  import opened Parser

  /** The dict and warnings handed on, or the exception a step raised. */
  datatype Checked = Done(st: Stage) | IndexError(key: string, st: Stage)

  const TempScaleKey: string := "temp_scale"
  const CpuGraphUpperKey: string := "cpu_graph_upper"
  const CpuGraphLowerKey: string := "cpu_graph_lower"
  const ShownBoxesKey: string := "shown_boxes"
  const CpuSensorKey: string := "cpu_sensor"
  const NetDownloadKey: string := "net_download"
  const NetUploadKey: string := "net_upload"
  const UpdateMsKey: string := "update_ms"
  const LogLevelKey: string := "log_level"
  const ProcSortingKey: string := "proc_sorting"

  /** The `cfgkeys` defaults of `_check_cpu_graph` and `_check_net_names`. */
  const CpuGraphKeys: seq<string> := [CpuGraphUpperKey, CpuGraphLowerKey]
  const NetKeys: seq<string> := [NetDownloadKey, NetUploadKey]

  /** The `min_val` default of `_check_update_ms`. */
  const MinUpdateMs: int := 100

  /** The keys in the order `validate_config` visits them. */
  const FrontOrder: seq<string> := [TempScaleKey, CpuGraphUpperKey, CpuGraphLowerKey, ShownBoxesKey, CpuSensorKey]
  const BackOrder: seq<string> := [UpdateMsKey, LogLevelKey, ProcSortingKey]
  const ValidationOrder: seq<string> := FrontOrder + NetKeys + BackOrder

  const TempScaleWarning: string :=
    "Config key 'temp_scale' does not contain a recognized temperature scale!"
  const ShownBoxesWarning: string := "Config key 'shown_boxes' contains invalid box names!"
  const CpuSensorWarning: string := "Config key 'cpu_sensor' does not contain an available sensor!"
  const UpdateMsWarning: string := "Config key \"update_ms\" can't be lower than 100!"
  const LogLevelWarning: string := "Config key log_level didn't get an acceptable value!"
  const ProcSortingWarning: string := "Config key 'proc_sorting' didn't get an acceptable value!"

  function CpuGraphWarning(key: string): string {
    "Config key '" + key + "' does not contain an available cpu stat attribute!"
  }

  /** `value in accepted` for an accepted set of strings: no other value is a member. */
  predicate Accepts(v: Value, accepted: set<string>) {
    v.Str? && v.s in accepted
  }

  /**
   * The types the checks rely on without testing them: `int()` of
   * `update_ms`, `.split()` of `shown_boxes`, `[0]` of the network rates.
   */
  predicate Checkable(conf: map<string, Value>) {
    (UpdateMsKey in conf ==> conf[UpdateMsKey].Int?)
    && (ShownBoxesKey in conf ==> conf[ShownBoxesKey].Str?)
    && (NetDownloadKey in conf ==> conf[NetDownloadKey].Str?)
    && (NetUploadKey in conf ==> conf[NetUploadKey].Str?)
  }

  // ---------------------------------------------------------------------
  // The steps
  // ---------------------------------------------------------------------

  /** The shape shared by the membership checks. */
  function CheckMember(st: Stage, key: string, accepted: set<string>, warning: string): (r: Stage)
    ensures r.conf.Keys == st.conf.Keys
    ensures forall k :: k in st.conf && k != key ==> r.conf[k] == st.conf[k]
    ensures key in st.conf && !Accepts(st.conf[key], accepted) ==>
              r.conf[key] == ErrorValue && r.warnings == st.warnings + [warning]
    ensures key !in st.conf || Accepts(st.conf[key], accepted) ==> r == st
  {
    if key in st.conf && !Accepts(st.conf[key], accepted) then
      st.(conf := st.conf[key := ErrorValue], warnings := st.warnings + [warning])
    else st
  }

  /** `_check_temp_scales`: against the member names of `TempScales`. */
  function CheckTempScales(st: Stage): Stage {
    CheckMember(st, TempScaleKey, TempScaleMemberNames, TempScaleWarning)
  }

  /** `_check_cpu_graph` over the given keys, against `cpu_percent_fields`. */
  function CheckCpuGraph(st: Stage, keys: seq<string>, fields: seq<string>): Stage
    decreases |keys|
  {
    if |keys| == 0 then st
    else CheckCpuGraph(CheckMember(st, keys[0], Elements(fields), CpuGraphWarning(keys[0])), keys[1..], fields)
  }

  /** Every token is a member name of `BoxNames`; the loop stops at the first that is not. */
  function AllBoxes(ws: seq<string>): (ok: bool)
    ensures ok <==> forall i :: 0 <= i < |ws| ==> ws[i] in BoxMemberNames
    decreases |ws|
  {
    if |ws| == 0 then true
    else ws[0] in BoxMemberNames && AllBoxes(ws[1..])
  }

  /** `_check_shown_boxes`: an empty value is skipped, otherwise its tokens are tested. */
  function CheckShownBoxes(st: Stage): Stage
    requires ShownBoxesKey in st.conf ==> st.conf[ShownBoxesKey].Str?
  {
    if ShownBoxesKey in st.conf && st.conf[ShownBoxesKey].s != ""
       && !AllBoxes(Words(st.conf[ShownBoxesKey].s))
    then st.(conf := st.conf[ShownBoxesKey := ErrorValue], warnings := st.warnings + [ShownBoxesWarning])
    else st
  }

  /** `_check_cpu_sensor`: against the probed sensor list. */
  function CheckCpuSensor(st: Stage, sensors: seq<string>): Stage {
    CheckMember(st, CpuSensorKey, Elements(sensors), CpuSensorWarning)
  }

  /** `_check_net_names` over the given keys: `[0]` of an empty rate raises. */
  function CheckNetNames(st: Stage, keys: seq<string>): (r: Checked)
    requires forall i :: 0 <= i < |keys| && keys[i] in st.conf ==> st.conf[keys[i]].Str?
    decreases |keys|
  {
    if |keys| == 0 then Done(st)
    else
      var key := keys[0];
      if key !in st.conf then CheckNetNames(st, keys[1..])
      else if st.conf[key].s == "" then IndexError(key, st)
      else CheckNetNames(NetStep(st, key), keys[1..])
  }

  /** The stage `_check_net_names` hands on after a non-empty rate for `key`. */
  function NetStep(st: Stage, key: string): (r: Stage)
    requires key in st.conf && st.conf[key].Str? && st.conf[key].s != ""
    ensures r.warnings == st.warnings
    ensures r.conf.Keys == st.conf.Keys
    ensures forall k :: k in st.conf && k != key ==> r.conf[k] == st.conf[k]
    ensures IsDigit(st.conf[key].s[0]) ==> r == st
    ensures !IsDigit(st.conf[key].s[0]) ==> r.conf[key] == ErrorValue
  {
    if IsDigit(st.conf[key].s[0]) then st else st.(conf := st.conf[key := ErrorValue])
  }

  /** `_check_update_ms`: a value below the minimum becomes the minimum. */
  function CheckUpdateMs(st: Stage): (r: Stage)
    requires UpdateMsKey in st.conf ==> st.conf[UpdateMsKey].Int?
    ensures r.conf.Keys == st.conf.Keys
    ensures forall k :: k in st.conf && k != UpdateMsKey ==> r.conf[k] == st.conf[k]
    ensures UpdateMsKey in st.conf && st.conf[UpdateMsKey].i < MinUpdateMs ==>
              r.conf[UpdateMsKey] == Int(MinUpdateMs) && r.warnings == st.warnings + [UpdateMsWarning]
    ensures UpdateMsKey !in st.conf || st.conf[UpdateMsKey].i >= MinUpdateMs ==> r == st
    ensures UpdateMsKey in r.conf ==> r.conf[UpdateMsKey].Int? && r.conf[UpdateMsKey].i >= MinUpdateMs
  {
    if UpdateMsKey in st.conf && st.conf[UpdateMsKey].i < MinUpdateMs then
      st.(conf := st.conf[UpdateMsKey := Int(MinUpdateMs)], warnings := st.warnings + [UpdateMsWarning])
    else st
  }

  /** `_check_log_level`: against the values of `LogLevels`. */
  function CheckLogLevel(st: Stage): Stage {
    CheckMember(st, LogLevelKey, LogLevelValues, LogLevelWarning)
  }

  /** `_check_proc_sorted`: against the values of `SortingOptions`. */
  function CheckProcSorted(st: Stage): Stage {
    CheckMember(st, ProcSortingKey, SortingValues, ProcSortingWarning)
  }

  /** `validate_config`: the eight steps in their fixed order. */
  function Validate(st: Stage, sensors: seq<string>, fields: seq<string>): Checked
    requires Checkable(st.conf)
  {
    var s4 := CheckFront(st, sensors, fields);
    match CheckNetNames(s4, NetKeys)
    case IndexError(key, at) => IndexError(key, at)
    case Done(s5) =>
      NetNamesFrame(s4, NetKeys);
      Done(CheckBack(s5))
  }

  /** The four steps before the network rates; they keep the types the later steps rely on. */
  function CheckFront(st: Stage, sensors: seq<string>, fields: seq<string>): (r: Stage)
    requires Checkable(st.conf)
    ensures Checkable(r.conf)
  {
    var s1 := CheckTempScales(st);
    MemberKeepsCheckable(st, TempScaleKey, TempScaleMemberNames, TempScaleWarning);
    var s2 := CheckCpuGraph(s1, CpuGraphKeys, fields);
    CpuGraphKeepsCheckable(s1, CpuGraphKeys, fields);
    var s3 := CheckShownBoxes(s2);
    MemberKeepsCheckable(s3, CpuSensorKey, Elements(sensors), CpuSensorWarning);
    CheckCpuSensor(s3, sensors)
  }

  /** The three steps after the network rates. */
  function CheckBack(st: Stage): Stage
    requires UpdateMsKey in st.conf ==> st.conf[UpdateMsKey].Int?
  {
    CheckProcSorted(CheckLogLevel(CheckUpdateMs(st)))
  }

  // ---------------------------------------------------------------------
  // The same checks, one key at a time on the values as read
  // ---------------------------------------------------------------------

  /** Whether the check for `key` rejects `v` (the clamp of `update_ms` is not a rejection). */
  predicate Rejects(key: string, v: Value, sensors: seq<string>, fields: seq<string>) {
    if key == TempScaleKey then !Accepts(v, TempScaleMemberNames)
    else if key == CpuGraphUpperKey || key == CpuGraphLowerKey then !Accepts(v, Elements(fields))
    else if key == ShownBoxesKey then v.Str? && v.s != "" && !AllBoxes(Words(v.s))
    else if key == CpuSensorKey then !Accepts(v, Elements(sensors))
    else if key == NetDownloadKey || key == NetUploadKey then v.Str? && |v.s| > 0 && !IsDigit(v.s[0])
    else if key == LogLevelKey then !Accepts(v, LogLevelValues)
    else if key == ProcSortingKey then !Accepts(v, SortingValues)
    else false
  }

  /** The value that validation leaves for `key` when the file gave `v`. */
  function Sanitised(key: string, v: Value, sensors: seq<string>, fields: seq<string>): Value {
    if key == UpdateMsKey then (if v.Int? && v.i < MinUpdateMs then Int(MinUpdateMs) else v)
    else if Rejects(key, v, sensors, fields) then ErrorValue
    else v
  }

  /** The warning the check for `key` appends when it rejects or clamps. */
  function WarningFor(key: string): string {
    if key == TempScaleKey then TempScaleWarning
    else if key == CpuGraphUpperKey || key == CpuGraphLowerKey then CpuGraphWarning(key)
    else if key == ShownBoxesKey then ShownBoxesWarning
    else if key == CpuSensorKey then CpuSensorWarning
    else if key == UpdateMsKey then UpdateMsWarning
    else if key == LogLevelKey then LogLevelWarning
    else ProcSortingWarning
  }

  /** What the check for `key` appends to the warnings when the file gave `v`. */
  function Complaint(key: string, v: Value, sensors: seq<string>, fields: seq<string>): seq<string> {
    if key == NetDownloadKey || key == NetUploadKey then []
    else if key == UpdateMsKey then (if v.Int? && v.i < MinUpdateMs then [UpdateMsWarning] else [])
    else if Rejects(key, v, sensors, fields) then [WarningFor(key)]
    else []
  }

  /** The complaints about the present keys among `keys`, in order. */
  function Complaints(conf: map<string, Value>, keys: seq<string>, sensors: seq<string>, fields: seq<string>): seq<string>
    decreases |keys|
  {
    if |keys| == 0 then []
    else (if keys[0] in conf then Complaint(keys[0], conf[keys[0]], sensors, fields) else [])
         + Complaints(conf, keys[1..], sensors, fields)
  }

  /** `r` is `st` with each of `keys` handled on its own, as read in `st`. */
  predicate Handled(st: Stage, r: Stage, keys: seq<string>, sensors: seq<string>, fields: seq<string>) {
    && r.conf.Keys == st.conf.Keys
    && (forall k :: k in st.conf && k !in keys ==> r.conf[k] == st.conf[k])
    && (forall k :: k in st.conf && k in keys ==> r.conf[k] == Sanitised(k, st.conf[k], sensors, fields))
    && r.warnings == st.warnings + Complaints(st.conf, keys, sensors, fields)
  }

  // ---------------------------------------------------------------------
  // Proofs
  // ---------------------------------------------------------------------

  /** A sentinel is a string, so only a membership check on `update_ms` could break the types. */
  lemma MemberKeepsCheckable(st: Stage, key: string, accepted: set<string>, warning: string)
    requires Checkable(st.conf) && key != UpdateMsKey
    ensures Checkable(CheckMember(st, key, accepted, warning).conf)
  {
  }

  lemma CpuGraphKeepsCheckable(st: Stage, keys: seq<string>, fields: seq<string>)
    requires Checkable(st.conf)
    requires forall i :: 0 <= i < |keys| ==> keys[i] != UpdateMsKey
    ensures Checkable(CheckCpuGraph(st, keys, fields).conf)
    decreases |keys|
  {
    if |keys| > 0 {
      MemberKeepsCheckable(st, keys[0], Elements(fields), CpuGraphWarning(keys[0]));
      CpuGraphKeepsCheckable(CheckMember(st, keys[0], Elements(fields), CpuGraphWarning(keys[0])), keys[1..], fields);
    }
  }

  lemma CheckCpuGraphFrame(st: Stage, keys: seq<string>, fields: seq<string>)
    ensures CheckCpuGraph(st, keys, fields).conf.Keys == st.conf.Keys
    ensures forall k :: k in st.conf && k !in keys ==> CheckCpuGraph(st, keys, fields).conf[k] == st.conf[k]
    decreases |keys|
  {
    if |keys| > 0 {
      CheckCpuGraphFrame(CheckMember(st, keys[0], Elements(fields), CpuGraphWarning(keys[0])), keys[1..], fields);
    }
  }

  lemma NetNamesFrame(st: Stage, keys: seq<string>)
    requires forall i :: 0 <= i < |keys| && keys[i] in st.conf ==> st.conf[keys[i]].Str?
    ensures CheckNetNames(st, keys).Done? ==> CheckNetNames(st, keys).st.conf.Keys == st.conf.Keys
    ensures CheckNetNames(st, keys).Done? ==> CheckNetNames(st, keys).st.warnings == st.warnings
    ensures CheckNetNames(st, keys).Done? ==>
              forall k :: k in st.conf && k !in keys ==> CheckNetNames(st, keys).st.conf[k] == st.conf[k]
    decreases |keys|
  {
    if |keys| > 0 {
      var key := keys[0];
      if key !in st.conf {
        NetNamesFrame(st, keys[1..]);
      } else if st.conf[key].s != "" {
        NetNamesFrame(NetStep(st, key), keys[1..]);
      }
    }
  }

  // ---------------------------------------------------------------------
  // Each step handles its own keys, one at a time
  // ---------------------------------------------------------------------

  /** The keys `validate_config` visits are ten different names. */
  lemma OrderIsDistinct()
    ensures Distinct(ValidationOrder)
  {
  }

  lemma DistinctSplit(a: seq<string>, b: seq<string>)
    requires Distinct(a + b)
    ensures Distinct(a) && Distinct(b)
    ensures forall k :: k in b ==> k !in a
  {
    assert forall i :: 0 <= i < |a| ==> (a + b)[i] == a[i];
    assert forall i :: 0 <= i < |b| ==> (a + b)[|a| + i] == b[i];
  }

  lemma {:induction false} ComplaintsAppend(conf: map<string, Value>, a: seq<string>, b: seq<string>,
                                            sensors: seq<string>, fields: seq<string>)
    ensures Complaints(conf, a + b, sensors, fields)
            == Complaints(conf, a, sensors, fields) + Complaints(conf, b, sensors, fields)
    decreases |a|
  {
    if |a| == 0 {
      assert a + b == b;
    } else {
      assert (a + b)[0] == a[0];
      assert (a + b)[1..] == a[1..] + b;
      ComplaintsAppend(conf, a[1..], b, sensors, fields);
    }
  }

  /** The complaints about `keys` depend only on the entries for `keys`. */
  lemma {:induction false} ComplaintsAgree(c0: map<string, Value>, c1: map<string, Value>, keys: seq<string>,
                                           sensors: seq<string>, fields: seq<string>)
    requires forall k :: k in keys ==> (k in c0 <==> k in c1)
    requires forall k :: k in keys && k in c0 ==> c0[k] == c1[k]
    ensures Complaints(c0, keys, sensors, fields) == Complaints(c1, keys, sensors, fields)
    decreases |keys|
  {
    if |keys| > 0 {
      assert keys[0] in keys;
      ComplaintsAgree(c0, c1, keys[1..], sensors, fields);
    }
  }

  /** Two steps on disjoint keys handle the keys of both. */
  lemma HandledCompose(s0: Stage, s1: Stage, s2: Stage, a: seq<string>, b: seq<string>,
                       sensors: seq<string>, fields: seq<string>)
    requires Handled(s0, s1, a, sensors, fields) && Handled(s1, s2, b, sensors, fields)
    requires forall k :: k in b ==> k !in a
    ensures Handled(s0, s2, a + b, sensors, fields)
  {
    ComplaintsAgree(s0.conf, s1.conf, b, sensors, fields);
    ComplaintsAppend(s0.conf, a, b, sensors, fields);
  }

  /** No step handles anything when no key is named. */
  lemma HandledNothing(st: Stage, sensors: seq<string>, fields: seq<string>)
    ensures Handled(st, st, [], sensors, fields)
  {
  }

  lemma MemberHandled(st: Stage, key: string, accepted: set<string>, warning: string,
                      sensors: seq<string>, fields: seq<string>)
    requires key != NetDownloadKey && key != NetUploadKey && key != UpdateMsKey
    requires warning == WarningFor(key)
    requires forall v :: Rejects(key, v, sensors, fields) <==> !Accepts(v, accepted)
    ensures Handled(st, CheckMember(st, key, accepted, warning), [key], sensors, fields)
  {
    var r := CheckMember(st, key, accepted, warning);
    if key in st.conf {
      assert Complaints(st.conf, [key], sensors, fields) == Complaint(key, st.conf[key], sensors, fields);
    } else {
      assert Complaints(st.conf, [key], sensors, fields) == [];
    }
  }

  lemma TempScalesHandled(st: Stage, sensors: seq<string>, fields: seq<string>)
    ensures Handled(st, CheckTempScales(st), [TempScaleKey], sensors, fields)
  {
    MemberHandled(st, TempScaleKey, TempScaleMemberNames, TempScaleWarning, sensors, fields);
  }

  lemma CpuGraphHandled(st: Stage, sensors: seq<string>, fields: seq<string>)
    ensures Handled(st, CheckCpuGraph(st, CpuGraphKeys, fields), CpuGraphKeys, sensors, fields)
  {
    var s1 := CheckMember(st, CpuGraphUpperKey, Elements(fields), CpuGraphWarning(CpuGraphUpperKey));
    var s2 := CheckMember(s1, CpuGraphLowerKey, Elements(fields), CpuGraphWarning(CpuGraphLowerKey));
    MemberHandled(st, CpuGraphUpperKey, Elements(fields), CpuGraphWarning(CpuGraphUpperKey), sensors, fields);
    MemberHandled(s1, CpuGraphLowerKey, Elements(fields), CpuGraphWarning(CpuGraphLowerKey), sensors, fields);
    assert CheckCpuGraph(st, CpuGraphKeys, fields) == CheckCpuGraph(s1, [CpuGraphLowerKey], fields) by {
      assert CpuGraphKeys[1..] == [CpuGraphLowerKey];
    }
    assert CheckCpuGraph(s1, [CpuGraphLowerKey], fields) == CheckCpuGraph(s2, [], fields) by {
      assert [CpuGraphLowerKey][1..] == [];
    }
    HandledCompose(st, s1, s2, [CpuGraphUpperKey], [CpuGraphLowerKey], sensors, fields);
    assert [CpuGraphUpperKey] + [CpuGraphLowerKey] == CpuGraphKeys;
  }

  lemma ShownBoxesHandled(st: Stage, sensors: seq<string>, fields: seq<string>)
    requires ShownBoxesKey in st.conf ==> st.conf[ShownBoxesKey].Str?
    ensures Handled(st, CheckShownBoxes(st), [ShownBoxesKey], sensors, fields)
  {
    if ShownBoxesKey in st.conf {
      assert Complaints(st.conf, [ShownBoxesKey], sensors, fields)
             == Complaint(ShownBoxesKey, st.conf[ShownBoxesKey], sensors, fields);
    }
  }

  lemma CpuSensorHandled(st: Stage, sensors: seq<string>, fields: seq<string>)
    ensures Handled(st, CheckCpuSensor(st, sensors), [CpuSensorKey], sensors, fields)
  {
    MemberHandled(st, CpuSensorKey, Elements(sensors), CpuSensorWarning, sensors, fields);
  }

  lemma UpdateMsHandled(st: Stage, sensors: seq<string>, fields: seq<string>)
    requires UpdateMsKey in st.conf ==> st.conf[UpdateMsKey].Int?
    ensures Handled(st, CheckUpdateMs(st), [UpdateMsKey], sensors, fields)
  {
    if UpdateMsKey in st.conf {
      assert Complaints(st.conf, [UpdateMsKey], sensors, fields)
             == Complaint(UpdateMsKey, st.conf[UpdateMsKey], sensors, fields);
    }
  }

  lemma LogLevelHandled(st: Stage, sensors: seq<string>, fields: seq<string>)
    ensures Handled(st, CheckLogLevel(st), [LogLevelKey], sensors, fields)
  {
    MemberHandled(st, LogLevelKey, LogLevelValues, LogLevelWarning, sensors, fields);
  }

  lemma ProcSortedHandled(st: Stage, sensors: seq<string>, fields: seq<string>)
    ensures Handled(st, CheckProcSorted(st), [ProcSortingKey], sensors, fields)
  {
    MemberHandled(st, ProcSortingKey, SortingValues, ProcSortingWarning, sensors, fields);
  }

  lemma NetStepHandled(st: Stage, key: string, sensors: seq<string>, fields: seq<string>)
    requires key == NetDownloadKey || key == NetUploadKey
    requires key in st.conf && st.conf[key].Str? && st.conf[key].s != ""
    ensures Handled(st, NetStep(st, key), [key], sensors, fields)
  {
    assert Complaints(st.conf, [key], sensors, fields) == [];
  }

  lemma {:induction false} NetNamesHandled(st: Stage, keys: seq<string>, sensors: seq<string>, fields: seq<string>)
    requires forall i :: 0 <= i < |keys| && keys[i] in st.conf ==> st.conf[keys[i]].Str?
    requires forall i :: 0 <= i < |keys| ==> keys[i] == NetDownloadKey || keys[i] == NetUploadKey
    requires Distinct(keys)
    ensures CheckNetNames(st, keys).Done? ==> Handled(st, CheckNetNames(st, keys).st, keys, sensors, fields)
    decreases |keys|
  {
    if |keys| > 0 {
      var key, rest := keys[0], keys[1..];
      assert keys == [key] + rest;
      DistinctSplit([key], rest);
      assert forall i :: 0 <= i < |rest| ==> rest[i] == keys[i + 1];
      if key !in st.conf {
        assert Complaints(st.conf, [key], sensors, fields) == [];
        NetNamesHandled(st, rest, sensors, fields);
        if CheckNetNames(st, rest).Done? {
          HandledCompose(st, st, CheckNetNames(st, rest).st, [key], rest, sensors, fields);
        }
      } else if st.conf[key].s != "" {
        var next := NetStep(st, key);
        NetStepHandled(st, key, sensors, fields);
        assert CheckNetNames(st, keys) == CheckNetNames(next, rest);
        NetNamesHandled(next, rest, sensors, fields);
        if CheckNetNames(next, rest).Done? {
          HandledCompose(st, next, CheckNetNames(next, rest).st, [key], rest, sensors, fields);
        }
      }
    }
  }

  lemma TempAndCpuGraphHandled(st: Stage, sensors: seq<string>, fields: seq<string>)
    ensures Handled(st, CheckCpuGraph(CheckTempScales(st), CpuGraphKeys, fields),
                    [TempScaleKey] + CpuGraphKeys, sensors, fields)
  {
    var s1 := CheckTempScales(st);
    TempScalesHandled(st, sensors, fields);
    CpuGraphHandled(s1, sensors, fields);
    HandledCompose(st, s1, CheckCpuGraph(s1, CpuGraphKeys, fields), [TempScaleKey], CpuGraphKeys, sensors, fields);
  }

  lemma FrontHandled(st: Stage, sensors: seq<string>, fields: seq<string>)
    requires Checkable(st.conf)
    ensures Handled(st, CheckFront(st, sensors, fields), FrontOrder, sensors, fields)
  {
    var s2 := CheckCpuGraph(CheckTempScales(st), CpuGraphKeys, fields);
    var a := [TempScaleKey] + CpuGraphKeys;
    TempAndCpuGraphHandled(st, sensors, fields);
    var s3 := CheckShownBoxes(s2);
    ShownBoxesHandled(s2, sensors, fields);
    HandledCompose(st, s2, s3, a, [ShownBoxesKey], sensors, fields);
    CpuSensorHandled(s3, sensors, fields);
    HandledCompose(st, s3, CheckCpuSensor(s3, sensors), a + [ShownBoxesKey], [CpuSensorKey], sensors, fields);
    assert a + [ShownBoxesKey] + [CpuSensorKey] == FrontOrder;
  }

  lemma BackHandled(st: Stage, sensors: seq<string>, fields: seq<string>)
    requires UpdateMsKey in st.conf ==> st.conf[UpdateMsKey].Int?
    ensures Handled(st, CheckBack(st), BackOrder, sensors, fields)
  {
    var s1 := CheckUpdateMs(st);
    var s2 := CheckLogLevel(s1);
    UpdateMsHandled(st, sensors, fields);
    LogLevelHandled(s1, sensors, fields);
    HandledCompose(st, s1, s2, [UpdateMsKey], [LogLevelKey], sensors, fields);
    ProcSortedHandled(s2, sensors, fields);
    HandledCompose(st, s2, CheckProcSorted(s2), [UpdateMsKey] + [LogLevelKey], [ProcSortingKey], sensors, fields);
    assert [UpdateMsKey] + [LogLevelKey] + [ProcSortingKey] == BackOrder;
  }

  /**
   * Validation that does not raise is the same as checking every key on its
   * own against the values as read: each present key ends up with its
   * sanitised value, no key is added or dropped, and the warnings are those
   * of the keys in the fixed visiting order.
   */
  lemma ValidateHandled(st: Stage, sensors: seq<string>, fields: seq<string>)
    requires Checkable(st.conf)
    ensures Validate(st, sensors, fields).Done? ==>
              Handled(st, Validate(st, sensors, fields).st, ValidationOrder, sensors, fields)
  {
    var s4 := CheckFront(st, sensors, fields);
    OrderIsDistinct();
    DistinctSplit(FrontOrder + NetKeys, BackOrder);
    DistinctSplit(FrontOrder, NetKeys);
    FrontHandled(st, sensors, fields);
    NetNamesHandled(s4, NetKeys, sensors, fields);
    if CheckNetNames(s4, NetKeys).Done? {
      var s5 := CheckNetNames(s4, NetKeys).st;
      HandledCompose(st, s4, s5, FrontOrder, NetKeys, sensors, fields);
      NetNamesFrame(s4, NetKeys);
      BackHandled(s5, sensors, fields);
      HandledCompose(st, s5, CheckBack(s5), FrontOrder + NetKeys, BackOrder, sensors, fields);
    }
  }

  // ---------------------------------------------------------------------
  // When validation raises
  // ---------------------------------------------------------------------

  /** A network rate that is present and empty, whose `[0]` raises. */
  predicate EmptyRate(conf: map<string, Value>, key: string) {
    key in conf && conf[key] == Str("")
  }

  lemma NetKeysRaise(st: Stage)
    requires NetDownloadKey in st.conf ==> st.conf[NetDownloadKey].Str?
    requires NetUploadKey in st.conf ==> st.conf[NetUploadKey].Str?
    ensures CheckNetNames(st, NetKeys).IndexError? <==>
              EmptyRate(st.conf, NetDownloadKey) || EmptyRate(st.conf, NetUploadKey)
    ensures CheckNetNames(st, NetKeys).IndexError? ==>
              CheckNetNames(st, NetKeys).key
              == (if EmptyRate(st.conf, NetDownloadKey) then NetDownloadKey else NetUploadKey)
  {
    assert NetKeys[0] == NetDownloadKey && NetKeys[1..] == [NetUploadKey];
    if NetDownloadKey !in st.conf {
      UploadRaises(st);
    } else if st.conf[NetDownloadKey].s != "" {
      var next := NetStep(st, NetDownloadKey);
      assert CheckNetNames(st, NetKeys) == CheckNetNames(next, [NetUploadKey]);
      assert EmptyRate(next.conf, NetUploadKey) == EmptyRate(st.conf, NetUploadKey);
      UploadRaises(next);
    }
  }

  lemma UploadRaises(st: Stage)
    requires NetUploadKey in st.conf ==> st.conf[NetUploadKey].Str?
    ensures CheckNetNames(st, [NetUploadKey]).IndexError? <==> EmptyRate(st.conf, NetUploadKey)
    ensures CheckNetNames(st, [NetUploadKey]).IndexError? ==> CheckNetNames(st, [NetUploadKey]).key == NetUploadKey
  {
    assert [NetUploadKey][0] == NetUploadKey && [NetUploadKey][1..] == [];
  }

  /**
   * `validate_config` raises exactly when a network rate is present and
   * empty, and the download rate is indexed first.
   */
  lemma ValidateRaises(st: Stage, sensors: seq<string>, fields: seq<string>)
    requires Checkable(st.conf)
    ensures Validate(st, sensors, fields).IndexError? <==>
              EmptyRate(st.conf, NetDownloadKey) || EmptyRate(st.conf, NetUploadKey)
    ensures Validate(st, sensors, fields).IndexError? ==>
              Validate(st, sensors, fields).key
              == (if EmptyRate(st.conf, NetDownloadKey) then NetDownloadKey else NetUploadKey)
  {
    var s4 := CheckFront(st, sensors, fields);
    FrontHandled(st, sensors, fields);
    assert NetDownloadKey !in FrontOrder && NetUploadKey !in FrontOrder;
    NetKeysRaise(s4);
  }

  // ---------------------------------------------------------------------
  // Types, and the box-name quirk
  // ---------------------------------------------------------------------

  /** What the parser produces is what the checks rely on. */
  lemma WellTypedIsCheckable(conf: map<string, Value>)
    requires WellTypedConf(conf)
    ensures Checkable(conf)
  {
    assert UpdateMsKey in KeySet && KindOf(UpdateMsKey) == IntKind;
    assert ShownBoxesKey in KeySet && KindOf(ShownBoxesKey) == StrKind;
    assert NetDownloadKey in KeySet && KindOf(NetDownloadKey) == StrKind;
    assert NetUploadKey in KeySet && KindOf(NetUploadKey) == StrKind;
  }

  /** Only string keys are ever replaced by the (string) sentinel, and the clamp stores an int. */
  lemma SanitisedKeepsType(key: string, v: Value, sensors: seq<string>, fields: seq<string>)
    requires WellTyped(key, v)
    ensures WellTyped(key, Sanitised(key, v, sensors, fields))
  {
    if Rejects(key, v, sensors, fields) && key != UpdateMsKey {
      assert key in CheckedStrKeys;
    }
  }

  /** Validation that does not raise keeps every recognised key of its type. */
  lemma ValidateKeepsWellTyped(st: Stage, sensors: seq<string>, fields: seq<string>)
    requires WellTypedConf(st.conf)
    ensures Checkable(st.conf)
    ensures Validate(st, sensors, fields).Done? ==> WellTypedConf(Validate(st, sensors, fields).st.conf)
  {
    WellTypedIsCheckable(st.conf);
    ValidateHandled(st, sensors, fields);
    if Validate(st, sensors, fields).Done? {
      var r := Validate(st, sensors, fields).st;
      forall k | k in r.conf && k in KeySet ensures WellTyped(k, r.conf[k]) {
        SanitisedKeepsType(k, st.conf[k], sensors, fields);
      }
    }
  }

  /**
   * `shown_boxes` is rejected exactly when some whitespace-separated token
   * is not a member name of `BoxNames`; so an empty or all-blank value passes.
   */
  lemma ShownBoxesRejects(s: string, sensors: seq<string>, fields: seq<string>)
    ensures Rejects(ShownBoxesKey, Str(s), sensors, fields) <==>
              exists i :: 0 <= i < |Words(s)| && Words(s)[i] !in BoxMemberNames
  {
    if s == "" {
      assert Words(s) == [];
    }
  }

  /**
   * Since the members are named in capitals, a box list that names a box by
   * its value, as the class default `cpu mem net proc` does, is rejected.
   */
  lemma BoxValuesRejected(ws: seq<string>, sensors: seq<string>, fields: seq<string>)
    requires forall i :: 0 <= i < |ws| ==> IsWord(ws[i])
    requires exists i :: 0 <= i < |ws| && ws[i] in BoxValues
    ensures Rejects(ShownBoxesKey, Str(Join(ws)), sensors, fields)
  {
    WordsOfJoin(ws);
    MemberNamesAreNotValues();
    ShownBoxesRejects(Join(ws), sensors, fields);
  }

}
