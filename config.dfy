/**
 * The `Config` object of src/config/config_cls.py: its attributes and the
 * `conf_dict` that `__setattr__` mirrors them into, the warnings and info
 * lists, loading a file through the line loop and the checks, the merge of
 * `__init__`, and the flag-guarded `save_config`.
 */
module Configuration {
  import opened Text
  import opened Schema
  import opened Parser
  import opened Validation
  import opened DefaultConf

  const ChangedName: string := "changed"
  const RecreateName: string := "recreate"
  const InitializedName: string := "_initialized"
  const ConfigFileName: string := "config_file"

  /** The state flags, whose class default is `False`. */
  const Flags: set<string> := {ChangedName, RecreateName, InitializedName}

  /** `ConfigStates.__members__`: the upper-case member names, not their values. */
  const StateMemberNames: set<string> := {"INITIALIZED", "RECREATE", "CHANGED"}

  const MalformedInfo: string := "Config file malformatted or missing, will be recreated on exit!"
  const MismatchInfo: string := "Config file version and bpytop version missmatch, will be recreated on exit!"

  /** How `__init__` ends: normally, or with the exception it lets through. */
  datatype InitOutcome =
    | Ready
    | NoConfigFile                  // `load_config` found no file and returned `None`
    | RateIndexError(key: string)   // `_check_net_names` indexed an empty rate

  /** What `save_config` does to the file. */
  datatype Saved =
    | Skipped                       // neither flag set: the file is not opened
    | Written(lines: seq<string>)   // the substituted template
    | Emptied                       // opened for writing, then `substitute` raised

  // ---------------------------------------------------------------------
  // Attributes and __setattr__
  // ---------------------------------------------------------------------

  /** The class attributes of the keys: their defaults. */
  const ClassDefaults: map<string, Value> := map k | k in KeySet :: Default(k)

  /** `getattr(self, name)`: the instance attribute, else the class attribute (`False` for a flag). */
  function AttrOf(attrs: map<string, Value>, defaults: map<string, Value>, name: string): Value
    requires name in attrs || name in defaults || name in Flags
  {
    if name in attrs then attrs[name] else if name in Flags then Bool(false) else defaults[name]
  }

  /** A flag reads as true: its class attribute is `False`, so only a truthy instance attribute sets it. */
  predicate FlagSet(attrs: map<string, Value>, flag: string)
    requires flag in Flags
  {
    flag in attrs && Truthy(attrs[flag])
  }

  /** The instance attributes after `__setattr__(name, value)`. */
  function AttrsAfterSet(attrs: map<string, Value>, name: string, value: Value): map<string, Value> {
    (if FlagSet(attrs, InitializedName) then attrs[ChangedName := Bool(true)] else attrs)[name := value]
  }

  /** `conf_dict` after `__setattr__(name, value)`. */
  function DictAfterSet(conf: map<string, Value>, name: string, value: Value): map<string, Value> {
    if name in StateMemberNames then conf else conf[name := value]
  }

  // ---------------------------------------------------------------------
  // What loading and merging produce
  // ---------------------------------------------------------------------

  /** The line loop yields only what the checks can take. */
  lemma ParsedIsCheckable(w: seq<string>, lines: seq<string>)
    ensures Checkable(ParseFrom(Stage(map[], w), lines).conf)
  {
    ParseFromWellTyped(Stage(map[], w), lines);
    WellTypedIsCheckable(ParseFrom(Stage(map[], w), lines).conf);
  }

  /** `load_config` on a file found: read from an empty dict, then validated. */
  function Loaded(lines: seq<string>, w: seq<string>, sensors: seq<string>, fields: seq<string>): Checked {
    ParsedIsCheckable(w, lines);
    Validate(ParseFrom(Stage(map[], w), lines), sensors, fields)
  }

  /** A key whose value `__init__` does not take from the file. */
  predicate FallsBack(conf: map<string, Value>, key: string) {
    key !in conf || conf[key] == ErrorValue
  }

  /** The entry `__init__` leaves for a key: the file's value, or the key's default. */
  function Merged(conf: map<string, Value>, defaults: map<string, Value>, key: string): Value
    requires key in defaults
  {
    if FallsBack(conf, key) then defaults[key] else conf[key]
  }

  /** The info message `__init__` appends about the version read. */
  function VersionInfo(conf: map<string, Value>, version: string): seq<string> {
    if VersionEntry !in conf then [MalformedInfo]
    else if conf[VersionEntry] != Str(version) then [MismatchInfo]
    else []
  }

  /** Whether `__init__` marks the file to be written again on exit. */
  predicate NeedsRecreate(conf: map<string, Value>, defaults: map<string, Value>, version: string) {
    VersionEntry !in conf || conf[VersionEntry] != Str(version)
    || exists k :: k in defaults && FallsBack(conf, k)
  }

  /** How `__init__` ends, given the lines of the file `get_conf_filepath` found, if any. */
  function Starting(found: Option<seq<string>>, w: seq<string>, sensors: seq<string>, fields: seq<string>): InitOutcome {
    match found
    case None => NoConfigFile
    case Some(lines) =>
      match Loaded(lines, w, sensors, fields)
      case IndexError(key, _) => RateIndexError(key)
      case Done(_) => Ready
  }

  /** The attributes after one pass of the key loop of `__init__`, before `_initialized` is set. */
  function AttrsStep(attrs: map<string, Value>, conf: map<string, Value>, key: string): map<string, Value> {
    if FallsBack(conf, key) then attrs[RecreateName := Bool(true)] else attrs[key := conf[key]]
  }

  /** `conf_dict` after one pass: `recreate` is mirrored, and the key gets its merged value. */
  function DictStep(dict: map<string, Value>, conf: map<string, Value>, defaults: map<string, Value>, key: string): map<string, Value>
    requires key in defaults
  {
    (if FallsBack(conf, key) then dict[RecreateName := Bool(true)] else dict)[key := Merged(conf, defaults, key)]
  }

  /** `recreate`, when set, is `True` both as an attribute and in `conf_dict`: it is only ever set through `__setattr__`. */
  predicate RecreateMirrored(attrs: map<string, Value>, dict: map<string, Value>) {
    RecreateName in attrs ==> attrs[RecreateName] == Bool(true) && RecreateName in dict && dict[RecreateName] == Bool(true)
  }

  function MergeAttrs(attrs: map<string, Value>, conf: map<string, Value>, keys: seq<string>): map<string, Value>
    decreases |keys|
  {
    if |keys| == 0 then attrs else MergeAttrs(AttrsStep(attrs, conf, keys[0]), conf, keys[1..])
  }

  function MergeDict(dict: map<string, Value>, conf: map<string, Value>, defaults: map<string, Value>, keys: seq<string>): map<string, Value>
    requires forall k :: k in keys ==> k in defaults
    decreases |keys|
  {
    if |keys| == 0 then dict else MergeDict(DictStep(dict, conf, defaults, keys[0]), conf, defaults, keys[1..])
  }

  /** What `save_config` does, given the two flags and `conf_dict`. */
  function Saving(changed: bool, recreate: bool, dict: map<string, Value>, version: string): Saved {
    if !changed && !recreate then Skipped
    else match Substitute(dict, version)
      case Some(lines) => Written(lines)
      case None => Emptied
  }

  class Config {
    /** The instance attributes set through `__setattr__`. */
    var attrs: map<string, Value>
    var confDict: map<string, Value>
    var warnings: seq<string>
    var info: seq<string>
    /** What `cpu_sensors` contains and `cpu_percent_fields`, probed when the class is created. */
    const sensors: seq<string>
    const percentFields: seq<string>
    /** `__VERSION__` of the program. */
    const programVersion: string
    /** The class attribute `keys`: the names of the settings, in the order `__init__` visits them. */
    const keys: seq<string>
    /** The class attributes of the keys, which `getattr` finds while no instance attribute is set. */
    const defaults: map<string, Value>

    /** The object before `__init__` runs: no instance attribute, and the class-level dict and lists empty. */
    constructor(sensors: seq<string>, percentFields: seq<string>, programVersion: string)
      ensures attrs == map[] && confDict == map[] && warnings == [] && info == []
      ensures this.sensors == sensors && this.percentFields == percentFields
      ensures this.programVersion == programVersion
      ensures keys == Keys && defaults == ClassDefaults && KeyTuple(keys, defaults)
    {
      KeysHaveDefaults();
      keys := Keys;
      defaults := ClassDefaults;
      attrs := map[];
      confDict := map[];
      warnings := [];
      info := [];
      this.sensors := sensors;
      this.percentFields := percentFields;
      this.programVersion := programVersion;
    }

    function Attr(name: string): Value
      reads this
      requires name in attrs || name in defaults || name in Flags
    {
      AttrOf(attrs, defaults, name)
    }

    predicate Changed()
      reads this
    {
      FlagSet(attrs, ChangedName)
    }

    predicate Recreate()
      reads this
    {
      FlagSet(attrs, RecreateName)
    }

    predicate Initialized()
      reads this
    {
      FlagSet(attrs, InitializedName)
    }

    /** `__setattr__`: marks the object changed once initialised, sets the attribute, mirrors it. */
    method Set(name: string, value: Value)
      modifies this
      ensures attrs == AttrsAfterSet(old(attrs), name, value)
      ensures confDict == DictAfterSet(old(confDict), name, value)
      ensures warnings == old(warnings) && info == old(info)
    {
      if Initialized() {
        attrs := attrs[ChangedName := Bool(true)];
      }
      attrs := attrs[name := value];
      if name !in StateMemberNames {
        confDict := confDict[name := value];
      }
    }

    // -------------------------------------------------------------------
    // read_cfg_from_file
    // -------------------------------------------------------------------

    /** The loop over the lines of the file, filling `newConfig` and appending warnings. */
    method ReadCfgFromFile(lines: seq<string>, newConfig: map<string, Value>) returns (r: map<string, Value>)
      modifies this
      ensures Stage(r, warnings) == ParseFrom(Stage(newConfig, old(warnings)), lines)
      ensures attrs == old(attrs) && confDict == old(confDict) && info == old(info)
    {
      r := newConfig;
      for i := 0 to |lines|
        invariant ParseFrom(Stage(r, warnings), lines[i..]) == ParseFrom(Stage(newConfig, old(warnings)), lines)
        invariant attrs == old(attrs) && confDict == old(confDict) && info == old(info)
      {
        ghost var before := Stage(r, warnings);
        assert ParseFrom(before, lines[i..]) == ParseFrom(StepLine(before, lines[i]), lines[i + 1..]) by {
          assert lines[i..][0] == lines[i] && lines[i..][1..] == lines[i + 1..];
        }
        r := ReadLine(lines[i], r);
      }
    }

    /** The body of that loop for one line as the file yields it. */
    method ReadLine(raw: string, newConfig: map<string, Value>) returns (r: map<string, Value>)
      modifies this
      ensures Stage(r, warnings) == StepLine(Stage(newConfig, old(warnings)), raw)
      ensures attrs == old(attrs) && confDict == old(confDict) && info == old(info)
    {
      r := newConfig;
      var line := Strip(raw);
      if StartsWith(line, HeaderMarker) {
        r := r[VersionEntry := Str(HeaderVersion(line))];
        return;
      }
      if '=' !in line {
        return;
      }
      var eq := IndexOf(line, '=');
      var key := line[..eq];
      if key !in KeySet {
        return;
      }
      r := StoreCoerced(key, StripQuotes(line[eq + 1..]), r);
    }

    /** The three type tests of the loop body: store the converted value, or warn. */
    method StoreCoerced(key: string, text: string, newConfig: map<string, Value>) returns (r: map<string, Value>)
      modifies this
      ensures Stage(r, warnings) == Coerce(Stage(newConfig, old(warnings)), key, text)
      ensures attrs == old(attrs) && confDict == old(confDict) && info == old(info)
    {
      r := newConfig;
      match KindOf(key) {
        case IntKind =>
          match PyInt(text) {
            case Some(n) => r := r[key := Int(n)];
            case None => warnings := warnings + [IntWarning(key)];
          }
        case BoolKind =>
          match StrToBool(text) {
            case Some(b) => r := r[key := Bool(b)];
            case None => warnings := warnings + [BoolWarning(key)];
          }
        case StrKind =>
          r := r[key := Str(text)];
      }
    }

    // -------------------------------------------------------------------
    // The checks
    // -------------------------------------------------------------------

    /** The membership checks: `temp_scale`, `cpu_sensor`, `log_level`, `proc_sorting`. */
    method CheckMember(newConfig: map<string, Value>, key: string, accepted: set<string>, warning: string)
      returns (r: map<string, Value>)
      modifies this
      ensures Stage(r, warnings) == Validation.CheckMember(Stage(newConfig, old(warnings)), key, accepted, warning)
      ensures attrs == old(attrs) && confDict == old(confDict) && info == old(info)
    {
      r := newConfig;
      if key in r && !Accepts(r[key], accepted) {
        r := r[key := ErrorValue];
        warnings := warnings + [warning];
      }
    }

    /** `_check_cpu_graph`: the loop over the two graph keys. */
    method CheckCpuGraph(newConfig: map<string, Value>) returns (r: map<string, Value>)
      modifies this
      ensures Stage(r, warnings) == Validation.CheckCpuGraph(Stage(newConfig, old(warnings)), CpuGraphKeys, percentFields)
      ensures attrs == old(attrs) && confDict == old(confDict) && info == old(info)
    {
      r := newConfig;
      var keys := CpuGraphKeys;
      for i := 0 to |keys|
        invariant Validation.CheckCpuGraph(Stage(r, warnings), keys[i..], percentFields)
                  == Validation.CheckCpuGraph(Stage(newConfig, old(warnings)), keys, percentFields)
        invariant attrs == old(attrs) && confDict == old(confDict) && info == old(info)
      {
        var key := keys[i];
        if key in r && !Accepts(r[key], Elements(percentFields)) {
          r := r[key := ErrorValue];
          warnings := warnings + [CpuGraphWarning(key)];
        }
        assert keys[i..][1..] == keys[i + 1..];
      }
    }

    /** `_check_shown_boxes`: the loop over the tokens stops at the first that is not a box name. */
    method CheckShownBoxes(newConfig: map<string, Value>) returns (r: map<string, Value>)
      requires ShownBoxesKey in newConfig ==> newConfig[ShownBoxesKey].Str?
      modifies this
      ensures Stage(r, warnings) == Validation.CheckShownBoxes(Stage(newConfig, old(warnings)))
      ensures attrs == old(attrs) && confDict == old(confDict) && info == old(info)
    {
      r := newConfig;
      if ShownBoxesKey in r && r[ShownBoxesKey] != Str("") {
        var boxes := Words(r[ShownBoxesKey].s);
        var i := 0;
        while i < |boxes|
          invariant 0 <= i <= |boxes|
          invariant forall j :: 0 <= j < i ==> boxes[j] in BoxMemberNames
          invariant r == newConfig && warnings == old(warnings)
          invariant attrs == old(attrs) && confDict == old(confDict) && info == old(info)
        {
          if boxes[i] !in BoxMemberNames {
            r := r[ShownBoxesKey := ErrorValue];
            warnings := warnings + [ShownBoxesWarning];
            break;
          }
          i := i + 1;
        }
      }
    }

    /** `_check_net_names`: the loop over the two rates; `[0]` of an empty one raises. */
    method CheckNetNames(newConfig: map<string, Value>) returns (r: Checked)
      requires NetDownloadKey in newConfig ==> newConfig[NetDownloadKey].Str?
      requires NetUploadKey in newConfig ==> newConfig[NetUploadKey].Str?
      modifies this
      ensures r == Validation.CheckNetNames(Stage(newConfig, old(warnings)), NetKeys)
      ensures warnings == old(warnings) && r.st.warnings == warnings
      ensures attrs == old(attrs) && confDict == old(confDict) && info == old(info)
    {
      var c := newConfig;
      var keys := NetKeys;
      for i := 0 to |keys|
        invariant forall j :: i <= j < |keys| && keys[j] in c ==> c[keys[j]].Str?
        invariant Validation.CheckNetNames(Stage(c, warnings), keys[i..])
                  == Validation.CheckNetNames(Stage(newConfig, old(warnings)), keys)
        invariant warnings == old(warnings)
        invariant attrs == old(attrs) && confDict == old(confDict) && info == old(info)
      {
        var key := keys[i];
        assert keys[i..][0] == key && keys[i..][1..] == keys[i + 1..];
        if key in c {
          if c[key].s == "" {
            return IndexError(key, Stage(c, warnings));
          }
          if !IsDigit(c[key].s[0]) {
            c := c[key := ErrorValue];
          }
        }
      }
      return Done(Stage(c, warnings));
    }

    /** `_check_update_ms`: a value below the minimum becomes the minimum. */
    method CheckUpdateMs(newConfig: map<string, Value>) returns (r: map<string, Value>)
      requires UpdateMsKey in newConfig ==> newConfig[UpdateMsKey].Int?
      modifies this
      ensures Stage(r, warnings) == Validation.CheckUpdateMs(Stage(newConfig, old(warnings)))
      ensures attrs == old(attrs) && confDict == old(confDict) && info == old(info)
    {
      r := newConfig;
      if UpdateMsKey in r && r[UpdateMsKey].i < MinUpdateMs {
        r := r[UpdateMsKey := Int(MinUpdateMs)];
        warnings := warnings + [UpdateMsWarning];
      }
    }

    /** `validate_config`: the eight checks in their fixed order, each on what the previous handed on. */
    method ValidateConfig(newConfig: map<string, Value>) returns (r: Checked)
      requires Checkable(newConfig)
      modifies this
      ensures r == Validate(Stage(newConfig, old(warnings)), sensors, percentFields)
      ensures warnings == r.st.warnings
      ensures attrs == old(attrs) && confDict == old(confDict) && info == old(info)
    {
      ghost var st := Stage(newConfig, warnings);
      var c := CheckFrontKeys(newConfig);
      ghost var s4 := Stage(c, warnings);
      var net := CheckNetNames(c);
      if net.IndexError? {
        assert Validate(st, sensors, percentFields) == net;
        return net;
      }
      NetNamesFrame(s4, NetKeys);
      assert Validate(st, sensors, percentFields) == Done(CheckBack(net.st));
      c := CheckBackKeys(net.st.conf);
      r := Done(Stage(c, warnings));
    }

    /** The four checks before the network rates. */
    method CheckFrontKeys(newConfig: map<string, Value>) returns (r: map<string, Value>)
      requires Checkable(newConfig)
      modifies this
      ensures Stage(r, warnings) == CheckFront(Stage(newConfig, old(warnings)), sensors, percentFields)
      ensures attrs == old(attrs) && confDict == old(confDict) && info == old(info)
    {
      ghost var st := Stage(newConfig, warnings);
      r := CheckMember(newConfig, TempScaleKey, TempScaleMemberNames, TempScaleWarning);
      MemberKeepsCheckable(st, TempScaleKey, TempScaleMemberNames, TempScaleWarning);
      ghost var s1 := Stage(r, warnings);
      r := CheckCpuGraph(r);
      CpuGraphKeepsCheckable(s1, CpuGraphKeys, percentFields);
      r := CheckShownBoxes(r);
      r := CheckMember(r, CpuSensorKey, Elements(sensors), CpuSensorWarning);
    }

    /** The three checks after the network rates. */
    method CheckBackKeys(newConfig: map<string, Value>) returns (r: map<string, Value>)
      requires UpdateMsKey in newConfig ==> newConfig[UpdateMsKey].Int?
      modifies this
      ensures Stage(r, warnings) == CheckBack(Stage(newConfig, old(warnings)))
      ensures attrs == old(attrs) && confDict == old(confDict) && info == old(info)
    {
      r := CheckUpdateMs(newConfig);
      r := CheckMember(r, LogLevelKey, LogLevelValues, LogLevelWarning);
      r := CheckMember(r, ProcSortingKey, SortingValues, ProcSortingWarning);
    }

    /** `load_config`: nothing when no file was found, otherwise the file read into an empty dict and validated. */
    method LoadConfig(found: Option<seq<string>>) returns (r: Option<Checked>)
      modifies this
      ensures found.None? ==> r.None? && warnings == old(warnings)
      ensures found.Some? ==> r == Some(Loaded(found.value, old(warnings), sensors, percentFields))
      ensures found.Some? ==> warnings == r.value.st.warnings
      ensures attrs == old(attrs) && confDict == old(confDict) && info == old(info)
    {
      if found.None? {
        return None;
      }
      ParsedIsCheckable(warnings, found.value);
      var newConfig := ReadCfgFromFile(found.value, map[]);
      var checked := ValidateConfig(newConfig);
      r := Some(checked);
    }

    /**
     * The loop of `__init__` over the keys: a value read from the file is set
     * as an attribute; otherwise the object is marked for recreation and
     * `getattr` of the key goes into `conf_dict` directly.
     */
    method MergeKeys(conf: map<string, Value>, keys: seq<string>)
      requires forall k :: k in keys ==> k in defaults && PlainName(k) && k !in attrs
      requires Distinct(keys)
      requires !Initialized()
      modifies this
      ensures attrs == MergeAttrs(old(attrs), conf, keys)
      ensures confDict == MergeDict(old(confDict), conf, defaults, keys)
      ensures warnings == old(warnings) && info == old(info)
    {
      for i := 0 to |keys|
        invariant forall j :: i <= j < |keys| ==> keys[j] !in attrs
        invariant MergeAttrs(attrs, conf, keys[i..]) == MergeAttrs(old(attrs), conf, keys)
        invariant MergeDict(confDict, conf, defaults, keys[i..]) == MergeDict(old(confDict), conf, defaults, keys)
        invariant !Initialized()
        invariant warnings == old(warnings) && info == old(info)
      {
        assert keys[i..][0] == keys[i] && keys[i..][1..] == keys[i + 1..];
        MergeKey(conf, keys[i]);
      }
    }

    /** One pass of that loop, on a key not set yet. */
    method MergeKey(conf: map<string, Value>, key: string)
      requires key in defaults && PlainName(key) && key !in attrs
      requires !Initialized()
      modifies this
      ensures attrs == AttrsStep(old(attrs), conf, key)
      ensures confDict == DictStep(old(confDict), conf, defaults, key)
      ensures !Initialized()
      ensures warnings == old(warnings) && info == old(info)
    {
      if key in conf && conf[key] != ErrorValue {
        Set(key, conf[key]);
      } else {
        Set(RecreateName, Bool(true));
        confDict := confDict[key := Attr(key)];
      }
    }

    /** The version test of `__init__` on the loaded dict. */
    method CheckVersion(conf: map<string, Value>)
      requires !Initialized()
      modifies this
      ensures VersionInfo(conf, programVersion) == [] ==> attrs == old(attrs) && confDict == old(confDict)
      ensures VersionInfo(conf, programVersion) != [] ==>
                attrs == old(attrs)[RecreateName := Bool(true)] && confDict == old(confDict)[RecreateName := Bool(true)]
      ensures info == old(info) + VersionInfo(conf, programVersion)
      ensures warnings == old(warnings)
    {
      if VersionEntry !in conf {
        Set(RecreateName, Bool(true));
        info := info + [MalformedInfo];
      } else if conf[VersionEntry] != Str(programVersion) {
        Set(RecreateName, Bool(true));
        info := info + [MismatchInfo];
      }
    }

    /** The key loop of `__init__`, and the final `_initialized = True`. */
    method FinishInit(conf: map<string, Value>)
      requires KeyTuple(keys, defaults)
      requires attrs.Keys <= {ConfigFileName, RecreateName}
      requires RecreateMirrored(attrs, confDict)
      modifies this
      ensures forall k :: k in defaults ==>
                k in confDict && confDict[k] == Merged(conf, defaults, k) && Attr(k) == Merged(conf, defaults, k)
      ensures Recreate() <==> old(Recreate()) || exists k :: k in defaults && FallsBack(conf, k)
      ensures !Changed() && Initialized()
      ensures RecreateMirrored(attrs, confDict)
      ensures InitializedName in confDict && confDict[InitializedName] == Bool(true)
      ensures ConfigFileName in old(confDict) ==>
                ConfigFileName in confDict && confDict[ConfigFileName] == old(confDict)[ConfigFileName]
      ensures warnings == old(warnings) && info == old(info)
    {
      ghost var a0 := attrs;
      ghost var d0 := confDict;
      MergeKeys(conf, keys);
      MergeAttrsEntries(a0, conf, defaults, keys);
      MergeDictEntries(d0, conf, defaults, keys);
      MergeKeepsRecreateMirrored(a0, d0, conf, defaults, keys);
      Set(InitializedName, Bool(true));
    }

    /**
     * The state `__init__` leaves after loading `conf`: every key holds its
     * merged value, in `conf_dict` and as the attribute read back; the object
     * is marked for recreation exactly when the version differs or some key
     * fell back; it is initialised and not marked changed.
     */
    ghost predicate Settled(conf: map<string, Value>)
      reads this
    {
      && (forall k :: k in defaults ==>
            k in confDict && confDict[k] == Merged(conf, defaults, k) && Attr(k) == Merged(conf, defaults, k))
      && (Recreate() <==> NeedsRecreate(conf, defaults, programVersion))
      && !Changed() && Initialized()
    }

    /** What `__init__` does once the file is loaded and checked. */
    method Merge(conf: map<string, Value>)
      requires KeyTuple(keys, defaults)
      requires attrs.Keys <= {ConfigFileName}
      modifies this
      ensures Settled(conf)
      ensures RecreateMirrored(attrs, confDict)
      ensures InitializedName in confDict && confDict[InitializedName] == Bool(true)
      ensures info == old(info) + VersionInfo(conf, programVersion) && warnings == old(warnings)
      ensures ConfigFileName in old(confDict) ==>
                ConfigFileName in confDict && confDict[ConfigFileName] == old(confDict)[ConfigFileName]
    {
      CheckVersion(conf);
      FinishInit(conf);
    }

    /**
     * `__init__`: records the path, loads the file, notes a missing or
     * different version, merges every key and marks the object initialised.
     * A missing file ends in the `AttributeError` of `None.keys()`, an empty
     * network rate in the `IndexError` of the checks.
     */
    method Init(path: string, found: Option<seq<string>>) returns (outcome: InitOutcome)
      requires attrs == map[] && KeyTuple(keys, defaults)
      modifies this
      ensures outcome == Starting(found, old(warnings), sensors, percentFields)
      ensures ConfigFileName in confDict && confDict[ConfigFileName] == Str(path)
      ensures outcome.NoConfigFile? ==> warnings == old(warnings)
      ensures outcome.RateIndexError? ==>
                warnings == Loaded(found.value, old(warnings), sensors, percentFields).st.warnings
      ensures !outcome.Ready? ==> !Initialized() && attrs == map[ConfigFileName := Str(path)] && info == old(info)
      ensures outcome.Ready? ==>
                var loaded := Loaded(found.value, old(warnings), sensors, percentFields);
                && warnings == loaded.st.warnings
                && info == old(info) + VersionInfo(loaded.st.conf, programVersion)
                && Settled(loaded.st.conf)
                && RecreateMirrored(attrs, confDict)
                && InitializedName in confDict && confDict[InitializedName] == Bool(true)
    {
      Set(ConfigFileName, Str(path));
      var loaded := LoadConfig(found);
      if loaded.None? {
        return NoConfigFile;
      }
      if loaded.value.IndexError? {
        return RateIndexError(loaded.value.key);
      }
      var conf := loaded.value.st.conf;
      Merge(conf);
      return Ready;
    }

    /**
     * `save_config`: nothing when neither flag is set; otherwise the file is
     * opened for writing and receives the filled template, or stays empty
     * when `substitute` raises. The statement form of `Saving`.
     */
    method SaveConfig() returns (r: Saved)
      ensures r == Saving(Changed(), Recreate(), confDict, programVersion)
    {
      if !Changed() && !Recreate() {
        return Skipped;
      }
      var text := Substitute(confDict, programVersion);
      if text.None? {
        return Emptied;
      }
      return Written(text.value);
    }
  }

  /** Names that are neither a state flag nor a member name of `ConfigStates`. */
  predicate PlainName(n: string) {
    n !in Flags && n !in StateMemberNames && n != ConfigFileName
  }

  /**
   * The key loop sets each key: the attribute read back is the merged value,
   * the class default showing through where the file's value was not taken.
   * It sets `recreate` exactly when some key falls back, and touches nothing else.
   */
  lemma {:induction false} MergeAttrsEntries(attrs: map<string, Value>, conf: map<string, Value>,
                                             defaults: map<string, Value>, keys: seq<string>)
    requires forall k :: k in keys ==> k in defaults && k !in attrs && PlainName(k)
    requires Distinct(keys)
    ensures forall k :: k in keys ==> AttrOf(MergeAttrs(attrs, conf, keys), defaults, k) == Merged(conf, defaults, k)
    ensures FlagSet(MergeAttrs(attrs, conf, keys), RecreateName) <==>
              FlagSet(attrs, RecreateName) || exists k :: k in keys && FallsBack(conf, k)
    ensures forall n :: n !in keys && n != RecreateName ==>
              (n in MergeAttrs(attrs, conf, keys) <==> n in attrs)
              && (n in attrs ==> MergeAttrs(attrs, conf, keys)[n] == attrs[n])
    decreases |keys|
  {
    if |keys| > 0 {
      var k := keys[0];
      var rest := keys[1..];
      assert forall n :: n in keys <==> n == k || n in rest;
      assert k !in rest;
      assert Distinct(rest);
      MergeAttrsEntries(AttrsStep(attrs, conf, k), conf, defaults, rest);
    }
  }

  /** The key loop leaves each key's merged value in `conf_dict`, and `recreate` mirrored when set. */
  lemma {:induction false} MergeDictEntries(dict: map<string, Value>, conf: map<string, Value>,
                                            defaults: map<string, Value>, keys: seq<string>)
    requires forall k :: k in keys ==> k in defaults && k != RecreateName
    ensures forall k :: k in keys ==>
              k in MergeDict(dict, conf, defaults, keys) && MergeDict(dict, conf, defaults, keys)[k] == Merged(conf, defaults, k)
    ensures forall n :: n !in keys && n != RecreateName ==>
              (n in MergeDict(dict, conf, defaults, keys) <==> n in dict)
              && (n in dict ==> MergeDict(dict, conf, defaults, keys)[n] == dict[n])
    decreases |keys|
  {
    if |keys| > 0 {
      var k := keys[0];
      var rest := keys[1..];
      assert forall n :: n in keys <==> n == k || n in rest;
      MergeDictEntries(DictStep(dict, conf, defaults, k), conf, defaults, rest);
    }
  }

  /** The key loop keeps `recreate` mirrored: both folds set it to `True` on the same fallbacks. */
  lemma {:induction false} MergeKeepsRecreateMirrored(attrs: map<string, Value>, dict: map<string, Value>,
                                                      conf: map<string, Value>, defaults: map<string, Value>, keys: seq<string>)
    requires forall k :: k in keys ==> k in defaults && k != RecreateName
    requires RecreateMirrored(attrs, dict)
    ensures RecreateMirrored(MergeAttrs(attrs, conf, keys), MergeDict(dict, conf, defaults, keys))
    decreases |keys|
  {
    if |keys| > 0 {
      var k := keys[0];
      assert k != RecreateName;
      MergeKeepsRecreateMirrored(AttrsStep(attrs, conf, k), DictStep(dict, conf, defaults, k), conf, defaults, keys[1..]);
    }
  }

  /** A key tuple names each key with a class default once, and only plain names. */
  ghost predicate KeyTuple(keys: seq<string>, defaults: map<string, Value>) {
    Distinct(keys)
    && (forall k :: k in keys <==> k in defaults)
    && (forall k :: k in keys ==> PlainName(k))
  }

  /** The class attribute `keys` is such a tuple. */
  lemma KeysHaveDefaults()
    ensures KeyTuple(Keys, ClassDefaults)
  {
    KeysAreKeySet();
    KeysAreDistinct();
    ReservedNamesAreNotKeys();
    KeysAreNames();
    KeyOrderNames(Keys, KeySet, ClassDefaults);
  }

  lemma KeyOrderNames(keys: seq<string>, names: set<string>, defaults: map<string, Value>)
    requires Elements(keys) == names
    requires forall k :: k in defaults <==> k in names
    requires Reserved !! names
    requires forall k :: k in names ==> IsKeyName(k)
    ensures forall k :: k in keys <==> k in defaults
    ensures forall k :: k in keys ==> PlainName(k)
  {
    forall k | k in keys
      ensures PlainName(k)
    {
      assert k in names;
      assert IsKeyName(k);
    }
  }

  // ---------------------------------------------------------------------
  // What the results mean
  // ---------------------------------------------------------------------

  /**
   * After `__setattr__`, the object reads as changed exactly when `changed`
   * itself was written truthy, or it was already changed, or it was
   * initialised; before initialisation a write leaves the mark alone.
   */
  lemma ChangedAfterSet(attrs: map<string, Value>, name: string, value: Value)
    ensures FlagSet(AttrsAfterSet(attrs, name, value), ChangedName) <==>
              if name == ChangedName then Truthy(value)
              else FlagSet(attrs, InitializedName) || FlagSet(attrs, ChangedName)
  {
  }

  /** Every key, flag and `config_file` is mirrored into `conf_dict`: the member names never match. */
  lemma SetMirrors(conf: map<string, Value>, name: string, value: Value)
    requires name in KeySet || name in Flags || name == ConfigFileName
    ensures DictAfterSet(conf, name, value) == conf[name := value]
  {
    if name in KeySet {
      KeysAreNames();
      assert IsKeyName(name);
    }
  }

  /** Once a flag is set, the file is written exactly when every placeholder has an entry and the version's `$` expand. */
  lemma SavingWrites(changed: bool, recreate: bool, dict: map<string, Value>, version: string)
    requires changed || recreate
    ensures Saving(changed, recreate, dict, version).Written? <==> KeySet <= dict.Keys && Expand(version, dict).Some?
  {
  }

  /** For a version without `$`, the file is written exactly when every placeholder has an entry. */
  lemma SavingWritesPlain(changed: bool, recreate: bool, dict: map<string, Value>, version: string)
    requires changed || recreate
    requires '$' !in version
    ensures Saving(changed, recreate, dict, version).Written? <==> KeySet <= dict.Keys
    ensures Saving(changed, recreate, dict, version).Written? ==>
              Saving(changed, recreate, dict, version).lines[0] == HeaderLine(version)
  {
    ExpandPlain(version, dict);
  }

  /** A checked file holds values of each key's own type. */
  lemma LoadedIsWellTyped(lines: seq<string>, w: seq<string>, sensors: seq<string>, fields: seq<string>)
    ensures Loaded(lines, w, sensors, fields).Done? ==> WellTypedConf(Loaded(lines, w, sensors, fields).st.conf)
  {
    var st := ParseFrom(Stage(map[], w), lines);
    ParseFromWellTyped(Stage(map[], w), lines);
    ValidateKeepsWellTyped(st, sensors, fields);
  }

  /** After the merge every key holds a value of its own type, never the error marker. */
  lemma MergedIsWellTyped(conf: map<string, Value>, key: string)
    requires WellTypedConf(conf)
    requires key in KeySet
    ensures WellTyped(key, Merged(conf, ClassDefaults, key))
    ensures Merged(conf, ClassDefaults, key) != ErrorValue
  {
    DefaultsAreWellTyped(key);
    DefaultsAreNotError(key);
  }
}
