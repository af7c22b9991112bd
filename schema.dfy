/**
 * The schema of bpytop's configuration: the 48 recognised keys in the order
 * of `Config.keys`, the type and default of each (the class attributes of
 * `Config`), the rejection sentinel and the closed option sets.
 */
module Schema {
  import opened Text

  /** A configuration value as Python holds it: an int, a bool or a str. */
  datatype Value = Int(i: int) | Bool(b: bool) | Str(s: string)

  /** The type of a key's class default, which drives coercion. */
  datatype Kind = IntKind | BoolKind | StrKind

  /** `Config.keys`, first half. */
  const KeysFront: seq<string> := [
    "color_theme", "update_ms", "proc_sorting", "proc_reversed",
    "proc_tree", "check_temp", "draw_clock", "background_update",
    "custom_cpu_name", "proc_colors", "proc_gradient", "proc_per_core",
    "proc_mem_bytes", "disks_filter", "update_check", "log_level",
    "mem_graphs", "show_swap", "swap_disk", "show_disks",
    "use_fstab", "net_download", "net_upload", "net_auto"]

  /** `Config.keys`, second half. */
  const KeysBack: seq<string> := [
    "net_color_fixed", "show_init", "theme_background", "net_sync",
    "show_battery", "tree_depth", "cpu_sensor", "show_coretemp",
    "proc_update_mult", "shown_boxes", "net_iface", "only_physical",
    "truecolor", "io_mode", "io_graph_combined", "io_graph_speeds",
    "show_io_stat", "cpu_graph_upper", "cpu_graph_lower", "cpu_invert_lower",
    "cpu_single_graph", "show_uptime", "temp_scale", "show_cpu_freq"]

  /** The tuple `Config.keys`, in its own order. */
  const Keys: seq<string> := KeysFront + KeysBack

  const KeyGroup1: set<string> := {
    "color_theme", "update_ms", "proc_sorting", "proc_reversed",
    "proc_tree", "check_temp", "draw_clock", "background_update"}
  const KeyGroup2: set<string> := {
    "custom_cpu_name", "proc_colors", "proc_gradient", "proc_per_core",
    "proc_mem_bytes", "disks_filter", "update_check", "log_level"}
  const KeyGroup3: set<string> := {
    "mem_graphs", "show_swap", "swap_disk", "show_disks",
    "use_fstab", "net_download", "net_upload", "net_auto"}
  const KeyGroup4: set<string> := {
    "net_color_fixed", "show_init", "theme_background", "net_sync",
    "show_battery", "tree_depth", "cpu_sensor", "show_coretemp"}
  const KeyGroup5: set<string> := {
    "proc_update_mult", "shown_boxes", "net_iface", "only_physical",
    "truecolor", "io_mode", "io_graph_combined", "io_graph_speeds"}
  const KeyGroup6: set<string> := {
    "show_io_stat", "cpu_graph_upper", "cpu_graph_lower", "cpu_invert_lower",
    "cpu_single_graph", "show_uptime", "temp_scale", "show_cpu_freq"}

  /** The recognised keys as a set. */
  const KeySet: set<string> :=
    KeyGroup1 + KeyGroup2 + KeyGroup3 + KeyGroup4 + KeyGroup5 + KeyGroup6

  /** The keys whose class default is an int. */
  const IntKeys: set<string> := {"update_ms", "proc_update_mult", "tree_depth"}

  /** The str keys that a check of the validation chain inspects. */
  const CheckedStrKeys: set<string> := {
    "shown_boxes", "proc_sorting", "cpu_graph_upper", "cpu_graph_lower",
    "cpu_sensor", "temp_scale", "net_download", "net_upload", "log_level"}

  /** The str keys taken as they are. */
  const FreeStrKeys: set<string> := {
    "color_theme", "draw_clock", "custom_cpu_name", "disks_filter",
    "io_graph_speeds", "net_iface"}

  /** The keys whose class default is a str. */
  const StrKeys: set<string> := CheckedStrKeys + FreeStrKeys

  /** The bool keys whose class default is False; the other bool keys default to True. */
  const FalseByDefault: set<string> := {
    "proc_reversed", "proc_tree", "proc_per_core", "cpu_single_graph",
    "use_fstab", "io_mode", "io_graph_combined", "net_color_fixed",
    "net_sync", "show_init"}

  /** The type of the class default of a key. */
  function KindOf(key: string): Kind {
    if key in IntKeys then IntKind
    else if key in StrKeys then StrKind
    else BoolKind
  }

  function DefaultInt(key: string): int {
    match key
    case "update_ms" => 2000
    case "proc_update_mult" => 2
    case _ => 3
  }

  function DefaultStr(key: string): string {
    match key
    case "color_theme" => "Default"
    case "shown_boxes" => "cpu mem net proc"
    case "proc_sorting" => "cpu lazy"
    case "cpu_graph_upper" => "total"
    case "cpu_graph_lower" => "total"
    case "cpu_sensor" => "Auto"
    case "temp_scale" => "celsius"
    case "draw_clock" => "%X"
    case "net_download" => "10M"
    case "net_upload" => "10M"
    case "log_level" => "WARNING"
    case _ => ""
  }

  /** The class default of a recognised key. */
  function Default(key: string): Value
    requires key in KeySet
  {
    match KindOf(key)
    case IntKind => Int(DefaultInt(key))
    case StrKind => Str(DefaultStr(key))
    case BoolKind => Bool(key !in FalseByDefault)
  }

  /** `Config.ERROR_VALUE`: an ordinary string, so a file value `_error_` is rejected too. */
  const ErrorValue: Value := Str("_error_")

  predicate HasKind(v: Value, kind: Kind) {
    match kind
    case IntKind => v.Int?
    case BoolKind => v.Bool?
    case StrKind => v.Str?
  }

  /** A value of the type of the key's class default. */
  predicate WellTyped(key: string, v: Value) {
    HasKind(v, KindOf(key))
  }

  /** Every recognised key in `conf` holds a value of its type. */
  predicate WellTypedConf(conf: map<string, Value>) {
    forall k :: k in conf && k in KeySet ==> WellTyped(k, conf[k])
  }

  /** Python's `str()` of a value, as `Template.substitute` writes it. */
  function Show(v: Value): string {
    match v
    case Int(i) => IntToStr(i)
    case Bool(b) => BoolToStr(b)
    case Str(s) => s
  }

  /** Python truthiness. */
  predicate Truthy(v: Value) {
    match v
    case Int(i) => i != 0
    case Bool(b) => b
    case Str(s) => s != ""
  }

  /** The values of `SortingOptions`. */
  const SortingValues: set<string> := {
    "pid", "program", "arguments", "threads", "user", "memory",
    "cpu lazy", "cpu responsive"}

  /** The values of `LogLevels`. */
  const LogLevelValues: set<string> := {"ERROR", "WARNING", "INFO", "DEBUG"}

  /** The values of `BoxNames`. */
  const BoxValues: set<string> := {"cpu", "mem", "net", "proc"}

  /** `BoxNames.__members__`: the member names, not the values. */
  const BoxMemberNames: set<string> := {"CPU", "MEM", "NET", "PROC"}

  /** The values of `TempScales`. */
  const TempScaleValues: set<string> := {"celsius", "fahrenheit", "kelvin", "rankine"}

  /** `TempScales.__members__`: the member names, not the values. */
  const TempScaleMemberNames: set<string> := {"CELSIUS", "FAHRENHEIT", "KELVIN", "RANKINE"}

  // ---------------------------------------------------------------------
  // Facts about the schema
  // ---------------------------------------------------------------------

  lemma KeyGroup1Size()
    ensures |KeyGroup1| == 8
  {
  }

  lemma KeyGroup2Size()
    ensures |KeyGroup2| == 8
  {
  }

  lemma KeyGroup3Size()
    ensures |KeyGroup3| == 8
  {
  }

  lemma KeyGroup4Size()
    ensures |KeyGroup4| == 8
  {
  }

  lemma KeyGroup5Size()
    ensures |KeyGroup5| == 8
  {
  }

  lemma KeyGroup6Size()
    ensures |KeyGroup6| == 8
  {
  }

  lemma KeyGroups12Apart()
    ensures KeyGroup1 !! KeyGroup2
  {
  }

  lemma KeyGroups13Apart()
    ensures KeyGroup1 !! KeyGroup3
  {
  }

  lemma KeyGroups14Apart()
    ensures KeyGroup1 !! KeyGroup4
  {
  }

  lemma KeyGroups15Apart()
    ensures KeyGroup1 !! KeyGroup5
  {
  }

  lemma KeyGroups16Apart()
    ensures KeyGroup1 !! KeyGroup6
  {
  }

  lemma KeyGroups23Apart()
    ensures KeyGroup2 !! KeyGroup3
  {
  }

  lemma KeyGroups24Apart()
    ensures KeyGroup2 !! KeyGroup4
  {
  }

  lemma KeyGroups25Apart()
    ensures KeyGroup2 !! KeyGroup5
  {
  }

  lemma KeyGroups26Apart()
    ensures KeyGroup2 !! KeyGroup6
  {
  }

  lemma KeyGroups34Apart()
    ensures KeyGroup3 !! KeyGroup4
  {
  }

  lemma KeyGroups35Apart()
    ensures KeyGroup3 !! KeyGroup5
  {
  }

  lemma KeyGroups36Apart()
    ensures KeyGroup3 !! KeyGroup6
  {
  }

  lemma KeyGroups45Apart()
    ensures KeyGroup4 !! KeyGroup5
  {
  }

  lemma KeyGroups46Apart()
    ensures KeyGroup4 !! KeyGroup6
  {
  }

  lemma KeyGroups56Apart()
    ensures KeyGroup5 !! KeyGroup6
  {
  }

  lemma SixDisjointGroups(a: set<string>, b: set<string>, c: set<string>,
                         d: set<string>, e: set<string>, f: set<string>)
    requires |a| == 8 && |b| == 8 && |c| == 8 && |d| == 8 && |e| == 8 && |f| == 8
    requires a !! b && a !! c && a !! d && a !! e && a !! f
    requires b !! c && b !! d && b !! e && b !! f
    requires c !! d && c !! e && c !! f && d !! e && d !! f && e !! f
    ensures |a + b + c + d + e + f| == 48
  {
    assert |a + b| == 16;
    assert |a + b + c| == 24;
    assert |a + b + c + d| == 32;
    assert |a + b + c + d + e| == 40;
  }

  /** There are 48 recognised keys. */
  lemma KeySetSize()
    ensures |KeySet| == 48
  {
    KeyGroup1Size();
    KeyGroup2Size();
    KeyGroup3Size();
    KeyGroup4Size();
    KeyGroup5Size();
    KeyGroup6Size();
    KeyGroups12Apart();
    KeyGroups13Apart();
    KeyGroups14Apart();
    KeyGroups15Apart();
    KeyGroups16Apart();
    KeyGroups23Apart();
    KeyGroups24Apart();
    KeyGroups25Apart();
    KeyGroups26Apart();
    KeyGroups34Apart();
    KeyGroups35Apart();
    KeyGroups36Apart();
    KeyGroups45Apart();
    KeyGroups46Apart();
    KeyGroups56Apart();
    SixDisjointGroups(KeyGroup1, KeyGroup2, KeyGroup3, KeyGroup4, KeyGroup5, KeyGroup6);
  }

  lemma KeysFrontAreGroups123()
    ensures Elements(KeysFront) == KeyGroup1 + KeyGroup2 + KeyGroup3
  {
  }

  lemma KeysBackAreGroups456()
    ensures Elements(KeysBack) == KeyGroup4 + KeyGroup5 + KeyGroup6
  {
  }

  /** The tuple and the set hold the same keys. */
  lemma KeysAreKeySet()
    ensures Elements(Keys) == KeySet
  {
    KeysFrontAreGroups123();
    KeysBackAreGroups456();
    ElementsOfConcat(KeysFront, KeysBack);
  }

  /** `Config.keys` names 48 keys and none of them twice. */
  lemma KeysAreDistinct()
    ensures |Keys| == 48 && Distinct(Keys)
  {
    KeysAreKeySet();
    KeySetSize();
    ElementsCard(Keys);
  }

  /** A key starts with a lower-case letter and holds no `=`. */
  predicate IsKeyName(k: string) {
    |k| > 0 && 'a' <= k[0] <= 'z' && '=' !in k
  }

  lemma NamesInGroup1()
    ensures forall k :: k in KeyGroup1 ==> IsKeyName(k)
  {
  }

  lemma NamesInGroup2()
    ensures forall k :: k in KeyGroup2 ==> IsKeyName(k)
  {
  }

  lemma NamesInGroup3()
    ensures forall k :: k in KeyGroup3 ==> IsKeyName(k)
  {
  }

  lemma NamesInGroup4()
    ensures forall k :: k in KeyGroup4 ==> IsKeyName(k)
  {
  }

  lemma NamesInGroup5()
    ensures forall k :: k in KeyGroup5 ==> IsKeyName(k)
  {
  }

  lemma NamesInGroup6()
    ensures forall k :: k in KeyGroup6 ==> IsKeyName(k)
  {
  }

  /** Every key starts with a lower-case letter and holds no `=`. */
  lemma KeysAreNames()
    ensures forall k :: k in KeySet ==> IsKeyName(k)
  {
    NamesInGroup1();
    NamesInGroup2();
    NamesInGroup3();
    NamesInGroup4();
    NamesInGroup5();
    NamesInGroup6();
  }

  lemma IntKeysAreKeys()
    ensures IntKeys <= KeySet && |IntKeys| == 3
  {
  }

  lemma StrKeysAreKeys()
    ensures StrKeys <= KeySet
  {
  }

  lemma CheckedStrKeysSize()
    ensures |CheckedStrKeys| == 9
  {
  }

  lemma FreeStrKeysSize()
    ensures |FreeStrKeys| == 6 && CheckedStrKeys !! FreeStrKeys
  {
  }

  lemma StrKeysSize()
    ensures |StrKeys| == 15
  {
    CheckedStrKeysSize();
    FreeStrKeysSize();
  }

  lemma IntKeysAreNotStrKeys()
    ensures IntKeys !! StrKeys
  {
  }

  /** Three int keys and fifteen str keys, all of them recognised; the other thirty keys are bools. */
  lemma KindsPartitionKeys()
    ensures IntKeys <= KeySet && StrKeys <= KeySet && IntKeys !! StrKeys
    ensures |IntKeys| == 3 && |StrKeys| == 15
    ensures |KeySet - IntKeys - StrKeys| == 30
  {
    IntKeysAreKeys();
    StrKeysAreKeys();
    StrKeysSize();
    IntKeysAreNotStrKeys();
    KeySetSize();
    SubsetCard(KeySet, IntKeys, StrKeys);
  }

  /** Every class default has its key's own type. */
  lemma DefaultsAreWellTyped(key: string)
    requires key in KeySet
    ensures WellTyped(key, Default(key))
  {
  }

  lemma DefaultStrIsNotError(key: string)
    ensures DefaultStr(key) != "_error_"
  {
  }

  /** No class default is the sentinel. */
  lemma DefaultsAreNotError(key: string)
    requires key in KeySet
    ensures Default(key) != ErrorValue
  {
    DefaultStrIsNotError(key);
  }

  /**
   * The names that share the configuration map with the keys: the header
   * entry of the parser and the attributes the configuration object writes.
   */
  const Reserved: set<string> := {"version", "config_file", "changed", "recreate", "_initialized"}

  lemma ReservedNamesNotInGroup1()
    ensures Reserved !! KeyGroup1
  {
  }

  lemma ReservedNamesNotInGroup2()
    ensures Reserved !! KeyGroup2
  {
  }

  lemma ReservedNamesNotInGroup3()
    ensures Reserved !! KeyGroup3
  {
  }

  lemma ReservedNamesNotInGroup4()
    ensures Reserved !! KeyGroup4
  {
  }

  lemma ReservedNamesNotInGroup5()
    ensures Reserved !! KeyGroup5
  {
  }

  lemma ReservedNamesNotInGroup6()
    ensures Reserved !! KeyGroup6
  {
  }

  /** No key is one of the reserved names. */
  lemma ReservedNamesAreNotKeys()
    ensures Reserved !! KeySet
  {
    ReservedNamesNotInGroup1();
    ReservedNamesNotInGroup2();
    ReservedNamesNotInGroup3();
    ReservedNamesNotInGroup4();
    ReservedNamesNotInGroup5();
    ReservedNamesNotInGroup6();
  }

  /** The box and temperature-scale values are not among the member names the checks consult. */
  lemma MemberNamesAreNotValues()
    ensures BoxValues !! BoxMemberNames
    ensures TempScaleValues !! TempScaleMemberNames
  {
  }
}
