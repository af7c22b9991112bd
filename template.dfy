/**
 * The `DEFAULT_CONF` template of src/static/default_bpytop_config.py and
 * its `substitute`: a header line carrying the program version, then one
 * block per key, each a blank line (except before `net_upload`), its
 * `#* ` comment lines and a `key=$key` line, with the value in double
 * quotes for thirteen string keys.
 */
module DefaultConf {
  import opened Text
  import opened Schema
  import opened Parser

  /** The order of the placeholders in the template. */
  const OrderFront: seq<string> := [
    "color_theme", "theme_background", "truecolor", "shown_boxes",
    "update_ms", "proc_update_mult", "proc_sorting", "proc_reversed",
    "proc_tree", "tree_depth", "proc_colors", "proc_gradient",
    "proc_per_core", "proc_mem_bytes", "cpu_graph_upper", "cpu_graph_lower",
    "cpu_invert_lower", "cpu_single_graph", "show_uptime", "check_temp",
    "cpu_sensor", "show_coretemp", "temp_scale", "show_cpu_freq"]
  const OrderBack: seq<string> := [
    "draw_clock", "background_update", "custom_cpu_name", "disks_filter",
    "mem_graphs", "show_swap", "swap_disk", "show_disks",
    "only_physical", "use_fstab", "show_io_stat", "io_mode",
    "io_graph_combined", "io_graph_speeds", "net_download", "net_upload",
    "net_auto", "net_sync", "net_color_fixed", "net_iface",
    "show_battery", "show_init", "update_check", "log_level"]
  const Order: seq<string> := OrderFront + OrderBack

  /** The keys whose placeholder is written between double quotes. */
  const QuotedKeys: set<string> := {
    "color_theme", "shown_boxes", "proc_sorting", "cpu_graph_upper",
    "cpu_graph_lower", "temp_scale", "draw_clock", "custom_cpu_name",
    "disks_filter", "io_graph_speeds", "net_download", "net_upload",
    "net_iface"}

  /** The one key whose block is not preceded by a blank line. */
  const SharedBlockKey: string := "net_upload"

  predicate OpensBlock(key: string) {
    key != SharedBlockKey
  }

  /** The text of the first line, up to the version. */
  const HeaderPrefix: string := HeaderMarker + " file for bpytop " + VersionMarker

  /** The mark that starts every comment line of the template. */
  const CommentMark: string := "#* "

  /** The comment lines above each placeholder, after their `#* ` mark. */
  function Docs(key: string): seq<string> {
    match key
    case "color_theme" => [
      "Color theme, looks for a .theme file in " +
        "\"/usr/[local/]share/bpytop/themes\" and " +
        "\"~/.config/bpytop/themes\", \"Default\" for builtin DEFAULT theme.",
      "Prefix name by a plus sign (+) for a theme located in user " +
        "themes folder, i.e. color_theme=\"+monokai\""]
    case "theme_background" => [
      "If the theme set background should be shown, set to False if " +
        "you want terminal background transparency"]
    case "truecolor" => [
      "Sets if 24-bit truecolor should be used, will convert 24-bit " +
        "colors to 256 color (6x6x6 color cube) if false."]
    case "shown_boxes" => [
      "Manually set which boxes to show. Available values are \"cpu mem " +
        "net proc\", seperate values with whitespace."]
    case "update_ms" => [
      "Update time in milliseconds, increases automatically if set " +
        "below internal loops processing time, recommended 2000 ms or " +
        "above for better sample times for graphs."]
    case "proc_update_mult" => [
      "Processes update multiplier, sets how often the process list is " +
        "updated as a multiplier of \"update_ms\".",
      "Set to 2 or higher to greatly decrease bpytop cpu usage. (Only " +
        "integers)"]
    case "proc_sorting" => [
      "Processes sorting, \"pid\" \"program\" \"arguments\" \"threads\" \"user\" " +
        "\"memory\" \"cpu lazy\" \"cpu responsive\",",
      "\"cpu lazy\" updates top process over time, \"cpu responsive\" " +
        "updates top process directly."]
    case "proc_reversed" => [
      "Reverse sorting order, True or False."]
    case "proc_tree" => [
      "Show processes as a tree"]
    case "tree_depth" => [
      "Which depth the tree view should auto collapse processes at"]
    case "proc_colors" => [
      "Use the cpu graph colors in the process list."]
    case "proc_gradient" => [
      "Use a darkening gradient in the process list."]
    case "proc_per_core" => [
      "If process cpu usage should be of the core it's running on or " +
        "usage of the total available cpu power."]
    case "proc_mem_bytes" => [
      "Show process memory as bytes instead of percent"]
    case "cpu_graph_upper" => [
      "Sets the CPU stat shown in upper half of the CPU graph, \"total\" " +
        "is always available, see:",
      "https://psutil.readthedocs.io/en/latest/#psutil.cpu_times for " +
        "attributes available on specific platforms.",
      "Select from a list of detected attributes from the options menu"]
    case "cpu_graph_lower" => [
      "Sets the CPU stat shown in lower half of the CPU graph, \"total\" " +
        "is always available, see:",
      "https://psutil.readthedocs.io/en/latest/#psutil.cpu_times for " +
        "attributes available on specific platforms.",
      "Select from a list of detected attributes from the options menu"]
    case "cpu_invert_lower" => [
      "Toggles if the lower CPU graph should be inverted."]
    case "cpu_single_graph" => [
      "Set to True to completely disable the lower CPU graph."]
    case "show_uptime" => [
      "Shows the system uptime in the CPU box."]
    case "check_temp" => [
      "Check cpu temperature, needs \"osx-cpu-temp\" on MacOS X."]
    case "cpu_sensor" => [
      "Which sensor to use for cpu temperature, use options menu to " +
        "select from list of available sensors."]
    case "show_coretemp" => [
      "Show temperatures for cpu cores also if check_temp is True and " +
        "sensors has been found"]
    case "temp_scale" => [
      "Which temperature scale to use, available values: \"celsius\", " +
        "\"fahrenheit\", \"kelvin\" and \"rankine\""]
    case "show_cpu_freq" => [
      "Show CPU frequency, can cause slowdowns on certain systems with " +
        "some versions of psutil"]
    case "draw_clock" => [
      "Draw a clock at top of screen, formatting according to " +
        "strftime, empty string to disable."]
    case "background_update" => [
      "Update main ui in background when menus are showing, set this " +
        "to false if the menus is flickering too much for comfort."]
    case "custom_cpu_name" => [
      "Custom cpu model name, empty string to disable."]
    case "disks_filter" => [
      "Optional filter for shown disks, should be full path of a " +
        "mountpoint, separate multiple values with a comma \",\".",
      "Begin line with \"exclude=\" to change to exclude filter, " +
        "oterwise defaults to \"most include\" filter. Example: " +
        "disks_filter=\"exclude=/boot, /home/user\""]
    case "mem_graphs" => [
      "Show graphs instead of meters for memory values."]
    case "show_swap" => [
      "If swap memory should be shown in memory box."]
    case "swap_disk" => [
      "Show swap as a disk, ignores show_swap value above, inserts " +
        "itself after first disk."]
    case "show_disks" => [
      "If mem box should be split to also show disks info."]
    case "only_physical" => [
      "Filter out non physical disks. Set this to False to include " +
        "network disks, RAM disks and similar."]
    case "use_fstab" => [
      "Read disks list from /etc/fstab. This also disables " +
        "only_physical."]
    case "show_io_stat" => [
      "Toggles if io stats should be shown in regular disk usage view"]
    case "io_mode" => [
      "Toggles io mode for disks, showing only big graphs for disk " +
        "read/write speeds."]
    case "io_graph_combined" => [
      "Set to True to show combined read/write io graphs in io mode."]
    case "io_graph_speeds" => [
      "Set the top speed for the io graphs in MiB/s (10 by DEFAULT), " +
        "use format \"device:speed\" seperate disks with a comma \",\".",
      "Example: \"/dev/sda:100, /dev/sdb:20\""]
    case "net_download" => [
      "Set fixed values for network graphs, DEFAULT \"10M\" = 10 " +
        "Mibibytes, possible units \"K\", \"M\", \"G\", append with \"bit\" for " +
        "bits instead of bytes, i.e \"100mbit\""]
    case "net_upload" => []
    case "net_auto" => [
      "Start in network graphs auto rescaling mode, ignores any values " +
        "set above and rescales down to 10 Kibibytes at the lowest."]
    case "net_sync" => [
      "Sync the scaling for download and upload to whichever currently " +
        "has the highest scale"]
    case "net_color_fixed" => [
      "If the network graphs color gradient should scale to bandwith " +
        "usage or auto scale, bandwith usage is based on \"net_download\" " +
        "and \"net_upload\" values"]
    case "net_iface" => [
      "Starts with the Network Interface specified here."]
    case "show_battery" => [
      "Show battery stats in top right if battery is present"]
    case "show_init" => [
      "Show init screen at startup, the init screen is purely " +
        "cosmetical"]
    case "update_check" => [
      "Enable check for new version from " +
        "github.com/aristocratos/bpytop at start."]
    case "log_level" => [
      "Set loglevel for \"~/.config/bpytop/error.log\" levels are: " +
        "\"ERROR\" \"WARNING\" \"INFO\" \"DEBUG\".",
      "The level set includes all lower levels, i.e. \"DEBUG\" will show " +
        "all logging info."]
    case _ => []
  }

  // ---------------------------------------------------------------------
  // The version as template text
  // ---------------------------------------------------------------------

  /** The first character of a `string.Template` name: an ASCII letter, of either case, or `_`. */
  predicate IsNameStart(c: char) {
    c == '_' || 'a' <= c <= 'z' || 'A' <= c <= 'Z'
  }

  /** A later character of a `string.Template` name. */
  predicate IsNameChar(c: char) {
    IsNameStart(c) || '0' <= c <= '9'
  }

  /** `s` before the text `rest` expands to, or the error `rest` raises. */
  function Then(s: string, rest: Option<string>): (r: Option<string>)
    ensures r.Some? <==> rest.Some?
  {
    match rest
    case None => None
    case Some(t) => Some(s + t)
  }

  /**
   * What `substitute` makes of the text `t` of the template. The version is
   * put into the template's text before the `Template` is built, so its
   * `$` are template syntax: `$$` gives `$`, `$name` and `${name}` give
   * `str()` of the entry `name` of `m` (a `KeyError` when there is none),
   * and any other `$` is an invalid placeholder (a `ValueError`). `None`
   * stands for either error.
   */
  function Expand(t: string, m: map<string, Value>): Option<string>
    decreases |t|, 1
  {
    if |t| == 0 then Some("")
    else if t[0] != '$' then Then([t[0]], Expand(t[1..], m))
    else ExpandDollar(t, m)
  }

  /** `Expand` on a text that starts with `$`. */
  function ExpandDollar(t: string, m: map<string, Value>): Option<string>
    requires |t| > 0 && t[0] == '$'
    decreases |t|, 0
  {
    if |t| >= 2 && t[1] == '$' then Then("$", Expand(t[2..], m))
    else if |t| >= 2 && IsNameStart(t[1]) then
      var n := 1 + LeadLen(t[1..], IsNameChar);
      if t[1..n] in m then Then(Show(m[t[1..n]]), Expand(t[n..], m)) else None
    else if |t| >= 3 && t[1] == '{' && IsNameStart(t[2]) then
      var n := 2 + LeadLen(t[2..], IsNameChar);
      if n < |t| && t[n] == '}' && t[2..n] in m then Then(Show(m[t[2..n]]), Expand(t[n + 1..], m)) else None
    else None
  }

  /** Text without `$` passes through `substitute` unchanged, in front of whatever follows. */
  lemma {:induction false} ExpandPrefix(a: string, t: string, m: map<string, Value>)
    requires '$' !in a
    ensures Expand(a + t, m) == Then(a, Expand(t, m))
    decreases |a|
  {
    if |a| > 0 {
      var u := a + t;
      assert u[0] == a[0] && a[0] in a;
      assert u[1..] == a[1..] + t;
      assert Expand(u, m) == Then([a[0]], Expand(a[1..] + t, m));
      ExpandPrefix(a[1..], t, m);
      match Expand(t, m)
      case None =>
      case Some(x) => assert [a[0]] + (a[1..] + x) == a + x;
    } else {
      assert a + t == t;
      match Expand(t, m)
      case None =>
      case Some(x) => assert a + x == x;
    }
  }

  /** A version without `$` is written as it is. */
  lemma ExpandPlain(t: string, m: map<string, Value>)
    requires '$' !in t
    ensures Expand(t, m) == Some(t)
  {
    ExpandPrefix(t, "", m);
    assert t + "" == t;
  }

  /** `$$` is written as one `$`. */
  lemma ExpandEscape(a: string, b: string, m: map<string, Value>)
    requires '$' !in a && '$' !in b
    ensures Expand(a + "$$" + b, m) == Some(a + "$" + b)
  {
    var u := "$$" + b;
    ExpandPrefix(a, u, m);
    assert a + "$$" + b == a + u;
    assert u[0] == '$' && u[1] == '$' && u[2..] == b;
    ExpandPlain(b, m);
    assert Expand(u, m) == Then("$", Some(b));
    assert (a + "$") + b == a + ("$" + b);
  }

  /** A `$` that ends the text starts no placeholder: `substitute` raises. */
  lemma ExpandLoneDollar(a: string, m: map<string, Value>)
    requires '$' !in a
    ensures Expand(a + "$", m).None?
  {
    ExpandPrefix(a, "$", m);
  }

  /** `$name`, followed by a character that cannot continue the name, is the entry's `str()`. */
  lemma ExpandNamed(name: string, b: string, m: map<string, Value>)
    requires |name| > 0 && IsNameStart(name[0]) && forall i :: 0 <= i < |name| ==> IsNameChar(name[i])
    requires '$' !in b && (|b| == 0 || !IsNameChar(b[0]))
    requires name in m
    ensures Expand("$" + name + b, m) == Some(Show(m[name]) + b)
  {
    var t := "$" + name + b;
    assert t[1..] == name + b;
    LeadLenIs(name + b, IsNameChar, |name|);
    assert t[1..1 + |name|] == name;
    assert t[1 + |name|..] == b;
    ExpandPlain(b, m);
  }

  /** `$name` of a name `m` has no entry for is the `KeyError` of `substitute`. */
  lemma ExpandMissing(name: string, b: string, m: map<string, Value>)
    requires |name| > 0 && IsNameStart(name[0]) && forall i :: 0 <= i < |name| ==> IsNameChar(name[i])
    requires |b| == 0 || !IsNameChar(b[0])
    requires name !in m
    ensures Expand("$" + name + b, m).None?
  {
    var t := "$" + name + b;
    assert t[0] == '$' && t[1] == name[0] && t[1] != '$';
    assert t[1..] == name + b;
    LeadLenIs(name + b, IsNameChar, |name|);
    assert t[1..1 + |name|] == name;
  }

  // ---------------------------------------------------------------------
  // The lines
  // ---------------------------------------------------------------------

  function HeaderLine(version: string): string {
    HeaderPrefix + version
  }

  function CommentLine(text: string): string {
    CommentMark + text
  }

  function CommentLines(texts: seq<string>): (r: seq<string>)
    ensures |r| == |texts|
    ensures forall i :: 0 <= i < |r| ==> r[i] == CommentLine(texts[i])
  {
    if |texts| == 0 then [] else [CommentLine(texts[0])] + CommentLines(texts[1..])
  }

  /** `key=$key` or `key="$key"` with `str()` of the value put in. */
  function AssignmentLine(key: string, v: Value): string {
    if key in QuotedKeys then key + "=" + "\"" + Show(v) + "\""
    else key + "=" + Show(v)
  }

  /** The lines of the block for `key`: its blank line, its comments and its assignment. */
  function Block(key: string, docs: seq<string>, v: Value): seq<string> {
    (if OpensBlock(key) then [""] else []) + CommentLines(docs) + [AssignmentLine(key, v)]
  }

  /** The blocks of the placeholders `keys`, in turn, with comments from `docs`. */
  function BlocksOf(m: map<string, Value>, docs: string -> seq<string>, keys: seq<string>): seq<string>
    requires forall i :: 0 <= i < |keys| ==> keys[i] in m
    decreases |keys|
  {
    if |keys| == 0 then [] else Block(keys[0], docs(keys[0]), m[keys[0]]) + BlocksOf(m, docs, keys[1..])
  }

  /** Whether `substitute` finds every placeholder of the template in `m`. */
  predicate Covers(m: map<string, Value>) {
    forall i :: 0 <= i < |Order| ==> Order[i] in m
  }

  /**
   * The template's text with `docs` as its comments, filled in from `m`,
   * as its lines; `None` for the `KeyError` of a placeholder `m` lacks and
   * for the error the version's own `$` may raise.
   */
  function Render(m: map<string, Value>, version: string, docs: string -> seq<string>): (r: Option<seq<string>>)
    ensures r.Some? <==> KeySet <= m.Keys && Expand(version, m).Some?
    ensures r.Some? ==> |r.value| > 0 && r.value[0] == HeaderLine(Expand(version, m).value)
  {
    CoversAllKeys(m);
    match Expand(version, m)
    case None => None
    case Some(v) => if Covers(m) then Some([HeaderLine(v)] + BlocksOf(m, docs, Order)) else None
  }

  /** `DEFAULT_CONF.substitute(m)`, the template with its own comments. */
  function Substitute(m: map<string, Value>, version: string): (r: Option<seq<string>>)
    ensures r.Some? <==> KeySet <= m.Keys && Expand(version, m).Some?
  {
    Render(m, version, Docs)
  }

  // ---------------------------------------------------------------------
  // The placeholders
  // ---------------------------------------------------------------------

  lemma OrderFrontAreKeys()
    ensures Elements(OrderFront) <= KeySet
  {
  }

  lemma OrderBackAreKeys()
    ensures Elements(OrderBack) <= KeySet
  {
  }

  lemma Group1InOrder()
    ensures KeyGroup1 <= Elements(Order)
  {
  }

  lemma Group2InOrder()
    ensures KeyGroup2 <= Elements(Order)
  {
  }

  lemma Group3InOrder()
    ensures KeyGroup3 <= Elements(Order)
  {
  }

  lemma Group4InOrder()
    ensures KeyGroup4 <= Elements(Order)
  {
  }

  lemma Group5InOrder()
    ensures KeyGroup5 <= Elements(Order)
  {
  }

  lemma Group6InOrder()
    ensures KeyGroup6 <= Elements(Order)
  {
  }

  lemma SixGroupsWithin(e: set<string>, a: set<string>, b: set<string>, c: set<string>,
                        d: set<string>, f: set<string>, g: set<string>)
    requires a <= e && b <= e && c <= e && d <= e && f <= e && g <= e
    ensures a + b + c + d + f + g <= e
  {
  }

  lemma OrderElementsAreKeySet()
    ensures Elements(Order) == KeySet
  {
    OrderFrontAreKeys();
    OrderBackAreKeys();
    ElementsOfConcat(OrderFront, OrderBack);
    Group1InOrder();
    Group2InOrder();
    Group3InOrder();
    Group4InOrder();
    Group5InOrder();
    Group6InOrder();
    SixGroupsWithin(Elements(Order), KeyGroup1, KeyGroup2, KeyGroup3, KeyGroup4, KeyGroup5, KeyGroup6);
  }

  /**
   * The template names every key exactly once, in an order of its own that
   * is not the order of `Config.keys`.
   */
  lemma OrderIsPermutation()
    ensures Elements(Order) == KeySet
    ensures |Order| == 48 && Distinct(Order)
    ensures Order != Keys
  {
    OrderElementsAreKeySet();
    KeySetSize();
    ElementsCard(Order);
    OrderIsNotKeys();
  }

  lemma OrderIsNotKeys()
    ensures Order != Keys
  {
    assert Order[1] == "theme_background";
    assert Keys[1] == "update_ms";
  }

  /** Thirteen string keys are quoted; `cpu_sensor` and `log_level` are the string keys that are not. */
  lemma QuotedKeysAreStrKeys()
    ensures QuotedKeys <= StrKeys
    ensures StrKeys - QuotedKeys == {"cpu_sensor", "log_level"}
  {
  }

  /** A quoted placeholder is that of a string key. */
  lemma QuotedKeyIsStr(key: string)
    requires key in QuotedKeys
    ensures KindOf(key) == StrKind
  {
    QuotedKeysAreStrKeys();
    IntKeysAreNotStrKeys();
  }

  // ---------------------------------------------------------------------
  // What substitute reads
  // ---------------------------------------------------------------------

  lemma {:induction false} BlocksAgree(m1: map<string, Value>, m2: map<string, Value>, keys: seq<string>)
    requires forall i :: 0 <= i < |keys| ==> keys[i] in m1 && keys[i] in m2 && m1[keys[i]] == m2[keys[i]]
    ensures forall docs :: BlocksOf(m1, docs, keys) == BlocksOf(m2, docs, keys)
    decreases |keys|
  {
    if |keys| > 0 {
      BlocksAgree(m1, m2, keys[1..]);
    }
  }

  /** The template's placeholders are found in `m` exactly when `m` holds every key. */
  lemma CoversAllKeys(m: map<string, Value>)
    ensures Covers(m) <==> KeySet <= m.Keys
  {
    OrderElementsAreKeySet();
    if KeySet <= m.Keys {
      assert forall i :: 0 <= i < |Order| ==> Order[i] in Elements(Order);
    } else {
      var k :| k in KeySet && k !in m;
      assert k in Elements(Order);
    }
  }

  /** Entries other than the keys, such as `version` or the state flags, do not show in the text. */
  lemma RenderIgnoresOthers(m1: map<string, Value>, m2: map<string, Value>, version: string, docs: string -> seq<string>)
    requires Expand(version, m1) == Expand(version, m2)
    requires forall k :: k in KeySet ==> (k in m1 <==> k in m2)
    requires forall k :: k in KeySet && k in m1 ==> m1[k] == m2[k]
    ensures Render(m1, version, docs) == Render(m2, version, docs)
  {
    OrderElementsAreKeySet();
    RenderAgreesOn(m1, m2, version, docs, KeySet);
  }

  lemma SubstituteIgnoresOthers(m1: map<string, Value>, m2: map<string, Value>, version: string)
    requires Expand(version, m1) == Expand(version, m2)
    requires forall k :: k in KeySet ==> (k in m1 <==> k in m2)
    requires forall k :: k in KeySet && k in m1 ==> m1[k] == m2[k]
    ensures Substitute(m1, version) == Substitute(m2, version)
  {
    RenderIgnoresOthers(m1, m2, version, Docs);
  }

  lemma RenderAgreesOn(m1: map<string, Value>, m2: map<string, Value>, version: string,
                       docs: string -> seq<string>, names: set<string>)
    requires Elements(Order) == names
    requires Expand(version, m1) == Expand(version, m2)
    requires forall k :: k in names ==> (k in m1 <==> k in m2)
    requires forall k :: k in names && k in m1 ==> m1[k] == m2[k]
    ensures Render(m1, version, docs) == Render(m2, version, docs)
  {
    assert forall i :: 0 <= i < |Order| ==> Order[i] in names;
    if Covers(m1) {
      BlocksAgree(m1, m2, Order);
    }
  }
}
