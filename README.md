# bpytop configuration pipeline in Dafny

This project models how bpytop loads and saves its configuration file, and proves properties of that model.

- It reads `bpytop.conf` line by line into a dictionary of typed values.
- It runs the dictionary through a chain of validation checks.
- It merges the result with the class defaults of `Config`. This sets the `recreate` flag where a key is missing, rejected or from another version.
- `save_config` later writes the filled-in template back.

The model also covers the helpers this relies on:
- choosing the file (`get_conf_filepath`);
- naming the platform (`get_system_string`);
- collecting the temperature sensor names (`CPUSensors`).

## Modules

| module | file | what it holds |
|---|---|---|
| `Text` | text.dfy | the string functions Python provides and the code uses |
| `Schema` | schema.dfy | the 48 keys of `Config.keys`, their types and class defaults, the `_error_` sentinel, the option sets of the enums |
| `Parser` | parser.dfy | `read_cfg_from_file` as a fold of one step per line |
| `Validation` | validation.dfy | the check chain of `validate_config`, and a per-key reference definition it is proved against |
| `Sensors` | sensors.dfy | the `CPUSensors` class and its nested loop |
| `Platform` | platform.dfy | `get_system_string` and `get_conf_filepath` |
| `DefaultConf` | template.dfy | the `DEFAULT_CONF` template, rendered from a dictionary |
| `RoundTrip` | roundtrip.dfy | the file `save_config` writes, read back by the parser |
| `Configuration` | config.dfy | the `Config` class: attributes, `conf_dict`, `warnings`, `info`, and the methods that update them |

`Text` covers:
- `str.strip` with Python's `isspace`;
- `find`, `split`, `int` and `distutils.util.strtobool`.

## Values and the parser

- A value is an `Int`, a `Bool` or a `Str`, the three types a class default can have.
- Rejected keys hold `Str("_error_")`.
- The parser state is a `Stage`: the dictionary built so far and the `warnings` list. It is threaded through every step, because the source appends to the class-level list as it goes.

## `Config`

`Config` is a class. Its mutable fields are:
- the instance attributes;
- `conf_dict`;
- `warnings`;
- `info`.

Each method states its new state as a function of the old one. Those functions carry the proved properties.

`__setattr__` mirrors every attribute into `conf_dict` except the upper-case names of `ConfigStates`. This includes the flags `changed`, `recreate` and `_initialized`, and `config_file`. The write of `changed` made inside `__setattr__` bypasses it, so it is not mirrored.

## Enum membership

Membership tests against an `Enum`'s `__members__` compare against the member names, which are capital letters. This follows the code as written.

As a result:
- every lower-case `temp_scale` is rejected, including the class default `celsius`;
- every lower-case box name in `shown_boxes` is rejected, including the class default `cpu mem net proc`.

A file written from the defaults therefore warns about both keys when it is read back, and is marked for recreation on the next run. The template's own comments list the lower-case values as the available ones (src/static/default_bpytop_config.py, lines 18 and 81); the model follows the code.

`Validation.BoxValuesRejected` and `Schema.MemberNamesAreNotValues` state this.

## Model

| member | source | states |
|---|---|---|
| Text.StripBy | src/config/config_cls.py:227 | the stripped text is no longer than the input, neither begins nor ends with a dropped character, and is empty exactly when every character is dropped |
| Text.Find | src/config/config_cls.py:230 | the result is -1 exactly when the substring occurs nowhere; otherwise the substring occurs at the result and at no earlier position |
| Text.IndexOf | src/config/config_cls.py:235 | the position where `split('=', maxsplit=1)` cuts: the first occurrence of the separator |
| Text.Words | src/config/config_cls.py:343 | `split()` yields only non-empty runs of non-whitespace, and yields nothing exactly when the text is all whitespace |
| Text.WordsOfJoin | src/config/config_cls.py:343 | splitting words joined by single spaces gives the words back |
| Text.PyIntOfIntToStr | src/config/config_cls.py:243 | `int()` of the decimal form of any integer, negative ones included, is that integer |
| Text.StrToBoolOfBoolToStr | src/config/config_cls.py:249 | `strtobool` of `str(True)` and `str(False)` gives the boolean back |
| Text.StrToBoolWords | src/config/config_cls.py:249 | `strtobool` is true exactly for the lower-cased true words, false exactly for the false words, and raises for every other text |
| Schema.KeysAreDistinct | src/config/config_cls.py:86-102 | `Config.keys` has 48 entries and names no key twice |
| Schema.KindsPartitionKeys | src/config/config_cls.py:105-152 | the 3 int keys and the 15 string keys are disjoint sets of recognised keys, which leaves 30 boolean keys |
| Schema.DefaultsAreWellTyped | src/config/config_cls.py:105-152 | every key's class default has the key's type |
| Schema.DefaultsAreNotError | src/config/config_cls.py:172 | no class default equals the `_error_` sentinel |
| Schema.ReservedNamesAreNotKeys | src/config/config_cls.py:165-176 | `version`, `config_file` and the state flags are not setting names, so their `conf_dict` entries never collide with a setting |
| Schema.MemberNamesAreNotValues | src/config/config_cls.py:37-48 | the member names of `BoxNames` and `TempScales` share no element with their values |
| Parser.Coerce | src/config/config_cls.py:241-254 | one assignment leaves all other keys alone; a str key stores the text as it is; an int or bool key stores `int(text)` or `strtobool(text)` with no warning when that parses, and otherwise stores nothing and appends exactly the int or bool warning |
| Parser.StepKeepsOthers | src/config/config_cls.py:237-238 | a non-header line never adds, drops or changes an entry whose name is not a recognised key |
| Parser.StepWarnings | src/config/config_cls.py:241-251 | one line adds at most one warning and keeps the earlier ones in order |
| Parser.StepStoresTyped | src/config/config_cls.py:237-254 | every recognised key a line touches holds a value of its own type |
| Parser.HeaderVersionAfterMarker | src/config/config_cls.py:230 | whatever comes before the first `v. ` of a header, the version is everything after it |
| Parser.HeaderVersionWithoutMarker | src/config/config_cls.py:230 | without `v. `, `find` gives -1 and the version is the line from its third character on |
| Parser.HeaderLineSetsVersion | src/config/config_cls.py:229-231 | a header line sets only `version`, after stripping, and warns about nothing |
| Parser.LineWithoutEqualsIsIgnored | src/config/config_cls.py:233-234 | a non-header line without `=` changes nothing |
| Parser.CommentLineIsIgnored | src/config/config_cls.py:233-238 | a line starting with `#` that is not a header changes nothing |
| Parser.UnknownKeyIsIgnored | src/config/config_cls.py:235-238 | an assignment to an unrecognised name changes nothing |
| Parser.AssignmentIsCoerced | src/config/config_cls.py:235-239 | an assignment to a recognised key coerces the text after the first `=`, with the quotes stripped |
| Parser.ParseFromAppend | src/config/config_cls.py:226 | reading two pieces of a file one after the other is reading the whole file |
| Parser.ParseFromKeys | src/config/config_cls.py:226-254 | reading a file adds no names but recognised keys and `version`, and keeps earlier warnings as a prefix |
| Parser.ParseFromWellTyped | src/config/config_cls.py:226-254 | reading a file keeps every recognised key at its own type and `version` a string |
| Parser.NoHeaderKeepsVersion | src/config/config_cls.py:229-231 | a file without header lines leaves `version` as it was |
| Parser.LastHeaderWins | src/config/config_cls.py:229-231 | with several header lines, the version of the last one is kept |
| Validation.CheckMember | src/config/config_cls.py:291-308 | a present value outside the accepted set is replaced by `_error_` with the key's warning appended; anything else leaves the stage as it was; no other key changes |
| Validation.AllBoxes | src/config/config_cls.py:343-347 | the loop finds nothing to reject exactly when every token is a member name of `BoxNames` |
| Validation.NetStep | src/config/config_cls.py:324-326 | the keys, the other values and the warnings are kept; a rate starting with a digit is kept as it is, and one whose first character is not a digit becomes `_error_` without a warning |
| Validation.CheckUpdateMs | src/config/config_cls.py:310-318 | an `update_ms` below 100 becomes 100 with the warning appended; otherwise nothing changes; afterwards the value is at least 100 |
| Validation.CheckFront | src/config/config_cls.py:268-271 | the first four checks keep the value types the later checks index into |
| Validation.MemberHandled | src/config/config_cls.py:291-308 | an enum-membership check is the per-key reference definition for its key |
| Validation.TempScalesHandled | src/config/config_cls.py:361-368 | `_check_temp_scales` matches the reference definition for `temp_scale` |
| Validation.CpuGraphHandled | src/config/config_cls.py:350-359 | `_check_cpu_graph` matches the reference definition for both graph keys, with one warning per rejected key in tuple order |
| Validation.ShownBoxesHandled | src/config/config_cls.py:338-348 | `_check_shown_boxes` matches the reference definition, with one warning however many tokens are bad |
| Validation.CpuSensorHandled | src/config/config_cls.py:329-336 | `_check_cpu_sensor` matches the reference definition for `cpu_sensor` |
| Validation.UpdateMsHandled | src/config/config_cls.py:310-318 | `_check_update_ms` matches the reference definition, which clamps instead of rejecting |
| Validation.LogLevelHandled | src/config/config_cls.py:301-308 | `_check_log_level` matches the reference definition for `log_level` |
| Validation.ProcSortedHandled | src/config/config_cls.py:291-299 | `_check_proc_sorted` matches the reference definition for `proc_sorting` |
| Validation.NetNamesHandled | src/config/config_cls.py:320-327 | when `_check_net_names` does not raise, it matches the reference definition for both rates |
| Validation.HandledCompose | src/config/config_cls.py:264-278 | composing checks on disjoint keys matches the reference definition for all their keys together |
| Validation.ValidateHandled | src/config/config_cls.py:260-278 | validation that does not raise gives every present key its checked value; it adds and drops no key; it appends the warnings of the rejected keys in visiting order |
| Validation.NetKeysRaise | src/config/config_cls.py:324-325 | `_check_net_names` raises exactly when a rate is present and empty; it names the first such rate |
| Validation.ValidateRaises | src/config/config_cls.py:260-278 | the whole chain raises exactly when a rate read from the file is empty, and for that rate |
| Validation.ValidateKeepsWellTyped | src/config/config_cls.py:260-278 | validation keeps every key at its own type |
| Validation.ShownBoxesRejects | src/config/config_cls.py:338-348 | `shown_boxes` is rejected exactly when some token is not a member name; an empty or all-blank value passes |
| Validation.BoxValuesRejected | src/config/config_cls.py:37-41 | a box list naming a box by its lower-case value, as the class default does, is rejected |
| Sensors.CpuSensors.AddPsutilSensors | src/config/config_cls.py:58-69 | the list grows by the names of the probed entries, in dict order and then entry order; nothing is added when there is no API or the call raised |
| Sensors.CpuSensors.constructor | src/config/config_cls.py:54-56 | the list is `Auto` followed by every probed name |
| Sensors.GroupIdsCount | src/config/config_cls.py:63-67 | a group contributes one name per entry with a current reading |
| Sensors.GroupIdsArePrefixed | src/config/config_cls.py:66-67 | every name of a group starts with the group name and a colon |
| Sensors.ReadableEntryNamed | src/config/config_cls.py:64-67 | every entry with a reading is named, and an unlabelled one by its position counted from 1 among all entries, skipped ones included |
| Sensors.NamesAreReadableEntries | src/config/config_cls.py:64-67 | every name comes from an entry with a current reading |
| Sensors.NothingProbed | src/config/config_cls.py:59-62 | with no API, a failing call or no groups, the list is just `Auto` |
| Platform.SystemString | src/utils.py:8-17 | the result is one of the four platform names |
| Platform.LinuxWins | src/utils.py:10-11 | a platform string containing `linux` is Linux, whatever else it contains |
| Platform.BsdWithoutLinux | src/utils.py:12-13 | containing `bsd` and not `linux` gives BSD |
| Platform.DarwinAlone | src/utils.py:14-15 | containing `darwin` and neither earlier word gives MacOS |
| Platform.OtherwiseOther | src/utils.py:16-17 | Other exactly when none of the three words occurs |
| Platform.ConfFilePath | src/config/config_cls.py:200-206 | a returned place exists |
| Platform.GivenFirst | src/config/config_cls.py:201-202 | the given path wins whenever it exists |
| Platform.OneFallbackPerPlatform | src/config/config_cls.py:203-206 | the BSD path is chosen only on BSD, the other path only elsewhere |
| Platform.NothingFound | src/config/config_cls.py:200-206 | no file is found exactly when neither the given path nor the platform's fallback exists |
| DefaultConf.CommentLines | src/static/default_bpytop_config.py:8-9 | one comment line per text, in order, each with the `#* ` mark |
| DefaultConf.ExpandPrefix | src/static/default_bpytop_config.py:6 | text without `$` in the template passes through `substitute` unchanged |
| DefaultConf.ExpandPlain | src/static/default_bpytop_config.py:6 | a version without `$` is written as it is |
| DefaultConf.ExpandEscape | src/static/default_bpytop_config.py:6 | `$$` in the version is written as one `$` |
| DefaultConf.ExpandLoneDollar | src/static/default_bpytop_config.py:6 | a `$` ending the version is an invalid placeholder, and `substitute` raises |
| DefaultConf.ExpandNamed | src/static/default_bpytop_config.py:6 | `$name` in the version is `str()` of the dictionary's entry `name`, whatever entry that is |
| DefaultConf.ExpandMissing | src/static/default_bpytop_config.py:6 | `$name` in the version with no entry `name` makes `substitute` raise |
| DefaultConf.Render | src/static/default_bpytop_config.py:6-158 | the template fills in exactly when the dictionary holds all 48 keys and the version's `$` expand, and its first line is then the header with the expanded version |
| DefaultConf.CoversAllKeys | src/static/default_bpytop_config.py:6-158 | every placeholder of the template has an entry exactly when all 48 keys do |
| DefaultConf.Substitute | src/config/config_cls.py:287 | `substitute(self.conf_dict)` raises exactly when a key is missing or the version's `$` do not expand |
| DefaultConf.SubstituteIgnoresOthers | src/config/config_cls.py:287 | when the version expands alike, entries of `conf_dict` that are not keys, such as `version` and the flags, do not change the text written |
| DefaultConf.OrderIsPermutation | src/static/default_bpytop_config.py:8-158 | the template names each of the 48 keys once, in an order different from `Config.keys` |
| DefaultConf.QuotedKeysAreStrKeys | src/static/default_bpytop_config.py:8-158 | only string keys are written between quotes, and every string key except `cpu_sensor` and `log_level` is |
| RoundTrip.HeaderRead | src/static/default_bpytop_config.py:6 | the header written with a version reads back as that version and nothing else |
| RoundTrip.CommentLineRead | src/static/default_bpytop_config.py:8-9 | a written comment line reads back as nothing |
| RoundTrip.FileLinesOfText | src/config/config_cls.py:226 | iterating over the text written for lines that hold no line break yields exactly those lines, each with its `\n` |
| RoundTrip.CommentLinesRead | src/static/default_bpytop_config.py:8-9 | a run of comment lines whose texts hold no line break, read from the file, changes nothing |
| RoundTrip.AssignmentRead | src/static/default_bpytop_config.py:10-13 | a written assignment of a writable value reads back as that value, with no warning |
| RoundTrip.AssignmentUnbroken | src/static/default_bpytop_config.py:10-13 | the assignment line of a writable value holds no line break |
| RoundTrip.RenderUnbroken | src/static/default_bpytop_config.py:6-158 | from writable values, a version without `$` and comments without line breaks, every rendered line is one line of the file |
| RoundTrip.BlockRead | src/static/default_bpytop_config.py:8-13 | one block of blank line, comments and assignment, read from the file, stores its value and nothing else |
| RoundTrip.BlocksRead | src/static/default_bpytop_config.py:8-158 | a sequence of blocks, read from the file, updates the dictionary with their values in order |
| RoundTrip.RenderReadBack | src/static/default_bpytop_config.py:6-158 | the file of the rendered template, as `for line in f` splits it, sets `version` and every key to the written values and warns about nothing |
| RoundTrip.RenderThenRead | src/static/default_bpytop_config.py:6-158 | reading that file from scratch gives exactly the 48 keys and `version`, each with the value written, and no warning |
| RoundTrip.SaveThenRead | src/config/config_cls.py:280-289 | the lines `save_config` writes, each read as one line, give back exactly the saved values and the version, with no warning |
| RoundTrip.DefaultsAreWritable | src/config/config_cls.py:105-152 | every class default can be written and read back unchanged |
| Configuration.Config.constructor | src/config/config_cls.py:84-172 | the object before `__init__`: no instance attribute, empty class-level dictionary and lists, the class `keys` and defaults |
| Configuration.Config.Set | src/config/config_cls.py:193-198 | `__setattr__` sets the attribute, sets `changed` once initialised, and mirrors the value into `conf_dict` unless the name is an upper-case state member |
| Configuration.ChangedAfterSet | src/config/config_cls.py:194-196 | after a set of `changed` itself, `changed` holds exactly when the value set is truthy; after any other set, exactly when the object was initialised or already changed |
| Configuration.SetMirrors | src/config/config_cls.py:197-198 | setting a key, a flag or `config_file` also writes it into `conf_dict` |
| Configuration.Config.ReadCfgFromFile | src/config/config_cls.py:219-258 | the loop over the lines computes the parser fold, warnings included, and changes no attribute |
| Configuration.Config.ReadLine | src/config/config_cls.py:226-254 | one pass of the loop body is one parser step |
| Configuration.Config.StoreCoerced | src/config/config_cls.py:241-254 | the type dispatch is the coercion of one assignment |
| Configuration.Config.CheckMember | src/config/config_cls.py:291-308 | the method version of an enum-membership check computes the same stage |
| Configuration.Config.CheckCpuGraph | src/config/config_cls.py:350-359 | the loop over the graph keys computes the graph check |
| Configuration.Config.CheckShownBoxes | src/config/config_cls.py:338-348 | the loop with `break` computes the box check |
| Configuration.Config.CheckNetNames | src/config/config_cls.py:320-327 | the loop over the rates computes the rate check, including where it raises, and adds no warning |
| Configuration.Config.CheckUpdateMs | src/config/config_cls.py:310-318 | the method computes the clamp of `update_ms` |
| Configuration.Config.CheckFrontKeys | src/config/config_cls.py:268-271 | the four innermost calls of the chain |
| Configuration.Config.CheckBackKeys | src/config/config_cls.py:264-266 | the three outermost calls of the chain |
| Configuration.Config.ValidateConfig | src/config/config_cls.py:260-278 | the chain leaves `warnings` and the result as the validation function gives them, or stops at the raising rate |
| Configuration.Config.LoadConfig | src/config/config_cls.py:208-217 | no file gives `None` and no warning; otherwise the file's lines are read into an empty dictionary and validated |
| Configuration.Config.CheckVersion | src/config/config_cls.py:179-184 | a missing or different version sets `recreate` and appends its one note to `info`; a matching one changes nothing |
| Configuration.Config.MergeKey | src/config/config_cls.py:186-190 | one key: the value read is set as an attribute unless missing or `_error_`; otherwise `recreate` is set and the class default goes into `conf_dict` |
| Configuration.Config.MergeKeys | src/config/config_cls.py:185-190 | the loop over `keys` performs the merge step for each key in turn |
| Configuration.MergeAttrsEntries | src/config/config_cls.py:185-190 | after the loop, reading any key gives its merged value; `recreate` is set exactly when it was or some key fell back; other attributes are untouched |
| Configuration.MergeDictEntries | src/config/config_cls.py:185-190 | after the loop, `conf_dict` holds every key's merged value and leaves other entries alone |
| Configuration.MergeKeepsRecreateMirrored | src/config/config_cls.py:185-190 | the key loop keeps `recreate`, whenever set, `True` both as the attribute and in `conf_dict` |
| Configuration.Config.FinishInit | src/config/config_cls.py:185-191 | every key holds its merged value both as an attribute and in `conf_dict`; `recreate` is set exactly when it was or some key fell back, and stays mirrored as `True` in `conf_dict`; the object ends initialised and unchanged, with `_initialized` `True` in `conf_dict` |
| Configuration.Config.Merge | src/config/config_cls.py:179-191 | after loading, the object is settled as `__init__` leaves it, with `recreate` and `_initialized` mirrored as `True` into `conf_dict`, and `info` has the version note if any |
| Configuration.Config.Init | src/config/config_cls.py:174-191 | `__init__` records `config_file`; it stops with no file or an empty rate, with `config_file` the only attribute set; otherwise it ends settled on the validated file, with the parser's and checks' warnings and with `recreate` and `_initialized` mirrored as `True` into `conf_dict` |
| Configuration.Config.SaveConfig | src/config/config_cls.py:280-289 | nothing when neither flag is set; otherwise the filled template, or an emptied file when a key is missing |
| Configuration.SavingWrites | src/config/config_cls.py:282-287 | once a flag is set, the template is written exactly when all 48 keys are in `conf_dict` and the version's `$` expand |
| Configuration.SavingWritesPlain | src/config/config_cls.py:282-287 | for a version without `$`, once a flag is set, the template is written exactly when all 48 keys are in `conf_dict`, headed by that version |
| Configuration.KeysHaveDefaults | src/config/config_cls.py:86-152 | every name of `keys` has a class default, each once, and none is a reserved name |
| Configuration.KeyOrderNames | src/config/config_cls.py:86-102 | a key tuple whose names are exactly the defaulted names names only plain attribute names |
| Configuration.ParsedIsCheckable | src/config/config_cls.py:215-217 | what the parser hands to `validate_config` has the types every check indexes into |
| Configuration.LoadedIsWellTyped | src/config/config_cls.py:208-217 | a loaded configuration holds every key at its own type |
| Configuration.MergedIsWellTyped | src/config/config_cls.py:185-190 | every merged value has its key's type and is never `_error_` |

## Left out

- File I/O is left out. The file's contents come in as the lines of the found file, each with its line ending as `for line in f` yields it. For the file `save_config` writes, `RoundTrip.FileLines` models how text-mode iteration splits a text at `\n`, `\r` and `\r\n`. A file that cannot be opened reads as no lines, as the broad `except` in `read_cfg_from_file` makes it. `save_config` returns the text instead of writing it, and the `w`/`x` choice of mode is not modelled.
- `errlog` logging is left out; logging has no effect on the state.
- `psutil` probing becomes parameters: a `Sensors.Probe` value for `CPUSensors`, and the field list for `cpu_percent_fields`.
- `Path.exists()` becomes a `Platform.Probe` value, and `sys.platform` a string parameter.
- `__VERSION__` is a constructor parameter of `Config`.
- The path is kept only as the string stored in `config_file`.
- The `cliargs` argument and its attribute are left out. They are stored and mirrored into `conf_dict` but are not part of the template or of any check.
- Python's class-level sharing is not modelled. `conf_dict`, `warnings`, `info` and `DEFAULT_SENSORS` are mutable class attributes shared between instances; here each `Config` starts with its own empty ones. As a result, a second `CPUSensors` instance does not see the names a first one appended to a shared default list.
- Enum containment is replaced by explicit sets. The `in` tests of `_check_proc_sorted` and `_check_log_level` run against the enum classes, so they are modelled as membership in the sets of member values. The `__members__` tests are membership in the sets of member names.
- Validation.LogLevelHandled and Validation.ProcSortedHandled: take the containment semantics of Python 3.12 and later, where `"WARNING" in LogLevels` compares the text with the member values (there `distutils`, imported at src/config/config_cls.py:1, comes from the setuptools shim, since 3.12 dropped it from the standard library). On Python 3.8 to 3.11 such a test on a plain string raises `TypeError`; `validate_config` runs outside the `try` of `read_cfg_from_file`, so there any file with a `log_level` or `proc_sorting` line, including every file `save_config` writes, ends `__init__` in that `TypeError`. The model has no outcome for it.
- `int()` is modelled on ASCII digits, an optional sign and surrounding whitespace. `str.isdigit` is modelled on ASCII digits. Underscore separators and non-ASCII digits, which Python also accepts, are not modelled.
- Text.PyInt: accepts digit strings of any length. Since CPython 3.11 (and the 3.7.14, 3.8.14, 3.9.14 and 3.10.7 security releases), `int()` raises `ValueError` on a text of more than 4300 digits, which `read_cfg_from_file` turns into the int warning. The model stores the number instead.
- Unicode case folding is left out. `Text.Lower` lower-cases ASCII letters only, which is all `strtobool` needs for its words.
- The template's own text uses only plain `$name` placeholders, so `string.Template`'s other syntax is modelled only in the version, which is put into the template's text before the `Template` is built (`DefaultConf.Expand`).
- RoundTrip.Writable: the round-trip lemmas require string values to hold no line break and no leading or trailing quote. Unquoted ones must also have no trailing whitespace. Values outside these conditions are not claimed to survive `save_config`.
- RoundTrip.WritableVersion: the version must be non-empty, hold no line break, hold no `$` and not end in white space. A version such as `1\n2` is written as two lines and read back as `1`. A version holding `$` is template syntax: it is written expanded, or makes `substitute` raise.
- RoundTrip.SaveThenRead: is stated over the template's lines, each read as one line of the file. That none of the template's own comment texts holds a line break is not proved, because checking those long string literals character by character is beyond the solver's budget. With that fact, `RoundTrip.FileLinesOfText` makes it what `for line in f` yields. `RoundTrip.RenderThenRead` states the round trip through the file text for any comments without line breaks.
- src/cli.py, src/static/paths.py, src/logger.py, src/decorators.py, `TimeIt` in src/utils.py and src/static/appearance.py are not part of this model. They hold the command line, the fixed paths, logging, decorators, timing and colours, none of which the configuration pipeline computes with.
