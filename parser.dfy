/**
 * The line loop of `Config.read_cfg_from_file`: each line is stripped; a
 * `#? Config` header records the file's version; a `key=value` line for a
 * recognised key is coerced by the type of the key's class default; every
 * other line is skipped.
 */
module Parser {
  import opened Text
  import opened Schema

  /** The dict being filled and the warnings list it appends to. */
  datatype Stage = Stage(conf: map<string, Value>, warnings: seq<string>)

  const HeaderMarker: string := "#? Config"
  const VersionMarker: string := "v. "

  /** The entry name under which the header's version is recorded. */
  const VersionEntry: string := "version"

  /** `line[line.find("v. ") + 3:]`: starts at index 2 when the marker is absent. */
  function HeaderVersion(line: string): string {
    var start := Find(line, VersionMarker) + 3;
    if start <= |line| then line[start..] else ""
  }

  function IntWarning(key: string): string {
    "Config key \"" + key + "\" should be an integer!"
  }

  function BoolWarning(key: string): string {
    "Config key \"" + key + "\" can only be True or False!"
  }

  /** The coercion of `text` for `key`, driven by the type of the key's class default. */
  function Coerce(st: Stage, key: string, text: string): (r: Stage)
    ensures forall k :: k != key ==> (k in r.conf <==> k in st.conf)
    ensures forall k :: k != key && k in st.conf ==> r.conf[k] == st.conf[k]
    ensures (r.conf == st.conf && r.warnings == st.warnings + [if KindOf(key) == IntKind then IntWarning(key) else BoolWarning(key)])
            || (key in r.conf && WellTyped(key, r.conf[key]) && r.warnings == st.warnings)
    ensures KindOf(key) == StrKind ==> r == st.(conf := st.conf[key := Str(text)])
    ensures KindOf(key) == IntKind && PyInt(text).Some? ==>
              r.conf == st.conf[key := Int(PyInt(text).value)] && r.warnings == st.warnings
    ensures KindOf(key) == IntKind && PyInt(text).None? ==>
              r.conf == st.conf && r.warnings == st.warnings + [IntWarning(key)]
    ensures KindOf(key) == BoolKind && StrToBool(text).Some? ==>
              r.conf == st.conf[key := Bool(StrToBool(text).value)] && r.warnings == st.warnings
    ensures KindOf(key) == BoolKind && StrToBool(text).None? ==>
              r.conf == st.conf && r.warnings == st.warnings + [BoolWarning(key)]
  {
    match KindOf(key)
    case IntKind =>
      (match PyInt(text)
       case Some(n) => st.(conf := st.conf[key := Int(n)])
       case None => st.(warnings := st.warnings + [IntWarning(key)]))
    case BoolKind =>
      (match StrToBool(text)
       case Some(b) => st.(conf := st.conf[key := Bool(b)])
       case None => st.(warnings := st.warnings + [BoolWarning(key)]))
    case StrKind =>
      st.(conf := st.conf[key := Str(text)])
  }

  /** One pass of the loop body of `read_cfg_from_file` on a line as the file yields it. */
  function StepLine(st: Stage, raw: string): Stage {
    Step(st, Strip(raw))
  }

  /** The loop body after `line = line.strip()`. */
  function Step(st: Stage, line: string): Stage {
    if StartsWith(line, HeaderMarker) then
      st.(conf := st.conf[VersionEntry := Str(HeaderVersion(line))])
    else if '=' !in line then st
    else
      var eq := IndexOf(line, '=');
      var key := line[..eq];
      if key !in KeySet then st
      else Coerce(st, key, StripQuotes(line[eq + 1..]))
  }

  /** The loop of `read_cfg_from_file` over the remaining lines. */
  function ParseFrom(st: Stage, lines: seq<string>): Stage {
    Fold(StepLine, st, lines)
  }

  /** A `for` loop over lines that runs `step` on each, in order. */
  function Fold(step: (Stage, string) -> Stage, st: Stage, lines: seq<string>): Stage
    decreases |lines|
  {
    if |lines| == 0 then st else Fold(step, step(st, lines[0]), lines[1..])
  }

  /** A line that the loop treats as the header. */
  predicate IsHeader(raw: string) {
    StartsWith(Strip(raw), HeaderMarker)
  }

  // ---------------------------------------------------------------------
  // Properties of one line
  // ---------------------------------------------------------------------

  /** Only a header touches the version entry: any other line leaves every entry but a recognised key alone. */
  lemma StepKeepsOthers(st: Stage, line: string)
    requires !StartsWith(line, HeaderMarker)
    ensures forall k :: k !in KeySet ==> (k in Step(st, line).conf <==> k in st.conf)
    ensures forall k :: k !in KeySet && k in st.conf ==> Step(st, line).conf[k] == st.conf[k]
  {
    if '=' in line {
      var eq := IndexOf(line, '=');
      var key := line[..eq];
      if key in KeySet {
        var r := Coerce(st, key, StripQuotes(line[eq + 1..]));
        assert Step(st, line) == r;
        assert forall k :: k !in KeySet ==> k != key;
      }
    }
  }

  /** A header sets the version entry to what follows its marker. */
  lemma StepOnHeader(st: Stage, line: string)
    requires StartsWith(line, HeaderMarker)
    ensures Step(st, line) == st.(conf := st.conf[VersionEntry := Str(HeaderVersion(line))])
  {
  }

  lemma VersionIsNotKey()
    ensures VersionEntry !in KeySet
  {
    ReservedNamesAreNotKeys();
    assert VersionEntry in Reserved;
  }

  /** A line stores only a value of the key's own type, keeping every other entry of a key. */
  lemma StepStoresTyped(st: Stage, line: string)
    ensures forall k :: k in KeySet && k in Step(st, line).conf ==>
              (k in st.conf && Step(st, line).conf[k] == st.conf[k]) || WellTyped(k, Step(st, line).conf[k])
  {
    VersionIsNotKey();
    if !StartsWith(line, HeaderMarker) && '=' in line {
      var eq := IndexOf(line, '=');
      var key := line[..eq];
      if key in KeySet {
        var text := StripQuotes(line[eq + 1..]);
        assert Step(st, line) == Coerce(st, key, text);
        CoerceStoresTyped(st, key, text);
      }
    }
  }

  /** The coercion changes at most its own key, and stores a value of that key's type. */
  lemma CoerceStoresTyped(st: Stage, key: string, text: string)
    ensures forall k :: k in Coerce(st, key, text).conf ==>
              (k in st.conf && Coerce(st, key, text).conf[k] == st.conf[k])
              || (k == key && WellTyped(key, Coerce(st, key, text).conf[key]))
  {
  }

  /** A line appends at most one warning, and only appends. */
  lemma StepWarnings(st: Stage, line: string)
    ensures Step(st, line).warnings == st.warnings
            || (|Step(st, line).warnings| == |st.warnings| + 1 && st.warnings <= Step(st, line).warnings)
  {
    if !StartsWith(line, HeaderMarker) && '=' in line {
      var eq := IndexOf(line, '=');
      var key := line[..eq];
      if key in KeySet {
        assert Step(st, line) == Coerce(st, key, StripQuotes(line[eq + 1..]));
      }
    }
  }

  /** The version is what follows the first `v. ` of the header. */
  lemma HeaderVersionAfterMarker(a: string, b: string)
    requires forall j: nat :: j < |a| ==> !OccursAt(a + VersionMarker + b, VersionMarker, j)
    ensures HeaderVersion(a + VersionMarker + b) == b
  {
    var line := a + VersionMarker + b;
    assert OccursAt(line, VersionMarker, |a|) by {
      assert line[|a|..|a| + 3] == VersionMarker;
    }
    assert Find(line, VersionMarker) == |a|;
    assert line[|a| + 3..] == b;
  }

  /** Without `v. `, the version is the header from its third character on. */
  lemma HeaderVersionWithoutMarker(line: string)
    requires |line| >= 2
    requires forall j: nat :: !OccursAt(line, VersionMarker, j)
    ensures HeaderVersion(line) == line[2..]
  {
  }

  /** A header line sets the version entry and nothing else. */
  lemma HeaderLineSetsVersion(st: Stage, raw: string)
    requires IsHeader(raw)
    ensures StepLine(st, raw).conf == st.conf[VersionEntry := Str(HeaderVersion(Strip(raw)))]
    ensures StepLine(st, raw).warnings == st.warnings
  {
  }

  /** A line that is not the header and holds no `=` changes nothing. */
  lemma LineWithoutEqualsIsIgnored(st: Stage, raw: string)
    requires !IsHeader(raw) && '=' !in Strip(raw)
    ensures StepLine(st, raw) == st
  {
  }

  /** A stripped line that starts with `#` is either the header or ignored. */
  lemma CommentLineIsIgnored(st: Stage, raw: string)
    requires |Strip(raw)| > 0 && Strip(raw)[0] == '#'
    requires !IsHeader(raw)
    ensures StepLine(st, raw) == st
  {
    var line := Strip(raw);
    if '=' in line {
      var eq := IndexOf(line, '=');
      var key := line[..eq];
      assert eq > 0;
      assert key[0] == '#';
      KeysAreNames();
      assert !IsKeyName(key);
    }
  }

  /** An assignment whose text before the first `=` is not a key changes nothing. */
  lemma UnknownKeyIsIgnored(st: Stage, raw: string, key: string, rest: string)
    requires Strip(raw) == key + "=" + rest
    requires '=' !in key && key !in KeySet
    requires !IsHeader(raw)
    ensures StepLine(st, raw) == st
  {
    IndexOfAfter(key, '=', rest);
    assert (key + "=" + rest)[..|key|] == key;
  }

  /** An assignment to a key is the coercion of its quote-stripped value. */
  lemma AssignmentIsCoerced(st: Stage, raw: string, key: string, rest: string)
    requires key in KeySet
    requires Strip(raw) == key + "=" + rest
    ensures StepLine(st, raw) == Coerce(st, key, StripQuotes(rest))
  {
    KeysAreNames();
    KeyAssignmentIsCoerced(st, key, rest);
  }

  lemma KeyAssignmentIsCoerced(st: Stage, key: string, rest: string)
    requires IsKeyName(key) && key in KeySet
    ensures Step(st, key + "=" + rest) == Coerce(st, key, StripQuotes(rest))
  {
    var line := key + "=" + rest;
    assert !StartsWith(line, HeaderMarker) by {
      if |line| >= 9 {
        assert line[..9][0] == key[0];
      }
    }
    IndexOfAfter(key, '=', rest);
    assert line[..|key|] == key;
    assert line[|key| + 1..] == rest;
  }

  // ---------------------------------------------------------------------
  // Properties of the loop
  // ---------------------------------------------------------------------

  /** Reading `a + b` is reading `a` and then `b` from where `a` left off. */
  lemma ParseFromAppend(st: Stage, a: seq<string>, b: seq<string>)
    ensures ParseFrom(st, a + b) == ParseFrom(ParseFrom(st, a), b)
  {
    FoldAppend(StepLine, st, a, b);
  }

  /** Reading one line is one pass of the loop body. */
  lemma ParseFromOne(st: Stage, line: string)
    ensures ParseFrom(st, [line]) == StepLine(st, line)
  {
    FoldOne(StepLine, st, line);
  }

  /** A loop over one line runs the step once. */
  lemma FoldOne(step: (Stage, string) -> Stage, st: Stage, line: string)
    ensures Fold(step, st, [line]) == step(st, line)
  {
    assert [line][1..] == [];
  }

  /** Any loop over `a + b` is the loop over `a` and then over `b`. */
  lemma {:induction false} FoldAppend(step: (Stage, string) -> Stage, st: Stage, a: seq<string>, b: seq<string>)
    ensures Fold(step, st, a + b) == Fold(step, Fold(step, st, a), b)
    decreases |a|
  {
    if |a| == 0 {
      assert a + b == b;
    } else {
      assert (a + b)[0] == a[0];
      assert (a + b)[1..] == a[1..] + b;
      FoldAppend(step, step(st, a[0]), a[1..], b);
    }
  }

  /** The loop only adds recognised keys and the version entry, and only appends warnings. */
  lemma {:induction false} ParseFromKeys(st: Stage, lines: seq<string>)
    ensures ParseFrom(st, lines).conf.Keys <= st.conf.Keys + KeySet + {VersionEntry}
    ensures st.warnings <= ParseFrom(st, lines).warnings
    decreases |lines|
  {
    if |lines| > 0 {
      var line := Strip(lines[0]);
      var next := StepLine(st, lines[0]);
      if !StartsWith(line, HeaderMarker) {
        StepKeepsOthers(st, line);
      }
      StepWarnings(st, line);
      ParseFromKeys(next, lines[1..]);
    }
  }

  /** The loop stores only values of each key's own type, and a string as the version. */
  lemma {:induction false} ParseFromWellTyped(st: Stage, lines: seq<string>)
    requires WellTypedConf(st.conf)
    requires VersionEntry in st.conf ==> st.conf[VersionEntry].Str?
    ensures WellTypedConf(ParseFrom(st, lines).conf)
    ensures VersionEntry in ParseFrom(st, lines).conf ==> ParseFrom(st, lines).conf[VersionEntry].Str?
    decreases |lines|
  {
    if |lines| > 0 {
      var line := Strip(lines[0]);
      var next := StepLine(st, lines[0]);
      ReservedNamesAreNotKeys();
      assert VersionEntry !in KeySet;
      StepStoresTyped(st, line);
      if !StartsWith(line, HeaderMarker) {
        StepKeepsOthers(st, line);
      }
      ParseFromWellTyped(next, lines[1..]);
    }
  }

  /** Lines that are not headers leave the version entry alone. */
  lemma {:induction false} NoHeaderKeepsVersion(st: Stage, lines: seq<string>)
    requires forall i :: 0 <= i < |lines| ==> !IsHeader(lines[i])
    ensures (VersionEntry in ParseFrom(st, lines).conf) == (VersionEntry in st.conf)
    ensures VersionEntry in st.conf ==> ParseFrom(st, lines).conf[VersionEntry] == st.conf[VersionEntry]
    decreases |lines|
  {
    if |lines| > 0 {
      ReservedNamesAreNotKeys();
      assert VersionEntry !in KeySet;
      StepKeepsOthers(st, Strip(lines[0]));
      NoHeaderKeepsVersion(StepLine(st, lines[0]), lines[1..]);
    }
  }

  /** The version read is the one of the last header line. */
  lemma LastHeaderWins(st: Stage, before: seq<string>, header: string, after: seq<string>)
    requires IsHeader(header)
    requires forall i :: 0 <= i < |after| ==> !IsHeader(after[i])
    ensures VersionEntry in ParseFrom(st, before + [header] + after).conf
    ensures ParseFrom(st, before + [header] + after).conf[VersionEntry]
            == Str(HeaderVersion(Strip(header)))
  {
    ParseFromAppend(st, before + [header], after);
    ParseFromAppend(st, before, [header]);
    var mid := ParseFrom(st, before);
    ParseFromOne(mid, header);
    NoHeaderKeepsVersion(StepLine(mid, header), after);
  }
}
