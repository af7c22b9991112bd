/**
 * What `read_cfg_from_file` makes of a file that `save_config` wrote: the
 * text of the template is read back line by line, each line with the line
 * break the file iterator leaves on it.
 */
module RoundTrip {
  import opened Text
  import opened Schema
  import opened Parser
  import opened DefaultConf

  /**
   * The lines `lines`, each with the line break it is written with: what
   * iterating over the written file yields when no line holds a line break
   * of its own (`FileLinesOfText`).
   */
  function AsRead(lines: seq<string>): (r: seq<string>)
    ensures |r| == |lines|
    ensures forall i :: 0 <= i < |r| ==> r[i] == lines[i] + "\n"
  {
    if |lines| == 0 then [] else [lines[0] + "\n"] + AsRead(lines[1..])
  }

  lemma AsReadAppend(a: seq<string>, b: seq<string>)
    ensures AsRead(a + b) == AsRead(a) + AsRead(b)
  {
  }

  /** The text of a file written as `lines`: each line followed by a line break. */
  function FileText(lines: seq<string>): string {
    if |lines| == 0 then "" else lines[0] + "\n" + FileText(lines[1..])
  }

  predicate IsLineBreak(c: char) {
    c == '\n' || c == '\r'
  }

  predicate NotLineBreak(c: char) {
    !IsLineBreak(c)
  }

  /**
   * The lines `for line in f` yields from a file opened in text mode: a line
   * ends at `\n`, `\r` or `\r\n`, each of which it is given back with as
   * `\n`, and a last line without an ending is given back as it is.
   */
  function FileLines(text: string): seq<string>
    decreases |text|
  {
    if |text| == 0 then []
    else
      var n := LeadLen(text, NotLineBreak);
      if n == |text| then [text]
      else if text[n] == '\r' && n + 1 < |text| && text[n + 1] == '\n' then
        [text[..n] + "\n"] + FileLines(text[n + 2..])
      else
        [text[..n] + "\n"] + FileLines(text[n + 1..])
  }

  /** A string that the file iterator would not split: no `\n`, nor a `\r` that reading translates to one. */
  predicate NoLineBreak(s: string) {
    '\n' !in s && '\r' !in s
  }

  /** Lines none of which holds a line break. */
  predicate Unbroken(lines: seq<string>) {
    forall i :: 0 <= i < |lines| ==> NoLineBreak(lines[i])
  }

  lemma UnbrokenAppend(a: seq<string>, b: seq<string>)
    requires Unbroken(a) && Unbroken(b)
    ensures Unbroken(a + b)
  {
    assert forall i :: |a| <= i < |a + b| ==> (a + b)[i] == b[i - |a|];
  }

  /** Iterating over the text of unbroken lines gives back each line with its line break, and no other. */
  lemma {:induction false} FileLinesOfText(lines: seq<string>)
    requires Unbroken(lines)
    ensures FileLines(FileText(lines)) == AsRead(lines)
    decreases |lines|
  {
    if |lines| > 0 {
      var l := lines[0];
      var rest := FileText(lines[1..]);
      var text := FileText(lines);
      assert text == l + "\n" + rest;
      assert NoLineBreak(l);
      forall i | 0 <= i < |l|
        ensures NotLineBreak(text[i])
      {
        assert text[i] == l[i];
        assert l[i] in l;
      }
      assert text[|l|] == '\n';
      LeadLenIs(text, NotLineBreak, |l|);
      assert text[..|l|] == l;
      assert text[|l| + 1..] == rest;
      FileLinesOfText(lines[1..]);
    }
  }

  /** `read_cfg_from_file`, starting from `st`, on the file written as `lines`. */
  function ReadBack(st: Stage, lines: seq<string>): Stage {
    ParseFrom(st, FileLines(FileText(lines)))
  }

  /** The parser run over `lines`, each taken as one line the file yields. */
  function Parsed(st: Stage, lines: seq<string>): Stage {
    ParseFrom(st, AsRead(lines))
  }

  lemma ReadBackParsed(st: Stage, lines: seq<string>)
    requires Unbroken(lines)
    ensures ReadBack(st, lines) == Parsed(st, lines)
  {
    FileLinesOfText(lines);
  }

  /** `c` with the entries of `keys`, in turn, set to their values in `m`. */
  function Updated(c: map<string, Value>, m: map<string, Value>, keys: seq<string>): (r: map<string, Value>)
    requires forall i :: 0 <= i < |keys| ==> keys[i] in m
    ensures forall k :: k in r <==> k in c || k in keys
    ensures forall k :: k in r ==> r[k] == if k in keys then m[k] else c[k]
    decreases |keys|
  {
    if |keys| == 0 then c else Updated(c[keys[0] := m[keys[0]]], m, keys[1..])
  }

  /** A string ends in neither a double quote nor, at its start, one. */
  predicate NoEdgeQuotes(s: string) {
    |s| == 0 || (!IsQuote(s[0]) && !IsQuote(s[|s| - 1]))
  }

  /**
   * A value that reads back as itself: of its key's type, without double
   * quotes at its ends (`strip('"')` removes them) and, when written without
   * quotes, without trailing white space (`strip()` removes it).
   */
  predicate Writable(key: string, v: Value) {
    WellTyped(key, v)
    && (v.Str? ==> NoEdgeQuotes(v.s) && NoLineBreak(v.s))
    && (v.Str? && key !in QuotedKeys ==> |v.s| == 0 || !IsSpace(v.s[|v.s| - 1]))
  }

  /** A version the header line carries back unchanged, and that `substitute` writes as it is. */
  predicate WritableVersion(version: string) {
    |version| > 0 && !IsSpace(version[|version| - 1]) && NoLineBreak(version) && '$' !in version
  }

  // ---------------------------------------------------------------------
  // One line at a time
  // ---------------------------------------------------------------------

  /** A line ending with a visible character loses only its line break to `strip()`. */
  lemma StripLine(line: string)
    requires |line| > 0 && !IsSpace(line[0]) && !IsSpace(line[|line| - 1])
    ensures Strip(line + "\n") == line
  {
    assert "" + line + "\n" == line + "\n";
    StripByFrame("", line, "\n", IsSpace);
  }

  lemma BlankLineRead(st: Stage)
    ensures StepLine(st, "" + "\n") == st
  {
    assert Strip("\n") == "";
  }

  lemma CommentLineRead(st: Stage, text: string)
    ensures StepLine(st, CommentLine(text) + "\n") == st
  {
    CommentLineShape(text);
    CommentLineIsIgnored(st, CommentLine(text) + "\n");
  }

  /** A comment line, once stripped, starts with `#` and is not the header. */
  lemma CommentLineShape(text: string)
    ensures |Strip(CommentLine(text) + "\n")| > 0 && Strip(CommentLine(text) + "\n")[0] == '#'
    ensures !IsHeader(CommentLine(text) + "\n")
  {
    var raw := CommentLine(text) + "\n";
    StripKeepsHead(raw, 2);
    assert Strip(raw)[..2] == "#*";
    assert !IsHeader(raw) by {
      if |Strip(raw)| >= 9 {
        assert Strip(raw)[..9][1] == '*';
      }
    }
  }

  lemma {:induction false} CommentLinesParsed(st: Stage, texts: seq<string>)
    ensures Parsed(st, CommentLines(texts)) == st
    decreases |texts|
  {
    if |texts| > 0 {
      var lines := CommentLines(texts);
      assert lines == [CommentLine(texts[0])] + CommentLines(texts[1..]);
      CommentLineRead(st, texts[0]);
      CommentLinesParsed(st, texts[1..]);
      assert AsRead(lines)[1..] == AsRead(CommentLines(texts[1..]));
    }
  }

  /** `strip('"')` gives back the text between the quotes. */
  lemma UnquoteQuoted(s: string)
    requires NoEdgeQuotes(s)
    ensures StripQuotes("\"" + s + "\"") == s
  {
    if |s| == 0 {
      assert StripQuotes("\"" + s + "\"") == "";
    } else {
      StripByFrame("\"", s, "\"", IsQuote);
    }
  }

  lemma UnquoteBare(s: string)
    requires NoEdgeQuotes(s)
    ensures StripQuotes(s) == s
  {
    if |s| > 0 {
      StripByKeeps(s, IsQuote);
    }
  }

  /** The text `str()` writes for a value: no white space and no quotes at its ends. */
  lemma ShowEdges(v: Value)
    requires !v.Str?
    ensures |Show(v)| > 0
    ensures !IsSpace(Show(v)[0]) && !IsSpace(Show(v)[|Show(v)| - 1])
    ensures NoEdgeQuotes(Show(v))
  {
    if v.Int? {
      var s := IntToStr(v.i);
      var n := NatToStr(if v.i < 0 then -v.i else v.i);
      assert IsDigit(n[0]) && IsDigit(n[|n| - 1]);
      assert s[|s| - 1] == n[|n| - 1];
    }
  }

  /** The value `Coerce` stores for the text `str()` wrote. */
  lemma CoerceShown(st: Stage, key: string, v: Value)
    requires WellTyped(key, v) && (v.Str? ==> NoEdgeQuotes(v.s))
    ensures Coerce(st, key, StripQuotes(Show(v))) == st.(conf := st.conf[key := v])
  {
    if v.Str? {
      UnquoteBare(v.s);
    } else {
      ShowEdges(v);
      UnquoteBare(Show(v));
      if v.Int? {
        PyIntOfIntToStr(v.i);
      } else {
        StrToBoolOfBoolToStr(v.b);
      }
    }
  }

  /** What follows `key=` on the assignment line of a key. */
  function Payload(key: string, v: Value): string {
    if key in QuotedKeys then "\"" + Show(v) + "\"" else Show(v)
  }

  /** `strip('"')` of the payload is the text `str()` wrote. */
  lemma PayloadUnquoted(key: string, v: Value)
    requires Writable(key, v)
    ensures StripQuotes(Payload(key, v)) == StripQuotes(Show(v))
    ensures |Payload(key, v)| == 0 || !IsSpace(Payload(key, v)[|Payload(key, v)| - 1])
  {
    if !v.Str? {
      ShowEdges(v);
    }
    if key in QuotedKeys {
      QuotedKeyIsStr(key);
      UnquoteQuoted(v.s);
      UnquoteBare(v.s);
    }
  }

  /** `strip()` leaves an assignment line as it was written. */
  lemma StripAssignment(key: string, payload: string)
    requires IsKeyName(key)
    requires |payload| == 0 || !IsSpace(payload[|payload| - 1])
    ensures Strip(key + "=" + payload + "\n") == key + "=" + payload
  {
    var line := key + "=" + payload;
    assert line[0] == key[0];
    assert !IsSpace(line[|line| - 1]) by {
      if |payload| > 0 {
        assert line[|line| - 1] == payload[|payload| - 1];
      }
    }
    StripLine(line);
  }

  lemma AssignmentIsPayload(key: string, v: Value)
    ensures AssignmentLine(key, v) == key + "=" + Payload(key, v)
  {
    if key in QuotedKeys {
      assert key + "=" + "\"" + Show(v) + "\"" == key + "=" + ("\"" + Show(v) + "\"");
    }
  }

  lemma AssignmentLineStrips(key: string, v: Value)
    requires IsKeyName(key) && Writable(key, v)
    ensures Strip(AssignmentLine(key, v) + "\n") == key + "=" + Payload(key, v)
  {
    AssignmentIsPayload(key, v);
    PayloadUnquoted(key, v);
    StripAssignment(key, Payload(key, v));
  }

  /** The assignment line of a key stores the value it was written from, and nothing else. */
  lemma AssignmentRead(st: Stage, key: string, v: Value)
    requires key in KeySet && Writable(key, v)
    ensures StepLine(st, AssignmentLine(key, v) + "\n") == st.(conf := st.conf[key := v])
  {
    KeysAreNames();
    AssignmentLineStrips(key, v);
    KeyAssignmentIsCoerced(st, key, Payload(key, v));
    PayloadUnquoted(key, v);
    CoerceShown(st, key, v);
  }

  /** The text of the header up to the version: the marker, and no `v` before `v. `. */
  lemma HeaderPrefixParts()
    ensures HeaderPrefix == HeaderMarker + " file for bpytop " + VersionMarker
    ensures 'v' !in HeaderMarker + " file for bpytop "
    ensures !IsSpace(HeaderPrefix[0])
  {
  }

  lemma HeaderLineStrips(version: string)
    requires WritableVersion(version)
    ensures Strip(HeaderLine(version) + "\n") == HeaderLine(version)
    ensures StartsWith(HeaderLine(version), HeaderMarker)
  {
    var line := HeaderLine(version);
    HeaderPrefixParts();
    assert line[0] == HeaderPrefix[0];
    assert line[|line| - 1] == version[|version| - 1];
    StripLine(line);
    assert line[..9] == HeaderMarker;
  }

  /** The header line records the version it was written with, and nothing else. */
  lemma HeaderRead(st: Stage, version: string)
    requires WritableVersion(version)
    ensures StepLine(st, HeaderLine(version) + "\n")
            == st.(conf := st.conf[VersionEntry := Str(version)])
  {
    HeaderLineStrips(version);
    HeaderPrefixParts();
    var a := HeaderMarker + " file for bpytop ";
    assert HeaderLine(version) == a + VersionMarker + version;
    FindAfter(a, VersionMarker, version);
    HeaderVersionAfterMarker(a, version);
  }

  // ---------------------------------------------------------------------
  // Blocks
  // ---------------------------------------------------------------------

  lemma BlockParsed(st: Stage, key: string, docs: seq<string>, v: Value)
    requires key in KeySet && Writable(key, v)
    ensures Parsed(st, Block(key, docs, v)) == st.(conf := st.conf[key := v])
  {
    var opening: seq<string> := if OpensBlock(key) then [""] else [];
    var comments := CommentLines(docs);
    var assignment := [AssignmentLine(key, v)];
    assert Block(key, docs, v) == opening + (comments + assignment);
    AsReadAppend(opening, comments + assignment);
    AsReadAppend(comments, assignment);
    ParseFromAppend(st, AsRead(opening), AsRead(comments) + AsRead(assignment));
    ParseFromAppend(st, AsRead(comments), AsRead(assignment));
    if OpensBlock(key) {
      assert AsRead(opening) == ["" + "\n"];
      ParseFromOne(st, "" + "\n");
      BlankLineRead(st);
    }
    assert Parsed(st, opening) == st;
    CommentLinesParsed(st, docs);
    assert AsRead(assignment) == [AssignmentLine(key, v) + "\n"];
    ParseFromOne(st, AssignmentLine(key, v) + "\n");
    AssignmentRead(st, key, v);
  }

  lemma {:induction false} BlocksParsed(st: Stage, m: map<string, Value>, docs: string -> seq<string>, keys: seq<string>)
    requires forall i :: 0 <= i < |keys| ==> keys[i] in m && keys[i] in KeySet && Writable(keys[i], m[keys[i]])
    ensures Parsed(st, BlocksOf(m, docs, keys)) == Stage(Updated(st.conf, m, keys), st.warnings)
    decreases |keys|
  {
    if |keys| > 0 {
      var key := keys[0];
      var block := Block(key, docs(key), m[key]);
      var rest := BlocksOf(m, docs, keys[1..]);
      assert BlocksOf(m, docs, keys) == block + rest;
      AsReadAppend(block, rest);
      ParseFromAppend(st, AsRead(block), AsRead(rest));
      BlockParsed(st, key, docs(key), m[key]);
      var next := st.(conf := st.conf[key := m[key]]);
      BlocksParsed(next, m, docs, keys[1..]);
    }
  }

  // ---------------------------------------------------------------------
  // Line breaks
  // ---------------------------------------------------------------------

  /** `str()` of a number or a boolean holds no line break. */
  lemma ShowUnbroken(v: Value)
    requires !v.Str?
    ensures NoLineBreak(Show(v))
  {
    if v.Int? {
      var n := NatToStr(if v.i < 0 then -v.i else v.i);
      assert forall c :: c in n ==> IsDigit(c);
      assert IntToStr(v.i) == if v.i < 0 then "-" + n else n;
    }
  }

  lemma Group1Unbroken()
    ensures forall k :: k in KeyGroup1 ==> NoLineBreak(k)
  {
  }

  lemma Group2Unbroken()
    ensures forall k :: k in KeyGroup2 ==> NoLineBreak(k)
  {
  }

  lemma Group3Unbroken()
    ensures forall k :: k in KeyGroup3 ==> NoLineBreak(k)
  {
  }

  lemma Group4Unbroken()
    ensures forall k :: k in KeyGroup4 ==> NoLineBreak(k)
  {
  }

  lemma Group5Unbroken()
    ensures forall k :: k in KeyGroup5 ==> NoLineBreak(k)
  {
  }

  lemma Group6Unbroken()
    ensures forall k :: k in KeyGroup6 ==> NoLineBreak(k)
  {
  }

  /** No key name holds a line break. */
  lemma KeysUnbroken()
    ensures forall k :: k in KeySet ==> NoLineBreak(k)
  {
    Group1Unbroken();
    Group2Unbroken();
    Group3Unbroken();
    Group4Unbroken();
    Group5Unbroken();
    Group6Unbroken();
  }

  lemma HeaderUnbroken(version: string)
    requires NoLineBreak(version)
    ensures NoLineBreak(HeaderLine(version))
  {
    assert NoLineBreak(HeaderPrefix);
  }

  lemma CommentLinesUnbroken(texts: seq<string>)
    requires Unbroken(texts)
    ensures Unbroken(CommentLines(texts))
  {
    assert NoLineBreak(CommentMark);
    forall i | 0 <= i < |texts|
      ensures NoLineBreak(CommentLines(texts)[i])
    {
      assert NoLineBreak(texts[i]);
    }
  }

  /** The assignment line of a writable value is one line of the file. */
  lemma AssignmentUnbroken(key: string, v: Value)
    requires NoLineBreak(key) && Writable(key, v)
    ensures NoLineBreak(AssignmentLine(key, v))
  {
    if !v.Str? {
      ShowUnbroken(v);
    }
  }

  lemma BlockUnbroken(key: string, docs: seq<string>, v: Value)
    requires key in KeySet && Writable(key, v) && Unbroken(docs)
    ensures Unbroken(Block(key, docs, v))
  {
    var opening: seq<string> := if OpensBlock(key) then [""] else [];
    CommentLinesUnbroken(docs);
    KeysUnbroken();
    AssignmentUnbroken(key, v);
    UnbrokenAppend(opening, CommentLines(docs));
    UnbrokenAppend(opening + CommentLines(docs), [AssignmentLine(key, v)]);
  }

  lemma {:induction false} BlocksUnbroken(m: map<string, Value>, docs: string -> seq<string>, keys: seq<string>)
    requires forall i :: 0 <= i < |keys| ==>
               keys[i] in m && keys[i] in KeySet && Writable(keys[i], m[keys[i]]) && Unbroken(docs(keys[i]))
    ensures Unbroken(BlocksOf(m, docs, keys))
    decreases |keys|
  {
    if |keys| > 0 {
      var key := keys[0];
      BlockUnbroken(key, docs(key), m[key]);
      BlocksUnbroken(m, docs, keys[1..]);
      UnbrokenAppend(Block(key, docs(key), m[key]), BlocksOf(m, docs, keys[1..]));
    }
  }

  /** Every line the template renders to, from writable values and comments, is one line of the file. */
  lemma RenderUnbroken(m: map<string, Value>, version: string, docs: string -> seq<string>)
    requires KeySet <= m.Keys
    requires forall k :: k in KeySet ==> Writable(k, m[k]) && Unbroken(docs(k))
    requires NoLineBreak(version) && '$' !in version
    ensures Render(m, version, docs).Some? && Unbroken(Render(m, version, docs).value)
  {
    CoversAllKeys(m);
    ExpandPlain(version, m);
    assert Render(m, version, docs).value == [HeaderLine(version)] + BlocksOf(m, docs, Order);
    OrderElementsAreKeySet();
    HeaderUnbroken(version);
    LinesUnbroken(m, version, docs, Order, KeySet);
  }

  lemma LinesUnbroken(m: map<string, Value>, version: string, docs: string -> seq<string>,
                      keys: seq<string>, names: set<string>)
    requires Elements(keys) == names && names <= KeySet && names <= m.Keys
    requires forall k :: k in names ==> Writable(k, m[k]) && Unbroken(docs(k))
    requires NoLineBreak(HeaderLine(version))
    ensures Unbroken([HeaderLine(version)] + BlocksOf(m, docs, keys))
  {
    assert forall i :: 0 <= i < |keys| ==> keys[i] in names;
    BlocksUnbroken(m, docs, keys);
    UnbrokenAppend([HeaderLine(version)], BlocksOf(m, docs, keys));
  }

  // ---------------------------------------------------------------------
  // Reading the file
  // ---------------------------------------------------------------------

  /** A run of comment lines in the file changes nothing. */
  lemma CommentLinesRead(st: Stage, texts: seq<string>)
    requires Unbroken(texts)
    ensures ReadBack(st, CommentLines(texts)) == st
  {
    CommentLinesUnbroken(texts);
    ReadBackParsed(st, CommentLines(texts));
    CommentLinesParsed(st, texts);
  }

  /** The block of a key stores the value it was written from, and nothing else. */
  lemma BlockRead(st: Stage, key: string, docs: seq<string>, v: Value)
    requires key in KeySet && Writable(key, v) && Unbroken(docs)
    ensures ReadBack(st, Block(key, docs, v)) == st.(conf := st.conf[key := v])
  {
    BlockUnbroken(key, docs, v);
    ReadBackParsed(st, Block(key, docs, v));
    BlockParsed(st, key, docs, v);
  }

  /** The blocks of `keys` store the values of the keys in their order. */
  lemma BlocksRead(st: Stage, m: map<string, Value>, docs: string -> seq<string>, keys: seq<string>)
    requires forall i :: 0 <= i < |keys| ==>
               keys[i] in m && keys[i] in KeySet && Writable(keys[i], m[keys[i]]) && Unbroken(docs(keys[i]))
    ensures ReadBack(st, BlocksOf(m, docs, keys)) == Stage(Updated(st.conf, m, keys), st.warnings)
  {
    BlocksUnbroken(m, docs, keys);
    ReadBackParsed(st, BlocksOf(m, docs, keys));
    BlocksParsed(st, m, docs, keys);
  }

  /**
   * Reading back a rendered template, whatever its comments, sets the
   * version entry and every key to what was written, adds no warning and
   * leaves every other entry alone.
   */
  lemma RenderReadBack(st: Stage, m: map<string, Value>, version: string, docs: string -> seq<string>)
    requires KeySet <= m.Keys
    requires forall k :: k in KeySet ==> Writable(k, m[k]) && Unbroken(docs(k))
    requires WritableVersion(version)
    ensures Render(m, version, docs).Some?
    ensures ReadBack(st, Render(m, version, docs).value)
            == Stage(Updated(st.conf[VersionEntry := Str(version)], m, Order), st.warnings)
  {
    RenderUnbroken(m, version, docs);
    ReadBackParsed(st, Render(m, version, docs).value);
    RenderParsed(st, m, version, docs);
  }

  /** The rendered template, each of its lines read as one line of the file. */
  lemma RenderParsed(st: Stage, m: map<string, Value>, version: string, docs: string -> seq<string>)
    requires KeySet <= m.Keys
    requires forall k :: k in KeySet ==> Writable(k, m[k])
    requires WritableVersion(version)
    ensures Render(m, version, docs).Some?
    ensures Parsed(st, Render(m, version, docs).value)
            == Stage(Updated(st.conf[VersionEntry := Str(version)], m, Order), st.warnings)
  {
    CoversAllKeys(m);
    ExpandPlain(version, m);
    assert Render(m, version, docs).value == [HeaderLine(version)] + BlocksOf(m, docs, Order);
    OrderElementsAreKeySet();
    ParsedOf(st, m, version, docs, Order, KeySet);
  }

  lemma ParsedOf(st: Stage, m: map<string, Value>, version: string, docs: string -> seq<string>,
                 keys: seq<string>, names: set<string>)
    requires Elements(keys) == names && names <= KeySet && names <= m.Keys
    requires forall k :: k in names ==> Writable(k, m[k])
    requires WritableVersion(version)
    ensures Parsed(st, [HeaderLine(version)] + BlocksOf(m, docs, keys))
            == Stage(Updated(st.conf[VersionEntry := Str(version)], m, keys), st.warnings)
  {
    assert forall i :: 0 <= i < |keys| ==> keys[i] in names;
    var header := [HeaderLine(version)];
    var blocks := BlocksOf(m, docs, keys);
    AsReadAppend(header, blocks);
    ParseFromAppend(st, AsRead(header), AsRead(blocks));
    assert AsRead(header) == [HeaderLine(version) + "\n"];
    ParseFromOne(st, HeaderLine(version) + "\n");
    HeaderRead(st, version);
    BlocksParsed(st.(conf := st.conf[VersionEntry := Str(version)]), m, docs, keys);
  }

  /** From an empty dict, the entries read are the version and the keys written. */
  lemma UpdatedFresh(m: map<string, Value>, version: string, keys: seq<string>, names: set<string>)
    requires Elements(keys) == names && names <= m.Keys && VersionEntry !in names
    ensures Updated(map[VersionEntry := Str(version)], m, keys).Keys == names + {VersionEntry}
    ensures Updated(map[VersionEntry := Str(version)], m, keys)[VersionEntry] == Str(version)
    ensures forall k :: k in names ==> Updated(map[VersionEntry := Str(version)], m, keys)[k] == m[k]
  {
    assert forall i :: 0 <= i < |keys| ==> keys[i] in names;
    assert forall k :: k in keys <==> k in names;
  }

  /** The dict read back holds the version and the values of the keys, and nothing else. */
  predicate Restores(conf: map<string, Value>, m: map<string, Value>, version: string)
    requires KeySet <= m.Keys
  {
    conf.Keys == KeySet + {VersionEntry}
    && conf[VersionEntry] == Str(version)
    && forall k :: k in KeySet ==> conf[k] == m[k]
  }

  lemma RenderThenRead(m: map<string, Value>, version: string, docs: string -> seq<string>)
    requires KeySet <= m.Keys
    requires forall k :: k in KeySet ==> Writable(k, m[k]) && Unbroken(docs(k))
    requires WritableVersion(version)
    ensures Render(m, version, docs).Some?
    ensures ReadBack(Stage(map[], []), Render(m, version, docs).value).warnings == []
    ensures Restores(ReadBack(Stage(map[], []), Render(m, version, docs).value).conf, m, version)
  {
    RenderReadBack(Stage(map[], []), m, version, docs);
    FromEmpty(m, version);
  }

  /** Starting from an empty dict, the template's lines leave the version and the keys' values. */
  lemma FromEmpty(m: map<string, Value>, version: string)
    requires KeySet <= m.Keys
    ensures Restores(Updated(map[][VersionEntry := Str(version)], m, Order), m, version)
  {
    OrderElementsAreKeySet();
    ReservedNamesAreNotKeys();
    assert VersionEntry !in KeySet;
    assert map[][VersionEntry := Str(version)] == map[VersionEntry := Str(version)];
    UpdatedFresh(m, version, Order, KeySet);
  }

  /**
   * A file that `save_config` writes from a dict of writable values reads
   * back, from an empty dict, as exactly those values and the version, with
   * no warning.
   */
  lemma SaveThenRead(m: map<string, Value>, version: string)
    requires KeySet <= m.Keys
    requires forall k :: k in KeySet ==> Writable(k, m[k])
    requires WritableVersion(version)
    ensures Substitute(m, version).Some?
    ensures Parsed(Stage(map[], []), Substitute(m, version).value).warnings == []
    ensures Restores(Parsed(Stage(map[], []), Substitute(m, version).value).conf, m, version)
  {
    RenderParsed(Stage(map[], []), m, version, Docs);
    FromEmpty(m, version);
  }

  /** The class defaults are all writable. */
  lemma DefaultStrIsWritable(key: string)
    ensures NoEdgeQuotes(DefaultStr(key)) && NoLineBreak(DefaultStr(key))
    ensures |DefaultStr(key)| == 0 || !IsSpace(DefaultStr(key)[|DefaultStr(key)| - 1])
  {
    DefaultStrHasNoLineBreak(key);
  }

  lemma DefaultStrHasNoLineBreak(key: string)
    ensures NoLineBreak(DefaultStr(key))
  {
  }

  lemma DefaultsAreWritable(key: string)
    requires key in KeySet
    ensures Writable(key, Default(key))
  {
    DefaultsAreWellTyped(key);
    DefaultStrIsWritable(key);
    assert Default(key).Str? ==> Default(key).s == DefaultStr(key);
    StrWritable(key, Default(key));
  }

  /** A well-typed value is writable when its text, if any, is a class default's. */
  lemma StrWritable(key: string, v: Value)
    requires WellTyped(key, v)
    requires v.Str? ==> v.s == DefaultStr(key)
    ensures Writable(key, v)
  {
    DefaultStrIsWritable(key);
  }
}
