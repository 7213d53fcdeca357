/** Response handling of the B1520A capacitance unit driver (KeysightB1520A.py): the learn-query
    parsers of the WDCV, WTDCV and ACT setting groups, the format check of a spot capacitance
    reading, and the de-interleaving of sweep data. Number conversion (Python's `int()` and
    `float()` on text) is a parameter, `Numerals`. */
module B1520AResponses {
  import opened Wrappers
  import opened Text
  import opened Errors

  /** A value of a parsed dictionary: the matched text, or the number it was converted to. */
  datatype Value = Int(i: int) | Float(x: real) | Raw(t: string)

  /** One entry of an (insertion-ordered) Python dictionary of parsed fields. */
  datatype Field = Field(name: string, value: Value)

  /** Python's `int(text)` and `float(text)`: the number, or None where they raise. */
  datatype Numerals = Numerals(readInt: string -> Option<int>, readFloat: string -> Option<real>)

  predicate HasKind(v: Value, kind: Kind)
  {
    match kind
    case IntKind => v.Int?
    case FloatKind => v.Float?
  }

  function Read(nm: Numerals, kind: Kind, text: string): Option<Value>
  {
    match kind
    case IntKind => (match nm.readInt(text) case Some(n) => Some(Int(n)) case None => None)
    case FloatKind => (match nm.readFloat(text) case Some(x) => Some(Float(x)) case None => None)
  }

  // ---------------------------------------------------------------------------------------------
  // The learn-query grammars: `<mnemonic>(?P<f1>.+?),(?P<f2>.+?),...,(?P<fk>.+?)<terminator>`

  /** One learn-query response grammar: its mnemonic, the names and types of its groups in the
      positional order of the matching set command, whether the last field may end at `;` (the
      `(;|$)` of WDCV and WTDCV) or only at the end (the `$` of ACT), and the message of the
      ValueError raised when it is not found. */
  datatype Grammar = Grammar(mnemonic: string, names: seq<string>, kinds: seq<Kind>,
                             semicolon: bool, notFound: string)
  {
    predicate Valid() { |mnemonic| >= 1 && |names| >= 1 && |names| == |kinds| }
  }

  /** `WTDCV {hold},{delay},{step_delay},{trigger_delay},{measure_delay}`, all floats. */
  const SWEEP_DELAYS := Grammar("WTDCV",
    ["hold", "delay", "step_delay", "trigger_delay", "measure_delay"],
    [FloatKind, FloatKind, FloatKind, FloatKind, FloatKind], true, "Sweep delays (WTDCV) not found.")

  /** `WDCV {chan},{sweep_mode},{sweep_start},{sweep_end},{sweep_steps}`. */
  const SWEEP_STEPS := Grammar("WDCV",
    ["chan", "sweep_mode", "sweep_start", "sweep_end", "sweep_steps"],
    [IntKind, IntKind, FloatKind, FloatKind, IntKind], true, "Sweep steps (WDCV) not found.")

  /** `ACT {adc_mode},{adc_coef}`, both integers; the message's "ATC" is the driver's own. */
  const ADC_MODE := Grammar("ACT", ["adc_mode", "adc_coef"], [IntKind, IntKind], false,
    "ADC mode and coef (ATC) not found.")

  /** Python's `.`: any character but a newline. */
  predicate Dot(c: char) { c != '\n' }

  /** Python's `$` (no MULTILINE flag): at the end, or just before a final newline. */
  predicate EndAnchor(s: string, e: nat)
  {
    e == |s| || (e + 1 == |s| && s[e] == '\n')
  }

  /** What must follow the last field. */
  predicate Terminator(s: string, e: nat, semicolon: bool)
  {
    (semicolon && e < |s| && s[e] == ';') || EndAnchor(s, e)
  }

  /** The backtracking match of `k` lazy fields, the current one spanning `s[start..e]`: the
      engine first tries to go on with the field ending at `e`, and only when that fails
      extends it by one more character. */
  function Lazy(s: string, start: nat, e: nat, k: nat, semicolon: bool): (r: Option<seq<string>>)
    requires 1 <= k && start < e <= |s|
    ensures r.Some? ==> |r.value| == k && forall j :: 0 <= j < k ==> |r.value[j]| >= 1
    decreases k, |s| - e, 0
  {
    var here :=
      if k == 1 then
        (if Terminator(s, e, semicolon) then Some([s[start..e]]) else None)
      else if e < |s| && s[e] == ',' then
        (match FieldsFrom(s, e + 1, k - 1, semicolon)
         case Some(rest) => Some([s[start..e]] + rest)
         case None => None)
      else None;
    if here.Some? then here
    else if e < |s| && Dot(s[e]) then Lazy(s, start, e + 1, k, semicolon)
    else None
  }

  /** `k` lazy fields starting at `start`; each field holds at least one character. */
  function FieldsFrom(s: string, start: nat, k: nat, semicolon: bool): (r: Option<seq<string>>)
    requires 1 <= k
    ensures r.Some? ==> |r.value| == k && forall j :: 0 <= j < k ==> |r.value[j]| >= 1
    decreases k, |s| - start, 1
  {
    if start < |s| && Dot(s[start]) then Lazy(s, start, start + 1, k, semicolon) else None
  }

  /** A match of a grammar: where its mnemonic starts and the text of each group. */
  datatype Match = Match(start: nat, fields: seq<string>)

  /** Python's `re.search`: the first start position, from `i` on, at which the grammar matches. */
  function SearchFrom(g: Grammar, s: string, i: nat): (r: Option<Match>)
    requires g.Valid()
    ensures r.Some? ==> && i <= r.value.start && r.value.start + |g.mnemonic| <= |s|
                        && s[r.value.start..r.value.start + |g.mnemonic|] == g.mnemonic
                        && |r.value.fields| == |g.names|
    decreases |s| - i
  {
    if |s| < i + |g.mnemonic| then None
    else
      var fields :=
        if s[i..i + |g.mnemonic|] == g.mnemonic
        then FieldsFrom(s, i + |g.mnemonic|, |g.names|, g.semicolon) else None;
      if fields.Some? then Some(Match(i, fields.value)) else SearchFrom(g, s, i + 1)
  }

  /** `re.search` of the grammar's pattern in the whole response. */
  function FindRecord(g: Grammar, s: string): (r: Option<Match>)
    requires g.Valid()
    ensures r.Some? ==> && r.value.start + |g.mnemonic| <= |s|
                        && s[r.value.start..r.value.start + |g.mnemonic|] == g.mnemonic
                        && |r.value.fields| == |g.names|
  {
    SearchFrom(g, s, 0)
  }

  // ---------------------------------------------------------------------------------------------
  // What a match is, independently of how the engine finds it

  /** Text of one line: no newline in it. */
  predicate Line(f: string)
  {
    forall j :: 0 <= j < |f| ==> f[j] != '\n'
  }

  /** `fields` occur in `s` from `start` on, separated by commas and followed by the terminator;
      every field is a nonempty piece of one line. */
  ghost predicate FieldsAt(s: string, start: nat, fields: seq<string>, semicolon: bool)
    decreases |fields|
  {
    && |fields| >= 1
    && |fields[0]| >= 1
    && Line(fields[0])
    && start + |fields[0]| <= |s|
    && s[start..start + |fields[0]|] == fields[0]
    && var e := start + |fields[0]|;
       if |fields| == 1 then Terminator(s, e, semicolon)
       else e < |s| && s[e] == ',' && FieldsAt(s, e + 1, fields[1..], semicolon)
  }

  /** The grammar's regular expression matches `s` at `i` with these group texts. */
  ghost predicate RecordAt(g: Grammar, s: string, i: nat, fields: seq<string>)
  {
    && i + |g.mnemonic| <= |s|
    && s[i..i + |g.mnemonic|] == g.mnemonic
    && |fields| == |g.names|
    && FieldsAt(s, i + |g.mnemonic|, fields, g.semicolon)
  }

  lemma {:induction false} LazySound(s: string, start: nat, e: nat, k: nat, semicolon: bool)
    requires 1 <= k && start < e <= |s|
    requires forall j :: start <= j < e ==> Dot(s[j])
    ensures Lazy(s, start, e, k, semicolon).Some? ==>
              |Lazy(s, start, e, k, semicolon).value| == k
              && FieldsAt(s, start, Lazy(s, start, e, k, semicolon).value, semicolon)
    decreases k, |s| - e, 0
  {
    var f := s[start..e];
    assert Line(f) by {
      forall j | 0 <= j < |f| ensures f[j] != '\n' { assert f[j] == s[start + j]; }
    }
    if k > 1 && e < |s| && s[e] == ',' {
      FieldsFromSound(s, e + 1, k - 1, semicolon);
      var rest := FieldsFrom(s, e + 1, k - 1, semicolon);
      if rest.Some? {
        assert ([f] + rest.value)[1..] == rest.value;
        return;
      }
    }
    if k == 1 && Terminator(s, e, semicolon) {
      return;
    }
    if e < |s| && Dot(s[e]) {
      LazySound(s, start, e + 1, k, semicolon);
    }
  }

  lemma {:induction false} FieldsFromSound(s: string, start: nat, k: nat, semicolon: bool)
    requires 1 <= k
    ensures FieldsFrom(s, start, k, semicolon).Some? ==>
              |FieldsFrom(s, start, k, semicolon).value| == k
              && FieldsAt(s, start, FieldsFrom(s, start, k, semicolon).value, semicolon)
    decreases k, |s| - start, 1
  {
    if start < |s| && Dot(s[start]) {
      LazySound(s, start, start + 1, k, semicolon);
    }
  }

  /** Whenever the fields occur from `start` on, the engine finds some match of the fields,
      whatever the length `e - start` it starts trying with (up to the first field's length). */
  lemma {:induction false} LazyComplete(s: string, start: nat, e: nat, fields: seq<string>,
                                        semicolon: bool)
    requires FieldsAt(s, start, fields, semicolon)
    requires start < e <= start + |fields[0]|
    ensures Lazy(s, start, e, |fields|, semicolon).Some?
    decreases |fields|, start + |fields[0]| - e
  {
    var f := fields[0];
    var fe := start + |f|;
    if e < fe {
      assert s[e] == f[e - start];
      LazyComplete(s, start, e + 1, fields, semicolon);
    } else if |fields| > 1 {
      var next := fields[1];
      assert fields[1..][0] == next;
      assert s[fe + 1] == next[0];
      LazyComplete(s, fe + 1, fe + 2, fields[1..], semicolon);
    }
  }

  lemma {:induction false} SearchFromSound(g: Grammar, s: string, i: nat)
    requires g.Valid()
    ensures SearchFrom(g, s, i).Some? ==>
              i <= SearchFrom(g, s, i).value.start
              && RecordAt(g, s, SearchFrom(g, s, i).value.start, SearchFrom(g, s, i).value.fields)
    decreases |s| - i
  {
    if i + |g.mnemonic| <= |s| {
      FieldsFromSound(s, i + |g.mnemonic|, |g.names|, g.semicolon);
      SearchFromSound(g, s, i + 1);
    }
  }

  lemma {:induction false} SearchFromComplete(g: Grammar, s: string, j: nat, i: nat,
                                              fields: seq<string>)
    requires g.Valid() && RecordAt(g, s, i, fields) && j <= i
    ensures SearchFrom(g, s, j).Some? && SearchFrom(g, s, j).value.start <= i
    decreases i - j
  {
    var m := |g.mnemonic|;
    if j == i {
      assert s[i + m] == fields[0][0];
      LazyComplete(s, i + m, i + m + 1, fields, g.semicolon);
      var found := FieldsFrom(s, i + m, |g.names|, g.semicolon);
      assert found.Some?;
      assert SearchFrom(g, s, i) == Some(Match(i, found.value));
    } else if s[j..j + m] == g.mnemonic && FieldsFrom(s, j + m, |g.names|, g.semicolon).Some? {
      assert SearchFrom(g, s, j).value.start == j;
    } else {
      SearchFromComplete(g, s, j + 1, i, fields);
    }
  }

  /** `re.search` succeeds exactly when the grammar matches somewhere, and then it reports a
      match, at the leftmost position where one exists. */
  lemma FindRecordSound(g: Grammar, s: string)
    requires g.Valid()
    ensures FindRecord(g, s).Some? ==>
              RecordAt(g, s, FindRecord(g, s).value.start, FindRecord(g, s).value.fields)
  {
    SearchFromSound(g, s, 0);
  }

  lemma FindRecordComplete(g: Grammar, s: string, i: nat, fields: seq<string>)
    requires g.Valid() && RecordAt(g, s, i, fields)
    ensures FindRecord(g, s).Some? && FindRecord(g, s).value.start <= i
  {
    SearchFromComplete(g, s, 0, i, fields);
  }

  // ---------------------------------------------------------------------------------------------
  // Round trip: a learn line that reports the group's fields in template order parses back

  /** A field the instrument reports: nonempty, without separator, terminator or newline. */
  predicate Clean(f: string)
  {
    |f| >= 1 && forall j :: 0 <= j < |f| ==> f[j] != ',' && f[j] != ';' && f[j] != '\n'
  }

  /** A learn-query response line reporting one group: `WDCV1,1,0.0,1.0,11`, and so on. */
  function LearnLine(g: Grammar, fields: seq<string>, tail: string): string
  {
    g.mnemonic + Join(fields, ',') + tail
  }

  /** What may follow the group's record in a response line. */
  predicate GoodTail(g: Grammar, tail: string)
  {
    tail == [] || (g.semicolon && tail[0] == ';')
  }

  lemma {:induction false} FieldsAtJoin(p: string, fields: seq<string>, tail: string,
                                        semicolon: bool)
    requires |fields| >= 1 && forall f <- fields :: Clean(f)
    requires tail == [] || (semicolon && tail[0] == ';')
    ensures FieldsAt(p + Join(fields, ',') + tail, |p|, fields, semicolon)
    decreases |fields|
  {
    var s := p + Join(fields, ',') + tail;
    var f := fields[0];
    assert Clean(f);
    if |fields| == 1 {
      assert s == p + f + tail;
      assert s[|p|..|p| + |f|] == f;
    } else {
      var p' := p + f + [','];
      assert Join(fields, ',') == f + [','] + Join(fields[1..], ',');
      assert s == p' + Join(fields[1..], ',') + tail;
      assert s[|p|..|p| + |f|] == f;
      assert s[|p| + |f|] == ',';
      FieldsAtJoin(p', fields[1..], tail, semicolon);
    }
  }

  /** With clean fields there is one way to split the line, and the engine takes it. */
  lemma {:induction false} LazyExact(s: string, start: nat, e: nat, fields: seq<string>,
                                     semicolon: bool)
    requires FieldsAt(s, start, fields, semicolon)
    requires forall f <- fields :: Clean(f)
    requires start < e <= start + |fields[0]|
    ensures Lazy(s, start, e, |fields|, semicolon) == Some(fields)
    decreases |fields|, start + |fields[0]| - e
  {
    var f := fields[0];
    assert Clean(f);
    var fe := start + |f|;
    if e < fe {
      assert s[e] == f[e - start];
      assert !Terminator(s, e, semicolon) && s[e] != ',' && Dot(s[e]);
      LazyExact(s, start, e + 1, fields, semicolon);
    } else if |fields| == 1 {
      assert fields == [s[start..e]];
    } else {
      var next := fields[1];
      assert fields[1..][0] == next;
      assert Clean(next);
      assert s[fe + 1] == next[0];
      LazyExact(s, fe + 1, fe + 2, fields[1..], semicolon);
      assert FieldsFrom(s, fe + 1, |fields| - 1, semicolon) == Some(fields[1..]);
      assert fields == [s[start..e]] + fields[1..];
    }
  }

  /** The grammar's mnemonic occurs in `s` at `q`. */
  predicate MnemonicAt(g: Grammar, s: string, q: nat)
  {
    q + |g.mnemonic| <= |s| && s[q..q + |g.mnemonic|] == g.mnemonic
  }

  /** The search stops at a position where the mnemonic and the fields match. */
  lemma SearchFromHere(g: Grammar, s: string, i: nat, fields: seq<string>)
    requires g.Valid() && MnemonicAt(g, s, i)
    requires FieldsFrom(s, i + |g.mnemonic|, |g.names|, g.semicolon) == Some(fields)
    ensures SearchFrom(g, s, i) == Some(Match(i, fields))
  {
  }

  /** The search passes over positions where the mnemonic does not occur. */
  lemma {:induction false} SearchSkips(g: Grammar, s: string, i: nat, j: nat)
    requires g.Valid() && i <= j
    requires forall q :: i <= q < j ==> !MnemonicAt(g, s, q)
    ensures SearchFrom(g, s, i) == SearchFrom(g, s, j)
    decreases j - i
  {
    if i < j {
      assert !MnemonicAt(g, s, i);
      SearchSkips(g, s, i + 1, j);
    }
  }

  /** A record with clean fields, before which the mnemonic does not start, is the one the
      search finds, with exactly those fields. */
  lemma FindRecordExact(g: Grammar, s: string, i: nat, fields: seq<string>)
    requires g.Valid() && RecordAt(g, s, i, fields) && forall f <- fields :: Clean(f)
    requires forall q :: 0 <= q < i ==> !MnemonicAt(g, s, q)
    ensures FindRecord(g, s) == Some(Match(i, fields))
  {
    var start := i + |g.mnemonic|;
    assert Clean(fields[0]);
    assert s[start] == fields[0][0];
    LazyExact(s, start, start + 1, fields, g.semicolon);
    SearchFromHere(g, s, i, fields);
    SearchSkips(g, s, 0, i);
  }

  /** Where the second of four concatenated texts begins. */
  lemma Regroup(p: string, a: string, b: string, c: string)
    ensures p + (a + b + c) == (p + a) + b + c
    ensures (p + (a + b + c))[|p|..|p| + |a|] == a
  {
    assert p + (a + b + c) == (p + a) + b + c;
  }

  /** A group's record, written from its fields after any text in which the mnemonic does not
      start (such as the other records of the same learn-query answer), is found where it
      begins, with exactly those fields. */
  lemma LearnLineFound(g: Grammar, p: string, fields: seq<string>, tail: string)
    requires g.Valid() && |fields| == |g.names| && forall f <- fields :: Clean(f)
    requires GoodTail(g, tail)
    requires forall q :: 0 <= q < |p| ==> !MnemonicAt(g, p + LearnLine(g, fields, tail), q)
    ensures FindRecord(g, p + LearnLine(g, fields, tail)) == Some(Match(|p|, fields))
  {
    var s := p + LearnLine(g, fields, tail);
    Regroup(p, g.mnemonic, Join(fields, ','), tail);
    FieldsAtJoin(p + g.mnemonic, fields, tail, g.semicolon);
    assert RecordAt(g, s, |p|, fields);
    FindRecordExact(g, s, |p|, fields);
  }

  /** A letter that is in none of the fields, nor in a mnemonic after its first character, is
      nowhere in a record line after its first character. */
  lemma NoLetterAfterFirst(mnemonic: string, fields: seq<string>, p: string, c: char)
    requires |mnemonic| >= 1 && c !in mnemonic[1..] && c != ',' && c != ';'
    requires forall f <- fields :: c !in f
    requires p == mnemonic + Join(fields, ',') + ";"
    ensures forall q :: 1 <= q < |p| ==> p[q] != c
  {
    forall q | 1 <= q < |p| ensures p[q] != c {
      var m := |mnemonic|;
      if q < m {
        assert p[q] == mnemonic[1..][q - 1];
      } else if q < m + |Join(fields, ',')| {
        assert p[q] == Join(fields, ',')[q - m];
        if p[q] == c {
          JoinFrom(fields, ',', c);
        }
      }
    }
  }

  /** When a response line carries two records separated by `;`, the second is found where it
      begins, provided its mnemonic cannot start inside the first: its first letter is neither
      in the first's fields nor after the first's initial letter, and the two mnemonics differ
      at their second letter. */
  lemma SecondRecordFound(first: Grammar, second: Grammar, ff: seq<string>, sf: seq<string>,
                          tail: string)
    requires first.Valid() && second.Valid() && |sf| == |second.names|
    requires |first.mnemonic| >= 2 && |second.mnemonic| >= 2
    requires first.mnemonic[1] != second.mnemonic[1]
    requires second.mnemonic[0] !in first.mnemonic[1..]
    requires second.mnemonic[0] != ',' && second.mnemonic[0] != ';'
    requires forall f <- ff :: second.mnemonic[0] !in f
    requires forall f <- sf :: Clean(f)
    requires GoodTail(second, tail)
    ensures FindRecord(second, LearnLine(first, ff, ";" + LearnLine(second, sf, tail)))
            == Some(Match(|first.mnemonic| + |Join(ff, ',')| + 1, sf))
  {
    var rest := LearnLine(second, sf, tail);
    var answer := LearnLine(first, ff, ";" + rest);
    var p := first.mnemonic + Join(ff, ',') + ";";
    assert answer == p + rest;
    NoLetterAfterFirst(first.mnemonic, ff, p, second.mnemonic[0]);
    forall q | 0 <= q < |p| ensures !MnemonicAt(second, answer, q) {
      if q == 0 {
        assert answer[1] == p[1] == first.mnemonic[1] != second.mnemonic[1];
      } else {
        assert answer[q] == p[q] != second.mnemonic[0];
      }
    }
    LearnLineFound(second, p, sf, tail);
  }

  /** The WDCV and WTDCV groups both answer the same `*LRN?` query, so one response line
      carries both records, one after the other and separated by `;`. With numeric fields (no
      `W` in them), each record is found where it begins, in either order. */
  lemma SweepSettingsFound(first: Grammar, second: Grammar, ff: seq<string>, sf: seq<string>,
                           tail: string)
    requires (first, second) == (SWEEP_STEPS, SWEEP_DELAYS)
             || (first, second) == (SWEEP_DELAYS, SWEEP_STEPS)
    requires |ff| == 5 && |sf| == 5
    requires forall f <- ff + sf :: Clean(f) && 'W' !in f
    requires GoodTail(second, tail)
    ensures var answer := LearnLine(first, ff, ";" + LearnLine(second, sf, tail));
            && FindRecord(first, answer) == Some(Match(0, ff))
            && FindRecord(second, answer)
               == Some(Match(|first.mnemonic| + |Join(ff, ',')| + 1, sf))
  {
    var answer := LearnLine(first, ff, ";" + LearnLine(second, sf, tail));
    forall f | f in ff ensures Clean(f) && 'W' !in f { assert f in ff + sf; }
    forall f | f in sf ensures Clean(f) { assert f in ff + sf; }
    assert [] + answer == answer;
    LearnLineFound(first, [], ff, ";" + LearnLine(second, sf, tail));
    SecondRecordFound(first, second, ff, sf, tail);
  }

  // ---------------------------------------------------------------------------------------------
  // Typed parsers

  /** The dictionary comprehension `{key: conv(value) for key, value in groupdict().items()}`:
      every group converted, in order; the first text that does not convert raises. */
  function Convert(nm: Numerals, names: seq<string>, kinds: seq<Kind>, raws: seq<string>)
    : (r: Result<seq<Field>, Error>)
    requires |names| == |kinds| == |raws|
    ensures r.Ok? <==> forall j :: 0 <= j < |raws| ==> Read(nm, kinds[j], raws[j]).Some?
    ensures r.Ok? ==> |r.value| == |raws|
                      && forall j :: 0 <= j < |raws| ==>
                           r.value[j] == Field(names[j], Read(nm, kinds[j], raws[j]).value)
    ensures r.Err? ==> exists j :: 0 <= j < |raws| && Read(nm, kinds[j], raws[j]).None?
                                   && r.error == ConversionError(kinds[j], raws[j])
                                   && forall i :: 0 <= i < j ==> Read(nm, kinds[i], raws[i]).Some?
  {
    if raws == [] then Ok([])
    else
      match Read(nm, kinds[0], raws[0])
      case None => Err(ConversionError(kinds[0], raws[0]))
      case Some(v) =>
        match Convert(nm, names[1..], kinds[1..], raws[1..])
        case Ok(rest) => Ok([Field(names[0], v)] + rest)
        case Err(e) => Err(e)
  }

  /** A learn-query parser: find the grammar's record, then convert its groups. */
  function ParseRecord(nm: Numerals, g: Grammar, response: string): (r: Result<seq<Field>, Error>)
    requires g.Valid()
    ensures r.Ok? ==> |r.value| == |g.names|
                      && forall j :: 0 <= j < |g.names| ==>
                           r.value[j].name == g.names[j] && HasKind(r.value[j].value, g.kinds[j])
    ensures r == Err(ValueError(g.notFound)) <==> FindRecord(g, response).None?
  {
    match FindRecord(g, response)
    case None => Err(ValueError(g.notFound))
    case Some(m) =>
      FindRecordSound(g, response);
      Convert(nm, g.names, g.kinds, m.fields)
  }

  /** `_get_sweep_delays_parser`: the five WTDCV delays as floats, in set-template order. */
  function ParseSweepDelays(nm: Numerals, response: string): (r: Result<seq<Field>, Error>)
    ensures r.Ok? ==> |r.value| == 5
                      && r.value[0].name == "hold" && r.value[1].name == "delay"
                      && r.value[2].name == "step_delay" && r.value[3].name == "trigger_delay"
                      && r.value[4].name == "measure_delay"
                      && forall f <- r.value :: f.value.Float?
    ensures r == Err(ValueError("Sweep delays (WTDCV) not found.")) <==>
              FindRecord(SWEEP_DELAYS, response).None?
  {
    ParseRecord(nm, SWEEP_DELAYS, response)
  }

  /** `_get_adc_mode_parser`: `adc_mode` then `adc_coef`, both integers. */
  function ParseAdcMode(nm: Numerals, response: string): (r: Result<seq<Field>, Error>)
    ensures r.Ok? ==> |r.value| == 2
                      && r.value[0].name == "adc_mode" && r.value[0].value.Int?
                      && r.value[1].name == "adc_coef" && r.value[1].value.Int?
    ensures r == Err(ValueError("ADC mode and coef (ATC) not found.")) <==>
              FindRecord(ADC_MODE, response).None?
  {
    ParseRecord(nm, ADC_MODE, response)
  }

  /** `_get_sweep_steps_parser`: starts from the group dictionary of matched texts and overwrites
      its entries one by one with their conversions, in template order. */
  method ParseSweepSteps(nm: Numerals, response: string) returns (r: Result<seq<Field>, Error>)
    ensures r == ParseRecord(nm, SWEEP_STEPS, response)
    ensures r.Ok? ==> |r.value| == 5
                      && r.value[0] == Field("chan", Int(r.value[0].value.i))
                      && r.value[1] == Field("sweep_mode", Int(r.value[1].value.i))
                      && r.value[2] == Field("sweep_start", Float(r.value[2].value.x))
                      && r.value[3] == Field("sweep_end", Float(r.value[3].value.x))
                      && r.value[4] == Field("sweep_steps", Int(r.value[4].value.i))
  {
    var found := FindRecord(SWEEP_STEPS, response);
    if found.None? {
      return Err(ValueError("Sweep steps (WDCV) not found."));
    }
    FindRecordSound(SWEEP_STEPS, response);
    var raw := found.value.fields;
    var outDict := [Field("chan", Raw(raw[0])), Field("sweep_mode", Raw(raw[1])),
                    Field("sweep_start", Raw(raw[2])), Field("sweep_end", Raw(raw[3])),
                    Field("sweep_steps", Raw(raw[4]))];
    var chan := nm.readInt(outDict[0].value.t);
    if chan.None? { return Err(ConversionError(IntKind, raw[0])); }
    outDict := outDict[0 := Field("chan", Int(chan.value))];
    var mode := nm.readInt(outDict[1].value.t);
    if mode.None? { return Err(ConversionError(IntKind, raw[1])); }
    outDict := outDict[1 := Field("sweep_mode", Int(mode.value))];
    var start := nm.readFloat(outDict[2].value.t);
    if start.None? { return Err(ConversionError(FloatKind, raw[2])); }
    outDict := outDict[2 := Field("sweep_start", Float(start.value))];
    var end := nm.readFloat(outDict[3].value.t);
    if end.None? { return Err(ConversionError(FloatKind, raw[3])); }
    outDict := outDict[3 := Field("sweep_end", Float(end.value))];
    var steps := nm.readInt(outDict[4].value.t);
    if steps.None? { return Err(ConversionError(IntKind, raw[4])); }
    outDict := outDict[4 := Field("sweep_steps", Int(steps.value))];
    ghost var expected := Convert(nm, SWEEP_STEPS.names, SWEEP_STEPS.kinds, raw);
    assert expected.Ok?;
    assert expected.value == outDict;
    return Ok(outDict);
  }

  /** A learn line that reports typed values in template order, each written as a clean field
      that `int()`/`float()` reads back to that value, parses back to those values under the
      group's names, also after other text in which the mnemonic does not start. */
  lemma {:induction false} ParseRecordRoundTrip(nm: Numerals, g: Grammar, p: string,
                                                texts: seq<string>, values: seq<Value>,
                                                tail: string)
    requires g.Valid() && |values| == |g.names| && |texts| == |values|
    requires forall j :: 0 <= j < |values| ==>
               Read(nm, g.kinds[j], texts[j]) == Some(values[j]) && Clean(texts[j])
    requires GoodTail(g, tail)
    requires forall q :: 0 <= q < |p| ==> !MnemonicAt(g, p + LearnLine(g, texts, tail), q)
    ensures ParseRecord(nm, g, p + LearnLine(g, texts, tail))
            == Ok(seq(|values|, j requires 0 <= j < |values| => Field(g.names[j], values[j])))
  {
    forall f | f in texts ensures Clean(f) {
      var j :| 0 <= j < |texts| && texts[j] == f;
      assert Clean(texts[j]);
    }
    LearnLineFound(g, p, texts, tail);
    var r := Convert(nm, g.names, g.kinds, texts);
    assert r.Ok?;
    assert r.value == seq(|values|, j requires 0 <= j < |values| => Field(g.names[j], values[j]));
  }

  // ---------------------------------------------------------------------------------------------
  // Spot capacitance reading (`_get_capacitance`)

  /** The `status`, `chnr` and `dtype` characters that may precede a spot value. */
  datatype Tag = Tag(status: char, chnr: char, dtype: char)

  /** One token the spot pattern finds: the optional tag and the value it carries. */
  datatype SpotToken = SpotToken(tag: Option<Tag>, value: real)

  /** The token's `dtype` group, None when the token has no tag. */
  function DType(t: SpotToken): Option<char>
  {
    if t.tag.Some? then Some(t.tag.value.dtype) else None
  }

  /** The format check of a spot reading: exactly two tokens, tagged C then Y. */
  function SpotCapacitance(tokens: seq<SpotToken>): (r: Result<(real, real), Error>)
    ensures r.Ok? <==> |tokens| == 2 && DType(tokens[0]) == Some('C') && DType(tokens[1]) == Some('Y')
    ensures r.Ok? ==> r.value == (tokens[0].value, tokens[1].value)
    ensures r.Err? ==> r.error == ValueError("Result format not supported.")
  {
    if |tokens| != 2 || DType(tokens[0]) != Some('C') || DType(tokens[1]) != Some('Y')
    then Err(ValueError("Result format not supported."))
    else Ok((tokens[0].value, tokens[1].value))
  }

  /** The reading the instrument sends for a capacitance `c` and a second quantity `y`. */
  function SpotReading(c: Tag, y: Tag, cValue: real, yValue: real): seq<SpotToken>
  {
    [SpotToken(Some(c), cValue), SpotToken(Some(y), yValue)]
  }

  /** A C-then-Y reading is accepted with its two values; the same reading with the tokens
      swapped is rejected. */
  lemma SpotReadingAccepted(c: Tag, y: Tag, cValue: real, yValue: real)
    requires c.dtype == 'C' && y.dtype == 'Y'
    ensures SpotCapacitance(SpotReading(c, y, cValue, yValue)) == Ok((cValue, yValue))
    ensures SpotCapacitance([SpotToken(Some(y), yValue), SpotToken(Some(c), cValue)]).Err?
  {
  }

  // ---------------------------------------------------------------------------------------------
  // Sweep data (`parse_sweep_data`)

  /** The elements at even positions, in order. */
  function Evens<T>(xs: seq<T>): (r: seq<T>)
  {
    seq((|xs| + 1) / 2, k requires 0 <= k < (|xs| + 1) / 2 => xs[2 * k])
  }

  /** The elements at odd positions, in order. */
  function Odds<T>(xs: seq<T>): (r: seq<T>)
  {
    seq(|xs| / 2, k requires 0 <= k < |xs| / 2 => xs[2 * k + 1])
  }

  /** `a[0], b[0], a[1], b[1], ...`: how the instrument reports two quantities per step. */
  function Interleave<T>(a: seq<T>, b: seq<T>): (r: seq<T>)
    requires |b| <= |a| <= |b| + 1
    ensures |r| == |a| + |b|
  {
    if a == [] then []
    else [a[0]] + (if b == [] then [] else [b[0]] + Interleave(a[1..], b[1..]))
  }

  lemma {:induction false} InterleaveAt<T>(a: seq<T>, b: seq<T>, k: nat)
    requires |b| <= |a| <= |b| + 1
    ensures k < |a| ==> Interleave(a, b)[2 * k] == a[k]
    ensures k < |b| ==> Interleave(a, b)[2 * k + 1] == b[k]
  {
    if k > 0 && b != [] {
      InterleaveAt(a[1..], b[1..], k - 1);
    }
  }

  /** An interleaving holds only elements of its two lists. */
  lemma InterleaveFrom<T>(a: seq<T>, b: seq<T>, x: T)
    requires |b| <= |a| <= |b| + 1
    ensures x in Interleave(a, b) ==> x in a + b
  {
    if x in Interleave(a, b) {
      var i :| 0 <= i < |Interleave(a, b)| && Interleave(a, b)[i] == x;
      InterleaveAt(a, b, i / 2);
      if i % 2 == 0 {
        assert (a + b)[i / 2] == a[i / 2];
      } else {
        assert (a + b)[|a| + i / 2] == b[i / 2];
      }
    }
  }

  /** Splitting an interleaving into even and odd positions gives back both lists. */
  lemma DeinterleaveInterleave<T>(a: seq<T>, b: seq<T>)
    requires |b| <= |a| <= |b| + 1
    ensures Evens(Interleave(a, b)) == a && Odds(Interleave(a, b)) == b
  {
    var xs := Interleave(a, b);
    var evens, odds := Evens(xs), Odds(xs);
    assert |evens| == |a| && |odds| == |b|;
    forall k | 0 <= k < |a| ensures evens[k] == a[k] {
      InterleaveAt(a, b, k);
    }
    forall k | 0 <= k < |b| ensures odds[k] == b[k] {
      InterleaveAt(a, b, k);
    }
    assert evens == a;
    assert odds == b;
  }

  /** Interleaving the even and odd positions gives back the list: nothing is lost or reordered. */
  lemma InterleaveDeinterleave<T>(xs: seq<T>)
    ensures Interleave(Evens(xs), Odds(xs)) == xs
  {
    var r := Interleave(Evens(xs), Odds(xs));
    forall i | 0 <= i < |xs| ensures r[i] == xs[i] {
      InterleaveAt(Evens(xs), Odds(xs), i / 2);
    }
  }

  /** `[float(val[3:]) for val in tokens]`: each token's value after its three-character tag. */
  function TokenValues(nm: Numerals, tokens: seq<string>): (r: Result<seq<real>, Error>)
    ensures r.Ok? <==> forall j :: 0 <= j < |tokens| ==> nm.readFloat(DropPrefix(tokens[j], 3)).Some?
    ensures r.Ok? ==> |r.value| == |tokens|
                      && forall j :: 0 <= j < |tokens| ==>
                           nm.readFloat(DropPrefix(tokens[j], 3)) == Some(r.value[j])
    ensures r.Err? ==> exists j :: 0 <= j < |tokens| && nm.readFloat(DropPrefix(tokens[j], 3)).None?
                                   && r.error == ConversionError(FloatKind, DropPrefix(tokens[j], 3))
                                   && forall i :: 0 <= i < j ==>
                                        nm.readFloat(DropPrefix(tokens[i], 3)).Some?
  {
    if tokens == [] then Ok([])
    else
      match nm.readFloat(DropPrefix(tokens[0], 3))
      case None => Err(ConversionError(FloatKind, DropPrefix(tokens[0], 3)))
      case Some(x) =>
        match TokenValues(nm, tokens[1..])
        case Ok(xs) => Ok([x] + xs)
        case Err(e) => Err(e)
  }

  /** What `parse_sweep_data` returns for a raw sweep response. */
  function SweepData(nm: Numerals, raw: string): (r: Result<(seq<real>, seq<real>), Error>)
    ensures r.Ok? <==> TokenValues(nm, Split(raw, ',')).Ok?
    ensures r.Err? ==> r.error == TokenValues(nm, Split(raw, ',')).error
    ensures r.Ok? ==> && |r.value.1| <= |r.value.0| <= |r.value.1| + 1
                      && Interleave(r.value.0, r.value.1) == TokenValues(nm, Split(raw, ',')).value
  {
    match TokenValues(nm, Split(raw, ','))
    case Ok(xs) =>
      InterleaveDeinterleave(xs);
      Ok((Evens(xs), Odds(xs)))
    case Err(e) => Err(e)
  }

  /** The loop of `parse_sweep_data`: deal the values out, those at even positions to the
      primary list and those at odd positions to the secondary list. */
  method DealAlternately(values: seq<real>) returns (param1: seq<real>, param2: seq<real>)
    ensures param1 == Evens(values) && param2 == Odds(values)
  {
    param1, param2 := [], [];
    for i := 0 to |values|
      invariant |param1| == (i + 1) / 2 && |param2| == i / 2
      invariant forall k :: 0 <= k < |param1| ==> param1[k] == values[2 * k]
      invariant forall k :: 0 <= k < |param2| ==> param2[k] == values[2 * k + 1]
    {
      if i % 2 == 1 {
        param2 := param2 + [values[i]];
      } else {
        param1 := param1 + [values[i]];
      }
    }
  }

  /** `parse_sweep_data`: split at commas, drop each token's tag, and deal the values out to
      the primary (even positions) and secondary (odd positions) lists. */
  method ParseSweepData(nm: Numerals, raw: string) returns (r: Result<(seq<real>, seq<real>), Error>)
    ensures r == SweepData(nm, raw)
    ensures r.Ok? ==> |r.value.0| == (|Split(raw, ',')| + 1) / 2 && |r.value.1| == |Split(raw, ',')| / 2
  {
    var noCommas := Split(raw, ',');
    var noStr := TokenValues(nm, noCommas);
    if noStr.Err? {
      return Err(noStr.error);
    }
    var param1, param2 := DealAlternately(noStr.value);
    return Ok((param1, param2));
  }

  /** The tokens of a sweep response: a three-character tag, then the value as text. */
  function SweepTokens(tags: seq<string>, show: real -> string, xs: seq<real>): seq<string>
    requires |tags| == |xs|
  {
    seq(|xs|, j requires 0 <= j < |xs| => tags[j] + show(xs[j]))
  }

  /** The values of well-formed sweep tokens are the values they were written from. */
  lemma SweepTokenValues(nm: Numerals, show: real -> string, tags: seq<string>, xs: seq<real>)
    requires |tags| == |xs|
    requires forall t <- tags :: |t| == 3
    requires forall x <- xs :: nm.readFloat(show(x)) == Some(x)
    ensures TokenValues(nm, SweepTokens(tags, show, xs)) == Ok(xs)
  {
    var tokens := SweepTokens(tags, show, xs);
    forall j | 0 <= j < |tokens| ensures nm.readFloat(DropPrefix(tokens[j], 3)) == Some(xs[j]) {
      var t, x := tokens[j], xs[j];
      assert x in xs;
      assert t == tags[j] + show(x);
      assert tags[j] in tags;
      assert nm.readFloat(show(x)) == Some(x);
      if |t| <= 3 {
        assert show(x) == [];
      } else {
        assert t[3..] == show(x);
      }
    }
    var r := TokenValues(nm, tokens);
    assert r.Ok?;
    forall j | 0 <= j < |xs| ensures r.value[j] == xs[j] {
      assert nm.readFloat(DropPrefix(tokens[j], 3)) == Some(r.value[j]);
    }
    assert |r.value| == |xs|;
    assert r.value == xs;
  }

  /** Sweep tokens hold no comma when neither their tags nor their numbers do. */
  lemma SweepTokensClean(show: real -> string, tags: seq<string>, xs: seq<real>)
    requires |tags| == |xs|
    requires forall t <- tags :: ',' !in t
    requires forall x <- xs :: ',' !in show(x)
    ensures forall p <- SweepTokens(tags, show, xs) :: ',' !in p
  {
    var tokens := SweepTokens(tags, show, xs);
    forall j | 0 <= j < |tokens| ensures ',' !in tokens[j] {
      var x := xs[j];
      assert x in xs;
      assert tags[j] in tags;
      assert ',' !in show(x);
      assert tokens[j] == tags[j] + show(x);
    }
  }

  /** A sweep response that interleaves the primary and secondary values parses back to them. */
  lemma SweepDataRoundTrip(nm: Numerals, show: real -> string, tags: seq<string>,
                           a: seq<real>, b: seq<real>)
    requires |b| <= |a| <= |b| + 1 && |a| >= 1 && |tags| == |a| + |b|
    requires forall t <- tags :: |t| == 3 && ',' !in t
    requires forall x <- a + b :: nm.readFloat(show(x)) == Some(x) && ',' !in show(x)
    ensures SweepData(nm, Join(SweepTokens(tags, show, Interleave(a, b)), ',')) == Ok((a, b))
  {
    var xs := Interleave(a, b);
    forall x | x in xs ensures nm.readFloat(show(x)) == Some(x) && ',' !in show(x) {
      InterleaveFrom(a, b, x);
    }
    var tokens := SweepTokens(tags, show, xs);
    SweepTokensClean(show, tags, xs);
    SplitJoin(tokens, ',');
    SweepTokenValues(nm, show, tags, xs);
    DeinterleaveInterleave(a, b);
  }
}
