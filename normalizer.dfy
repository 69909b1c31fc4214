/**
 * The configuration normaliser `_normalize_cfg` of web.py: it turns any
 * value into a fully populated, in-range five-field news-search
 * configuration, starting from `DEFAULT_CFG`, unless a Python exception
 * escapes it: a `time_range` whose lookup in the set of valid ranges
 * raises, or `str()` of an integer text field with too many digits.
 */
module Normalizer {
  import opened Wrappers
  import opened PyValues

  /** `TIME_RANGE_OPTIONS`: (display label, stored value) pairs. */
  const TimeRangeOptions: seq<(string, string)> :=
    [("1天内", "1day"), ("7天内", "7day"), ("30天内", "30day")]

  /** The five keys of `DEFAULT_CFG`, the only keys the normaliser's dict ever holds. */
  datatype CfgKey = TimeRange | OutputFormat | Query | Rounds | ShowThinking {

    /** The key as it is spelt in the Python dict. */
    function Name(): string {
      match this
      case TimeRange => "time_range"
      case OutputFormat => "output_format"
      case Query => "query"
      case Rounds => "rounds"
      case ShowThinking => "show_thinking"
    }
  }

  /** `DEFAULT_CFG.keys()`, in their order. */
  const CfgKeys: seq<CfgKey> := [TimeRange, OutputFormat, Query, Rounds, ShowThinking]

  /** Each key appears once in `CfgKeys`, and distinct keys have distinct spellings. */
  lemma KeysDistinct()
    ensures forall i, j :: 0 <= i < |CfgKeys| && 0 <= j < |CfgKeys| && i != j ==> CfgKeys[i] != CfgKeys[j]
    ensures forall k: CfgKey :: k in CfgKeys
    ensures forall a: CfgKey, b: CfgKey :: a.Name() == b.Name() ==> a == b
  {
    forall k: CfgKey ensures k in CfgKeys {
      match k
      case TimeRange => assert k == CfgKeys[0];
      case OutputFormat => assert k == CfgKeys[1];
      case Query => assert k == CfgKeys[2];
      case Rounds => assert k == CfgKeys[3];
      case ShowThinking => assert k == CfgKeys[4];
    }
    assert "output_format"[0] != "show_thinking"[0];
  }

  /** A dict over the five keys, as the normaliser builds it. */
  type CfgDict = map<CfgKey, PyValue>

  const OutputFormatLimit: nat := 500
  const QueryLimit: nat := 2000
  const MinRounds: int := 1
  const MaxRounds: int := 5

  /** The normaliser's output: the five entries of the returned dict, each at its type. */
  datatype Config = Config(
    timeRange: string,
    outputFormat: string,
    query: string,
    rounds: int,
    showThinking: bool)

  /** `DEFAULT_CFG`. Its time range "7d" is not among the stored option values. */
  const DefaultCfg: Config := Config("7d", "标题 | 时间 | 摘要 | 来源 | 链接", "", 2, false)

  /** A configuration as the Python dict the normaliser returns: exactly the five keys. */
  function ToDict(c: Config): CfgDict {
    map[TimeRange := PyStr(c.timeRange),
        OutputFormat := PyStr(c.outputFormat),
        Query := PyStr(c.query),
        Rounds := PyInt(c.rounds),
        ShowThinking := PyBool(c.showThinking)]
  }

  /** The dict of a configuration holds every one of the five keys. */
  lemma ToDictHasEveryKey(c: Config)
    ensures forall k: CfgKey :: k in ToDict(c)
  {
    forall k: CfgKey ensures k in ToDict(c) {
      match k
      case TimeRange =>
      case OutputFormat =>
      case Query =>
      case Rounds =>
      case ShowThinking =>
    }
  }

  /** `DEFAULT_CFG` as a dict. */
  function DefaultDict(): CfgDict {
    ToDict(DefaultCfg)
  }

  /** A configuration handed back to the normaliser as a dict with string keys. */
  function AsInput(c: Config): RawCfg {
    DictCfg(map[TimeRange.Name() := PyStr(c.timeRange),
                OutputFormat.Name() := PyStr(c.outputFormat),
                Query.Name() := PyStr(c.query),
                Rounds.Name() := PyInt(c.rounds),
                ShowThinking.Name() := PyBool(c.showThinking)])
  }

  /** What the normaliser may be handed: a dict, or any other value. */
  datatype RawCfg = DictCfg(entries: map<string, PyValue>) | NotDict(value: PyValue)

  /** `valid_ranges`: the stored values of `TIME_RANGE_OPTIONS`. */
  function ValidRanges(): set<string> {
    set opt | opt in TimeRangeOptions :: opt.1
  }

  /** The stored values are "1day", "7day" and "30day"; the default "7d" is not one of them. */
  lemma ValidRangesAre()
    ensures ValidRanges() == {"1day", "7day", "30day"}
    ensures DefaultCfg.timeRange !in ValidRanges()
  {
    assert TimeRangeOptions[0].1 == "1day";
    assert TimeRangeOptions[1].1 == "7day";
    assert TimeRangeOptions[2].1 == "30day";
  }

  /** Python's `v in valid_ranges`: only a string equal to a stored option value is in the set. */
  predicate IsValidRange(v: PyValue) {
    v.PyStr? && v.s in ValidRanges()
  }

  /**
   * The entry for key `k` once the recognised keys have been copied over the
   * defaults: the input's own entry when the input is a dict holding `k`, the
   * default otherwise.
   */
  function Field(cfg: RawCfg, k: CfgKey): PyValue {
    if cfg.DictCfg? && k.Name() in cfg.entries then cfg.entries[k.Name()]
    else ToDictHasEveryKey(DefaultCfg); DefaultDict()[k]
  }

  /** In a dict with one entry, every other key keeps its default. */
  lemma FieldOfSingle(k: CfgKey, v: PyValue)
    ensures forall k': CfgKey :: Field(DictCfg(map[k.Name() := v]), k') == if k' == k then v else DefaultDict()[k']
  {
    KeysDistinct();
  }

  /** Two dicts over the five keys are equal when they agree on each key. */
  lemma FiveKeyDictsEqual(m: CfgDict, d: CfgDict)
    requires forall k: CfgKey :: k in m && k in d
    requires m[TimeRange] == d[TimeRange] && m[OutputFormat] == d[OutputFormat]
    requires m[Query] == d[Query] && m[Rounds] == d[Rounds] && m[ShowThinking] == d[ShowThinking]
    ensures m == d
  {
    forall k: CfgKey ensures m[k] == d[k] {
      match k
      case TimeRange =>
      case OutputFormat =>
      case Query =>
      case Rounds =>
      case ShowThinking =>
    }
  }

  /** `max(1, min(5, r))`. */
  function ClampRounds(r: int): (c: int)
    ensures MinRounds <= c <= MaxRounds
    ensures MinRounds <= r <= MaxRounds ==> c == r
    ensures r < MinRounds ==> c == MinRounds
    ensures r > MaxRounds ==> c == MaxRounds
  {
    if r < MinRounds then MinRounds else if r > MaxRounds then MaxRounds else r
  }

  /**
   * `_normalize_cfg(cfg)`: the normalised configuration, or the message of
   * the exception it raises, checked in the order of web.py: the time-range
   * lookup first, then `str()` of the output format, then of the query.
   */
  function Normalize(cfg: RawCfg): (r: Result<Config>)
    ensures r.Ok? ==> ValidConfig(r.value)
  {
    var tr := Field(cfg, TimeRange);
    var format := Str(Field(cfg, OutputFormat));
    var query := Str(Field(cfg, Query));
    if !IsHashable(tr) then Err(UnhashableMessage(tr))
    else if format.Err? then Err(format.error)
    else if query.Err? then Err(query.error)
    else
      Ok(Config(
        timeRange := if IsValidRange(tr) then tr.s else DefaultCfg.timeRange,
        outputFormat := Truncate(format.value, OutputFormatLimit),
        query := Truncate(query.value, QueryLimit),
        rounds := ClampRounds(ToInt(Field(cfg, Rounds)).GetOr(DefaultCfg.rounds)),
        showThinking := Truthy(Field(cfg, ShowThinking))))
  }

  /** A configuration every field of which is in the range the normaliser guarantees. */
  predicate ValidConfig(c: Config) {
    (c.timeRange in ValidRanges() || c.timeRange == DefaultCfg.timeRange) &&
    |c.outputFormat| <= OutputFormatLimit &&
    |c.query| <= QueryLimit &&
    MinRounds <= c.rounds <= MaxRounds
  }

  /**
   * The first step of `_normalize_cfg`: a copy of `DEFAULT_CFG` into which
   * the loop copies the entries of a dict input under the five keys.
   */
  method CopyRecognised(cfg: RawCfg) returns (d: CfgDict)
    ensures forall k: CfgKey :: k in d && d[k] == Field(cfg, k)
  {
    KeysDistinct();
    ToDictHasEveryKey(DefaultCfg);
    d := DefaultDict();
    if cfg.DictCfg? {
      for i := 0 to |CfgKeys|
        invariant forall k: CfgKey :: k in d
        invariant forall j :: 0 <= j < i ==> d[CfgKeys[j]] == Field(cfg, CfgKeys[j])
        invariant forall j :: i <= j < |CfgKeys| ==> d[CfgKeys[j]] == DefaultDict()[CfgKeys[j]]
      {
        var k := CfgKeys[i];
        if k.Name() in cfg.entries {
          d := d[k := cfg.entries[k.Name()]];
        }
      }
    }
    assert forall k: CfgKey :: d[k] == Field(cfg, k) by {
      forall k: CfgKey ensures d[k] == Field(cfg, k) {
        match k
        case TimeRange => assert CfgKeys[0] == k;
        case OutputFormat => assert CfgKeys[1] == k;
        case Query => assert CfgKeys[2] == k;
        case Rounds => assert CfgKeys[3] == k;
        case ShowThinking => assert CfgKeys[4] == k;
      }
    }
  }

  /**
   * `_normalize_cfg` step by step as web.py writes it: copy `DEFAULT_CFG`
   * and the recognised keys of the input, then validate and coerce each
   * entry in place, returning early where Python raises. The dict built is
   * that of `Normalize(cfg)`: it holds exactly the five keys.
   */
  method NormalizeCfg(cfg: RawCfg) returns (out: Result<CfgDict>)
    ensures out.Ok? <==> Normalize(cfg).Ok?
    ensures out.Ok? ==> out.value == ToDict(Normalize(cfg).value)
    ensures out.Err? ==> out.error == Normalize(cfg).error
  {
    var d := CopyRecognised(cfg);
    ghost var overlay := d;
    ToDictHasEveryKey(DefaultCfg);

    if !IsHashable(d[TimeRange]) {
      return Err(UnhashableMessage(d[TimeRange]));
    }
    if !IsValidRange(d[TimeRange]) {
      d := d[TimeRange := DefaultDict()[TimeRange]];
    }

    var n: int;
    match ToInt(d[Rounds]) {
      case Some(v) => n := v;
      case None => n := DefaultCfg.rounds;
    }
    d := d[Rounds := PyInt(ClampRounds(n))];

    var text := Str(d[OutputFormat]);
    if text.Err? {
      return Err(text.error);
    }
    d := d[OutputFormat := PyStr(Truncate(text.value, OutputFormatLimit))];
    assert d[Query] == overlay[Query];
    text := Str(d[Query]);
    if text.Err? {
      return Err(text.error);
    }
    d := d[Query := PyStr(Truncate(text.value, QueryLimit))];
    assert d[ShowThinking] == overlay[ShowThinking];
    d := d[ShowThinking := PyBool(Truthy(d[ShowThinking]))];

    ghost var r := Normalize(cfg).value;
    ToDictHasEveryKey(r);
    assert d[TimeRange] == PyStr(r.timeRange);
    assert n == ToInt(overlay[Rounds]).GetOr(DefaultCfg.rounds);
    FiveKeyDictsEqual(d, ToDict(r));
    out := Ok(d);
  }

  // ---------------------------------------------------------------------
  // Properties of the normaliser
  // ---------------------------------------------------------------------

  /** Every configuration the normaliser returns is in range. */
  lemma NormalizeValid(cfg: RawCfg)
    ensures Normalize(cfg).Ok? ==> ValidConfig(Normalize(cfg).value)
  {
  }

  /** An integer `str()` refuses: one of more than `MaxStrDigits` digits, that is `|n| >= 10^4300`. */
  predicate TooManyDigits(v: PyValue) {
    v.PyInt? && Abs(v.i) >= Pow10(MaxStrDigits)
  }

  /**
   * The normaliser raises exactly when the time range is an object whose
   * lookup in a set raises, or a text field holds an integer too long for `str()`; the
   * message is that of the first of these in the order of web.py.
   */
  lemma NormalizeFails(cfg: RawCfg)
    ensures var tr, f, q := Field(cfg, TimeRange), Field(cfg, OutputFormat), Field(cfg, Query);
      (Normalize(cfg).Err? <==> (tr.PyObject? && !tr.hashable) || TooManyDigits(f) || TooManyDigits(q)) &&
      (tr.PyObject? && !tr.hashable ==> Normalize(cfg) == Err("unhashable type: '" + tr.typeName + "'")) &&
      (IsHashable(tr) && (TooManyDigits(f) || TooManyDigits(q)) ==> Normalize(cfg) == Err(MsgStrDigitsLimit))
  {
  }

  /**
   * A time range whose set lookup raises makes the normaliser raise. Otherwise it
   * survives only when the input is a dict whose "time_range" is one of
   * "1day", "7day", "30day"; any other input, including a missing key, a
   * non-string and "7d" itself, yields the default "7d".
   */
  lemma NormalizeTimeRange(cfg: RawCfg)
    ensures var r := Normalize(cfg);
      var key := TimeRange.Name();
      var given := cfg.DictCfg? && key in cfg.entries;
      (given && !IsHashable(cfg.entries[key]) ==> r == Err(UnhashableMessage(cfg.entries[key]))) &&
      (r.Ok? && given && IsValidRange(cfg.entries[key]) ==>
         r.value.timeRange == cfg.entries[key].s && r.value.timeRange in {"1day", "7day", "30day"}) &&
      (r.Ok? && !(given && IsValidRange(cfg.entries[key])) ==> r.value.timeRange == "7d")
  {
    ValidRangesAre();
  }

  /**
   * `rounds` follows `int()` of the supplied entry, or the default 2 when
   * the key is absent: an entry `int()` rejects gives 2, an integer below 1
   * gives 1, one above 5 gives 5, and one in [1, 5] is kept. The rounds
   * never make the normaliser raise.
   */
  lemma NormalizeRounds(cfg: RawCfg)
    ensures var r := Normalize(cfg);
      var key := Rounds.Name();
      var supplied := if cfg.DictCfg? && key in cfg.entries then ToInt(cfg.entries[key]) else Some(2);
      r.Ok? ==>
        1 <= r.value.rounds <= 5 &&
        (supplied.None? ==> r.value.rounds == 2) &&
        (supplied.Some? && supplied.value < 1 ==> r.value.rounds == 1) &&
        (supplied.Some? && supplied.value > 5 ==> r.value.rounds == 5) &&
        (supplied.Some? && 1 <= supplied.value <= 5 ==> r.value.rounds == supplied.value)
  {
  }

  /**
   * The text fields are the prefixes of `str()` of their entries, of length
   * min(length, 500) and min(length, 2000); text within its bound is kept
   * whole, and a `str()` that raises makes the normaliser raise.
   */
  lemma NormalizeTextFields(cfg: RawCfg)
    ensures var r := Normalize(cfg);
      var f := Str(Field(cfg, OutputFormat));
      var q := Str(Field(cfg, Query));
      (f.Err? || q.Err? ==> r.Err?) &&
      (r.Ok? ==>
        (f.Ok? && q.Ok? &&
         r.value.outputFormat <= f.value && |r.value.outputFormat| == (if |f.value| <= 500 then |f.value| else 500) &&
         r.value.query <= q.value && |r.value.query| == (if |q.value| <= 2000 then |q.value| else 2000)))
  {
  }

  /** `show_thinking` is the truthiness of the supplied entry, false when absent. */
  lemma NormalizeShowThinking(cfg: RawCfg)
    ensures var key := ShowThinking.Name();
      Normalize(cfg).Ok? ==>
        Normalize(cfg).value.showThinking == (cfg.DictCfg? && key in cfg.entries && Truthy(cfg.entries[key]))
  {
  }

  /** An input that holds none of the five keys normalises to `DEFAULT_CFG`. */
  lemma NoRecognisedKeyGivesDefault(cfg: RawCfg)
    requires cfg.DictCfg? ==> forall k: CfgKey :: k.Name() !in cfg.entries
    ensures Normalize(cfg) == Ok(DefaultCfg)
  {
    ValidRangesAre();
    assert Field(cfg, TimeRange) == PyStr("7d");
    assert Field(cfg, OutputFormat) == PyStr(DefaultCfg.outputFormat);
    assert |DefaultCfg.outputFormat| <= OutputFormatLimit;
    assert Field(cfg, Query) == PyStr("");
    assert Field(cfg, Rounds) == PyInt(2);
    assert Field(cfg, ShowThinking) == PyBool(false);
  }

  /** A non-dict input, and an empty dict, both yield exactly `DEFAULT_CFG`. */
  lemma NormalizeDefaults(v: PyValue)
    ensures Normalize(NotDict(v)) == Ok(DefaultCfg)
    ensures Normalize(DictCfg(map[])) == Ok(DefaultCfg)
  {
    NoRecognisedKeyGivesDefault(NotDict(v));
    NoRecognisedKeyGivesDefault(DictCfg(map[]));
  }

  /** A recognised key the input lacks keeps its default value. */
  lemma AbsentKeysKeepDefaults(m: map<string, PyValue>)
    ensures var r := Normalize(DictCfg(m));
      r.Ok? ==>
        (TimeRange.Name() !in m ==> r.value.timeRange == DefaultCfg.timeRange) &&
        (OutputFormat.Name() !in m ==> r.value.outputFormat == DefaultCfg.outputFormat) &&
        (Query.Name() !in m ==> r.value.query == DefaultCfg.query) &&
        (Rounds.Name() !in m ==> r.value.rounds == DefaultCfg.rounds) &&
        (ShowThinking.Name() !in m ==> r.value.showThinking == DefaultCfg.showThinking)
  {
    var cfg := DictCfg(m);
    if TimeRange.Name() !in m {
      assert Field(cfg, TimeRange) == PyStr(DefaultCfg.timeRange);
      ValidRangesAre();
    }
    if OutputFormat.Name() !in m {
      assert Field(cfg, OutputFormat) == PyStr(DefaultCfg.outputFormat);
      assert |DefaultCfg.outputFormat| <= OutputFormatLimit;
    }
    if Query.Name() !in m {
      assert Field(cfg, Query) == PyStr(DefaultCfg.query);
    }
    if Rounds.Name() !in m {
      assert Field(cfg, Rounds) == PyInt(DefaultCfg.rounds);
    }
  }

  /** Entries under unrecognised keys are ignored: only the five keys matter. */
  lemma UnrecognisedKeysIgnored(m: map<string, PyValue>, extra: map<string, PyValue>)
    requires forall k: CfgKey :: k.Name() !in extra
    ensures Normalize(DictCfg(m + extra)) == Normalize(DictCfg(m))
  {
    assert forall k: CfgKey :: Field(DictCfg(m + extra), k) == Field(DictCfg(m), k);
  }

  /**
   * A configuration handed back to the normaliser never makes it raise, and
   * it comes back unchanged exactly when it is in range.
   */
  lemma FixedPointIffValid(c: Config)
    ensures Normalize(AsInput(c)).Ok?
    ensures Normalize(AsInput(c)) == Ok(c) <==> ValidConfig(c)
  {
    var d := AsInput(c);
    KeysDistinct();
    assert Field(d, TimeRange) == PyStr(c.timeRange);
    assert Field(d, OutputFormat) == PyStr(c.outputFormat);
    assert Field(d, Query) == PyStr(c.query);
    if ValidConfig(c) {
      assert Field(d, Rounds) == PyInt(c.rounds);
      assert Field(d, ShowThinking) == PyBool(c.showThinking);
    } else {
      NormalizeValid(d);
    }
  }

  /** Normalising a normalised configuration again changes nothing. */
  lemma {:induction false} NormalizeIdempotent(cfg: RawCfg)
    ensures Normalize(cfg).Ok? ==> Normalize(AsInput(Normalize(cfg).value)) == Normalize(cfg)
  {
    if Normalize(cfg).Ok? {
      NormalizeValid(cfg);
      FixedPointIffValid(Normalize(cfg).value);
    }
  }

  /** A dict holding only `rounds` differs from `DEFAULT_CFG` only in its clamped `int()`. */
  lemma OnlyRounds(v: PyValue)
    ensures Normalize(DictCfg(map[Rounds.Name() := v])) ==
      Ok(DefaultCfg.(rounds := ClampRounds(ToInt(v).GetOr(DefaultCfg.rounds))))
  {
    FieldOfSingle(Rounds, v);
    ValidRangesAre();
  }

  /** A dict holding only a string `time_range` keeps it when valid, else is `DEFAULT_CFG`. */
  lemma OnlyTimeRange(t: string)
    ensures Normalize(DictCfg(map[TimeRange.Name() := PyStr(t)])) ==
      Ok(DefaultCfg.(timeRange := if t in ValidRanges() then t else DefaultCfg.timeRange))
  {
    var d := DictCfg(map[TimeRange.Name() := PyStr(t)]);
    FieldOfSingle(TimeRange, PyStr(t));
    assert Field(d, TimeRange) == PyStr(t);
    assert Field(d, OutputFormat) == PyStr(DefaultCfg.outputFormat);
    assert Field(d, Query) == PyStr(DefaultCfg.query);
    assert Field(d, Rounds) == PyInt(DefaultCfg.rounds);
    assert Field(d, ShowThinking) == PyBool(DefaultCfg.showThinking);
  }

  /** Boundary cases of `rounds`: 0 becomes 1, 6 becomes 5, None becomes 2. */
  lemma RoundsBoundaries()
    ensures Normalize(DictCfg(map[Rounds.Name() := PyInt(0)])) == Ok(DefaultCfg.(rounds := 1))
    ensures Normalize(DictCfg(map[Rounds.Name() := PyInt(6)])) == Ok(DefaultCfg.(rounds := 5))
    ensures Normalize(DictCfg(map[Rounds.Name() := PyNone])) == Ok(DefaultCfg)
  {
    OnlyRounds(PyInt(0));
    OnlyRounds(PyInt(6));
    OnlyRounds(PyNone);
  }

  /** A dict whose `rounds` is "abc", which `int()` rejects, normalises to 2 rounds. */
  lemma RoundsFromLetters(cfg: RawCfg)
    requires cfg.DictCfg? && Rounds.Name() in cfg.entries && cfg.entries[Rounds.Name()] == PyStr("abc")
    ensures Normalize(cfg).Ok? ==> Normalize(cfg).value.rounds == 2
  {
    ParseIntRejectsLetters();
    NormalizeRounds(cfg);
  }

  /** A dict whose `rounds` is " 4 ", which `int()` reads as 4, normalises to 4 rounds. */
  lemma RoundsFromPaddedDigits(cfg: RawCfg)
    requires cfg.DictCfg? && Rounds.Name() in cfg.entries && cfg.entries[Rounds.Name()] == PyStr(" 4 ")
    ensures Normalize(cfg).Ok? ==> Normalize(cfg).value.rounds == 4
  {
    ParseIntIgnoresBlanks();
    NormalizeRounds(cfg);
  }

  /** A dict whose `rounds` is "\x1c4", which `int()` rejects, normalises to 2 rounds. */
  lemma RoundsFromSeparatorPadding(cfg: RawCfg)
    requires cfg.DictCfg? && Rounds.Name() in cfg.entries && cfg.entries[Rounds.Name()] == PyStr("\U{1c}4")
    ensures Normalize(cfg).Ok? ==> Normalize(cfg).value.rounds == 2
  {
    ParseIntRejectsSeparatorPadding();
    NormalizeRounds(cfg);
  }

  /**
   * A `rounds` string of digits is read as the number it spells, clamped,
   * unless it has more than 4300 digits, when `int()` raises and 2 is used.
   */
  lemma RoundsFromDigitRun(cfg: RawCfg, s: string)
    requires s != [] && forall k :: 0 <= k < |s| ==> IsDigit(s[k])
    requires cfg.DictCfg? && Rounds.Name() in cfg.entries && cfg.entries[Rounds.Name()] == PyStr(s)
    ensures Normalize(cfg).Ok? ==>
      Normalize(cfg).value.rounds == if |s| <= MaxStrDigits then ClampRounds(DigitsValue(s)) else 2
  {
    ParseIntDigitLimit(s);
    assert ToInt(cfg.entries[Rounds.Name()]) == ParseInt(s);
    NormalizeRounds(cfg);
  }

  /**
   * `int()` of other objects counts too: `b"4"` gives 4 rounds, and the float
   * 7.9, which `int()` truncates to 7, is clamped to 5.
   */
  lemma RoundsFromObjects()
    ensures Normalize(DictCfg(map[Rounds.Name() := PyObject("bytes", "b'4'", true, true, Some(4))])) ==
      Ok(DefaultCfg.(rounds := 4))
    ensures Normalize(DictCfg(map[Rounds.Name() := PyObject("float", "7.9", true, true, Some(7))])) ==
      Ok(DefaultCfg.(rounds := 5))
  {
    OnlyRounds(PyObject("bytes", "b'4'", true, true, Some(4)));
    OnlyRounds(PyObject("float", "7.9", true, true, Some(7)));
  }

  /** Boundary cases of `time_range`: "99day" and "7d" give "7d", "30day" is kept. */
  lemma TimeRangeBoundaries()
    ensures Normalize(DictCfg(map[TimeRange.Name() := PyStr("99day")])) == Ok(DefaultCfg)
    ensures Normalize(DictCfg(map[TimeRange.Name() := PyStr("7d")])) == Ok(DefaultCfg)
    ensures Normalize(DictCfg(map[TimeRange.Name() := PyStr("30day")])) == Ok(DefaultCfg.(timeRange := "30day"))
  {
    OnlyTimeRange("99day");
    OnlyTimeRange("7d");
    OnlyTimeRange("30day");
    ValidRangesAre();
  }

  /** A list as `time_range` makes the set lookup raise a TypeError. */
  lemma TimeRangeUnhashable(text: string, truthy: bool)
    ensures Normalize(DictCfg(map[TimeRange.Name() := PyObject("list", text, truthy, false, None)])) ==
      Err("unhashable type: 'list'")
  {
    FieldOfSingle(TimeRange, PyObject("list", text, truthy, false, None));
  }

  /** A 600-character format is cut to exactly 500; None in a text field becomes "None". */
  lemma TextBoundaries(s: string)
    requires |s| == 600
    ensures Normalize(DictCfg(map[OutputFormat.Name() := PyStr(s)])) ==
      Ok(DefaultCfg.(outputFormat := s[..500]))
    ensures Normalize(DictCfg(map[Query.Name() := PyNone])) == Ok(DefaultCfg.(query := "None"))
  {
    FieldOfSingle(OutputFormat, PyStr(s));
    FieldOfSingle(Query, PyNone);
    ValidRangesAre();
  }

  /** A query holding an integer of more than 4300 digits makes `str()` raise a ValueError. */
  lemma TextFromHugeInteger(n: int)
    requires Abs(n) >= Pow10(MaxStrDigits)
    ensures Normalize(DictCfg(map[Query.Name() := PyInt(n)])) == Err(MsgStrDigitsLimit)
  {
    var d := DictCfg(map[Query.Name() := PyInt(n)]);
    FieldOfSingle(Query, PyInt(n));
    assert Field(d, TimeRange) == PyStr(DefaultCfg.timeRange);
    assert Field(d, OutputFormat) == PyStr(DefaultCfg.outputFormat);
    assert Field(d, Query) == PyInt(n);
    NormalizeFails(d);
  }
}
