/** The stored cooling configuration as text (`load` and `save` in
    rust/src/cooling.rs). */
module CoolingConfig {
  import opened Common
  import opened CoolingCurve

  predicate I64(n: int) {
    -0x8000_0000_0000_0000 <= n < 0x8000_0000_0000_0000
  }

  // ---- Integers as text ----

  function DigitChar(d: nat): char
    requires d < 10
  {
    ('0' as int + d) as char
  }

  predicate IsDigit(c: char) {
    '0' <= c <= '9'
  }

  function ShowNat(n: nat): string {
    if n < 10 then [DigitChar(n)] else ShowNat(n / 10) + [DigitChar(n % 10)]
  }

  function Show(n: int): string {
    if n < 0 then "-" + ShowNat(-n) else ShowNat(n)
  }

  function ReadNat(s: string): Option<nat> {
    if s == [] || !IsDigit(s[|s| - 1]) then None
    else
      var d := s[|s| - 1] as int - '0' as int;
      if |s| == 1 then Some(d)
      else
        var rest := ReadNat(s[..|s| - 1]);
        if rest.None? then None else Some(10 * rest.value + d)
  }

  function Negated(r: Option<nat>): Option<int> {
    if r.None? then None else
      var n: int := r.value;
      Some(-n)
  }

  function Signed(s: string): Option<int> {
    if s != [] && s[0] == '-' then Negated(ReadNat(s[1..]))
    else if s != [] && s[0] == '+' then ReadNat(s[1..])
    else ReadNat(s)
  }

  /** `str::parse::<i64>`: an optional sign, digits, and the range. */
  function ReadInt(s: string): Option<int> {
    if Signed(s).Some? && I64(Signed(s).value) then Signed(s) else None
  }

  lemma {:induction false} ReadShownNat(n: nat)
    ensures ReadNat(ShowNat(n)) == Some(n)
    ensures forall i :: 0 <= i < |ShowNat(n)| ==> IsDigit(ShowNat(n)[i])
    ensures |ShowNat(n)| >= 1
  {
    if n >= 10 {
      ReadShownNat(n / 10);
      var s := ShowNat(n);
      assert s[..|s| - 1] == ShowNat(n / 10);
    }
  }

  predicate Plain(s: string) {
    '\n' !in s && '\r' !in s && '=' !in s
  }

  lemma ReadShown(n: int)
    requires I64(n)
    ensures ReadInt(Show(n)) == Some(n) && Plain(Show(n)) && Show(n) != []
  {
    ReadShownNat(if n < 0 then -n else n);
    if n < 0 {
      assert Show(n)[1..] == ShowNat(-n);
    }
  }

  // ---- Lines of `key=value` ----

  function IndexOf(s: string, c: char): nat
    ensures IndexOf(s, c) <= |s|
  {
    if s == [] || s[0] == c then 0 else 1 + IndexOf(s[1..], c)
  }

  lemma {:induction false} IndexAfter(a: string, c: char, b: string)
    requires c !in a
    ensures IndexOf(a + [c] + b, c) == |a|
  {
    if a != [] {
      assert (a + [c] + b)[1..] == a[1..] + [c] + b;
      IndexAfter(a[1..], c, b);
    }
  }

  datatype Field = Field(name: string, value: int)

  /** What a line contributes: nothing unless it is `key=integer`. */
  function FieldOf(line: string): seq<Field> {
    var i := IndexOf(line, '=');
    if i == |line| then []
    else
      var v := ReadInt(line[i + 1..]);
      if v.None? then [] else [Field(line[..i], v.value)]
  }

  function StripReturn(line: string): string {
    if line != [] && line[|line| - 1] == '\r' then line[..|line| - 1] else line
  }

  /** `str::lines` and the two tests of the loop. */
  function Fields(text: string): seq<Field>
    decreases |text|
  {
    var i := IndexOf(text, '\n');
    if i == |text| then (if text == [] then [] else FieldOf(text))
    else FieldOf(StripReturn(text[..i])) + Fields(text[i + 1..])
  }

  function Line(f: Field): string {
    f.name + "=" + Show(f.value)
  }

  function Text(fields: seq<Field>): string {
    if fields == [] then [] else Line(fields[0]) + "\n" + Text(fields[1..])
  }

  predicate Writable(f: Field) {
    Plain(f.name) && I64(f.value)
  }

  lemma LineReads(f: Field)
    requires Writable(f)
    ensures FieldOf(StripReturn(Line(f))) == [f] && '\n' !in Line(f)
  {
    ReadShown(f.value);
    var l, v := Line(f), Show(f.value);
    assert l == f.name + ['='] + v;
    IndexAfter(f.name, '=', v);
    assert l[|l| - 1] == v[|v| - 1] && v[|v| - 1] in v;
    assert l[|f.name| + 1..] == v && l[..|f.name|] == f.name;
  }

  lemma FirstLineReads(l: string, rest: string)
    requires '\n' !in l
    ensures Fields(l + ['\n'] + rest) == FieldOf(StripReturn(l)) + Fields(rest)
  {
    var text := l + ['\n'] + rest;
    IndexAfter(l, '\n', rest);
    assert text[..|l|] == l && text[|l| + 1..] == rest;
  }

  /** Reading the saved text gives the saved fields. */
  lemma {:induction false} TextReads(fields: seq<Field>)
    requires forall i :: 0 <= i < |fields| ==> Writable(fields[i])
    ensures Fields(Text(fields)) == fields
  {
    if fields != [] {
      LineReads(fields[0]);
      TextReads(fields[1..]);
      FirstLineReads(Line(fields[0]), Text(fields[1..]));
      assert Text(fields) == Line(fields[0]) + ['\n'] + Text(fields[1..]);
      assert fields == [fields[0]] + fields[1..];
    }
  }

  /** A plus sign in front of a number is read over. */
  lemma PlusReads(n: nat)
    requires I64(n)
    ensures ReadInt("+" + Show(n)) == Some(n)
  {
    ReadShownNat(n);
    assert ("+" + Show(n))[1..] == ShowNat(n);
  }

  /** The same lines, ended as another system ends them. */
  function ReturnText(fields: seq<Field>): string {
    if fields == [] then [] else Line(fields[0]) + "\r" + "\n" + ReturnText(fields[1..])
  }

  lemma ReturnLineReads(f: Field)
    requires Writable(f)
    ensures FieldOf(StripReturn(Line(f) + "\r")) == [f] && '\n' !in Line(f) + "\r"
  {
    LineReads(f);
    PlainLine(f);
    assert (Line(f) + "\r")[..|Line(f)|] == Line(f);
  }

  lemma PlainLine(f: Field)
    requires Writable(f)
    ensures StripReturn(Line(f)) == Line(f)
  {
    ReadShown(f.value);
    var l, v := Line(f), Show(f.value);
    assert l[|l| - 1] == v[|v| - 1] && v[|v| - 1] in v;
  }

  /** A carriage return before the end of a line is read over. */
  lemma {:induction false} ReturnTextReads(fields: seq<Field>)
    requires forall i :: 0 <= i < |fields| ==> Writable(fields[i])
    ensures Fields(ReturnText(fields)) == fields
  {
    if fields != [] {
      ReturnLineReads(fields[0]);
      ReturnTextReads(fields[1..]);
      FirstLineReads(Line(fields[0]) + "\r", ReturnText(fields[1..]));
      assert ReturnText(fields) == (Line(fields[0]) + "\r") + ['\n'] + ReturnText(fields[1..]);
      assert fields == [fields[0]] + fields[1..];
    }
  }

  function AsMap(fields: seq<Field>): map<string, int> {
    if fields == [] then map[] else AsMap(fields[..|fields| - 1])[fields[|fields| - 1].name := fields[|fields| - 1].value]
  }

  // ---- The keys ----

  datatype Key = FanEnabled | FanAlwaysOn | FanAuto | FanMode | FanSpeed | LiquidEnabled | LiquidAlwaysOn
    | LiquidLevel | Temperature(i: nat) | Hysteresis(i: nat) | CurveCount | CurveTemperature(i: nat) | CurveDuty(i: nat)

  predicate Known(k: Key) {
    match k
    case Temperature(i) => i < 3
    case Hysteresis(i) => i < 3
    case CurveTemperature(i) => i < 8
    case CurveDuty(i) => i < 8
    case _ => true
  }

  function Name(k: Key): string
    requires Known(k)
  {
    match k
    case FanEnabled => "fan_enabled"
    case FanAlwaysOn => "fan_always_on"
    case FanAuto => "fan_auto"
    case FanMode => "fan_mode"
    case FanSpeed => "fan_speed_percent"
    case LiquidEnabled => "liquid_enabled"
    case LiquidAlwaysOn => "liquid_always_on"
    case LiquidLevel => "liquid_level"
    case Temperature(i) => "temperature_" + [DigitChar(i + 1)]
    case Hysteresis(i) => "hysteresis_" + [DigitChar(i + 1)]
    case CurveCount => "custom_curve_count"
    case CurveTemperature(i) => "custom_temperature_" + [DigitChar(i + 1)]
    case CurveDuty(i) => "custom_pwm_" + [DigitChar(i + 1)]
  }

  /** Length, first and last letter already tell the names apart. */
  function Signature(k: Key): (nat, char, char)
    requires Known(k)
  {
    match k
    case FanEnabled => (11, 'f', 'd')
    case FanAlwaysOn => (13, 'f', 'n')
    case FanAuto => (8, 'f', 'o')
    case FanMode => (8, 'f', 'e')
    case FanSpeed => (17, 'f', 't')
    case LiquidEnabled => (14, 'l', 'd')
    case LiquidAlwaysOn => (16, 'l', 'n')
    case LiquidLevel => (12, 'l', 'l')
    case Temperature(i) => (13, 't', DigitChar(i + 1))
    case Hysteresis(i) => (12, 'h', DigitChar(i + 1))
    case CurveCount => (18, 'c', 't')
    case CurveTemperature(i) => (20, 'c', DigitChar(i + 1))
    case CurveDuty(i) => (12, 'c', DigitChar(i + 1))
  }

  lemma NameSignature(k: Key)
    requires Known(k)
    ensures var n := Name(k); n != [] && Signature(k) == (|n|, n[0], n[|n| - 1])
  {}

  lemma NamesDiffer(k: Key, l: Key)
    requires Known(k) && Known(l) && k != l
    ensures Name(k) != Name(l)
  {
    NameSignature(k);
    NameSignature(l);
  }

  lemma FanNamesArePlain(k: Key)
    requires k.FanEnabled? || k.FanAlwaysOn? || k.FanAuto? || k.FanMode? || k.FanSpeed?
    ensures Plain(Name(k))
  {}

  lemma LiquidNamesArePlain(k: Key)
    requires k.LiquidEnabled? || k.LiquidAlwaysOn? || k.LiquidLevel?
    ensures Plain(Name(k))
  {}

  lemma PlainWithDigit(s: string, d: nat)
    requires Plain(s) && d < 10
    ensures Plain(s + [DigitChar(d)])
  {}

  lemma TablePrefixesArePlain()
    ensures Plain("temperature_") && Plain("hysteresis_")
  {}

  lemma CurvePrefixesArePlain()
    ensures Plain("custom_temperature_") && Plain("custom_pwm_")
  {}

  lemma TableNamesArePlain(k: Key)
    requires Known(k) && (k.Temperature? || k.Hysteresis?)
    ensures Plain(Name(k))
  {
    TablePrefixesArePlain();
    PlainWithDigit(if k.Temperature? then "temperature_" else "hysteresis_", k.i + 1);
  }

  lemma CurveNamesArePlain(k: Key)
    requires Known(k) && (k.CurveTemperature? || k.CurveDuty?)
    ensures Plain(Name(k))
  {
    CurvePrefixesArePlain();
    PlainWithDigit(if k.CurveTemperature? then "custom_temperature_" else "custom_pwm_", k.i + 1);
  }

  lemma CountNameIsPlain()
    ensures Plain(Name(CurveCount))
  {}

  lemma NamesArePlain(k: Key)
    requires Known(k)
    ensures Plain(Name(k))
  {
    match k
    case FanEnabled | FanAlwaysOn | FanAuto | FanMode | FanSpeed => FanNamesArePlain(k);
    case LiquidEnabled | LiquidAlwaysOn | LiquidLevel => LiquidNamesArePlain(k);
    case CurveCount => CountNameIsPlain();
    case Temperature(_) | Hysteresis(_) => TableNamesArePlain(k);
    case _ => CurveNamesArePlain(k);
  }

  // ---- The configuration ----

  datatype Config = Config(fanAlways: bool, fanMode: int, fanSpeed: int, liquidAlways: bool, liquidLevel: int,
                           temps: seq<int>, hyst: seq<int>, curve: seq<Point>)

  const DEFAULT_CURVE := [Point(40, 0), Point(45, 0), Point(50, 76), Point(60, 128), Point(70, 255)]

  const DEFAULT := Config(false, 2, 50, false, 1, [44, 48, 53], [4, 4, 4], DEFAULT_CURVE)

  function Flag(b: bool): int {
    if b then 1 else 0
  }

  datatype Setting = Setting(key: Key, value: int)

  function CurveSettings(curve: seq<Point>): seq<Setting> {
    if curve == [] then []
    else
      var i := |curve| - 1;
      CurveSettings(curve[..i]) + [Setting(CurveTemperature(i), curve[i].temp), Setting(CurveDuty(i), curve[i].pwm)]
  }

  function FixedSettings(c: Config): seq<Setting>
    requires Shaped(c)
  {
    [Setting(FanEnabled, 1), Setting(FanAlwaysOn, Flag(c.fanAlways)), Setting(FanAuto, Flag(c.fanMode == 1)),
     Setting(FanMode, c.fanMode), Setting(FanSpeed, c.fanSpeed), Setting(LiquidEnabled, Flag(c.liquidAlways)),
     Setting(LiquidAlwaysOn, Flag(c.liquidAlways)), Setting(LiquidLevel, c.liquidLevel),
     Setting(Temperature(0), c.temps[0]), Setting(Temperature(1), c.temps[1]), Setting(Temperature(2), c.temps[2]),
     Setting(Hysteresis(0), c.hyst[0]), Setting(Hysteresis(1), c.hyst[1]), Setting(Hysteresis(2), c.hyst[2]),
     Setting(CurveCount, |c.curve|)]
  }

  /** What the types and the bounds on the number of points ensure. */
  predicate Shaped(c: Config) {
    |c.temps| == 3 && |c.hyst| == 3 && 2 <= |c.curve| <= 8
  }

  predicate Sound(c: Config) {
    && Shaped(c) && ValidCurve(c.curve) && 1 <= c.liquidLevel <= 2
    && I64(c.fanMode) && I64(c.fanSpeed)
    && (forall i :: 0 <= i < 3 ==> I64(c.temps[i]) && I64(c.hyst[i]))
  }

  function Settings(c: Config): seq<Setting>
    requires Shaped(c)
  {
    FixedSettings(c) + CurveSettings(c.curve)
  }

  function Named(settings: seq<Setting>): seq<Field>
    requires forall i :: 0 <= i < |settings| ==> Known(settings[i].key)
  {
    seq(|settings|, i requires 0 <= i < |settings| => Field(Name(settings[i].key), settings[i].value))
  }

  /** Where each key stands in the saved file. */
  function Place(k: Key): nat {
    match k
    case FanEnabled => 0
    case FanAlwaysOn => 1
    case FanAuto => 2
    case FanMode => 3
    case FanSpeed => 4
    case LiquidEnabled => 5
    case LiquidAlwaysOn => 6
    case LiquidLevel => 7
    case Temperature(i) => 8 + i
    case Hysteresis(i) => 11 + i
    case CurveCount => 14
    case CurveTemperature(i) => 15 + 2 * i
    case CurveDuty(i) => 16 + 2 * i
  }

  predicate Placed(settings: seq<Setting>, from: nat) {
    forall i :: 0 <= i < |settings| ==> Known(settings[i].key) && Place(settings[i].key) == from + i
  }

  lemma {:induction false} CurveLength(curve: seq<Point>)
    ensures |CurveSettings(curve)| == 2 * |curve|
  {
    if curve != [] {
      CurveLength(curve[..|curve| - 1]);
    }
  }

  lemma {:induction false} CurveAt(curve: seq<Point>, i: nat)
    requires i < |curve|
    ensures |CurveSettings(curve)| == 2 * |curve|
    ensures CurveSettings(curve)[2 * i] == Setting(CurveTemperature(i), curve[i].temp)
    ensures CurveSettings(curve)[2 * i + 1] == Setting(CurveDuty(i), curve[i].pwm)
  {
    var n := |curve| - 1;
    CurveLength(curve[..n]);
    if i < n {
      CurveAt(curve[..n], i);
    }
  }

  lemma CurveIsPlaced(curve: seq<Point>)
    requires |curve| <= 8
    ensures Placed(CurveSettings(curve), 15) && |CurveSettings(curve)| == 2 * |curve|
  {
    CurveLength(curve);
    forall i | 0 <= i < |CurveSettings(curve)|
      ensures var k := CurveSettings(curve)[i].key; Known(k) && Place(k) == 15 + i
    {
      CurveAt(curve, i / 2);
      assert i == 2 * (i / 2) || i == 2 * (i / 2) + 1;
    }
  }

  lemma FixedIsPlaced(c: Config)
    requires Shaped(c)
    ensures Placed(FixedSettings(c), 0)
  {}

  lemma SettingsArePlaced(c: Config)
    requires Shaped(c)
    ensures Placed(Settings(c), 0)
  {
    CurveIsPlaced(c.curve);
    FixedIsPlaced(c);
  }

  /** A field is found unless a later one has its name. */
  lemma {:induction false} FieldFound(fields: seq<Field>, i: nat)
    requires i < |fields| && forall j :: i < j < |fields| ==> fields[j].name != fields[i].name
    ensures fields[i].name in AsMap(fields) && AsMap(fields)[fields[i].name] == fields[i].value
  {
    var n := |fields| - 1;
    if i < n {
      FieldFound(fields[..n], i);
    }
  }

  /** Every saved value can be looked up again. */
  lemma LookupFinds(settings: seq<Setting>, i: nat)
    requires Placed(settings, 0) && i < |settings|
    ensures var m := AsMap(Named(settings)); Name(settings[i].key) in m && m[Name(settings[i].key)] == settings[i].value
  {
    var fields := Named(settings);
    forall j | i < j < |fields|
      ensures fields[j].name != fields[i].name
    {
      NamesDiffer(settings[j].key, settings[i].key);
    }
    FieldFound(fields, i);
  }

  // ---- Loading ----

  function Clamp(n: int, lo: int, hi: int): int {
    if n < lo then lo else if n > hi then hi else n
  }

  function DefaultPoint(i: nat): Point {
    if i < |DEFAULT_CURVE| then DEFAULT_CURVE[i] else Point(70, 255)
  }

  /** How a value is found: the key, and what to use when it is missing. */
  type Lookup = (Key, int) -> int

  function In(m: map<string, int>): Lookup {
    (k: Key, otherwise: int) => if Known(k) && Name(k) in m then m[Name(k)] else otherwise
  }

  function BuildCurve(look: Lookup): seq<Point> {
    var count := Clamp(look(CurveCount, 5), 2, 8);
    seq(count, i requires 0 <= i < count =>
      Point(look(CurveTemperature(i), DefaultPoint(i).temp), look(CurveDuty(i), DefaultPoint(i).pwm)))
  }

  function Build(look: Lookup): (c: Config)
    ensures Shaped(c)
  {
    Config(
      look(FanAlwaysOn, 0) != 0,
      look(FanMode, if look(FanAuto, 0) != 0 then 1 else 2),
      look(FanSpeed, 50),
      look(LiquidAlwaysOn, look(LiquidEnabled, 0)) != 0,
      Clamp(look(LiquidLevel, 1), 1, 2),
      [look(Temperature(0), 44), look(Temperature(1), 48), look(Temperature(2), 53)],
      [look(Hysteresis(0), 4), look(Hysteresis(1), 4), look(Hysteresis(2), 4)],
      BuildCurve(look))
  }

  function Load(file: Option<string>): (c: Config)
    ensures Shaped(c)
  {
    if file.None? then DEFAULT else Build(In(AsMap(Fields(file.value))))
  }

  function Saved(c: Config): string
    requires Shaped(c)
  {
    SettingsArePlaced(c);
    Text(Named(Settings(c)))
  }

  // ---- The loops of `load` and `save` ----

  /** What the first line of a text contributes, and the text after it. */
  function FirstField(text: string): (f: seq<Field>)
    ensures |f| <= 1
  {
    var i := IndexOf(text, '\n');
    FieldOf(if i == |text| then text else StripReturn(text[..i]))
  }

  function AfterLine(text: string): (rest: string)
    requires text != []
    ensures |rest| < |text|
  {
    var i := IndexOf(text, '\n');
    if i == |text| then [] else text[i + 1..]
  }

  lemma FieldsStep(text: string)
    requires text != []
    ensures Fields(text) == FirstField(text) + Fields(AfterLine(text))
  {
    assert Fields([]) == [];
  }

  lemma AsMapAppend(fields: seq<Field>, f: seq<Field>)
    requires |f| <= 1
    ensures AsMap(fields + f) == if f == [] then AsMap(fields) else AsMap(fields)[f[0].name := f[0].value]
  {
    if f == [] {
      assert fields + f == fields;
    } else {
      assert (fields + f)[..|fields|] == fields;
    }
  }

  lemma Regroup(a: seq<Field>, f: seq<Field>, b: seq<Field>)
    ensures a + (f + b) == a + f + b
  {}

  /** The line loop of `load`; a later line overrides an earlier one. */
  method ReadFields(text: string) returns (m: map<string, int>)
    ensures m == AsMap(Fields(text))
  {
    m := map[];
    var rest := text;
    ghost var done: seq<Field> := [];
    while rest != []
      invariant done + Fields(rest) == Fields(text) && m == AsMap(done)
      decreases |rest|
    {
      var f := FirstField(rest);
      FieldsStep(rest);
      AsMapAppend(done, f);
      Regroup(done, f, Fields(AfterLine(rest)));
      if f != [] {
        m := m[f[0].name := f[0].value];
      }
      done := done + f;
      rest := AfterLine(rest);
    }
    assert done == Fields(text);
  }

  method ReadCurve(look: Lookup) returns (curve: seq<Point>)
    ensures curve == BuildCurve(look)
  {
    var count := Clamp(look(CurveCount, 5), 2, 8);
    curve := [];
    for i := 0 to count
      invariant curve == BuildCurve(look)[..i]
    {
      curve := curve + [Point(look(CurveTemperature(i), DefaultPoint(i).temp), look(CurveDuty(i), DefaultPoint(i).pwm))];
    }
  }

  method LoadConfig(file: Option<string>) returns (c: Config)
    ensures c == Load(file)
  {
    if file.None? {
      return DEFAULT;
    }
    var m := ReadFields(file.value);
    var look := In(m);
    var curve := ReadCurve(look);
    c := DEFAULT.(fanAlways := look(FanAlwaysOn, 0) != 0, curve := curve);
    c := c.(fanMode := look(FanMode, if look(FanAuto, 0) != 0 then 1 else 2), fanSpeed := look(FanSpeed, 50));
    c := c.(liquidAlways := look(LiquidAlwaysOn, look(LiquidEnabled, 0)) != 0,
            liquidLevel := Clamp(look(LiquidLevel, 1), 1, 2));
    c := c.(temps := [look(Temperature(0), 44), look(Temperature(1), 48), look(Temperature(2), 53)],
            hyst := [look(Hysteresis(0), 4), look(Hysteresis(1), 4), look(Hysteresis(2), 4)]);
  }

  lemma {:induction false} TextJoins(a: seq<Field>, b: seq<Field>)
    ensures Text(a + b) == Text(a) + Text(b)
  {
    if a == [] {
      assert a + b == b;
    } else {
      assert (a + b)[1..] == a[1..] + b;
      TextJoins(a[1..], b);
    }
  }

  lemma TextOfTwo(f: Field, g: Field)
    ensures Text([f, g]) == Line(f) + "\n" + Line(g) + "\n"
  {
    assert [f, g][1..] == [g] && [g][1..] == [];
    assert Text([g]) == Line(g) + "\n" + [];
  }

  function CurveFields(curve: seq<Point>, i: nat): seq<Field>
    requires i < |curve| <= 8
  {
    [Field(Name(CurveTemperature(i)), curve[i].temp), Field(Name(CurveDuty(i)), curve[i].pwm)]
  }

  lemma NamedGrows(curve: seq<Point>, i: nat)
    requires i < |curve| <= 8
    requires Placed(CurveSettings(curve[..i]), 15) && Placed(CurveSettings(curve[..i + 1]), 15)
    ensures Named(CurveSettings(curve[..i + 1])) == Named(CurveSettings(curve[..i])) + CurveFields(curve, i)
  {
    assert curve[..i + 1][..i] == curve[..i];
  }

  method WriteCurve(curve: seq<Point>) returns (out: string)
    requires |curve| <= 8
    ensures Placed(CurveSettings(curve), 15)
    ensures out == Text(Named(CurveSettings(curve)))
  {
    out := "";
    for i := 0 to |curve|
      invariant Placed(CurveSettings(curve[..i]), 15) && out == Text(Named(CurveSettings(curve[..i])))
    {
      CurveIsPlaced(curve[..i + 1]);
      NamedGrows(curve, i);
      var f := CurveFields(curve, i);
      TextJoins(Named(CurveSettings(curve[..i])), f);
      TextOfTwo(f[0], f[1]);
      out := out + (Line(f[0]) + "\n" + Line(f[1]) + "\n");
    }
    assert curve[..|curve|] == curve;
  }

  lemma NamedJoins(a: seq<Setting>, b: seq<Setting>)
    requires forall i :: 0 <= i < |a| ==> Known(a[i].key)
    requires forall i :: 0 <= i < |b| ==> Known(b[i].key)
    ensures Named(a + b) == Named(a) + Named(b)
  {}

  method SaveConfig(c: Config) returns (out: string)
    requires Shaped(c)
    ensures out == Saved(c)
  {
    var tail := WriteCurve(c.curve);
    FixedIsPlaced(c);
    var fixed := FixedSettings(c);
    out := Text(Named(fixed)) + tail;
    NamedJoins(fixed, CurveSettings(c.curve));
    TextJoins(Named(fixed), Named(CurveSettings(c.curve)));
  }

  lemma FixedInRange(c: Config, i: nat)
    requires Sound(c) && i < 15
    ensures I64(FixedSettings(c)[i].value)
  {}

  lemma CurveInRange(c: Config, i: nat)
    requires Sound(c) && i < |CurveSettings(c.curve)|
    ensures I64(CurveSettings(c.curve)[i].value)
  {
    CurveLength(c.curve);
    var k := i / 2;
    CurveAt(c.curve, k);
    assert InRange(c.curve[k]);
    assert i == 2 * k || i == 2 * k + 1;
  }

  lemma SettingsAreWritable(c: Config)
    requires Sound(c) && Placed(Settings(c), 0)
    ensures var f := Named(Settings(c)); forall i :: 0 <= i < |f| ==> Writable(f[i])
  {
    var s := Settings(c);
    forall i | 0 <= i < |s|
      ensures Plain(Name(s[i].key)) && I64(s[i].value)
    {
      NamesArePlain(s[i].key);
      if i >= 15 {
        CurveInRange(c, i - 15);
      } else {
        FixedInRange(c, i);
      }
    }
  }

  /** A lookup that answers each setting with its value, whatever the default. */
  ghost predicate Faithful(look: Lookup, settings: seq<Setting>) {
    forall i, d :: 0 <= i < |settings| ==> look(settings[i].key, d) == settings[i].value
  }

  lemma SavedLookupIsFaithful(settings: seq<Setting>)
    requires Placed(settings, 0)
    ensures Faithful(In(AsMap(Named(settings))), settings)
  {
    forall i, d | 0 <= i < |settings|
      ensures In(AsMap(Named(settings)))(settings[i].key, d) == settings[i].value
    {
      LookupFinds(settings, i);
    }
  }

  lemma CurveBuildsBack(c: Config, look: Lookup)
    requires Sound(c) && Faithful(look, Settings(c))
    ensures BuildCurve(look) == c.curve
  {
    var s := Settings(c);
    CurveLength(c.curve);
    assert s[14] == Setting(CurveCount, |c.curve|);
    assert look(s[14].key, 5) == |c.curve|;
    forall i | 0 <= i < |c.curve|
      ensures BuildCurve(look)[i] == c.curve[i]
    {
      CurveAt(c.curve, i);
      assert s[15 + 2 * i] == CurveSettings(c.curve)[2 * i];
      assert s[16 + 2 * i] == CurveSettings(c.curve)[2 * i + 1];
      assert look(s[15 + 2 * i].key, DefaultPoint(i).temp) == c.curve[i].temp;
      assert look(s[16 + 2 * i].key, DefaultPoint(i).pwm) == c.curve[i].pwm;
    }
  }

  lemma FixedFound(c: Config, look: Lookup, i: nat, d: int)
    requires Sound(c) && Faithful(look, Settings(c)) && i < 15
    ensures look(FixedSettings(c)[i].key, d) == FixedSettings(c)[i].value
  {
    assert Settings(c)[i] == FixedSettings(c)[i];
    assert look(Settings(c)[i].key, d) == Settings(c)[i].value;
  }

  lemma BuildsBack(c: Config, look: Lookup)
    requires Sound(c) && Faithful(look, Settings(c))
    ensures Build(look) == c
  {
    CurveBuildsBack(c, look);
    FixedFound(c, look, 1, 0);
    FixedFound(c, look, 3, if look(FanAuto, 0) != 0 then 1 else 2);
    FixedFound(c, look, 4, 50);
    FixedFound(c, look, 6, look(LiquidEnabled, 0));
    FixedFound(c, look, 7, 1);
    FixedFound(c, look, 8, 44);
    FixedFound(c, look, 9, 48);
    FixedFound(c, look, 10, 53);
    FixedFound(c, look, 11, 4);
    FixedFound(c, look, 12, 4);
    FixedFound(c, look, 13, 4);
  }

  /** Saving a sound configuration and loading it again changes nothing. */
  lemma SaveThenLoad(c: Config)
    requires Sound(c)
    ensures Load(Some(Saved(c))) == c
  {
    SettingsArePlaced(c);
    SettingsAreWritable(c);
    TextReads(Named(Settings(c)));
    SavedLookupIsFaithful(Settings(c));
    BuildsBack(c, In(AsMap(Named(Settings(c)))));
  }

  // ---- Actions ----

  datatype Action =
    | FanEnable(on: bool)
    | SetFanMode(mode: string)
    | SetCurve(points: seq<Point>)
    | LiquidEnable(on: bool)
    | SetLiquidMode(mode: string)

  /** What an accepted action makes of the configuration. */
  function Applied(c: Config, a: Action): (r: Option<Config>)
    requires Shaped(c)
    ensures r.Some? ==> Shaped(r.value)
  {
    match a
    case FanEnable(on) => Some(c.(fanAlways := on, fanMode := if on then c.fanMode else 2))
    case SetFanMode(mode) =>
      if mode == "automatic" then Some(c.(fanAlways := false, fanMode := 1))
      else if mode == "custom" then Some(c.(fanAlways := false, fanMode := 2))
      else if mode == "always_on" then Some(c.(fanAlways := true))
      else None
    case SetCurve(points) =>
      if !ValidCurve(points) then None
      else Some(c.(curve := points, fanMode := if c.fanAlways then c.fanMode else 2))
    case LiquidEnable(on) => Some(c.(liquidAlways := on, liquidLevel := if on then 2 else c.liquidLevel))
    case SetLiquidMode(mode) =>
      if mode == "automatic" then Some(c.(liquidAlways := false))
      else if mode == "low" then Some(c.(liquidAlways := true, liquidLevel := 1))
      else if mode == "high" then Some(c.(liquidAlways := true, liquidLevel := 2))
      else None
  }

  /** The file after an action: load, change, and save if everything went well. */
  function FileAfter(file: Option<string>, a: Action, done: bool): Option<string> {
    var next := Applied(Load(file), a);
    if next.Some? && done then Some(Saved(next.value)) else file
  }

  /** The branches of `execute` up to the hardware. */
  method Apply(c: Config, a: Action) returns (r: Option<Config>)
    requires Shaped(c)
    ensures r == Applied(c, a)
  {
    match a {
      case FanEnable(on) =>
        return Some(c.(fanAlways := on, fanMode := if on then c.fanMode else 2));
      case SetFanMode(mode) =>
        if mode == "automatic" {
          return Some(c.(fanAlways := false, fanMode := 1));
        } else if mode == "custom" {
          return Some(c.(fanAlways := false, fanMode := 2));
        } else if mode == "always_on" {
          return Some(c.(fanAlways := true));
        }
        return None;
      case SetCurve(points) =>
        var valid := CheckCurve(points);
        if !valid {
          return None;
        }
        return Some(c.(curve := points, fanMode := if c.fanAlways then c.fanMode else 2));
      case LiquidEnable(on) =>
        return Some(c.(liquidAlways := on, liquidLevel := if on then 2 else c.liquidLevel));
      case SetLiquidMode(mode) =>
        if mode == "automatic" {
          return Some(c.(liquidAlways := false));
        } else if mode == "low" {
          return Some(c.(liquidAlways := true, liquidLevel := 1));
        } else if mode == "high" {
          return Some(c.(liquidAlways := true, liquidLevel := 2));
        }
        return None;
    }
  }

  /** The configuration file, changed by `execute`. */
  class Controller {
    var file: Option<string>

    constructor ()
      ensures file == None
    {
      file := None;
    }

    /** One action; `done` says whether the hardware and the file accepted it. */
    method Execute(a: Action, done: bool) returns (ok: bool)
      modifies this
      ensures file == FileAfter(old(file), a, done)
      ensures ok == (done && Applied(Load(old(file)), a).Some?)
    {
      var c := LoadConfig(file);
      var next := Apply(c, a);
      ok := next.Some? && done;
      if ok {
        var text := SaveConfig(next.value);
        file := Some(text);
      }
    }
  }

  function FileAfterAll(file: Option<string>, actions: seq<(Action, bool)>): Option<string> {
    if actions == [] then file
    else FileAfter(FileAfterAll(file, actions[..|actions| - 1]), actions[|actions| - 1].0, actions[|actions| - 1].1)
  }

  lemma DefaultIsSound()
    ensures Sound(DEFAULT)
  {}

  lemma AppliedIsSound(c: Config, a: Action)
    requires Sound(c)
    ensures Applied(c, a).Some? ==> Sound(Applied(c, a).value)
  {}

  /** Every configuration reachable through saved actions has a valid curve and
      comes back unchanged when saved and loaded. */
  lemma {:induction false} ReachableConfigsReload(actions: seq<(Action, bool)>)
    ensures var c := Load(FileAfterAll(None, actions)); Sound(c) && Load(Some(Saved(c))) == c
  {
    var c := Load(FileAfterAll(None, actions));
    if actions == [] {
      DefaultIsSound();
    } else {
      var before := FileAfterAll(None, actions[..|actions| - 1]);
      var (a, done) := actions[|actions| - 1];
      ReachableConfigsReload(actions[..|actions| - 1]);
      AppliedIsSound(Load(before), a);
      var next := Applied(Load(before), a);
      if next.Some? && done {
        SaveThenLoad(next.value);
      }
    }
    SaveThenLoad(c);
  }

  // ---- The file, line by line ----

  /** The fixed part of the saved file. */
  lemma SavedFanExactly(c: Config)
    requires Shaped(c) && Placed(Settings(c), 0)
    ensures var f := Named(Settings(c));
      && |f| >= 15 && f[0] == Field("fan_enabled", 1) && f[1] == Field("fan_always_on", if c.fanAlways then 1 else 0)
      && f[2] == Field("fan_auto", if c.fanMode == 1 then 1 else 0)
      && f[3] == Field("fan_mode", c.fanMode) && f[4] == Field("fan_speed_percent", c.fanSpeed)
  {}

  lemma SavedLiquidExactly(c: Config)
    requires Shaped(c) && Placed(Settings(c), 0)
    ensures var f := Named(Settings(c));
      && |f| >= 15 && f[5] == Field("liquid_enabled", if c.liquidAlways then 1 else 0)
      && f[6] == Field("liquid_always_on", if c.liquidAlways then 1 else 0)
      && f[7] == Field("liquid_level", c.liquidLevel)
  {}

  lemma SavedTablesExactly(c: Config)
    requires Shaped(c) && Placed(Settings(c), 0)
    ensures var f := Named(Settings(c));
      && |f| >= 15
      && f[8] == Field("temperature_" + "1", c.temps[0]) && f[9] == Field("temperature_" + "2", c.temps[1])
      && f[10] == Field("temperature_" + "3", c.temps[2])
      && f[11] == Field("hysteresis_" + "1", c.hyst[0]) && f[12] == Field("hysteresis_" + "2", c.hyst[1])
      && f[13] == Field("hysteresis_" + "3", c.hyst[2]) && f[14] == Field("custom_curve_count", |c.curve|)
  {}

  lemma PlacedBehind(fixed: seq<Setting>, rest: seq<Setting>, i: nat)
    requires |fixed| == 15 && i < |rest| && forall k :: 0 <= k < |fixed + rest| ==> Known((fixed + rest)[k].key)
    ensures Known(rest[i].key) && Named(fixed + rest)[15 + i] == Field(Name(rest[i].key), rest[i].value)
  {
    assert (fixed + rest)[15 + i] == rest[i];
  }

  /** Each point of the curve, numbered from 1. */
  lemma SavedCurveExactly(c: Config, i: nat)
    requires Shaped(c) && Placed(Settings(c), 0) && i < |c.curve|
    ensures var f := Named(Settings(c));
      && |f| == 15 + 2 * |c.curve|
      && f[15 + 2 * i] == Field("custom_temperature_" + [('1' as int + i) as char], c.curve[i].temp)
      && f[16 + 2 * i] == Field("custom_pwm_" + [('1' as int + i) as char], c.curve[i].pwm)
  {
    CurveAt(c.curve, i);
    PlacedBehind(FixedSettings(c), CurveSettings(c.curve), 2 * i);
    PlacedBehind(FixedSettings(c), CurveSettings(c.curve), 2 * i + 1);
  }

  /** What a missing entry means, and how far a number of points and a level go. */
  lemma MissingExactly(text: string)
    requires AsMap(Fields(text)) == map[]
    ensures Load(Some(text)) == Load(None)
    ensures var c := Load(None);
      && !c.fanAlways && c.fanMode == 2 && c.fanSpeed == 50 && !c.liquidAlways && c.liquidLevel == 1
      && c.temps == [44, 48, 53] && c.hyst == [4, 4, 4]
      && c.curve == [Point(40, 0), Point(45, 0), Point(50, 76), Point(60, 128), Point(70, 255)]
  {
    var look := In(AsMap(Fields(text)));
    assert forall k, d :: look(k, d) == d;
    assert BuildCurve(look) == DEFAULT_CURVE;
  }

  lemma DefaultPointExactly(i: nat)
    ensures DefaultPoint(i) ==
      if i == 0 then Point(40, 0) else if i == 1 then Point(45, 0) else if i == 2 then Point(50, 76)
      else if i == 3 then Point(60, 128) else Point(70, 255)
  {
    assert DEFAULT_CURVE[3] == Point(60, 128) && DEFAULT_CURVE[4] == Point(70, 255);
  }

  /** What a loaded value becomes: the two clamps, the default of each point, and
      which older entry stands in for a missing newer one. */
  lemma BuildExactly(look: Lookup)
    ensures var c := Build(look); var count := look(CurveCount, 5);
      && c.fanAlways == (look(FanAlwaysOn, 0) != 0)
      && c.fanMode == look(FanMode, if look(FanAuto, 0) == 0 then 2 else 1) && c.fanSpeed == look(FanSpeed, 50)
      && c.liquidAlways == (look(LiquidAlwaysOn, look(LiquidEnabled, 0)) != 0)
      && c.liquidLevel == (if look(LiquidLevel, 1) >= 2 then 2 else 1)
      && |c.curve| == (if count < 2 then 2 else if count > 8 then 8 else count)
  {}

  lemma BuiltPointExactly(look: Lookup, i: nat)
    requires i < |Build(look).curve|
    ensures var t := if i == 0 then 40 else if i == 1 then 45 else if i == 2 then 50 else if i == 3 then 60 else 70;
      var d := if i < 2 then 0 else if i == 2 then 76 else if i == 3 then 128 else 255;
      Build(look).curve[i] == Point(look(CurveTemperature(i), t), look(CurveDuty(i), d))
  {
    DefaultPointExactly(i);
  }

  /** What each action changes, and nothing else. */
  lemma ActionsExactly(c: Config, on: bool, points: seq<Point>, mode: string)
    requires Shaped(c)
    ensures Applied(c, FanEnable(on)) == Some(c.(fanAlways := on, fanMode := if on then c.fanMode else 2))
    ensures Applied(c, SetFanMode("automatic")) == Some(c.(fanAlways := false, fanMode := 1))
    ensures Applied(c, SetFanMode("custom")) == Some(c.(fanAlways := false, fanMode := 2))
    ensures Applied(c, SetFanMode("always_on")) == Some(c.(fanAlways := true))
    ensures mode != "automatic" && mode != "custom" && mode != "always_on" ==> Applied(c, SetFanMode(mode)) == None
    ensures Applied(c, LiquidEnable(on)) == Some(c.(liquidAlways := on, liquidLevel := if on then 2 else c.liquidLevel))
    ensures Applied(c, SetLiquidMode("automatic")) == Some(c.(liquidAlways := false))
    ensures Applied(c, SetLiquidMode("low")) == Some(c.(liquidAlways := true, liquidLevel := 1))
    ensures Applied(c, SetLiquidMode("high")) == Some(c.(liquidAlways := true, liquidLevel := 2))
    ensures mode != "automatic" && mode != "low" && mode != "high" ==> Applied(c, SetLiquidMode(mode)) == None
    ensures Applied(c, SetCurve(points)) ==
      if ValidCurve(points) then Some(c.(curve := points, fanMode := if c.fanAlways then c.fanMode else 2)) else None
  {}
}
