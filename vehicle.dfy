/** The vehicle model of the firmware (firmware/src/vehicle.rs): the
    static configuration read from a `Key = Value` text file, and the live
    vehicle data the dashboard shows. The file system is outside the model:
    the loader is given the file's lines, or None when the file cannot be
    opened, and the standard float parser is a parameter. */
module Vehicle {
  import opened Wrappers
  import opened Panics
  import opened Text
  import GLES

  type F32 = GLES.F32

  /** Gear ratio and drive wheel diameter (in m). */
  datatype VehicleConfiguration = VehicleConfiguration(gearRatio: F32, driveWheelDiameter: F32)

  datatype TurnSignalStatus = Off | Left | Right | Hazard

  /** Whether throttle input reaches the motor controller, motor RPM,
      battery charge in percent, turn signal and full beam. */
  datatype VehicleData = VehicleData(throttleActive: bool, engineRPM: int, batteryCharge: int,
                                     turnSignal: TurnSignalStatus, fullBeamActive: bool)

  const GearRatioKey: string := "GearRatio"
  const DriveWheelDiameterKey: string := "DriveWheelDiameter"

  /** The two settings of the configuration. */
  datatype Field = GearRatio | DriveWheelDiameter

  /** The setting a key names, if any; keys are matched exactly. */
  function FieldOf(key: string): (f: Option<Field>)
    ensures f == Some(GearRatio) <==> key == GearRatioKey
    ensures f == Some(DriveWheelDiameter) <==> key == DriveWheelDiameterKey
  {
    if key == GearRatioKey then Some(GearRatio)
    else if key == DriveWheelDiameterKey then Some(DriveWheelDiameter)
    else None
  }

  function Get(c: VehicleConfiguration, f: Field): F32 {
    match f
    case GearRatio => c.gearRatio
    case DriveWheelDiameter => c.driveWheelDiameter
  }

  /** `c` with field `f` set to `v`: that field reads `v`, the other is kept. */
  function Set(c: VehicleConfiguration, f: Field, v: F32): (d: VehicleConfiguration)
    ensures Get(d, f) == v
    ensures forall g | g != f :: Get(d, g) == Get(c, g)
  {
    match f
    case GearRatio => c.(gearRatio := v)
    case DriveWheelDiameter => c.(driveWheelDiameter := v)
  }

  /** `VehicleConfiguration::new`: both values 0.0. */
  function NewConfiguration(): (c: VehicleConfiguration)
    ensures forall f :: Get(c, f) == GLES.Zero
  {
    VehicleConfiguration(GLES.Zero, GLES.Zero)
  }

  /** `VehicleData::new`: throttle passed on, the motor idling at 2000 RPM,
      a full battery, no turn signal, dipped beam. */
  function NewVehicleData(): (d: VehicleData)
    ensures d.throttleActive && !d.fullBeamActive && d.turnSignal == Off
    ensures d.engineRPM == 2000
    ensures d.batteryCharge == 100
  {
    VehicleData(true, 2000, 100, Off, false)
  }

  /** What a line of the file is: skipped (a comment or blank), not a
      single `Key = Value` pair, or a pair with its trimmed key and value. */
  datatype LineKind = Skip | NotAPair | Pair(key: string, value: string)

  /** A comment is a line whose first character is `#`, before any
      trimming; a blank line is one that trims to nothing. Otherwise the
      line is cut at every `=`, and must give exactly two pieces. */
  function Classify(line: string): (kind: LineKind)
    ensures kind == Skip <==> (|line| > 0 && line[0] == '#') || AllWhitespace(line)
  {
    TrimEnds(line);
    if (|line| > 0 && line[0] == '#') || |Trim(line)| == 0 then Skip
    else
      var confPair := Split(line, '=');
      if |confPair| != 2 then NotAPair else Pair(Trim(confPair[0]), Trim(confPair[1]))
  }

  /** A line is a pair iff it is not skipped and holds exactly one `=`;
      its key and value are then the trimmed text around that `=`. */
  lemma ClassifyPair(line: string)
    requires Classify(line) != Skip
    ensures Classify(line).Pair? <==> multiset(line)['='] == 1
    ensures Classify(line).Pair? ==>
      exists k, v :: line == k + "=" + v && Classify(line) == Pair(Trim(k), Trim(v)) && '=' !in k && '=' !in v
  {
    SplitInTwo(line, '=');
    SplitPieces(line, '=');
    if Classify(line).Pair? {
      var parts := Split(line, '=');
      assert line == parts[0] + "=" + parts[1];
      assert '=' !in parts[0] && '=' !in parts[1];
    }
  }

  /** A classified line that sets field `f`. */
  predicate Sets(kind: LineKind, f: Field) {
    kind.Pair? && FieldOf(kind.key) == Some(f)
  }

  /** One line applied to the configuration: a skipped line changes
      nothing; a line that is not one pair aborts; a known key takes the
      parsed value, and a value that does not parse aborts; an unknown key
      is only reported. */
  function ApplyKind(config: VehicleConfiguration, kind: LineKind, parse: string -> Option<F32>)
    : (r: Result<VehicleConfiguration, Panic>)
    ensures r.Success? && r.value != config ==> kind.Pair? && FieldOf(kind.key).Some?
    ensures r.Failure? <==>
      kind == NotAPair || (kind.Pair? && FieldOf(kind.key).Some? && parse(kind.value).None?)
  {
    match kind
    case Skip => Success(config)
    case NotAPair => Failure(MalformedLine)
    case Pair(key, value) =>
      match FieldOf(key)
      case None => Success(config)
      case Some(f) =>
        match parse(value)
        case None => Failure(ParseFailure)
        case Some(v) => Success(Set(config, f, v))
  }

  /** The lines of a file, classified one by one. */
  function Kinds(lines: seq<string>): (kinds: seq<LineKind>)
    ensures |kinds| == |lines|
    decreases |lines|
  {
    if lines == [] then [] else Kinds(lines[..|lines| - 1]) + [Classify(lines[|lines| - 1])]
  }

  /** Each line is classified on its own. */
  lemma {:induction false} KindsAt(lines: seq<string>, i: nat)
    requires i < |lines|
    ensures Kinds(lines)[i] == Classify(lines[i])
    decreases |lines|
  {
    if i < |lines| - 1 {
      var init := lines[..|lines| - 1];
      KindsAt(init, i);
      assert init[i] == lines[i];
    }
  }

  /** The configuration after the given classified lines, front to back,
      from the defaults; the first failing line ends the load. */
  function LoadKinds(kinds: seq<LineKind>, parse: string -> Option<F32>): (r: Result<VehicleConfiguration, Panic>)
    ensures r.Failure? ==> r.error == MalformedLine || r.error == ParseFailure
    decreases |kinds|
  {
    if kinds == [] then Success(NewConfiguration())
    else match LoadKinds(kinds[..|kinds| - 1], parse)
      case Failure(e) => Failure(e)
      case Success(c) => ApplyKind(c, kinds[|kinds| - 1], parse)
  }

  /** The outcome of loading a file's lines: it succeeds iff every line,
      classified on its own, is accepted. */
  function LoadLines(lines: seq<string>, parse: string -> Option<F32>): (r: Result<VehicleConfiguration, Panic>)
    ensures r.Success? <==> forall i | 0 <= i < |lines| :: Accepted(Classify(lines[i]), parse)
  {
    LoadSucceedsIff(Kinds(lines), parse);
    KindsAll(lines);
    LoadKinds(Kinds(lines), parse)
  }

  /** Classifying the lines one by one gives each line its own kind. */
  lemma KindsAll(lines: seq<string>)
    ensures forall i | 0 <= i < |lines| :: Kinds(lines)[i] == Classify(lines[i])
  {
    forall i | 0 <= i < |lines|
      ensures Kinds(lines)[i] == Classify(lines[i])
    {
      KindsAt(lines, i);
    }
  }

  /** `LoadVehicleConfiguration`. A file that cannot be opened aborts;
      otherwise the lines are applied in order to a fresh configuration. */
  method LoadVehicleConfiguration(file: Option<seq<string>>, parse: string -> Option<F32>)
    returns (r: Result<VehicleConfiguration, Panic>)
    ensures file.None? ==> r == Failure(ResourceNotFound)
    ensures file.Some? ==> r == LoadLines(file.value, parse)
  {
    if file.None? {
      return Failure(ResourceNotFound);
    }
    var lines := file.value;
    var config := NewConfiguration();
    NoLinesLoaded(lines, parse);
    for i := 0 to |lines|
      invariant LoadLines(lines[..i], parse) == Success(config)
    {
      NextLine(lines, parse, i, config);
      var next := ApplyConfigLine(config, lines[i], parse);
      if next.Failure? {
        LinesStopAt(lines, parse, i + 1);
        return next;
      }
      config := next.value;
    }
    r := Success(config);
    assert lines[..|lines|] == lines;
  }

  /** The body of the loader's loop for one line: skip comments and blank
      lines, split at `=`, and store the parsed value of a known key. */
  method ApplyConfigLine(config: VehicleConfiguration, l: string, parse: string -> Option<F32>)
    returns (r: Result<VehicleConfiguration, Panic>)
    ensures r == ApplyKind(config, Classify(l), parse)
  {
    if (|l| > 0 && l[0] == '#') || |Trim(l)| == 0 {
      return Success(config);
    }
    var confPair := Split(l, '=');
    if |confPair| != 2 {
      return Failure(MalformedLine);
    }
    var key := Trim(confPair[0]);
    var value := Trim(confPair[1]);
    assert Classify(l) == Pair(key, value);
    match FieldOf(key)
    case Some(f) =>
      var v := parse(value);
      if v.None? {
        return Failure(ParseFailure);
      }
      return Success(Set(config, f, v.value));
    case None =>
      // An unknown key is reported on the console and otherwise ignored.
      return Success(config);
  }

  /** Before any line, the load holds the defaults. */
  lemma NoLinesLoaded(lines: seq<string>, parse: string -> Option<F32>)
    ensures LoadLines(lines[..0], parse) == Success(NewConfiguration())
  {
    assert lines[..0] == [];
  }

  /** Loading one more line continues from the configuration the lines
      before it gave. */
  lemma NextLine(lines: seq<string>, parse: string -> Option<F32>, i: nat, config: VehicleConfiguration)
    requires i < |lines|
    requires LoadLines(lines[..i], parse) == Success(config)
    ensures LoadLines(lines[..i + 1], parse) == ApplyKind(config, Classify(lines[i]), parse)
  {
    assert lines[..i + 1][..i] == lines[..i];
    var kinds := Kinds(lines[..i + 1]);
    assert kinds[..i] == Kinds(lines[..i]);
  }

  /** The classified prefix is the prefix of the classified lines. */
  lemma {:induction false} KindsPrefix(lines: seq<string>, k: nat)
    requires k <= |lines|
    ensures Kinds(lines[..k]) == Kinds(lines)[..k]
    decreases |lines|
  {
    if k < |lines| {
      var init := lines[..|lines| - 1];
      KindsPrefix(init, k);
      assert init[..k] == lines[..k];
    } else {
      assert lines[..k] == lines;
    }
  }

  /** Once the lines up to `k` fail, the whole file fails the same way. */
  lemma LinesStopAt(lines: seq<string>, parse: string -> Option<F32>, k: nat)
    requires k <= |lines|
    requires LoadLines(lines[..k], parse).Failure?
    ensures LoadLines(lines, parse) == LoadLines(lines[..k], parse)
  {
    KindsPrefix(lines, k);
    LoadStopsAt(Kinds(lines), parse, k);
  }

  /** Once a prefix of the lines fails, the whole load fails the same way. */
  lemma {:induction false} LoadStopsAt(kinds: seq<LineKind>, parse: string -> Option<F32>, k: nat)
    requires k <= |kinds|
    requires LoadKinds(kinds[..k], parse).Failure?
    ensures LoadKinds(kinds, parse) == LoadKinds(kinds[..k], parse)
    decreases |kinds| - k
  {
    if k < |kinds| {
      assert kinds[..k + 1][..k] == kinds[..k];
      LoadStopsAt(kinds, parse, k + 1);
    } else {
      assert kinds[..k] == kinds;
    }
  }

  /** A line the load accepts: a skipped line, or a pair whose value
      parses when its key is known. */
  predicate Accepted(kind: LineKind, parse: string -> Option<F32>) {
    match kind
    case Skip => true
    case NotAPair => false
    case Pair(key, value) => FieldOf(key).Some? ==> parse(value).Some?
  }

  /** The error a rejected line aborts with. */
  function LineError(kind: LineKind): Panic {
    if kind.NotAPair? then MalformedLine else ParseFailure
  }

  /** Whether a line goes through does not depend on the configuration it
      is applied to, and a rejected line always fails with its own error. */
  lemma ApplyKindOutcome(config: VehicleConfiguration, kind: LineKind, parse: string -> Option<F32>)
    ensures ApplyKind(config, kind, parse).Success? <==> Accepted(kind, parse)
    ensures ApplyKind(config, kind, parse).Failure? ==> ApplyKind(config, kind, parse).error == LineError(kind)
  {
  }

  /** A load succeeds iff every line is accepted. */
  lemma {:induction false} LoadSucceedsIff(kinds: seq<LineKind>, parse: string -> Option<F32>)
    ensures LoadKinds(kinds, parse).Success? <==> forall i | 0 <= i < |kinds| :: Accepted(kinds[i], parse)
    decreases |kinds|
  {
    if kinds != [] {
      var init := kinds[..|kinds| - 1];
      LoadSucceedsIff(init, parse);
      assert forall i | 0 <= i < |init| :: init[i] == kinds[i];
      if LoadKinds(init, parse).Success? {
        ApplyKindOutcome(LoadKinds(init, parse).value, kinds[|kinds| - 1], parse);
      }
    }
  }

  /** A failing load fails at its first rejected line, with that line's
      error. */
  lemma FirstRejectedLine(kinds: seq<LineKind>, parse: string -> Option<F32>, i: nat)
    requires i < |kinds|
    requires forall j | 0 <= j < i :: Accepted(kinds[j], parse)
    requires !Accepted(kinds[i], parse)
    ensures LoadKinds(kinds, parse) == Failure(LineError(kinds[i]))
  {
    var prefix := kinds[..i];
    assert forall j | 0 <= j < |prefix| :: prefix[j] == kinds[j];
    LoadSucceedsIff(prefix, parse);
    assert kinds[..i + 1][..i] == prefix;
    ApplyKindOutcome(LoadKinds(prefix, parse).value, kinds[i], parse);
    LoadStopsAt(kinds, parse, i + 1);
  }

  /** A successfully applied line changes a field only when it sets that
      field, and then to the parsed value. */
  lemma ApplyKindSetting(config: VehicleConfiguration, kind: LineKind, parse: string -> Option<F32>, f: Field)
    requires ApplyKind(config, kind, parse).Success?
    ensures Sets(kind, f) ==> parse(kind.value).Some?
    ensures Get(ApplyKind(config, kind, parse).value, f)
         == if Sets(kind, f) then parse(kind.value).value else Get(config, f)
  {
  }

  /** A setting that several lines make takes the value of the last of them. */
  lemma {:induction false} LastOccurrenceWins(kinds: seq<LineKind>, parse: string -> Option<F32>, f: Field, i: nat)
    requires LoadKinds(kinds, parse).Success?
    requires i < |kinds| && Sets(kinds[i], f)
    requires forall j | i < j < |kinds| :: !Sets(kinds[j], f)
    ensures parse(kinds[i].value).Some?
    ensures Get(LoadKinds(kinds, parse).value, f) == parse(kinds[i].value).value
    decreases |kinds|
  {
    var init := kinds[..|kinds| - 1];
    ApplyKindSetting(LoadKinds(init, parse).value, kinds[|kinds| - 1], parse, f);
    if i < |kinds| - 1 {
      assert forall j | i <= j < |init| :: init[j] == kinds[j];
      LastOccurrenceWins(init, parse, f, i);
    }
  }

  /** The same for the lines of a file: the last line that sets a field
      decides its value. */
  lemma LastLineWins(lines: seq<string>, parse: string -> Option<F32>, f: Field, i: nat)
    requires LoadLines(lines, parse).Success?
    requires i < |lines| && Sets(Classify(lines[i]), f)
    requires forall j | i < j < |lines| :: !Sets(Classify(lines[j]), f)
    ensures parse(Classify(lines[i]).value).Some?
    ensures Get(LoadLines(lines, parse).value, f) == parse(Classify(lines[i]).value).value
  {
    KindsAll(lines);
    LastOccurrenceWins(Kinds(lines), parse, f, i);
  }

  /** A setting that no line makes keeps its default of 0.0. */
  lemma {:induction false} UnsetKeepsDefault(kinds: seq<LineKind>, parse: string -> Option<F32>, f: Field)
    requires LoadKinds(kinds, parse).Success?
    requires forall j | 0 <= j < |kinds| :: !Sets(kinds[j], f)
    ensures Get(LoadKinds(kinds, parse).value, f) == GLES.Zero
    decreases |kinds|
  {
    if kinds != [] {
      var init := kinds[..|kinds| - 1];
      assert forall j | 0 <= j < |init| :: init[j] == kinds[j];
      UnsetKeepsDefault(init, parse, f);
      ApplyKindSetting(LoadKinds(init, parse).value, kinds[|kinds| - 1], parse, f);
    }
  }

  /** Only a `#` in the first column makes a comment: an indented `# x` is
      not skipped, and since it holds no `=` it is not a pair either. */
  lemma IndentedHashIsNotComment()
    ensures Classify("  # x") == NotAPair
  {
    var line := "  # x";
    assert !IsWhitespace(line[2]);
    NoEquals();
  }

  /** A file holding only that line therefore aborts the load. */
  lemma IndentedHashAborts(parse: string -> Option<F32>)
    ensures LoadLines(["  # x"], parse) == Failure(MalformedLine)
  {
    IndentedHashIsNotComment();
    var lines := ["  # x"];
    assert lines[..0] == [];
    assert Kinds(lines) == [NotAPair];
    assert [NotAPair][..0] == [];
  }

  lemma NoEquals()
    ensures |Split("  # x", '=')| == 1
  {
    var line := "  # x";
    SplitCount(line, '=');
    assert '=' !in line;
    assert multiset(line)['='] == 0;
  }
}
