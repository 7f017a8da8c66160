/** The lazily filled caches of Classes/Unity/DeviceInfo.cpp, over whole runs of queries. */
module DeviceCaches {
  import opened Options
  import opened CStrings
  import opened DeviceGenerations
  import opened DeviceTable
  import opened DeviceParser
  import opened DeviceQueries
  import opened ModelNumbers

  /** sThisDevice: null, a table entry, or the static entry for unknown devices. */
  datatype EntryPointer = Null | TableEntry(index: nat) | UnknownEntry

  /** The static variables; `unknown` is the device field of the entry for unknown devices. */
  datatype Caches = Caches(
    thisDevice: EntryPointer,
    unknown: DeviceGeneration,
    cutoutInfo: Option<DeviceCutoutInfo>,
    deviceDPI: real)

  const INITIAL := Caches(Null, deviceUnknown, None, -1.0)

  // ----- One query, as a function of the caches before it -----

  function FilledDevice(model: CString, c: Caches): (c': Caches)
    ensures c'.cutoutInfo == c.cutoutInfo && c'.deviceDPI == c.deviceDPI
  {
    if c.thisDevice != Null then c
    else
      match EntryOf(model)
      case Some(i) => c.(thisDevice := TableEntry(i))
      case None => c.(thisDevice := UnknownEntry, unknown := UnknownDeviceGenerationForType(TypeOf(model)))
  }

  function DeviceIn(c: Caches): DeviceGeneration {
    PointedDevice(c.thisDevice, c.unknown)
  }

  /** Following the pointer. */
  function PointedDevice(p: EntryPointer, unknown: DeviceGeneration): DeviceGeneration {
    match p
    case TableEntry(i) => if i < |DEVICE_TABLE| then DEVICE_TABLE[i].device else deviceUnknown
    case _ => unknown
  }

  function FilledCutout(model: CString, c: Caches): Caches {
    if c.cutoutInfo.Some? then c
    else
      var c' := FilledDevice(model, c);
      c'.(cutoutInfo := Some(CutoutInfoOf(DeviceIn(c'))))
  }

  function FilledDPI(model: CString, c: Caches): Caches {
    if c.deviceDPI >= 0.0 then c
    else
      var c' := FilledDevice(model, c);
      c'.(deviceDPI := DpiOf(DeviceIn(c')))
  }

  datatype Query = Generation | HasCutout | CutoutRatio | SupportsUpsideDown | StylusTouch | DPI

  datatype Answer = IsGeneration(g: DeviceGeneration) | IsBool(b: bool) | IsRatio(ratio: (real, real)) | IsReal(r: real)

  function Step(model: CString, c: Caches, q: Query): (Caches, Answer) {
    match q
    case Generation => var c' := FilledDevice(model, c); (c', IsGeneration(DeviceIn(c')))
    case HasCutout => var c' := FilledCutout(model, c); (c', IsBool(c'.cutoutInfo.value.hasCutout))
    case CutoutRatio => var c' := FilledCutout(model, c); (c', IsRatio(c'.cutoutInfo.value.ratioToScreen))
    case SupportsUpsideDown => var c' := FilledCutout(model, c); (c', IsBool(!c'.cutoutInfo.value.hasCutout))
    case StylusTouch =>
      if !StrncmpIsZero(model, 0, IPAD, 0) then (c, IsBool(false))
      else var c' := FilledDevice(model, c); (c', IsBool(!LacksStylus(DeviceIn(c'))))
    case DPI => var c' := FilledDPI(model, c); (c', IsReal(c'.deviceDPI))
  }

  /** What the query answers when nothing is remembered. */
  function Uncached(model: CString, q: Query): Answer {
    var g := GenerationOf(model);
    match q
    case Generation => IsGeneration(g)
    case HasCutout => IsBool(CutoutInfoOf(g).hasCutout)
    case CutoutRatio => IsRatio(CutoutInfoOf(g).ratioToScreen)
    case SupportsUpsideDown => IsBool(!CutoutInfoOf(g).hasCutout)
    case StylusTouch => IsBool(StylusSupported(model))
    case DPI => IsReal(DpiOf(g))
  }

  /** The answer that the numbers in the model string call for. */
  function AnswerByNumber(model: CString, q: Query): Answer {
    var f := FactsOf(model);
    match q
    case Generation => IsGeneration(f.generation)
    case HasCutout => IsBool(f.cutout.hasCutout)
    case CutoutRatio => IsRatio(f.cutout.ratioToScreen)
    case SupportsUpsideDown => IsBool(!f.cutout.hasCutout)
    case StylusTouch => IsBool(f.stylus)
    case DPI => IsReal(f.dpi)
  }

  // ----- The queries as the source writes them -----

  /** The static variables, and the model that UnityDeviceModel reports. */
  class DeviceInfo {
    const model: CString
    var thisDevice: EntryPointer
    var unknown: DeviceGeneration
    var cutoutInfo: Option<DeviceCutoutInfo>
    var deviceDPI: real

    constructor (model: CString)
      ensures this.model == model && Value() == INITIAL
    {
      this.model := model;
      thisDevice, unknown, cutoutInfo, deviceDPI := Null, deviceUnknown, None, -1.0;
    }

    function Value(): Caches
      reads this
    {
      Caches(thisDevice, unknown, cutoutInfo, deviceDPI)
    }

    method UnityDeviceGeneration() returns (g: DeviceGeneration)
      modifies this
      ensures (Value(), IsGeneration(g)) == Step(model, old(Value()), Generation)
      ensures old(Agrees(model, Value())) ==> IsGeneration(g) == AnswerByNumber(model, Generation)
    {
      hide EntryOf, TypeOf, UnknownDeviceGenerationForType, Agrees, AnswerByNumber, Uncached;
      AgreementAnswers(model, Value(), Generation);
      if thisDevice == Null {
        var entry, deviceType := ParseDeviceGeneration(model);
        if entry.Some? {
          thisDevice := TableEntry(entry.value);
        } else {
          unknown := UnknownDeviceGenerationForType(deviceType);
          thisDevice := UnknownEntry;
        }
      }
      g := DeviceIn(Value());
    }

    method GetCutoutInfo() returns (info: DeviceCutoutInfo)
      modifies this
      ensures Value() == FilledCutout(model, old(Value())) && cutoutInfo == Some(info)
      ensures old(Agrees(model, Value())) ==> info == FactsOf(model).cutout
    {
      hide FilledDevice, PointedDevice, CutoutRatioForDeviceGeneration, Agrees, FactsOf;
      AgreementFillsCutout(model, Value());
      if cutoutInfo.None? {
        info := DeviceCutoutInfo((0.0, 0.0), false);
        var g := UnityDeviceGeneration();
        var ratio := CutoutRatioForDeviceGeneration(g);
        if ratio.Some? {
          info := DeviceCutoutInfo(ratio.value, true);
        }
        cutoutInfo := Some(info);
      }
      info := cutoutInfo.value;
    }

    method UnityDeviceHasCutout() returns (b: bool)
      modifies this
      ensures (Value(), IsBool(b)) == Step(model, old(Value()), HasCutout)
      ensures old(Agrees(model, Value())) ==> IsBool(b) == AnswerByNumber(model, HasCutout)
    {
      hide Agrees, FactsOf;
      var info := GetCutoutInfo();
      b := info.hasCutout;
    }

    method UnityGetCutoutToScreenRatio() returns (ratio: (real, real))
      modifies this
      ensures (Value(), IsRatio(ratio)) == Step(model, old(Value()), CutoutRatio)
      ensures old(Agrees(model, Value())) ==> IsRatio(ratio) == AnswerByNumber(model, CutoutRatio)
    {
      hide Agrees, FactsOf;
      var info := GetCutoutInfo();
      ratio := info.ratioToScreen;
    }

    method UnityDeviceSupportsUpsideDown() returns (b: bool)
      modifies this
      ensures (Value(), IsBool(b)) == Step(model, old(Value()), SupportsUpsideDown)
      ensures old(Agrees(model, Value())) ==> IsBool(b) == AnswerByNumber(model, SupportsUpsideDown)
    {
      hide Agrees, FactsOf;
      var hasCutout := UnityDeviceHasCutout();
      b := !hasCutout;
    }

    method UnityDeviceIsStylusTouchSupported() returns (b: bool)
      modifies this
      ensures (Value(), IsBool(b)) == Step(model, old(Value()), StylusTouch)
      ensures old(Agrees(model, Value())) ==> IsBool(b) == AnswerByNumber(model, StylusTouch)
    {
      hide StrncmpIsZero, LacksStylus, FilledDevice, PointedDevice, Agrees, AnswerByNumber, Uncached;
      AgreementAnswers(model, Value(), StylusTouch);
      if !StrncmpIsZero(model, 0, IPAD, 0) {
        return false;
      }
      var g := UnityDeviceGeneration();
      b := !LacksStylus(g);
    }

    method UnityDeviceDPI() returns (dpi: real)
      modifies this
      ensures (Value(), IsReal(dpi)) == Step(model, old(Value()), DPI)
      ensures old(Agrees(model, Value())) ==> IsReal(dpi) == AnswerByNumber(model, DPI)
    {
      hide FilledDevice, PointedDevice, DpiSwitch, Agrees, AnswerByNumber, Uncached;
      AgreementAnswers(model, Value(), DPI);
      if deviceDPI < 0.0 {
        var g := UnityDeviceGeneration();
        SwitchesByFamily(g);
        if DpiSwitch(g) >= 0.0 {
          deviceDPI := DpiSwitch(g);
        }
        if deviceDPI < 0.0 {
          deviceDPI := 0.0;
        }
      }
      dpi := deviceDPI;
    }
  }

  // ----- Runs -----

  /** Each cache is unset, or holds what the uncached computation gives for the model. */
  ghost predicate Agrees(model: CString, c: Caches) {
    && (c.thisDevice == Null || DeviceIn(c) == GenerationOf(model))
    && (c.cutoutInfo == None || c.cutoutInfo == Some(CutoutInfoOf(GenerationOf(model))))
    && (c.deviceDPI == -1.0 || c.deviceDPI == DpiOf(GenerationOf(model)))
  }

  /** Every cache that is set before is set to the same afterwards. */
  ghost predicate Keeps(c: Caches, c': Caches) {
    && (c.thisDevice != Null ==> c'.thisDevice == c.thisDevice && c'.unknown == c.unknown)
    && (c.cutoutInfo.Some? ==> c'.cutoutInfo == c.cutoutInfo)
    && (c.deviceDPI >= 0.0 ==> c'.deviceDPI == c.deviceDPI)
  }

  lemma FilledDeviceAgrees(model: CString, c: Caches)
    requires Agrees(model, c)
    ensures var c' := FilledDevice(model, c);
            && Agrees(model, c') && Keeps(c, c') && DeviceIn(c') == GenerationOf(model)
            && c'.cutoutInfo == c.cutoutInfo && c'.deviceDPI == c.deviceDPI
  {
    hide EntryOf, TypeOf, UnknownDeviceGenerationForType, CutoutInfoOf, DpiOf, Entry;
  }

  lemma DpiIsNotNegative(g: DeviceGeneration)
    ensures DpiOf(g) >= 0.0
  {}

  /** One query with the same model keeps the agreement, changes no cache that is set, and answers
      what the uncached computation answers. */
  lemma StepAgrees(model: CString, c: Caches, q: Query)
    requires Agrees(model, c)
    ensures var r := Step(model, c, q);
            Agrees(model, r.0) && Keeps(c, r.0) && r.1 == Uncached(model, q)
  {
    hide FilledDevice, PointedDevice, GenerationOf, CutoutInfoOf, DpiOf, LacksStylus, StrncmpIsZero;
    FilledDeviceAgrees(model, c);
    DpiIsNotNegative(GenerationOf(model));
  }

  lemma UncachedByNumber(model: CString, q: Query)
    ensures Uncached(model, q) == AnswerByNumber(model, q)
  {
    hide GenerationOf, CutoutInfoOf, DpiOf, FactsOf, StylusSupported;
    FactsAreAnswers(model);
  }

  /** Caches that agree answer by the numbers. */
  lemma AgreementAnswers(model: CString, c: Caches, q: Query)
    ensures Agrees(model, c) ==> Step(model, c, q).1 == AnswerByNumber(model, q)
  {
    hide Step, Agrees, Uncached, AnswerByNumber;
    if Agrees(model, c) {
      StepAgrees(model, c, q);
      UncachedByNumber(model, q);
    }
  }

  lemma AgreementFillsCutout(model: CString, c: Caches)
    ensures Agrees(model, c) ==> FilledCutout(model, c).cutoutInfo == Some(FactsOf(model).cutout)
  {
    hide FilledDevice, PointedDevice, GenerationOf, CutoutInfoOf, DpiOf, FactsOf, StylusSupported;
    FactsAreAnswers(model);
    if Agrees(model, c) {
      FilledDeviceAgrees(model, c);
    }
  }

  /** Whatever model is reported at the time, a query never changes a cache that is set: the -1
      that means unset cannot come back, and the first answer stays. */
  lemma StepKeeps(model: CString, c: Caches, q: Query)
    ensures Keeps(c, Step(model, c, q).0)
  {
    hide PointedDevice, CutoutInfoOf, DpiOf, LacksStylus, StrncmpIsZero, EntryOf, TypeOf,
      UnknownDeviceGenerationForType;
  }

  /** The answers of a run of queries, and the caches it ends with. */
  function Run(model: CString, c: Caches, qs: seq<Query>): (Caches, seq<Answer>)
    decreases |qs|
  {
    if qs == [] then (c, [])
    else
      var (c', a) := Step(model, c, qs[0]);
      var (c'', answers) := Run(model, c', qs[1..]);
      (c'', [a] + answers)
  }

  /** Over every finite run the caches agree with the uncached functions and every answer is the
      uncached answer, however the queries are ordered and repeated. */
  lemma {:induction false} RunAgrees(model: CString, c: Caches, qs: seq<Query>)
    requires Agrees(model, c)
    ensures var r := Run(model, c, qs);
            && Agrees(model, r.0) && Keeps(c, r.0)
            && |r.1| == |qs| && (forall i :: 0 <= i < |qs| ==> r.1[i] == Uncached(model, qs[i]))
    decreases |qs|
  {
    hide Step, Agrees, Uncached;
    if qs != [] {
      StepAgrees(model, c, qs[0]);
      RunAgrees(model, Step(model, c, qs[0]).0, qs[1..]);
    }
  }

  lemma InitialAgrees(model: CString)
    ensures Agrees(model, INITIAL)
  {}

  /** End to end: in any run from a cold start every answer is the one that the numbers in the model
      string call for. In particular every DPI answer is positive exactly when the model begins with
      iPhone, iPad or iPod, and zero otherwise, and every upside-down answer is yes unless the model is
      an iPhone that the table knows. */
  lemma ColdRunAnswers(model: CString, qs: seq<Query>, i: nat)
    requires i < |qs|
    ensures |Run(model, INITIAL, qs).1| == |qs|
    ensures Run(model, INITIAL, qs).1[i] == AnswerByNumber(model, qs[i])
    ensures var a := Run(model, INITIAL, qs).1[i];
            && (qs[i] == DPI ==> a.IsReal? && a.r >= 0.0
                                 && (a.r > 0.0 <==> IPHONE <= model || IPAD <= model || IPOD <= model))
            && (qs[i] == SupportsUpsideDown && !(IPHONE <= model && EntryOf(model).Some?) ==> a == IsBool(true))
  {
    hide Run, GenerationOf, CutoutInfoOf, DpiOf, EntryOf, Agrees, AnswerByNumber, StylusSupported;
    InitialAgrees(model);
    UncachedByNumber(model, qs[i]);
    RunAgrees(model, INITIAL, qs);
    DpiByPrefix(model);
    CutoutOnlyForKnownPhones(model);
  }
}
