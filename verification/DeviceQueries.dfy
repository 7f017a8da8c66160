/** The queries of Classes/Unity/DeviceInfo.cpp on top of the parser: cutout, stylus and DPI, and the
    three caches that remember what the first call found. */
module DeviceQueries {
  import opened Options
  import opened CStrings
  import opened DeviceGenerations
  import opened DeviceTable
  import opened DeviceParser

  // ----- The switches -----

  function CutoutRatioForDeviceGeneration(g: DeviceGeneration): Option<(real, real)> {
    if g in {deviceiPhone14, deviceiPhone16e, deviceiPhone17e} then Some((0.415, 0.04))
    else if g in {deviceiPhone14Plus} then Some((0.377, 0.036))
    else if g in {
      deviceiPhone14Pro, deviceiPhone15, deviceiPhone15Pro, deviceiPhone16, deviceiPhone16Pro, deviceiPhone17,
      deviceiPhone17Pro
    } then Some((0.318, 0.057))
    else if g in {
      deviceiPhone14ProMax, deviceiPhone15ProMax, deviceiPhone15Plus, deviceiPhone16Plus,
      deviceiPhone16ProMax, deviceiPhone17ProMax
    } then Some((0.292, 0.052))
    else if g in {deviceiPhoneAir} then Some((0.299, 0.062))
    else if g in {deviceiPhone13ProMax} then Some((0.373, 0.036))
    else if g in {deviceiPhone13Pro, deviceiPhone13} then Some((0.4148, 0.0399))
    else if g in {deviceiPhone13Mini} then Some((0.4644, 0.0462))
    else if g in {deviceiPhone12ProMax} then Some((0.4897, 0.0346))
    else if g in {deviceiPhone12Pro, deviceiPhone12} then Some((0.5393, 0.0379))
    else if g in {deviceiPhone12Mini} then Some((0.604, 0.0424))
    else if g in {deviceiPhone11ProMax} then Some((0.5057, 0.0335))
    else if g in {deviceiPhone11Pro} then Some((0.5583, 0.037))
    else if g in {deviceiPhone11, deviceiPhoneXR} then Some((0.5568, 0.0398))
    else if g in {deviceiPhoneXSMax} then Some((0.4884, 0.0333))
    else if g in {deviceiPhoneX, deviceiPhoneXS} then Some((0.5391, 0.0368))
    else None
  }

  /** The DPI switch; minus one when no case assigns a value. */
  function DpiSwitch(g: DeviceGeneration): real {
    if g in {deviceiPhone3GS} then 163.0
    else if g in {
      deviceiPhone4, deviceiPhone4S, deviceiPhone5, deviceiPhone5C, deviceiPhone5S, deviceiPhone6,
      deviceiPhone6S, deviceiPhoneSE1Gen, deviceiPhone7, deviceiPhone8, deviceiPhoneXR, deviceiPhone11,
      deviceiPhoneSE2Gen, deviceiPhoneSE3Gen
    } then 326.0
    else if g in {deviceiPhone6Plus, deviceiPhone6SPlus, deviceiPhone7Plus, deviceiPhone8Plus} then 401.0
    else if g in {
      deviceiPhoneX, deviceiPhoneXS, deviceiPhoneXSMax, deviceiPhone11Pro, deviceiPhone11ProMax,
      deviceiPhone12ProMax, deviceiPhone13ProMax, deviceiPhone14Plus
    } then 458.0
    else if g in {
      deviceiPhone12, deviceiPhone12Pro, deviceiPhone13, deviceiPhone13Pro, deviceiPhone14, deviceiPhone14Pro,
      deviceiPhone14ProMax, deviceiPhone15, deviceiPhone15Plus, deviceiPhone15Pro, deviceiPhone15ProMax,
      deviceiPhone16, deviceiPhone16e, deviceiPhone16Plus, deviceiPhone16Pro, deviceiPhone16ProMax,
      deviceiPhone17, deviceiPhoneAir, deviceiPhone17Pro, deviceiPhone17ProMax, deviceiPhone17e
    } then 460.0
    else if g in {deviceiPhone12Mini, deviceiPhone13Mini} then 476.0
    else if g in {deviceiPad2Gen} then 132.0
    else if g in {
      deviceiPad3Gen, deviceiPad4Gen, deviceiPadAir1, deviceiPadAir2, deviceiPadAir3Gen, deviceiPadPro1Gen,
      deviceiPadPro10Inch1Gen, deviceiPadPro2Gen, deviceiPadPro10Inch2Gen, deviceiPad5Gen, deviceiPad6Gen,
      deviceiPadPro11Inch, deviceiPadPro3Gen, deviceiPadPro11Inch2Gen, deviceiPadPro11Inch3Gen,
      deviceiPadPro4Gen, deviceiPadPro5Gen, deviceiPad8Gen, deviceiPadAir4Gen, deviceiPad9Gen,
      deviceiPadAir5Gen
    } then 264.0
    else if g in {deviceiPad7Gen} then 326.0
    else if g in {deviceiPadMini1Gen} then 163.0
    else if g in {
      deviceiPadMini2Gen, deviceiPadMini3Gen, deviceiPadMini4Gen, deviceiPadMini5Gen, deviceiPadMini6Gen
    } then 326.0
    else if g in {deviceiPodTouch4Gen, deviceiPodTouch5Gen, deviceiPodTouch6Gen, deviceiPodTouch7Gen} then 326.0
    else if g in {deviceiPhoneUnknown} then 326.0
    else if g in {deviceiPadUnknown, deviceiPadPro6Gen, deviceiPadPro11Inch4Gen, deviceiPad10Gen} then 264.0
    else if g in {deviceiPodTouchUnknown} then 326.0
    else -1.0
  }

  /** The generations whose screens predate the stylus. */
  predicate LacksStylus(g: DeviceGeneration) {
    g in {
      deviceiPad2Gen, deviceiPad3Gen, deviceiPad4Gen, deviceiPad5Gen, deviceiPadMini1Gen, deviceiPadMini2Gen,
      deviceiPadMini3Gen, deviceiPadMini4Gen, deviceiPadAir1, deviceiPadAir2
    }
  }

  lemma SwitchesByFamily(g: DeviceGeneration)
    ensures DpiSwitch(g) > 0.0 <==> Family(g) in {Some(iPhone), Some(iPad), Some(iPod)}
    ensures DpiSwitch(g) > 0.0 || DpiSwitch(g) == -1.0
    ensures CutoutRatioForDeviceGeneration(g).Some? ==> Family(g) == Some(iPhone) && g != deviceiPhoneUnknown
  {
    PhoneSwitches(g);
    PadSwitches(g);
    PodSwitches(g);
    OtherSwitches(g);
  }

  lemma PhoneSwitches(g: DeviceGeneration)
    ensures Family(g) == Some(iPhone) ==> DpiSwitch(g) > 0.0
    ensures CutoutRatioForDeviceGeneration(g).Some? ==> Family(g) == Some(iPhone) && g != deviceiPhoneUnknown
  {}

  lemma PadSwitches(g: DeviceGeneration)
    ensures Family(g) == Some(iPad) ==> DpiSwitch(g) > 0.0
  {}

  lemma PodSwitches(g: DeviceGeneration)
    ensures Family(g) == Some(iPod) ==> DpiSwitch(g) > 0.0
  {}

  lemma OtherSwitches(g: DeviceGeneration)
    ensures Family(g) == Some(AppleTV) || Family(g) == None ==> DpiSwitch(g) == -1.0
  {}

  // ----- The answers without caches -----

  datatype DeviceCutoutInfo = DeviceCutoutInfo(ratioToScreen: (real, real), hasCutout: bool)

  function CutoutInfoOf(g: DeviceGeneration): DeviceCutoutInfo {
    match CutoutRatioForDeviceGeneration(g)
    case Some(ratio) => DeviceCutoutInfo(ratio, true)
    case None => DeviceCutoutInfo((0.0, 0.0), false)
  }

  function DpiOf(g: DeviceGeneration): real {
    if DpiSwitch(g) < 0.0 then 0.0 else DpiSwitch(g)
  }

  predicate StylusSupported(model: CString) {
    StrncmpIsZero(model, 0, IPAD, 0) && !LacksStylus(GenerationOf(model))
  }

  /** The DPI is positive exactly for the models that begin with iPhone, iPad or iPod, and exactly
      zero for all others, known or not. */
  lemma DpiByPrefix(model: CString)
    ensures DpiOf(GenerationOf(model)) > 0.0 <==> IPHONE <= model || IPAD <= model || IPOD <= model
    ensures DpiOf(GenerationOf(model)) > 0.0 || DpiOf(GenerationOf(model)) == 0.0
  {
    hide GenerationOf, DpiSwitch, Family, TypeOf;
    GenerationHasFamily(model);
    SwitchesByFamily(GenerationOf(model));
    TypeIsPrefix(model);
    assert Prefix(iPhone) == IPHONE && Prefix(iPad) == IPAD && Prefix(iPod) == IPOD;
  }

  lemma CutoutsFitTheScreen(g: DeviceGeneration)
    ensures var c := CutoutInfoOf(g);
            if c.hasCutout then 0.0 < c.ratioToScreen.1 < c.ratioToScreen.0 < 1.0 else c.ratioToScreen == (0.0, 0.0)
  {}

  /** A cutout is reported only for iPhone models that the table knows, and is then a proper part of
      the screen, wider than it is high; without a cutout the ratio is zero. */
  lemma CutoutOnlyForKnownPhones(model: CString)
    ensures var c := CutoutInfoOf(GenerationOf(model));
            if c.hasCutout
            then IPHONE <= model && EntryOf(model).Some? && 0.0 < c.ratioToScreen.1 < c.ratioToScreen.0 < 1.0
            else c.ratioToScreen == (0.0, 0.0)
  {
    hide DpiSwitch, Family, TypeOf, EntryOf, CutoutRatioForDeviceGeneration;
    CutoutsFitTheScreen(GenerationOf(model));
    GenerationHasFamily(model);
    SwitchesByFamily(GenerationOf(model));
    TypeIsPrefix(model);
    assert Prefix(iPhone) == IPHONE;
  }

  /** The raw prefix test of the stylus query agrees with the parser. */
  lemma StylusTestAgreesWithParser(model: CString)
    ensures StrncmpIsZero(model, 0, IPAD, 0) <==> Family(GenerationOf(model)) == Some(iPad)
    ensures StylusSupported(model) <==> Family(GenerationOf(model)) == Some(iPad) && !LacksStylus(GenerationOf(model))
  {
    hide Family, TypeOf, GenerationOf, LacksStylus, StrncmpIsZero;
    GenerationHasFamily(model);
    TypeIsPrefix(model);
    StrncmpIsPrefix(model, 0, IPAD, 0);
    assert Prefix(iPad) == IPAD;
  }

  // ----- The generations a test can iterate over -----

  function Callbacks(table: seq<DeviceTableEntry>): seq<(DeviceGeneration, string)> {
    seq(|table|, i requires 0 <= i < |table| => (table[i].device, table[i].deviceName))
  }

  const UNKNOWNS: seq<(DeviceGeneration, string)> := [
    (deviceUnknown, "deviceUnknown"),
    (deviceiPhoneUnknown, "deviceiPhoneUnknown"),
    (deviceiPadUnknown, "deviceiPadUnknown"),
    (deviceiPodTouchUnknown, "deviceiPodTouchUnknown"),
    (deviceAppleTVUnknown, "deviceAppleTVUnknown")
  ]

  /** The values and names passed to the callback, in order. */
  method UnityTest_IterateDeviceGenerations(table: seq<DeviceTableEntry>)
    returns (trace: seq<(DeviceGeneration, string)>)
    ensures trace == Callbacks(table) + UNKNOWNS
    ensures |trace| == |table| + 5
    ensures forall i :: 0 <= i < |table| ==> trace[i] == (table[i].device, table[i].deviceName)
    ensures trace[|table|..] == [(0, "deviceUnknown"), (10001, "deviceiPhoneUnknown"), (10002, "deviceiPadUnknown"),
                                 (10003, "deviceiPodTouchUnknown"), (10004, "deviceAppleTVUnknown")]
  {
    trace := [];
    for i := 0 to |table|
      invariant trace == Callbacks(table)[..i]
    {
      trace := trace + [(table[i].device, table[i].deviceName)];
    }
    trace := trace + [(deviceUnknown, "deviceUnknown")];
    trace := trace + [(deviceiPhoneUnknown, "deviceiPhoneUnknown")];
    trace := trace + [(deviceiPadUnknown, "deviceiPadUnknown")];
    trace := trace + [(deviceiPodTouchUnknown, "deviceiPodTouchUnknown")];
    trace := trace + [(deviceAppleTVUnknown, "deviceAppleTVUnknown")];
  }

  /** Every generation the parser can report, for any string at all, is among the values iterated, and
      comes with its own name. */
  lemma IterationIsComplete(model: CString)
    ensures (GenerationOf(model), Spelling(GenerationOf(model))) in Callbacks(DEVICE_TABLE) + UNKNOWNS
  {
    hide EntryOf, TypeOf, Spelling;
    if EntryOf(model).Some? {
      var i := EntryOf(model).value;
      EntrySound(i);
      assert Callbacks(DEVICE_TABLE)[i] == (GenerationOf(model), Spelling(GenerationOf(model)));
    } else {
      UnknownIsIterated(TypeOf(model));
    }
  }

  lemma UnknownIsIterated(t: Option<DeviceType>)
    ensures var g := UnknownDeviceGenerationForType(t); (g, Spelling(g)) in UNKNOWNS
  {
    hide Spelling;
    UnknownSpellings();
    assert UNKNOWNS[0].0 == deviceUnknown && UNKNOWNS[1].0 == deviceiPhoneUnknown && UNKNOWNS[2].0 == deviceiPadUnknown
      && UNKNOWNS[3].0 == deviceiPodTouchUnknown && UNKNOWNS[4].0 == deviceAppleTVUnknown;
  }

  lemma UnknownSpellings()
    ensures forall k :: 0 <= k < |UNKNOWNS| ==> UNKNOWNS[k].1 == Spelling(UNKNOWNS[k].0)
  {}
}
