/** ParseDeviceGeneration of Classes/Unity/DeviceInfo.cpp: the parser, the language it accepts, and
    the generation it reports for every string there is. */
module DeviceParser {
  import opened Options
  import opened CStrings
  import opened DeviceGenerations
  import opened DeviceTable

  // ----- The parser -----

  const IPHONE: CString := "iPhone"
  const IPAD: CString := "iPad"
  const IPOD: CString := "iPod"
  const APPLE_TV: CString := "AppleTV"

  function Prefix(t: DeviceType): CString {
    match t
    case iPhone => IPHONE
    case iPad => IPAD
    case iPod => IPOD
    case AppleTV => APPLE_TV
  }

  /** The device type the chain of prefix tests settles on. */
  function TypeOf(model: CString): Option<DeviceType> {
    if StrncmpIsZero(model, 0, IPHONE, 0) then Some(iPhone)
    else if StrncmpIsZero(model, 0, IPAD, 0) then Some(iPad)
    else if StrncmpIsZero(model, 0, IPOD, 0) then Some(iPod)
    else if StrncmpIsZero(model, 0, APPLE_TV, 0) then Some(AppleTV)
    else None
  }

  /** The two numbers behind the prefix, unless something follows them. */
  function Numbers(model: CString, p: nat): Option<(int, int)>
    requires p <= |model|
  {
    var major := Strtol(model, p);
    var minor := if At(model, major.end) != NUL then Strtol(model, major.end + 1) else LongAndEnd(0, major.end);
    if minor.end == |model| then Some((major.value, minor.value)) else None
  }

  /** The index of the entry the parser returns; None is its null pointer. */
  function EntryOf(model: CString): (r: Option<nat>)
    ensures r.Some? ==> r.value < |DEVICE_TABLE|
  {
    match TypeOf(model)
    case None => None
    case Some(t) =>
      TypeIsPrefix(model);
      match Numbers(model, |Prefix(t)|)
      case None => None
      case Some(n) => FirstMatch(DEVICE_TABLE, t, n.0, n.1, 0)
  }

  /** The parser as the source writes it. Every read of the string goes through At and every
      pointer that strtol gets is checked to be at or before the terminator. */
  method ParseDeviceGeneration(model: CString) returns (entry: Option<nat>, deviceType: Option<DeviceType>)
    ensures deviceType == TypeOf(model)
    ensures entry == EntryOf(model)
  {
    hide Strtol, FirstMatch, StrncmpIsZero, Prefix, EntryOf, Numbers;
    var p: nat := 0;
    PrefixLengths(model);
    if StrncmpIsZero(model, p, IPHONE, 0) {
      deviceType := Some(iPhone);
      p := p + 6;
    } else if StrncmpIsZero(model, p, IPAD, 0) {
      deviceType := Some(iPad);
      p := p + 4;
    } else if StrncmpIsZero(model, p, IPOD, 0) {
      deviceType := Some(iPod);
      p := p + 4;
    } else if StrncmpIsZero(model, p, APPLE_TV, 0) {
      deviceType := Some(AppleTV);
      p := p + 7;
    } else {
      return None, None;
    }
    var t := deviceType.value;
    var r := Strtol(model, p);
    var majorGen, endPtr := r.value, r.end;
    var minorGen := 0;
    if At(model, endPtr) != NUL {
      r := Strtol(model, endPtr + 1);
      minorGen, endPtr := r.value, r.end;
    }
    EntryByNumbers(model, t, majorGen, minorGen, endPtr);
    if At(model, endPtr) != NUL {
      return None, deviceType;
    }
    entry := ScanTable(DEVICE_TABLE, t, majorGen, minorGen);
  }

  lemma EntryByNumbers(model: CString, t: DeviceType, major: int, minor: int, end: nat)
    requires TypeOf(model) == Some(t) && |Prefix(t)| <= |model|
    requires var r := Strtol(model, |Prefix(t)|);
             && major == r.value
             && LongAndEnd(minor, end)
                == if At(model, r.end) != NUL then Strtol(model, r.end + 1) else LongAndEnd(0, r.end)
    ensures EntryOf(model) == if At(model, end) == NUL then FirstMatch(DEVICE_TABLE, t, major, minor, 0) else None
  {
    hide Strtol, FirstMatch, StrncmpIsZero, Prefix, TypeOf;
  }

  lemma PrefixLengths(model: CString)
    ensures |Prefix(iPhone)| == 6 && |Prefix(iPad)| == 4 && |Prefix(iPod)| == 4 && |Prefix(AppleTV)| == 7
    ensures TypeOf(model).Some? ==> |Prefix(TypeOf(model).value)| <= |model|
    ensures TypeOf(model).None? ==> EntryOf(model).None?
  {
    TypeIsPrefix(model);
  }

  /** The loop over the table at the end of the parser. */
  method ScanTable(table: seq<DeviceTableEntry>, t: DeviceType, majorGen: int, minorGen: int)
    returns (entry: Option<nat>)
    ensures entry == FirstMatch(table, t, majorGen, minorGen, 0)
  {
    var i := 0;
    while i < |table|
      invariant i <= |table|
      invariant FirstMatch(table, t, majorGen, minorGen, i) == FirstMatch(table, t, majorGen, minorGen, 0)
    {
      var deviceInfo := table[i];
      if t == deviceInfo.deviceType && majorGen == deviceInfo.majorGen
         && !(minorGen < deviceInfo.minorGenMin || minorGen > deviceInfo.minorGenMax) {
        return Some(i);
      }
      i := i + 1;
    }
    return None;
  }

  /** The type is found exactly when its prefix starts the string: the order of the tests does not
      matter, because no prefix starts another. */
  lemma TypeIsPrefix(model: CString)
    ensures forall t :: TypeOf(model) == Some(t) <==> Prefix(t) <= model
    ensures TypeOf(model) == Some(iPhone) <==> "iPhone" <= model
    ensures TypeOf(model) == Some(iPad) <==> "iPad" <= model
    ensures TypeOf(model) == Some(iPod) <==> "iPod" <= model
    ensures TypeOf(model) == Some(AppleTV) <==> "AppleTV" <= model
    ensures TypeOf(model) == None <==> forall t :: !(Prefix(t) <= model)
  {
    StrncmpIsPrefix(model, 0, IPHONE, 0);
    StrncmpIsPrefix(model, 0, IPAD, 0);
    StrncmpIsPrefix(model, 0, IPOD, 0);
    StrncmpIsPrefix(model, 0, APPLE_TV, 0);
    assert model[0..] == model;
  }

  // ----- The language -----

  /** The text is the prefix of the entry's type, a numeral for its major number, one separator
      that is not a digit, and a numeral for a minor number in its range, with nothing after. */
  ghost predicate Denotes(model: string, e: DeviceTableEntry) {
    exists major: Numeral, separator: char, minor: Numeral :: DenotesWith(model, e, major, separator, minor)
  }

  ghost predicate DenotesWith(model: string, e: DeviceTableEntry, major: Numeral, separator: char, minor: Numeral) {
    && major.Valid() && minor.Valid() && !IsDigit(separator)
    && model == Prefix(e.deviceType) + major.Text() + [separator] + minor.Text()
    && major.Value() == e.majorGen && e.minorGenMin <= minor.Value() <= e.minorGenMax
  }

  /** Two numerals with a separator between them are read whole, and saturated. */
  lemma NumbersOfText(model: CString, t: DeviceType, major: Numeral, separator: char, minor: Numeral)
    requires major.Valid() && minor.Valid() && !IsDigit(separator)
    requires model == Prefix(t) + major.Text() + [separator] + minor.Text()
    ensures Prefix(t) <= model
    ensures Numbers(model, |Prefix(t)|) == Some((Saturate(major.Value()), Saturate(minor.Value())))
  {
    hide Strtol, Numeral.Text, Numeral.Valid, Numeral.Value, Saturate;
    var p := |Prefix(t)|;
    var q := p + |major.Text()|;
    assert model[p..q] == major.Text();
    assert model[q] == separator;
    assert model[q + 1..] == minor.Text();
    assert model[q + 1..|model|] == model[q + 1..];
    StrtolReadsAll(model, p, major);
    StrtolReadsAll(model, q + 1, minor);
  }

  lemma NumbersOfDenoting(model: CString, e: DeviceTableEntry, major: Numeral, separator: char, minor: Numeral)
    requires DenotesWith(model, e, major, separator, minor)
    requires 0 <= e.majorGen <= 255 && 0 <= e.minorGenMin && e.minorGenMax <= 255
    ensures Prefix(e.deviceType) <= model
    ensures Numbers(model, |Prefix(e.deviceType)|) == Some((major.Value(), minor.Value()))
  {
    hide Numbers, Numeral.Text, Numeral.Valid, Numeral.Value;
    NumbersOfText(model, e.deviceType, major, separator, minor);
  }

  lemma NumbersOfMatching(model: CString, e: DeviceTableEntry)
    requires Prefix(e.deviceType) <= model
    requires Numbers(model, |Prefix(e.deviceType)|).Some?
    requires var n := Numbers(model, |Prefix(e.deviceType)|).value;
             n.0 == e.majorGen && e.minorGenMin <= n.1 <= e.minorGenMax
    requires 1 <= e.majorGen <= 255 && 1 <= e.minorGenMin && e.minorGenMax <= 255
    ensures Denotes(model, e)
  {
    hide Strtol, Numeral.Text, Numeral.Valid, Numeral.Value;
    var p := |Prefix(e.deviceType)|;
    var q := Strtol(model, p).end;
    var major := StrtolReadsNumeral(model, p);
    var minor := StrtolReadsNumeral(model, q + 1);
    assert model == model[..p] + model[p..q] + [model[q]] + model[q + 1..|model|];
    assert DenotesWith(model, e, major, model[q], minor);
  }

  /** The parser returns an entry exactly for the strings that denote it: saturation in strtol
      never makes a hit, and first-match order never takes one away. */
  lemma ParserAcceptsLanguage(model: CString, i: nat)
    requires i < |DEVICE_TABLE|
    ensures EntryOf(model) == Some(i) <==> Denotes(model, DEVICE_TABLE[i])
  {
    hide Denotes, Numbers, FirstMatch, TypeOf;
    var e := DEVICE_TABLE[i];
    TypeIsPrefix(model);
    EntrySound(i);
    if Denotes(model, e) {
      NumbersOfDenotingAny(model, e);
      MatchInTable(model, e.deviceType, i);
    }
    if EntryOf(model) == Some(i) {
      MatchInTable(model, TypeOf(model).value, i);
      NumbersOfMatching(model, e);
    }
  }

  lemma NumbersOfDenotingAny(model: CString, e: DeviceTableEntry)
    requires Denotes(model, e) && Sound(e)
    ensures Prefix(e.deviceType) <= model && Numbers(model, |Prefix(e.deviceType)|).Some?
    ensures var n := Numbers(model, |Prefix(e.deviceType)|).value; e.Matches(e.deviceType, n.0, n.1)
  {
    hide Numbers, Numeral.Text, Numeral.Valid;
    var major: Numeral, separator: char, minor: Numeral :| DenotesWith(model, e, major, separator, minor);
    NumbersOfDenoting(model, e, major, separator, minor);
  }

  lemma EntrySound(i: nat)
    requires i < |DEVICE_TABLE|
    ensures Sound(DEVICE_TABLE[i])
  {
    hide Sound;
    TableIsSound();
  }

  lemma MatchInTable(model: CString, t: DeviceType, i: nat)
    requires i < |DEVICE_TABLE| && Prefix(t) <= model
    requires Numbers(model, |Prefix(t)|).Some?
    ensures var n := Numbers(model, |Prefix(t)|).value;
            FirstMatch(DEVICE_TABLE, t, n.0, n.1, 0) == Some(i) <==> DEVICE_TABLE[i].Matches(t, n.0, n.1)
  {
    hide Numbers, FirstMatch;
    var n := Numbers(model, |Prefix(t)|).value;
    TableIsDisjoint();
    MatchIsUnique(DEVICE_TABLE, t, n.0, n.1, i);
  }

  // ----- Printing and parsing -----

  /** The way Apple writes a model: type, major number, comma, minor number. */
  function Print(t: DeviceType, major: nat, minor: nat): string {
    Prefix(t) + ToDecimal(major) + "," + ToDecimal(minor)
  }

  lemma {:induction false} DigitsAreNotNul(s: string)
    requires AllDigits(s)
    ensures forall i :: 0 <= i < |s| ==> s[i] != NUL
  {
    forall i | 0 <= i < |s| ensures s[i] != NUL {
      assert IsDigit(s[i]);
    }
  }

  /** Printing any minor number of any entry and parsing it gives that very entry back. */
  lemma PrintParseRoundTrip(i: nat, minor: nat)
    requires i < |DEVICE_TABLE| && DEVICE_TABLE[i].minorGenMin <= minor <= DEVICE_TABLE[i].minorGenMax
    ensures var e := DEVICE_TABLE[i];
            var model := Print(e.deviceType, e.majorGen, minor);
            (forall k :: 0 <= k < |model| ==> model[k] != NUL) && EntryOf(model) == Some(i)
  {
    hide ToDecimal, Decimal, EntryOf;
    var e := DEVICE_TABLE[i];
    var model := Print(e.deviceType, e.majorGen, minor);
    DecimalRoundTrip(e.majorGen);
    DecimalRoundTrip(minor);
    DigitsAreNotNul(ToDecimal(e.majorGen));
    DigitsAreNotNul(ToDecimal(minor));
    assert forall k :: 0 <= k < |model| ==> model[k] != NUL;
    var m, n := Numeral("", "", ToDecimal(e.majorGen)), Numeral("", "", ToDecimal(minor));
    assert m.Text() == ToDecimal(e.majorGen) && n.Text() == ToDecimal(minor);
    assert DenotesWith(model, e, m, ',', n);
    ParserAcceptsLanguage(model, i);
  }

  // ----- Every string has a generation of its family -----

  function UnknownDeviceGenerationForType(t: Option<DeviceType>): DeviceGeneration {
    match t
    case Some(iPhone) => deviceiPhoneUnknown
    case Some(iPad) => deviceiPadUnknown
    case Some(iPod) => deviceiPodTouchUnknown
    case Some(AppleTV) => deviceAppleTVUnknown
    case None => deviceUnknown
  }

  function GenerationOf(model: CString): DeviceGeneration {
    match EntryOf(model)
    case Some(i) => DEVICE_TABLE[i].device
    case None => UnknownDeviceGenerationForType(TypeOf(model))
  }

  method UnityParseDeviceGeneration(model: CString) returns (g: DeviceGeneration)
    ensures g == GenerationOf(model)
  {
    var entry, deviceType := ParseDeviceGeneration(model);
    if entry.Some? {
      return DEVICE_TABLE[entry.value].device;
    }
    return UnknownDeviceGenerationForType(deviceType);
  }

  lemma UnknownFamily(t: Option<DeviceType>)
    ensures Family(UnknownDeviceGenerationForType(t)) == t
  {}

  lemma EntryHasType(model: CString)
    requires EntryOf(model).Some?
    ensures TypeOf(model) == Some(DEVICE_TABLE[EntryOf(model).value].deviceType)
  {}

  /** For every string the reported generation is of the family that the prefix names, and of no
      family when no known prefix starts the string. */
  lemma GenerationHasFamily(model: CString)
    ensures Family(GenerationOf(model)) == TypeOf(model)
  {
    hide Family, EntryOf, TypeOf, UnknownDeviceGenerationForType;
    UnknownFamily(TypeOf(model));
    if EntryOf(model).Some? {
      EntryHasType(model);
      EntrySound(EntryOf(model).value);
    }
  }
}
