/** What the device queries answer by the two numbers in a model string, written down independently of
    the table and the switches of Classes/Unity/DeviceInfo.cpp, and proved to be what those give. */
module ModelNumbers {
  import opened Options
  import opened CStrings
  import opened DeviceGenerations
  import opened DeviceTable
  import opened DeviceParser
  import opened DeviceQueries

  // ----- Generations by number -----

  /** The enumerators of a family by major number. The first is that of minor number one; zero stands
      for a number that no device has. */
  function PhoneRow(major: int): seq<int> {
    if major == 2 then [3]
    else if major == 3 then [8, 8, 8]
    else if major == 4 then [11]
    else if major == 5 then [13, 13, 17, 17]
    else if major == 6 then [18, 18]
    else if major == 7 then [22, 21]
    else if major == 8 then [25, 26, 0, 29]
    else if major == 9 then [31, 32, 31, 32]
    else if major == 10 then [37, 38, 39, 37, 38, 39]
    else if major == 11 then [0, 40, 0, 41, 0, 41, 0, 42]
    else if major == 12 then [48, 0, 49, 0, 50, 0, 0, 53]
    else if major == 13 then [56, 57, 58, 59]
    else if major == 14 then [0, 66, 67, 65, 64, 70, 72, 73]
    else if major == 15 then [0, 74, 75, 79, 80]
    else if major == 16 then [81, 82]
    else if major == 17 then [85, 86, 83, 84, 87]
    else if major == 18 then [90, 91, 88, 89, 92]
    else []
  }

  function PadRow(major: int): seq<int> {
    if major == 2 then [10, 10, 10, 10, 15, 15, 15]
    else if major == 3 then [12, 12, 12, 16, 16, 16]
    else if major == 4 then [19, 19, 19, 20, 20, 20, 23, 23, 23]
    else if major == 5 then [28, 28, 24, 24]
    else if major == 6 then [0, 0, 30, 30, 0, 0, 27, 27, 0, 0, 34, 34]
    else if major == 7 then [35, 35, 36, 36, 45, 45, 0, 0, 0, 0, 52, 52]
    else if major == 8 then [43, 43, 43, 43, 44, 44, 44, 44, 54, 54, 55, 55]
    else if major == 11 then [47, 47, 46, 46, 0, 60, 60]
    else if major == 12 then [62, 62]
    else if major == 13 then [61, 61, 0, 0, 0, 69, 69, 0, 0, 68, 68, 0, 0, 0, 0, 71, 71, 78, 78]
    else if major == 14 then [63, 63, 77, 77, 76, 76]
    else []
  }

  function PodRow(major: int): seq<int> {
    if major == 4 then [9]
    else if major == 5 then [14]
    else if major == 7 then [33]
    else if major == 9 then [51]
    else []
  }

  function TvRow(major: int): seq<int> {
    if major == 5 then [0, 0, 1001]
    else if major == 6 then [0, 1002]
    else if major == 11 then [1003]
    else if major == 14 then [1004]
    else []
  }

  function Row(t: DeviceType, major: int): seq<int> {
    match t
    case iPhone => PhoneRow(major)
    case iPad => PadRow(major)
    case iPod => PodRow(major)
    case AppleTV => TvRow(major)
  }

  /** The enumerator that belongs to the two numbers, or zero. */
  function GridGeneration(t: DeviceType, major: int, minor: int): int {
    if 1 <= minor <= |Row(t, major)| then Row(t, major)[minor - 1] else 0
  }

  // ----- The other answers by number -----

  function DpiByNumber(t: DeviceType, major: int, minor: int): real {
    match t
    case iPhone =>
      if major == 2 then 163.0
      else if (major, minor) in {(7, 1), (8, 2), (9, 2), (9, 4)} then 401.0
      else if major == 10 then if minor in {2, 5} then 401.0 else if minor in {3, 6} then 458.0 else 326.0
      else if major == 11 then if minor == 8 then 326.0 else 458.0
      else if major == 12 then if minor in {3, 5} then 458.0 else 326.0
      else if major == 13 then if minor == 1 then 476.0 else if minor == 4 then 458.0 else 460.0
      else if major == 14 then
        if minor == 4 then 476.0 else if minor in {3, 8} then 458.0 else if minor == 6 then 326.0 else 460.0
      else if major >= 15 then 460.0 else 326.0
    case iPad =>
      if major == 2 then if minor <= 4 then 132.0 else 163.0
      else if (major == 4 && minor >= 4) || (major == 7 && minor >= 11) then 326.0
      else if major in {5, 11, 14} && minor <= 2 then 326.0
      else 264.0
    case iPod => 326.0
    case AppleTV => 0.0
  }

  predicate CutoutByNumber(t: DeviceType, major: int, minor: int) {
    t == iPhone && ((major == 10 && minor in {3, 6}) || (major >= 11 && (major, minor) !in {(12, 8), (14, 6)}))
  }

  /** Width and height of the cutout, where there is one, as parts of the screen's. */
  function RatioByNumber(major: int, minor: int): (real, real) {
    if major == 10 then (0.5391, 0.0368)
    else if major == 11 then
      if minor == 2 then (0.5391, 0.0368) else if minor == 8 then (0.5568, 0.0398) else (0.4884, 0.0333)
    else if major == 12 then
      if minor == 1 then (0.5568, 0.0398) else if minor == 3 then (0.5583, 0.037) else (0.5057, 0.0335)
    else if major == 13 then
      if minor == 1 then (0.604, 0.0424) else if minor == 4 then (0.4897, 0.0346) else (0.5393, 0.0379)
    else if major == 14 then
      if minor == 3 then (0.373, 0.036) else if minor == 4 then (0.4644, 0.0462)
      else if minor == 7 then (0.415, 0.04) else if minor == 8 then (0.377, 0.036) else (0.4148, 0.0399)
    else if major == 15 then if minor in {2, 4} then (0.318, 0.057) else (0.292, 0.052)
    else if major == 16 then if minor == 1 then (0.318, 0.057) else (0.292, 0.052)
    else
      if minor == 5 then (0.415, 0.04)
      else if minor in {1, 3} then (0.318, 0.057)
      else if (major, minor) == (18, 4) then (0.299, 0.062) else (0.292, 0.052)
  }

  function CutoutInfoByNumber(t: DeviceType, major: int, minor: int): DeviceCutoutInfo {
    if CutoutByNumber(t, major, minor) then DeviceCutoutInfo(RatioByNumber(major, minor), true)
    else DeviceCutoutInfo((0.0, 0.0), false)
  }

  predicate StylusByNumber(t: DeviceType, major: int, minor: int) {
    t == iPad && (major >= 7 || (major == 6 && minor <= 8))
  }

  // ----- Every entry of the table is on the grid -----

  ghost predicate OnGrid(e: DeviceTableEntry, minor: int) {
    e.minorGenMin <= minor <= e.minorGenMax ==> e.device == GridGeneration(e.deviceType, e.majorGen, minor) != 0
  }

  ghost predicate AllOnGrid(table: seq<DeviceTableEntry>, minor: int) {
    forall i :: 0 <= i < |table| ==> OnGrid(table[i], minor)
  }

  lemma IPhones2To9OnGridBelow8(i: nat, minor: int)
    requires i < 8
    ensures OnGrid(IPHONES_2_TO_9[i], minor)
  {
    hide Spelling;
  }

  lemma IPhones2To9OnGridFrom8(i: nat, minor: int)
    requires 8 <= i < |IPHONES_2_TO_9|
    ensures OnGrid(IPHONES_2_TO_9[i], minor)
  {
    hide Spelling;
  }

  lemma IPhones2To9OnGrid(minor: int)
    ensures AllOnGrid(IPHONES_2_TO_9, minor)
  {
    hide Spelling, OnGrid;
    forall i | 0 <= i < |IPHONES_2_TO_9| ensures OnGrid(IPHONES_2_TO_9[i], minor) {
      if i < 8 {
        IPhones2To9OnGridBelow8(i, minor);
      } else {
        IPhones2To9OnGridFrom8(i, minor);
      }
    }
  }

  lemma IPhones10To11OnGrid(minor: int)
    ensures AllOnGrid(IPHONES_10_TO_11, minor)
  {
    hide Spelling;
  }

  lemma IPhones12To13OnGrid(minor: int)
    ensures AllOnGrid(IPHONES_12_TO_13, minor)
  {
    hide Spelling;
  }

  lemma IPhones14To15OnGrid(minor: int)
    ensures AllOnGrid(IPHONES_14_TO_15, minor)
  {
    hide Spelling;
  }

  lemma IPhones16OnOnGrid(minor: int)
    ensures AllOnGrid(IPHONES_16_ON, minor)
  {
    hide Spelling;
  }

  lemma IPodsOnGrid(minor: int)
    ensures AllOnGrid(IPODS, minor)
  {
    hide Spelling;
  }

  lemma IPadsFirstOnGridBelow8(i: nat, minor: int)
    requires i < 8
    ensures OnGrid(IPADS_FIRST[i], minor)
  {
    hide Spelling;
  }

  lemma IPadsFirstOnGridFrom8(i: nat, minor: int)
    requires 8 <= i < |IPADS_FIRST|
    ensures OnGrid(IPADS_FIRST[i], minor)
  {
    hide Spelling;
  }

  lemma IPadsFirstOnGrid(minor: int)
    ensures AllOnGrid(IPADS_FIRST, minor)
  {
    hide Spelling, OnGrid;
    forall i | 0 <= i < |IPADS_FIRST| ensures OnGrid(IPADS_FIRST[i], minor) {
      if i < 8 {
        IPadsFirstOnGridBelow8(i, minor);
      } else {
        IPadsFirstOnGridFrom8(i, minor);
      }
    }
  }

  lemma IPadsSecondOnGridBelow8(i: nat, minor: int)
    requires i < 8
    ensures OnGrid(IPADS_SECOND[i], minor)
  {
    hide Spelling;
  }

  lemma IPadsSecondOnGridFrom8(i: nat, minor: int)
    requires 8 <= i < |IPADS_SECOND|
    ensures OnGrid(IPADS_SECOND[i], minor)
  {
    hide Spelling;
  }

  lemma IPadsSecondOnGrid(minor: int)
    ensures AllOnGrid(IPADS_SECOND, minor)
  {
    hide Spelling, OnGrid;
    forall i | 0 <= i < |IPADS_SECOND| ensures OnGrid(IPADS_SECOND[i], minor) {
      if i < 8 {
        IPadsSecondOnGridBelow8(i, minor);
      } else {
        IPadsSecondOnGridFrom8(i, minor);
      }
    }
  }

  lemma AppleTVsOnGrid(minor: int)
    ensures AllOnGrid(APPLE_TVS, minor)
  {
    hide Spelling;
  }

  lemma TableOnGrid(minor: int)
    ensures AllOnGrid(DEVICE_TABLE, minor)
  {
    hide OnGrid;
    IPhones2To9OnGrid(minor);
    IPhones10To11OnGrid(minor);
    IPhones12To13OnGrid(minor);
    IPhones14To15OnGrid(minor);
    IPhones16OnOnGrid(minor);
    IPodsOnGrid(minor);
    IPadsFirstOnGrid(minor);
    IPadsSecondOnGrid(minor);
    AppleTVsOnGrid(minor);
  }

  // ----- Every number on the grid is in the table -----

  ghost predicate MatchesAt(table: seq<DeviceTableEntry>, k: nat, t: DeviceType, major: int, minor: int) {
    k < |table| && table[k].Matches(t, major, minor)
  }

  ghost predicate OneOfEight(table: seq<DeviceTableEntry>, k: nat, t: DeviceType, major: int, minor: int) {
    || MatchesAt(table, k, t, major, minor) || MatchesAt(table, k + 1, t, major, minor)
    || MatchesAt(table, k + 2, t, major, minor) || MatchesAt(table, k + 3, t, major, minor)
    || MatchesAt(table, k + 4, t, major, minor) || MatchesAt(table, k + 5, t, major, minor)
    || MatchesAt(table, k + 6, t, major, minor) || MatchesAt(table, k + 7, t, major, minor)
  }

  ghost predicate OneOfSixteen(table: seq<DeviceTableEntry>, t: DeviceType, major: int, minor: int) {
    OneOfEight(table, 0, t, major, minor) || OneOfEight(table, 8, t, major, minor)
  }

  /** Some entry matches. */
  ghost predicate Covers(table: seq<DeviceTableEntry>, t: DeviceType, major: int, minor: int) {
    exists e :: e in table && e.Matches(t, major, minor)
  }

  lemma CoversByEights(table: seq<DeviceTableEntry>, t: DeviceType, major: int, minor: int)
    requires OneOfSixteen(table, t, major, minor)
    ensures Covers(table, t, major, minor)
  {
    forall k: nat | MatchesAt(table, k, t, major, minor) ensures Covers(table, t, major, minor) {
      assert table[k] in table;
    }
  }

  lemma IPhones2To9Covered(major: int, minor: int)
    requires GridGeneration(iPhone, major, minor) != 0 && 2 <= major <= 9
    ensures Covers(IPHONES_2_TO_9, iPhone, major, minor)
  {
    hide Spelling;
    assert OneOfSixteen(IPHONES_2_TO_9, iPhone, major, minor);
    CoversByEights(IPHONES_2_TO_9, iPhone, major, minor);
  }

  lemma IPhones10To11Covered(major: int, minor: int)
    requires GridGeneration(iPhone, major, minor) != 0 && 10 <= major <= 11
    ensures Covers(IPHONES_10_TO_11, iPhone, major, minor)
  {
    hide Spelling;
    assert OneOfSixteen(IPHONES_10_TO_11, iPhone, major, minor);
    CoversByEights(IPHONES_10_TO_11, iPhone, major, minor);
  }

  lemma IPhones12To13Covered(major: int, minor: int)
    requires GridGeneration(iPhone, major, minor) != 0 && 12 <= major <= 13
    ensures Covers(IPHONES_12_TO_13, iPhone, major, minor)
  {
    hide Spelling;
    assert OneOfSixteen(IPHONES_12_TO_13, iPhone, major, minor);
    CoversByEights(IPHONES_12_TO_13, iPhone, major, minor);
  }

  lemma IPhones14To15Covered(major: int, minor: int)
    requires GridGeneration(iPhone, major, minor) != 0 && 14 <= major <= 15
    ensures Covers(IPHONES_14_TO_15, iPhone, major, minor)
  {
    hide Spelling;
    assert OneOfSixteen(IPHONES_14_TO_15, iPhone, major, minor);
    CoversByEights(IPHONES_14_TO_15, iPhone, major, minor);
  }

  lemma IPhones16OnCovered(major: int, minor: int)
    requires GridGeneration(iPhone, major, minor) != 0 && major >= 16
    ensures Covers(IPHONES_16_ON, iPhone, major, minor)
  {
    hide Spelling;
    assert OneOfSixteen(IPHONES_16_ON, iPhone, major, minor);
    CoversByEights(IPHONES_16_ON, iPhone, major, minor);
  }

  lemma IPodsCovered(major: int, minor: int)
    requires GridGeneration(iPod, major, minor) != 0
    ensures Covers(IPODS, iPod, major, minor)
  {
    hide Spelling;
    assert OneOfSixteen(IPODS, iPod, major, minor);
    CoversByEights(IPODS, iPod, major, minor);
  }

  lemma AppleTVsCovered(major: int, minor: int)
    requires GridGeneration(AppleTV, major, minor) != 0
    ensures Covers(APPLE_TVS, AppleTV, major, minor)
  {
    hide Spelling;
    assert OneOfSixteen(APPLE_TVS, AppleTV, major, minor);
    CoversByEights(APPLE_TVS, AppleTV, major, minor);
  }

  lemma IPadsUpTo7Covered(major: int, minor: int)
    requires GridGeneration(iPad, major, minor) != 0 && major <= 7
    ensures Covers(IPADS_FIRST, iPad, major, minor) || Covers(IPADS_SECOND, iPad, major, minor)
  {
    hide Spelling;
    assert OneOfSixteen(IPADS_FIRST, iPad, major, minor) || OneOfSixteen(IPADS_SECOND, iPad, major, minor);
    if OneOfSixteen(IPADS_FIRST, iPad, major, minor) {
      CoversByEights(IPADS_FIRST, iPad, major, minor);
    } else {
      CoversByEights(IPADS_SECOND, iPad, major, minor);
    }
  }

  lemma IPadsFrom8Covered(major: int, minor: int)
    requires GridGeneration(iPad, major, minor) != 0 && major >= 8
    ensures Covers(IPADS_FIRST, iPad, major, minor) || Covers(IPADS_SECOND, iPad, major, minor)
  {
    hide Spelling;
    assert OneOfSixteen(IPADS_FIRST, iPad, major, minor) || OneOfSixteen(IPADS_SECOND, iPad, major, minor);
    if OneOfSixteen(IPADS_FIRST, iPad, major, minor) {
      CoversByEights(IPADS_FIRST, iPad, major, minor);
    } else {
      CoversByEights(IPADS_SECOND, iPad, major, minor);
    }
  }

  lemma GridIsCovered(t: DeviceType, major: int, minor: int)
    requires GridGeneration(t, major, minor) != 0
    ensures Covers(DEVICE_TABLE, t, major, minor)
  {
    hide Entry;
    match t
    case iPhone =>
      if major <= 9 {
        IPhones2To9Covered(major, minor);
      } else if major <= 11 {
        IPhones10To11Covered(major, minor);
      } else if major <= 13 {
        IPhones12To13Covered(major, minor);
      } else if major <= 15 {
        IPhones14To15Covered(major, minor);
      } else {
        IPhones16OnCovered(major, minor);
      }
    case iPad =>
      if major <= 7 {
        IPadsUpTo7Covered(major, minor);
      } else {
        IPadsFrom8Covered(major, minor);
      }
    case iPod => IPodsCovered(major, minor);
    case AppleTV => AppleTVsCovered(major, minor);
  }

  /** For all numbers, the scan of the table finds what the grid says, and nothing where it says none. */
  lemma ScanIsGrid(t: DeviceType, major: int, minor: int)
    ensures match FirstMatch(DEVICE_TABLE, t, major, minor, 0)
            case Some(i) => DEVICE_TABLE[i].device == GridGeneration(t, major, minor) != 0
            case None => GridGeneration(t, major, minor) == 0
  {
    hide Entry, GridGeneration, FirstMatch;
    TableOnGrid(minor);
    var r := FirstMatch(DEVICE_TABLE, t, major, minor, 0);
    if r.Some? {
      assert OnGrid(DEVICE_TABLE[r.value], minor);
    } else if GridGeneration(t, major, minor) != 0 {
      GridIsCovered(t, major, minor);
      assert false;
    }
  }

  // ----- The other answers, cell by cell -----

  lemma PhoneDpiUpTo9(major: int, minor: int)
    requires major <= 9 && GridGeneration(iPhone, major, minor) != 0
    ensures DpiOf(GridGeneration(iPhone, major, minor)) == DpiByNumber(iPhone, major, minor)
  {}

  lemma PhoneDpi10To12(major: int, minor: int)
    requires 10 <= major <= 12 && GridGeneration(iPhone, major, minor) != 0
    ensures DpiOf(GridGeneration(iPhone, major, minor)) == DpiByNumber(iPhone, major, minor)
  {}

  lemma PhoneDpi13To14(major: int, minor: int)
    requires 13 <= major <= 14 && GridGeneration(iPhone, major, minor) != 0
    ensures DpiOf(GridGeneration(iPhone, major, minor)) == DpiByNumber(iPhone, major, minor)
  {}

  lemma PhoneDpiFrom15(major: int, minor: int)
    requires major >= 15 && GridGeneration(iPhone, major, minor) != 0
    ensures DpiOf(GridGeneration(iPhone, major, minor)) == DpiByNumber(iPhone, major, minor)
  {}

  lemma PhoneDpi(major: int, minor: int)
    requires GridGeneration(iPhone, major, minor) != 0
    ensures DpiOf(GridGeneration(iPhone, major, minor)) == DpiByNumber(iPhone, major, minor)
  {
    hide GridGeneration, DpiOf, DpiByNumber, CutoutInfoOf, CutoutInfoByNumber, LacksStylus, StylusByNumber;
    if major <= 9 {
      PhoneDpiUpTo9(major, minor);
    } else if major <= 12 {
      PhoneDpi10To12(major, minor);
    } else if major <= 14 {
      PhoneDpi13To14(major, minor);
    } else {
      PhoneDpiFrom15(major, minor);
    }
  }

  lemma PadDpiUpTo4(major: int, minor: int)
    requires major <= 4 && GridGeneration(iPad, major, minor) != 0
    ensures DpiOf(GridGeneration(iPad, major, minor)) == DpiByNumber(iPad, major, minor)
  {}

  lemma PadDpi5To7(major: int, minor: int)
    requires 5 <= major <= 7 && GridGeneration(iPad, major, minor) != 0
    ensures DpiOf(GridGeneration(iPad, major, minor)) == DpiByNumber(iPad, major, minor)
  {}

  lemma PadDpi8To12(major: int, minor: int)
    requires 8 <= major <= 12 && GridGeneration(iPad, major, minor) != 0
    ensures DpiOf(GridGeneration(iPad, major, minor)) == DpiByNumber(iPad, major, minor)
  {}

  lemma PadDpiFrom13(major: int, minor: int)
    requires major >= 13 && GridGeneration(iPad, major, minor) != 0
    ensures DpiOf(GridGeneration(iPad, major, minor)) == DpiByNumber(iPad, major, minor)
  {}

  lemma PadDpi(major: int, minor: int)
    requires GridGeneration(iPad, major, minor) != 0
    ensures DpiOf(GridGeneration(iPad, major, minor)) == DpiByNumber(iPad, major, minor)
  {
    hide GridGeneration, DpiOf, DpiByNumber, CutoutInfoOf, CutoutInfoByNumber, LacksStylus, StylusByNumber;
    if major <= 4 {
      PadDpiUpTo4(major, minor);
    } else if major <= 7 {
      PadDpi5To7(major, minor);
    } else if major <= 12 {
      PadDpi8To12(major, minor);
    } else {
      PadDpiFrom13(major, minor);
    }
  }

  lemma PodDpi(major: int, minor: int)
    requires GridGeneration(iPod, major, minor) != 0
    ensures DpiOf(GridGeneration(iPod, major, minor)) == DpiByNumber(iPod, major, minor)
  {}

  lemma TvDpi(major: int, minor: int)
    requires GridGeneration(AppleTV, major, minor) != 0
    ensures DpiOf(GridGeneration(AppleTV, major, minor)) == DpiByNumber(AppleTV, major, minor)
  {}

  lemma PadStylusUpTo6(major: int, minor: int)
    requires major <= 6 && GridGeneration(iPad, major, minor) != 0
    ensures LacksStylus(GridGeneration(iPad, major, minor)) <==> !StylusByNumber(iPad, major, minor)
  {}

  lemma PadStylus7To8(major: int, minor: int)
    requires 7 <= major <= 8 && GridGeneration(iPad, major, minor) != 0
    ensures LacksStylus(GridGeneration(iPad, major, minor)) <==> !StylusByNumber(iPad, major, minor)
  {}

  lemma PadStylus9To12(major: int, minor: int)
    requires 9 <= major <= 12 && GridGeneration(iPad, major, minor) != 0
    ensures LacksStylus(GridGeneration(iPad, major, minor)) <==> !StylusByNumber(iPad, major, minor)
  {}

  lemma PadStylusFrom13(major: int, minor: int)
    requires major >= 13 && GridGeneration(iPad, major, minor) != 0
    ensures LacksStylus(GridGeneration(iPad, major, minor)) <==> !StylusByNumber(iPad, major, minor)
  {}

  lemma PadStylus(major: int, minor: int)
    requires GridGeneration(iPad, major, minor) != 0
    ensures LacksStylus(GridGeneration(iPad, major, minor)) <==> !StylusByNumber(iPad, major, minor)
  {
    hide GridGeneration, DpiOf, DpiByNumber, CutoutInfoOf, CutoutInfoByNumber, LacksStylus, StylusByNumber;
    if major <= 6 {
      PadStylusUpTo6(major, minor);
    } else if major <= 8 {
      PadStylus7To8(major, minor);
    } else if major <= 12 {
      PadStylus9To12(major, minor);
    } else {
      PadStylusFrom13(major, minor);
    }
  }

  lemma PhoneCutoutUpTo9(major: int, minor: int)
    requires major <= 9 && GridGeneration(iPhone, major, minor) != 0
    ensures CutoutInfoOf(GridGeneration(iPhone, major, minor)) == CutoutInfoByNumber(iPhone, major, minor)
  {}

  lemma PhoneCutout10To13(major: int, minor: int)
    requires 10 <= major <= 13 && GridGeneration(iPhone, major, minor) != 0
    ensures CutoutInfoOf(GridGeneration(iPhone, major, minor)) == CutoutInfoByNumber(iPhone, major, minor)
  {}

  lemma PhoneCutoutFrom14(major: int, minor: int)
    requires major >= 14 && GridGeneration(iPhone, major, minor) != 0
    ensures CutoutInfoOf(GridGeneration(iPhone, major, minor)) == CutoutInfoByNumber(iPhone, major, minor)
  {}

  lemma PhoneCutout(major: int, minor: int)
    requires GridGeneration(iPhone, major, minor) != 0
    ensures CutoutInfoOf(GridGeneration(iPhone, major, minor)) == CutoutInfoByNumber(iPhone, major, minor)
  {
    hide GridGeneration, DpiOf, DpiByNumber, CutoutInfoOf, CutoutInfoByNumber, LacksStylus, StylusByNumber;
    if major <= 9 {
      PhoneCutoutUpTo9(major, minor);
    } else if major <= 13 {
      PhoneCutout10To13(major, minor);
    } else {
      PhoneCutoutFrom14(major, minor);
    }
  }

  /** Cutouts belong to iPhones, and a generation on the grid to the family it is listed under. */
  lemma CellCutout(t: DeviceType, major: int, minor: int)
    requires GridGeneration(t, major, minor) != 0
    ensures CutoutInfoOf(GridGeneration(t, major, minor)) == CutoutInfoByNumber(t, major, minor)
  {
    hide GridGeneration, CutoutRatioForDeviceGeneration, Family, FirstMatch, RatioByNumber, DpiSwitch;
    if t == iPhone {
      PhoneCutout(major, minor);
    } else {
      ScanIsGrid(t, major, minor);
      var i := FirstMatch(DEVICE_TABLE, t, major, minor, 0).value;
      EntrySound(i);
      PhoneSwitches(GridGeneration(t, major, minor));
    }
  }

  /** What the switches give for a generation on the grid is what its numbers call for. */
  lemma GridAnswers(t: DeviceType, major: int, minor: int)
    requires GridGeneration(t, major, minor) != 0
    ensures var g := GridGeneration(t, major, minor);
            && DpiOf(g) == DpiByNumber(t, major, minor) && CutoutInfoOf(g) == CutoutInfoByNumber(t, major, minor)
            && (t == iPad ==> (LacksStylus(g) <==> !StylusByNumber(t, major, minor)))
  {
    hide GridGeneration, DpiByNumber, CutoutInfoByNumber, StylusByNumber, DpiOf, CutoutInfoOf, LacksStylus;
    CellCutout(t, major, minor);
    match t
    case iPhone => PhoneDpi(major, minor);
    case iPad =>
      PadDpi(major, minor);
      PadStylus(major, minor);
    case iPod => PodDpi(major, minor);
    case AppleTV => TvDpi(major, minor);
  }

  // ----- Every string -----

  /** What is known of a device. */
  datatype DeviceFacts = DeviceFacts(generation: int, dpi: real, cutout: DeviceCutoutInfo, stylus: bool)

  const NO_CUTOUT := DeviceCutoutInfo((0.0, 0.0), false)

  /** The facts by the numbers of the entry that the parser finds, or by the prefix when it finds none. */
  function FactsOf(model: CString): DeviceFacts {
    match EntryOf(model)
    case Some(i) => FactsByNumber(DEVICE_TABLE[i].deviceType, DEVICE_TABLE[i].majorGen, DEVICE_TABLE[i].minorGenMin)
    case None =>
      if "iPhone" <= model then DeviceFacts(10001, 326.0, NO_CUTOUT, false)
      else if "iPad" <= model then DeviceFacts(10002, 264.0, NO_CUTOUT, true)
      else if "iPod" <= model then DeviceFacts(10003, 326.0, NO_CUTOUT, false)
      else if "AppleTV" <= model then DeviceFacts(10004, 0.0, NO_CUTOUT, false)
      else DeviceFacts(0, 0.0, NO_CUTOUT, false)
  }

  function FactsByNumber(t: DeviceType, major: int, minor: int): DeviceFacts {
    DeviceFacts(GridGeneration(t, major, minor), DpiByNumber(t, major, minor), CutoutInfoByNumber(t, major, minor),
                StylusByNumber(t, major, minor))
  }

  /** For every string there is, the queries without caches answer the facts. */
  lemma FactsAreAnswers(model: CString)
    ensures var f := FactsOf(model);
            && GenerationOf(model) == f.generation && DpiOf(GenerationOf(model)) == f.dpi
            && CutoutInfoOf(GenerationOf(model)) == f.cutout && (StylusSupported(model) <==> f.stylus)
  {
    hide Family, EntryOf, TypeOf, GridGeneration, DpiByNumber, CutoutInfoByNumber, DpiOf, CutoutInfoOf, LacksStylus,
      StrncmpIsZero, Entry;
    TypeIsPrefix(model);
    StrncmpIsPrefix(model, 0, IPAD, 0);
    if EntryOf(model).Some? {
      var e := DEVICE_TABLE[EntryOf(model).value];
      TableOnGrid(e.minorGenMin);
      EntrySound(EntryOf(model).value);
      EntryHasType(model);
      GridAnswers(e.deviceType, e.majorGen, e.minorGenMin);
    } else {
      UnknownAnswers();
    }
  }

  lemma UnknownAnswers()
    ensures DpiOf(deviceiPhoneUnknown) == DpiOf(deviceiPodTouchUnknown) == 326.0 && DpiOf(deviceiPadUnknown) == 264.0
    ensures DpiOf(deviceAppleTVUnknown) == DpiOf(deviceUnknown) == 0.0
    ensures CutoutInfoOf(deviceiPhoneUnknown) == CutoutInfoOf(deviceiPodTouchUnknown) == NO_CUTOUT
    ensures CutoutInfoOf(deviceiPadUnknown) == NO_CUTOUT
    ensures CutoutInfoOf(deviceAppleTVUnknown) == CutoutInfoOf(deviceUnknown) == NO_CUTOUT
    ensures !LacksStylus(deviceiPadUnknown)
  {}

  /** A cutout is reported exactly for the iPhones 10,3 and 10,6 and for those from 11 on in the table
      but 12,8 and 14,6. */
  lemma CutoutExactly(model: CString)
    ensures CutoutInfoOf(GenerationOf(model)).hasCutout
            <==> EntryOf(model).Some?
                 && var e := DEVICE_TABLE[EntryOf(model).value];
                    && e.deviceType == iPhone
                    && ((e.majorGen == 10 && (e.minorGenMin == 3 || e.minorGenMin == 6))
                        || (e.majorGen >= 11 && !(e.majorGen == 12 && e.minorGenMin == 8)
                            && !(e.majorGen == 14 && e.minorGenMin == 6)))
  {
    hide EntryOf, TypeOf, GenerationOf, CutoutInfoOf, GridGeneration, DpiByNumber, StylusByNumber, RatioByNumber;
    FactsAreAnswers(model);
  }

  /** The stylus is reported exactly for iPads that are not in the table, for those from 7 on, and for
      those of 6 up to 6,8. */
  lemma StylusExactly(model: CString)
    ensures StylusSupported(model)
            <==> "iPad" <= model
                 && (EntryOf(model).Some? ==>
                       var e := DEVICE_TABLE[EntryOf(model).value];
                       e.majorGen >= 7 || (e.majorGen == 6 && e.minorGenMax <= 8))
  {
    hide EntryOf, TypeOf, GenerationOf, StylusSupported, CutoutInfoByNumber, GridGeneration, DpiByNumber, OnGrid,
      Family, CutoutInfoOf, DpiOf, Entry;
    FactsAreAnswers(model);
    TypeIsPrefix(model);
    if EntryOf(model).Some? {
      EntryHasType(model);
    }
    if EntryOf(model).Some? && "iPad" <= model {
      var e := DEVICE_TABLE[EntryOf(model).value];
      TableOnGrid(e.minorGenMin);
      TableOnGrid(e.minorGenMax);
      EntrySound(EntryOf(model).value);
      SameStylus(e);
    }
  }

  lemma SameStylus(e: DeviceTableEntry)
    requires OnGrid(e, e.minorGenMin) && OnGrid(e, e.minorGenMax)
    requires e.minorGenMin <= e.minorGenMax && e.deviceType == iPad
    ensures StylusByNumber(iPad, e.majorGen, e.minorGenMin) <==> StylusByNumber(iPad, e.majorGen, e.minorGenMax)
  {
    hide LacksStylus, GridGeneration, DpiByNumber, CutoutInfoByNumber, DpiOf, CutoutInfoOf;
    GridAnswers(iPad, e.majorGen, e.minorGenMin);
    GridAnswers(iPad, e.majorGen, e.minorGenMax);
  }

  // ----- Printed models -----

  /** For all numbers, the generation of the model that is printed with them is the one on the grid, and
      the unknown one of the family where the grid has none. */
  lemma PrintedGeneration(t: DeviceType, major: nat, minor: nat)
    ensures var model := Print(t, major, minor);
            (forall k :: 0 <= k < |model| ==> model[k] != NUL)
            && GenerationOf(model)
               == if GridGeneration(t, major, minor) != 0 then GridGeneration(t, major, minor)
                  else match t case iPhone => 10001 case iPad => 10002 case iPod => 10003 case AppleTV => 10004
  {
    hide ToDecimal, Print, EntryOf, TypeOf, GridGeneration, FirstMatch, Saturate, Entry;
    PrintedIsString(t, major, minor);
    PrintedEntry(t, major, minor, Print(t, major, minor));
    ScanIsGrid(t, Saturate(major), Saturate(minor));
    GridIsSmall(t, major, minor);
  }

  lemma PrintedEntry(t: DeviceType, major: nat, minor: nat, model: CString)
    requires model == Print(t, major, minor)
    ensures TypeOf(model) == Some(t)
    ensures EntryOf(model) == FirstMatch(DEVICE_TABLE, t, Saturate(major), Saturate(minor), 0)
  {
    hide ToDecimal, Decimal, TypeOf, Prefix, FirstMatch, Numbers, Saturate, Entry;
    DecimalRoundTrip(major);
    DecimalRoundTrip(minor);
    NumbersOfText(model, t, Numeral("", "", ToDecimal(major)), ',', Numeral("", "", ToDecimal(minor)));
    TypeIsPrefix(model);
  }

  lemma GridIsSmall(t: DeviceType, major: nat, minor: nat)
    ensures GridGeneration(t, Saturate(major), Saturate(minor)) == GridGeneration(t, major, minor)
  {}

  lemma PrintedIsString(t: DeviceType, major: nat, minor: nat)
    ensures forall k :: 0 <= k < |Print(t, major, minor)| ==> Print(t, major, minor)[k] != NUL
  {
    hide ToDecimal;
    DecimalRoundTrip(major);
    DecimalRoundTrip(minor);
    DigitsAreNotNul(ToDecimal(major));
    DigitsAreNotNul(ToDecimal(minor));
  }

  /** One model in full: the iPhone X. */
  lemma IPhoneX(model: CString)
    requires model == "iPhone10,3"
    ensures GenerationOf(model) == 39 && DpiOf(GenerationOf(model)) == 458.0 && !StylusSupported(model)
    ensures CutoutInfoOf(GenerationOf(model)) == DeviceCutoutInfo((0.5391, 0.0368), true)
  {
    hide GenerationOf, TypeOf, DpiOf, CutoutInfoOf, StylusSupported, ToDecimal, GridGeneration, EntryOf;
    PrintedX();
    PrintedGeneration(iPhone, 10, 3);
    NumberX();
    assert model[2] != "iPad"[2];
    StylusExactly(model);
  }

  lemma PrintedX()
    ensures Print(iPhone, 10, 3) == "iPhone10,3"
  {
    assert ToDecimal(1) == "1" && ToDecimal(3) == "3";
    assert ToDecimal(10) == ToDecimal(1) + "0";
  }

  lemma NumberX()
    ensures GridGeneration(iPhone, 10, 3) == 39 && DpiOf(39) == 458.0
    ensures CutoutInfoOf(39) == DeviceCutoutInfo((0.5391, 0.0368), true)
  {}

}
