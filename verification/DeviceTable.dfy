/** DeviceTable of Classes/Unity/DeviceInfo.cpp and the first-match scan over it. */
module DeviceTable {
  import opened Options
  import opened DeviceGenerations

  datatype DeviceTableEntry = DeviceTableEntry(
    deviceType: DeviceType,
    majorGen: nat,
    minorGenMin: nat,
    minorGenMax: nat,
    device: DeviceGeneration,
    deviceName: string)
  {
    /** The three tests of the scan. */
    predicate Matches(t: DeviceType, major: int, minor: int) {
      t == deviceType && major == majorGen && minorGenMin <= minor <= minorGenMax
    }
  }

  /** The macro DEVICE_TABLE_ENTRY, which makes a string of the enumerator it is given. */
  function Entry(t: DeviceType, major: nat, minorMin: nat, minorMax: nat, g: DeviceGeneration): DeviceTableEntry {
    DeviceTableEntry(t, major, minorMin, minorMax, g, Spelling(g))
  }

  // ----- Tables of any length -----

  /** No model number matches both entries. */
  ghost predicate Apart(e: DeviceTableEntry, f: DeviceTableEntry) {
    || e.deviceType != f.deviceType
    || e.majorGen != f.majorGen
    || e.minorGenMax < f.minorGenMin
    || f.minorGenMax < e.minorGenMin
  }

  ghost predicate Disjoint(table: seq<DeviceTableEntry>) {
    forall i, j :: 0 <= i < j < |table| ==> Apart(table[i], table[j])
  }

  ghost predicate AllApart(s: seq<DeviceTableEntry>, t: seq<DeviceTableEntry>) {
    forall i, j :: 0 <= i < |s| && 0 <= j < |t| ==> Apart(s[i], t[j])
  }

  /** The index of the first match from `k` on. */
  function FirstMatch(table: seq<DeviceTableEntry>, t: DeviceType, major: int, minor: int, k: nat): (r: Option<nat>)
    requires k <= |table|
    ensures r.Some? ==> k <= r.value < |table| && table[r.value].Matches(t, major, minor)
    ensures r.Some? ==> forall i :: k <= i < r.value ==> !table[i].Matches(t, major, minor)
    ensures r.None? ==> forall i :: k <= i < |table| ==> !table[i].Matches(t, major, minor)
    decreases |table| - k
  {
    if k == |table| then None
    else if table[k].Matches(t, major, minor) then Some(k)
    else FirstMatch(table, t, major, minor, k + 1)
  }

  /** In a disjoint table the first match is the only one. */
  lemma MatchIsUnique(table: seq<DeviceTableEntry>, t: DeviceType, major: int, minor: int, i: nat)
    requires Disjoint(table) && i < |table|
    ensures FirstMatch(table, t, major, minor, 0) == Some(i) <==> table[i].Matches(t, major, minor)
  {
    var r := FirstMatch(table, t, major, minor, 0);
    if r.Some? && r.value < i {
      assert Apart(table[r.value], table[i]);
    }
  }

  function Found(table: seq<DeviceTableEntry>, t: DeviceType, major: int, minor: int): Option<DeviceTableEntry> {
    match FirstMatch(table, t, major, minor, 0)
    case None => None
    case Some(i) => Some(table[i])
  }

  /** Reordering a disjoint table does not change what the scan finds. */
  lemma OrderDoesNotMatter(table: seq<DeviceTableEntry>, other: seq<DeviceTableEntry>,
                           t: DeviceType, major: int, minor: int)
    requires Disjoint(table) && multiset(table) == multiset(other)
    ensures Found(table, t, major, minor) == Found(other, t, major, minor)
  {
    var r, r' := FirstMatch(table, t, major, minor, 0), FirstMatch(other, t, major, minor, 0);
    if r.Some? {
      assert table[r.value] in multiset(other);
      assert table[r.value] in other;
    }
    if r'.Some? {
      assert other[r'.value] in multiset(table);
      var i :| 0 <= i < |table| && table[i] == other[r'.value];
      MatchIsUnique(table, t, major, minor, i);
    }
  }

  lemma DisjointConcatenation(s: seq<DeviceTableEntry>, t: seq<DeviceTableEntry>)
    requires Disjoint(s) && Disjoint(t) && AllApart(s, t)
    ensures Disjoint(s + t)
  {
    forall i, j | 0 <= i < j < |s + t| ensures Apart((s + t)[i], (s + t)[j]) {
      if i < |s| <= j {
        assert Apart(s[i], t[j - |s|]);
      } else if i >= |s| {
        assert Apart(t[i - |s|], t[j - |s|]);
      }
    }
  }

  lemma ApartFromConcatenation(r: seq<DeviceTableEntry>, s: seq<DeviceTableEntry>, t: seq<DeviceTableEntry>)
    requires AllApart(r, s) && AllApart(r, t)
    ensures AllApart(r, s + t)
  {
    forall i, j | 0 <= i < |r| && 0 <= j < |s + t| ensures Apart(r[i], (s + t)[j]) {
      if j >= |s| {
        assert Apart(r[i], t[j - |s|]);
      }
    }
  }

  // ----- The table, in blocks of the source's own order -----

  const IPHONES_2_TO_9: seq<DeviceTableEntry> := [
    Entry(iPhone, 2, 1, 1, deviceiPhone3GS),
    Entry(iPhone, 3, 1, 3, deviceiPhone4),
    Entry(iPhone, 4, 1, 1, deviceiPhone4S),
    Entry(iPhone, 5, 3, 4, deviceiPhone5C),
    Entry(iPhone, 5, 1, 2, deviceiPhone5),
    Entry(iPhone, 6, 1, 2, deviceiPhone5S),
    Entry(iPhone, 7, 2, 2, deviceiPhone6),
    Entry(iPhone, 7, 1, 1, deviceiPhone6Plus),
    Entry(iPhone, 8, 1, 1, deviceiPhone6S),
    Entry(iPhone, 8, 2, 2, deviceiPhone6SPlus),
    Entry(iPhone, 8, 4, 4, deviceiPhoneSE1Gen),
    Entry(iPhone, 9, 1, 1, deviceiPhone7),
    Entry(iPhone, 9, 3, 3, deviceiPhone7),
    Entry(iPhone, 9, 2, 2, deviceiPhone7Plus),
    Entry(iPhone, 9, 4, 4, deviceiPhone7Plus)
  ]

  const IPHONES_10_TO_11: seq<DeviceTableEntry> := [
    Entry(iPhone, 10, 1, 1, deviceiPhone8),
    Entry(iPhone, 10, 4, 4, deviceiPhone8),
    Entry(iPhone, 10, 2, 2, deviceiPhone8Plus),
    Entry(iPhone, 10, 5, 5, deviceiPhone8Plus),
    Entry(iPhone, 10, 3, 3, deviceiPhoneX),
    Entry(iPhone, 10, 6, 6, deviceiPhoneX),
    Entry(iPhone, 11, 8, 8, deviceiPhoneXR),
    Entry(iPhone, 11, 2, 2, deviceiPhoneXS),
    Entry(iPhone, 11, 4, 4, deviceiPhoneXSMax),
    Entry(iPhone, 11, 6, 6, deviceiPhoneXSMax)
  ]

  const IPHONES_12_TO_13: seq<DeviceTableEntry> := [
    Entry(iPhone, 12, 1, 1, deviceiPhone11),
    Entry(iPhone, 12, 3, 3, deviceiPhone11Pro),
    Entry(iPhone, 12, 5, 5, deviceiPhone11ProMax),
    Entry(iPhone, 12, 8, 8, deviceiPhoneSE2Gen),
    Entry(iPhone, 13, 1, 1, deviceiPhone12Mini),
    Entry(iPhone, 13, 2, 2, deviceiPhone12),
    Entry(iPhone, 13, 3, 3, deviceiPhone12Pro),
    Entry(iPhone, 13, 4, 4, deviceiPhone12ProMax)
  ]

  const IPHONES_14_TO_15: seq<DeviceTableEntry> := [
    Entry(iPhone, 14, 4, 4, deviceiPhone13Mini),
    Entry(iPhone, 14, 5, 5, deviceiPhone13),
    Entry(iPhone, 14, 2, 2, deviceiPhone13Pro),
    Entry(iPhone, 14, 3, 3, deviceiPhone13ProMax),
    Entry(iPhone, 14, 6, 6, deviceiPhoneSE3Gen),
    Entry(iPhone, 14, 7, 7, deviceiPhone14),
    Entry(iPhone, 14, 8, 8, deviceiPhone14Plus),
    Entry(iPhone, 15, 2, 2, deviceiPhone14Pro),
    Entry(iPhone, 15, 3, 3, deviceiPhone14ProMax),
    Entry(iPhone, 15, 4, 4, deviceiPhone15),
    Entry(iPhone, 15, 5, 5, deviceiPhone15Plus)
  ]

  const IPHONES_16_ON: seq<DeviceTableEntry> := [
    Entry(iPhone, 16, 1, 1, deviceiPhone15Pro),
    Entry(iPhone, 16, 2, 2, deviceiPhone15ProMax),
    Entry(iPhone, 17, 3, 3, deviceiPhone16),
    Entry(iPhone, 17, 5, 5, deviceiPhone16e),
    Entry(iPhone, 17, 4, 4, deviceiPhone16Plus),
    Entry(iPhone, 17, 1, 1, deviceiPhone16Pro),
    Entry(iPhone, 17, 2, 2, deviceiPhone16ProMax),
    Entry(iPhone, 18, 3, 3, deviceiPhone17),
    Entry(iPhone, 18, 4, 4, deviceiPhoneAir),
    Entry(iPhone, 18, 1, 1, deviceiPhone17Pro),
    Entry(iPhone, 18, 2, 2, deviceiPhone17ProMax),
    Entry(iPhone, 18, 5, 5, deviceiPhone17e)
  ]

  const IPODS: seq<DeviceTableEntry> := [
    Entry(iPod, 4, 1, 1, deviceiPodTouch4Gen),
    Entry(iPod, 5, 1, 1, deviceiPodTouch5Gen),
    Entry(iPod, 7, 1, 1, deviceiPodTouch6Gen),
    Entry(iPod, 9, 1, 1, deviceiPodTouch7Gen)
  ]

  const IPADS_FIRST: seq<DeviceTableEntry> := [
    Entry(iPad, 2, 5, 7, deviceiPadMini1Gen),
    Entry(iPad, 4, 4, 6, deviceiPadMini2Gen),
    Entry(iPad, 4, 7, 9, deviceiPadMini3Gen),
    Entry(iPad, 5, 1, 2, deviceiPadMini4Gen),
    Entry(iPad, 11, 1, 2, deviceiPadMini5Gen),
    Entry(iPad, 14, 1, 2, deviceiPadMini6Gen),
    Entry(iPad, 2, 1, 4, deviceiPad2Gen),
    Entry(iPad, 3, 1, 3, deviceiPad3Gen),
    Entry(iPad, 3, 4, 6, deviceiPad4Gen),
    Entry(iPad, 6, 11, 12, deviceiPad5Gen),
    Entry(iPad, 7, 5, 6, deviceiPad6Gen),
    Entry(iPad, 7, 11, 12, deviceiPad7Gen),
    Entry(iPad, 12, 1, 2, deviceiPad9Gen),
    Entry(iPad, 4, 1, 3, deviceiPadAir1),
    Entry(iPad, 5, 3, 4, deviceiPadAir2),
    Entry(iPad, 11, 3, 4, deviceiPadAir3Gen)
  ]

  const IPADS_SECOND: seq<DeviceTableEntry> := [
    Entry(iPad, 6, 7, 8, deviceiPadPro1Gen),
    Entry(iPad, 7, 1, 2, deviceiPadPro2Gen),
    Entry(iPad, 6, 3, 4, deviceiPadPro10Inch1Gen),
    Entry(iPad, 7, 3, 4, deviceiPadPro10Inch2Gen),
    Entry(iPad, 8, 1, 4, deviceiPadPro11Inch),
    Entry(iPad, 8, 9, 10, deviceiPadPro11Inch2Gen),
    Entry(iPad, 13, 6, 7, deviceiPadPro11Inch3Gen),
    Entry(iPad, 8, 5, 8, deviceiPadPro3Gen),
    Entry(iPad, 8, 11, 12, deviceiPadPro4Gen),
    Entry(iPad, 13, 10, 11, deviceiPadPro5Gen),
    Entry(iPad, 11, 6, 7, deviceiPad8Gen),
    Entry(iPad, 13, 1, 2, deviceiPadAir4Gen),
    Entry(iPad, 13, 16, 17, deviceiPadAir5Gen),
    Entry(iPad, 14, 5, 6, deviceiPadPro6Gen),
    Entry(iPad, 14, 3, 4, deviceiPadPro11Inch4Gen),
    Entry(iPad, 13, 18, 19, deviceiPad10Gen)
  ]

  const APPLE_TVS: seq<DeviceTableEntry> := [
    Entry(AppleTV, 5, 3, 3, deviceAppleTVHD),
    Entry(AppleTV, 6, 2, 2, deviceAppleTV4K),
    Entry(AppleTV, 11, 1, 1, deviceAppleTV4K2Gen),
    Entry(AppleTV, 14, 1, 1, deviceAppleTV4K3Gen)
  ]

  const DEVICE_TABLE: seq<DeviceTableEntry> :=
    IPHONES_2_TO_9 + (IPHONES_10_TO_11 + (IPHONES_12_TO_13 + (IPHONES_14_TO_15 + (IPHONES_16_ON
    + (IPODS + (IPADS_FIRST + (IPADS_SECOND + APPLE_TVS)))))))

  // ----- The table is disjoint -----

  /** Every entry of a block is of one type, with major numbers in a range. */
  ghost predicate InRange(table: seq<DeviceTableEntry>, t: DeviceType, lo: nat, hi: nat) {
    forall i :: 0 <= i < |table| ==> table[i].deviceType == t && lo <= table[i].majorGen <= hi
  }

  lemma IPhones2To9Disjoint()
    ensures InRange(IPHONES_2_TO_9, iPhone, 2, 9) && Disjoint(IPHONES_2_TO_9)
  {
    hide Spelling;
  }

  lemma IPhones10To11Disjoint()
    ensures InRange(IPHONES_10_TO_11, iPhone, 10, 11) && Disjoint(IPHONES_10_TO_11)
  {
    hide Spelling;
  }

  lemma IPhones12To13Disjoint()
    ensures InRange(IPHONES_12_TO_13, iPhone, 12, 13) && Disjoint(IPHONES_12_TO_13)
  {
    hide Spelling;
  }

  lemma IPhones14To15Disjoint()
    ensures InRange(IPHONES_14_TO_15, iPhone, 14, 15) && Disjoint(IPHONES_14_TO_15)
  {
    hide Spelling;
  }

  lemma IPhones16OnDisjoint()
    ensures InRange(IPHONES_16_ON, iPhone, 16, 18) && Disjoint(IPHONES_16_ON)
  {
    hide Spelling;
  }

  lemma IPodsDisjoint()
    ensures InRange(IPODS, iPod, 4, 9) && Disjoint(IPODS)
  {
    hide Spelling;
  }

  lemma IPadsFirstDisjoint()
    ensures InRange(IPADS_FIRST, iPad, 2, 14) && Disjoint(IPADS_FIRST)
  {
    hide Spelling;
  }

  lemma IPadsSecondDisjoint()
    ensures InRange(IPADS_SECOND, iPad, 4, 14) && Disjoint(IPADS_SECOND)
  {
    hide Spelling;
  }

  lemma AppleTVsDisjoint()
    ensures InRange(APPLE_TVS, AppleTV, 5, 14) && Disjoint(APPLE_TVS)
  {
    hide Spelling;
  }

  lemma IPadsApartBelow8(i: nat, j: nat)
    requires i < 8 && j < |IPADS_SECOND|
    ensures i < |IPADS_FIRST| && Apart(IPADS_FIRST[i], IPADS_SECOND[j])
  {
    hide Spelling;
  }

  lemma IPadsApartFrom8(i: nat, j: nat)
    requires 8 <= i < |IPADS_FIRST| && j < |IPADS_SECOND|
    ensures Apart(IPADS_FIRST[i], IPADS_SECOND[j])
  {
    hide Spelling;
  }

  lemma IPadBlocksApart()
    ensures AllApart(IPADS_FIRST, IPADS_SECOND)
  {
    forall i, j | 0 <= i < |IPADS_FIRST| && 0 <= j < |IPADS_SECOND| ensures Apart(IPADS_FIRST[i], IPADS_SECOND[j]) {
      if i < 8 {
        IPadsApartBelow8(i, j);
      } else {
        IPadsApartFrom8(i, j);
      }
    }
  }

  /** Nothing of type `t` in the table has a major number up to `hi`. */
  ghost predicate Beyond(table: seq<DeviceTableEntry>, t: DeviceType, hi: nat) {
    forall i :: 0 <= i < |table| ==> table[i].deviceType != t || table[i].majorGen > hi
  }

  lemma Prepend(s: seq<DeviceTableEntry>, t: DeviceType, lo: nat, hi: nat, rest: seq<DeviceTableEntry>)
    requires InRange(s, t, lo, hi) && Disjoint(s) && Disjoint(rest) && Beyond(rest, t, hi)
    ensures Disjoint(s + rest)
  {
    DisjointConcatenation(s, rest);
  }

  lemma AssemblePhones(a: seq<DeviceTableEntry>, b: seq<DeviceTableEntry>, c: seq<DeviceTableEntry>,
                       d: seq<DeviceTableEntry>, e: seq<DeviceTableEntry>, rest: seq<DeviceTableEntry>)
    requires InRange(a, iPhone, 2, 9) && InRange(b, iPhone, 10, 11) && InRange(c, iPhone, 12, 13)
    requires InRange(d, iPhone, 14, 15) && InRange(e, iPhone, 16, 18) && Beyond(rest, iPhone, 18)
    requires Disjoint(a) && Disjoint(b) && Disjoint(c) && Disjoint(d) && Disjoint(e) && Disjoint(rest)
    ensures Disjoint(a + (b + (c + (d + (e + rest)))))
  {
    Prepend(e, iPhone, 16, 18, rest);
    Prepend(d, iPhone, 14, 15, e + rest);
    Prepend(c, iPhone, 12, 13, d + (e + rest));
    Prepend(b, iPhone, 10, 11, c + (d + (e + rest)));
    Prepend(a, iPhone, 2, 9, b + (c + (d + (e + rest))));
  }

  lemma AssembleOthers(a: seq<DeviceTableEntry>, b: seq<DeviceTableEntry>,
                       c: seq<DeviceTableEntry>, d: seq<DeviceTableEntry>)
    requires InRange(a, iPod, 4, 9) && InRange(b, iPad, 2, 14) && InRange(c, iPad, 4, 14) && InRange(d, AppleTV, 5, 14)
    requires Disjoint(a) && Disjoint(b) && Disjoint(c) && Disjoint(d) && AllApart(b, c)
    ensures Disjoint(a + (b + (c + d))) && Beyond(a + (b + (c + d)), iPhone, 18)
  {
    Prepend(c, iPad, 4, 14, d);
    ApartFromConcatenation(b, c, d);
    DisjointConcatenation(b, c + d);
    Prepend(a, iPod, 4, 9, b + (c + d));
  }

  /** No two entries of the table match the same model number. */
  lemma TableIsDisjoint()
    ensures Disjoint(DEVICE_TABLE)
  {
    IPhones2To9Disjoint();
    IPhones10To11Disjoint();
    IPhones12To13Disjoint();
    IPhones14To15Disjoint();
    IPhones16OnDisjoint();
    IPodsDisjoint();
    IPadsFirstDisjoint();
    IPadsSecondDisjoint();
    AppleTVsDisjoint();
    IPadBlocksApart();
    AssembleOthers(IPODS, IPADS_FIRST, IPADS_SECOND, APPLE_TVS);
    AssemblePhones(IPHONES_2_TO_9, IPHONES_10_TO_11, IPHONES_12_TO_13, IPHONES_14_TO_15, IPHONES_16_ON,
                   IPODS + (IPADS_FIRST + (IPADS_SECOND + APPLE_TVS)));
  }

  // ----- What every entry satisfies -----

  /** The numbers fit their one-byte fields, no box is empty, the enumerator is of the family that the
      entry's type says, and the name is the enumerator's. */
  ghost predicate Sound(e: DeviceTableEntry) {
    && 2 <= e.majorGen <= 255 && 1 <= e.minorGenMin <= e.minorGenMax <= 255
    && Family(e.device) == Some(e.deviceType) && e.deviceName == Spelling(e.device)
  }

  ghost predicate AllSound(table: seq<DeviceTableEntry>) {
    forall i :: 0 <= i < |table| ==> Sound(table[i])
  }

  lemma IPhones2To9Sound()
    ensures AllSound(IPHONES_2_TO_9)
  {
    hide Spelling;
  }

  lemma IPhones10To11Sound()
    ensures AllSound(IPHONES_10_TO_11)
  {
    hide Spelling;
  }

  lemma IPhones12To13Sound()
    ensures AllSound(IPHONES_12_TO_13)
  {
    hide Spelling;
  }

  lemma IPhones14To15Sound()
    ensures AllSound(IPHONES_14_TO_15)
  {
    hide Spelling;
  }

  lemma IPhones16OnSound()
    ensures AllSound(IPHONES_16_ON)
  {
    hide Spelling;
  }

  lemma IPodsSound()
    ensures AllSound(IPODS)
  {
    hide Spelling;
  }

  lemma IPadsFirstSoundBelow8(i: nat)
    requires i < 8
    ensures Sound(IPADS_FIRST[i])
  {
    hide Spelling;
  }

  lemma IPadsFirstSoundFrom8(i: nat)
    requires 8 <= i < |IPADS_FIRST|
    ensures Sound(IPADS_FIRST[i])
  {
    hide Spelling;
  }

  lemma IPadsFirstSound()
    ensures AllSound(IPADS_FIRST)
  {
    hide Spelling, Sound;
    forall i | 0 <= i < |IPADS_FIRST| ensures Sound(IPADS_FIRST[i]) {
      if i < 8 {
        IPadsFirstSoundBelow8(i);
      } else {
        IPadsFirstSoundFrom8(i);
      }
    }
  }

  lemma IPadsSecondSoundBelow8(i: nat)
    requires i < 8
    ensures Sound(IPADS_SECOND[i])
  {
    hide Spelling;
  }

  lemma IPadsSecondSoundFrom8(i: nat)
    requires 8 <= i < |IPADS_SECOND|
    ensures Sound(IPADS_SECOND[i])
  {
    hide Spelling;
  }

  lemma IPadsSecondSound()
    ensures AllSound(IPADS_SECOND)
  {
    hide Spelling, Sound;
    forall i | 0 <= i < |IPADS_SECOND| ensures Sound(IPADS_SECOND[i]) {
      if i < 8 {
        IPadsSecondSoundBelow8(i);
      } else {
        IPadsSecondSoundFrom8(i);
      }
    }
  }

  lemma AppleTVsSound()
    ensures AllSound(APPLE_TVS)
  {
    hide Spelling;
  }

  lemma TableIsSound()
    ensures AllSound(DEVICE_TABLE)
  {
    hide Sound;
    IPhones2To9Sound();
    IPhones10To11Sound();
    IPhones12To13Sound();
    IPhones14To15Sound();
    IPhones16OnSound();
    IPodsSound();
    IPadsFirstSound();
    IPadsSecondSound();
    AppleTVsSound();
  }
}
