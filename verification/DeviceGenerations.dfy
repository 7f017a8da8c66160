/** The enumeration of Classes/Unity/UnityInternalInterface.h. As in C an enumerator is a number, so
    the Apple TV names that share a number are the same value. */
module DeviceGenerations {

  import opened Options

  datatype DeviceType = iPhone | iPad | iPod | AppleTV

  type DeviceGeneration = int

  const deviceUnknown: DeviceGeneration := 0
  const deviceiPhone3GS: DeviceGeneration := 3
  const deviceiPhone4: DeviceGeneration := 8
  const deviceiPodTouch4Gen: DeviceGeneration := 9
  const deviceiPad2Gen: DeviceGeneration := 10
  const deviceiPhone4S: DeviceGeneration := 11
  const deviceiPad3Gen: DeviceGeneration := 12
  const deviceiPhone5: DeviceGeneration := 13
  const deviceiPodTouch5Gen: DeviceGeneration := 14
  const deviceiPadMini1Gen: DeviceGeneration := 15
  const deviceiPad4Gen: DeviceGeneration := 16
  const deviceiPhone5C: DeviceGeneration := 17
  const deviceiPhone5S: DeviceGeneration := 18
  const deviceiPadAir1: DeviceGeneration := 19
  const deviceiPadMini2Gen: DeviceGeneration := 20
  const deviceiPhone6: DeviceGeneration := 21
  const deviceiPhone6Plus: DeviceGeneration := 22
  const deviceiPadMini3Gen: DeviceGeneration := 23
  const deviceiPadAir2: DeviceGeneration := 24
  const deviceiPhone6S: DeviceGeneration := 25
  const deviceiPhone6SPlus: DeviceGeneration := 26
  const deviceiPadPro1Gen: DeviceGeneration := 27
  const deviceiPadMini4Gen: DeviceGeneration := 28
  const deviceiPhoneSE1Gen: DeviceGeneration := 29
  const deviceiPadPro10Inch1Gen: DeviceGeneration := 30
  const deviceiPhone7: DeviceGeneration := 31
  const deviceiPhone7Plus: DeviceGeneration := 32
  const deviceiPodTouch6Gen: DeviceGeneration := 33
  const deviceiPad5Gen: DeviceGeneration := 34
  const deviceiPadPro2Gen: DeviceGeneration := 35
  const deviceiPadPro10Inch2Gen: DeviceGeneration := 36
  const deviceiPhone8: DeviceGeneration := 37
  const deviceiPhone8Plus: DeviceGeneration := 38
  const deviceiPhoneX: DeviceGeneration := 39
  const deviceiPhoneXS: DeviceGeneration := 40
  const deviceiPhoneXSMax: DeviceGeneration := 41
  const deviceiPhoneXR: DeviceGeneration := 42
  const deviceiPadPro11Inch: DeviceGeneration := 43
  const deviceiPadPro3Gen: DeviceGeneration := 44
  const deviceiPad6Gen: DeviceGeneration := 45
  const deviceiPadAir3Gen: DeviceGeneration := 46
  const deviceiPadMini5Gen: DeviceGeneration := 47
  const deviceiPhone11: DeviceGeneration := 48
  const deviceiPhone11Pro: DeviceGeneration := 49
  const deviceiPhone11ProMax: DeviceGeneration := 50
  const deviceiPodTouch7Gen: DeviceGeneration := 51
  const deviceiPad7Gen: DeviceGeneration := 52
  const deviceiPhoneSE2Gen: DeviceGeneration := 53
  const deviceiPadPro11Inch2Gen: DeviceGeneration := 54
  const deviceiPadPro4Gen: DeviceGeneration := 55
  const deviceiPhone12Mini: DeviceGeneration := 56
  const deviceiPhone12: DeviceGeneration := 57
  const deviceiPhone12Pro: DeviceGeneration := 58
  const deviceiPhone12ProMax: DeviceGeneration := 59
  const deviceiPad8Gen: DeviceGeneration := 60
  const deviceiPadAir4Gen: DeviceGeneration := 61
  const deviceiPad9Gen: DeviceGeneration := 62
  const deviceiPadMini6Gen: DeviceGeneration := 63
  const deviceiPhone13: DeviceGeneration := 64
  const deviceiPhone13Mini: DeviceGeneration := 65
  const deviceiPhone13Pro: DeviceGeneration := 66
  const deviceiPhone13ProMax: DeviceGeneration := 67
  const deviceiPadPro5Gen: DeviceGeneration := 68
  const deviceiPadPro11Inch3Gen: DeviceGeneration := 69
  const deviceiPhoneSE3Gen: DeviceGeneration := 70
  const deviceiPadAir5Gen: DeviceGeneration := 71
  const deviceiPhone14: DeviceGeneration := 72
  const deviceiPhone14Plus: DeviceGeneration := 73
  const deviceiPhone14Pro: DeviceGeneration := 74
  const deviceiPhone14ProMax: DeviceGeneration := 75
  const deviceiPadPro6Gen: DeviceGeneration := 76
  const deviceiPadPro11Inch4Gen: DeviceGeneration := 77
  const deviceiPad10Gen: DeviceGeneration := 78
  const deviceiPhone15: DeviceGeneration := 79
  const deviceiPhone15Plus: DeviceGeneration := 80
  const deviceiPhone15Pro: DeviceGeneration := 81
  const deviceiPhone15ProMax: DeviceGeneration := 82
  const deviceiPhone16: DeviceGeneration := 83
  const deviceiPhone16Plus: DeviceGeneration := 84
  const deviceiPhone16Pro: DeviceGeneration := 85
  const deviceiPhone16ProMax: DeviceGeneration := 86
  const deviceiPhone16e: DeviceGeneration := 87
  const deviceiPhone17: DeviceGeneration := 88
  const deviceiPhoneAir: DeviceGeneration := 89
  const deviceiPhone17Pro: DeviceGeneration := 90
  const deviceiPhone17ProMax: DeviceGeneration := 91
  const deviceiPhone17e: DeviceGeneration := 92
  const deviceAppleTV1Gen: DeviceGeneration := 1001
  const deviceAppleTVHD: DeviceGeneration := 1001
  const deviceAppleTV2Gen: DeviceGeneration := 1002
  const deviceAppleTV4K: DeviceGeneration := 1002
  const deviceAppleTV4K2Gen: DeviceGeneration := 1003
  const deviceAppleTV4K3Gen: DeviceGeneration := 1004
  const deviceiPhoneUnknown: DeviceGeneration := 10001
  const deviceiPadUnknown: DeviceGeneration := 10002
  const deviceiPodTouchUnknown: DeviceGeneration := 10003
  const deviceAppleTVUnknown: DeviceGeneration := 10004

  /** The product family an enumerator names. */
  function Family(g: DeviceGeneration): Option<DeviceType> {
    if g in {
      deviceiPhone3GS, deviceiPhone4, deviceiPhone4S, deviceiPhone5, deviceiPhone5C, deviceiPhone5S,
      deviceiPhone6, deviceiPhone6Plus, deviceiPhone6S, deviceiPhone6SPlus, deviceiPhoneSE1Gen, deviceiPhone7,
      deviceiPhone7Plus, deviceiPhone8, deviceiPhone8Plus, deviceiPhoneX, deviceiPhoneXS, deviceiPhoneXSMax,
      deviceiPhoneXR, deviceiPhone11, deviceiPhone11Pro, deviceiPhone11ProMax, deviceiPhoneSE2Gen,
      deviceiPhone12Mini, deviceiPhone12, deviceiPhone12Pro, deviceiPhone12ProMax, deviceiPhone13,
      deviceiPhone13Mini, deviceiPhone13Pro, deviceiPhone13ProMax, deviceiPhoneSE3Gen, deviceiPhone14,
      deviceiPhone14Plus, deviceiPhone14Pro, deviceiPhone14ProMax, deviceiPhone15, deviceiPhone15Plus,
      deviceiPhone15Pro, deviceiPhone15ProMax, deviceiPhone16, deviceiPhone16Plus, deviceiPhone16Pro,
      deviceiPhone16ProMax, deviceiPhone16e, deviceiPhone17, deviceiPhoneAir, deviceiPhone17Pro,
      deviceiPhone17ProMax, deviceiPhone17e, deviceiPhoneUnknown
    } then Some(iPhone)
    else if g in {
      deviceiPad2Gen, deviceiPad3Gen, deviceiPadMini1Gen, deviceiPad4Gen, deviceiPadAir1, deviceiPadMini2Gen,
      deviceiPadMini3Gen, deviceiPadAir2, deviceiPadPro1Gen, deviceiPadMini4Gen, deviceiPadPro10Inch1Gen,
      deviceiPad5Gen, deviceiPadPro2Gen, deviceiPadPro10Inch2Gen, deviceiPadPro11Inch, deviceiPadPro3Gen,
      deviceiPad6Gen, deviceiPadAir3Gen, deviceiPadMini5Gen, deviceiPad7Gen, deviceiPadPro11Inch2Gen,
      deviceiPadPro4Gen, deviceiPad8Gen, deviceiPadAir4Gen, deviceiPad9Gen, deviceiPadMini6Gen,
      deviceiPadPro5Gen, deviceiPadPro11Inch3Gen, deviceiPadAir5Gen, deviceiPadPro6Gen,
      deviceiPadPro11Inch4Gen, deviceiPad10Gen, deviceiPadUnknown
    } then Some(iPad)
    else if g in {
      deviceiPodTouch4Gen, deviceiPodTouch5Gen, deviceiPodTouch6Gen, deviceiPodTouch7Gen,
      deviceiPodTouchUnknown
    } then Some(iPod)
    else if g in {
      deviceAppleTV1Gen, deviceAppleTVHD, deviceAppleTV2Gen, deviceAppleTV4K, deviceAppleTV4K2Gen,
      deviceAppleTV4K3Gen, deviceAppleTVUnknown
    } then Some(AppleTV)
    else None
  }

  /** The spelling of an enumerator; of two that share a value, the one that the device table uses. */
  function Spelling(g: DeviceGeneration): string {
    if g == deviceiPhone3GS then "deviceiPhone3GS"
    else if g == deviceiPhone4 then "deviceiPhone4"
    else if g == deviceiPhone4S then "deviceiPhone4S"
    else if g == deviceiPhone5C then "deviceiPhone5C"
    else if g == deviceiPhone5 then "deviceiPhone5"
    else if g == deviceiPhone5S then "deviceiPhone5S"
    else if g == deviceiPhone6 then "deviceiPhone6"
    else if g == deviceiPhone6Plus then "deviceiPhone6Plus"
    else if g == deviceiPhone6S then "deviceiPhone6S"
    else if g == deviceiPhone6SPlus then "deviceiPhone6SPlus"
    else if g == deviceiPhoneSE1Gen then "deviceiPhoneSE1Gen"
    else if g == deviceiPhone7 then "deviceiPhone7"
    else if g == deviceiPhone7Plus then "deviceiPhone7Plus"
    else if g == deviceiPhone8 then "deviceiPhone8"
    else if g == deviceiPhone8Plus then "deviceiPhone8Plus"
    else if g == deviceiPhoneX then "deviceiPhoneX"
    else if g == deviceiPhoneXR then "deviceiPhoneXR"
    else if g == deviceiPhoneXS then "deviceiPhoneXS"
    else if g == deviceiPhoneXSMax then "deviceiPhoneXSMax"
    else if g == deviceiPhone11 then "deviceiPhone11"
    else if g == deviceiPhone11Pro then "deviceiPhone11Pro"
    else if g == deviceiPhone11ProMax then "deviceiPhone11ProMax"
    else if g == deviceiPhoneSE2Gen then "deviceiPhoneSE2Gen"
    else if g == deviceiPhone12Mini then "deviceiPhone12Mini"
    else if g == deviceiPhone12 then "deviceiPhone12"
    else if g == deviceiPhone12Pro then "deviceiPhone12Pro"
    else if g == deviceiPhone12ProMax then "deviceiPhone12ProMax"
    else if g == deviceiPhone13Mini then "deviceiPhone13Mini"
    else if g == deviceiPhone13 then "deviceiPhone13"
    else if g == deviceiPhone13Pro then "deviceiPhone13Pro"
    else if g == deviceiPhone13ProMax then "deviceiPhone13ProMax"
    else if g == deviceiPhoneSE3Gen then "deviceiPhoneSE3Gen"
    else if g == deviceiPhone14 then "deviceiPhone14"
    else if g == deviceiPhone14Plus then "deviceiPhone14Plus"
    else if g == deviceiPhone14Pro then "deviceiPhone14Pro"
    else if g == deviceiPhone14ProMax then "deviceiPhone14ProMax"
    else if g == deviceiPhone15 then "deviceiPhone15"
    else if g == deviceiPhone15Plus then "deviceiPhone15Plus"
    else if g == deviceiPhone15Pro then "deviceiPhone15Pro"
    else if g == deviceiPhone15ProMax then "deviceiPhone15ProMax"
    else if g == deviceiPhone16 then "deviceiPhone16"
    else if g == deviceiPhone16e then "deviceiPhone16e"
    else if g == deviceiPhone16Plus then "deviceiPhone16Plus"
    else if g == deviceiPhone16Pro then "deviceiPhone16Pro"
    else if g == deviceiPhone16ProMax then "deviceiPhone16ProMax"
    else if g == deviceiPhone17 then "deviceiPhone17"
    else if g == deviceiPhoneAir then "deviceiPhoneAir"
    else if g == deviceiPhone17Pro then "deviceiPhone17Pro"
    else if g == deviceiPhone17ProMax then "deviceiPhone17ProMax"
    else if g == deviceiPhone17e then "deviceiPhone17e"
    else if g == deviceiPodTouch4Gen then "deviceiPodTouch4Gen"
    else if g == deviceiPodTouch5Gen then "deviceiPodTouch5Gen"
    else if g == deviceiPodTouch6Gen then "deviceiPodTouch6Gen"
    else if g == deviceiPodTouch7Gen then "deviceiPodTouch7Gen"
    else if g == deviceiPadMini1Gen then "deviceiPadMini1Gen"
    else if g == deviceiPadMini2Gen then "deviceiPadMini2Gen"
    else if g == deviceiPadMini3Gen then "deviceiPadMini3Gen"
    else if g == deviceiPadMini4Gen then "deviceiPadMini4Gen"
    else if g == deviceiPadMini5Gen then "deviceiPadMini5Gen"
    else if g == deviceiPadMini6Gen then "deviceiPadMini6Gen"
    else if g == deviceiPad2Gen then "deviceiPad2Gen"
    else if g == deviceiPad3Gen then "deviceiPad3Gen"
    else if g == deviceiPad4Gen then "deviceiPad4Gen"
    else if g == deviceiPad5Gen then "deviceiPad5Gen"
    else if g == deviceiPad6Gen then "deviceiPad6Gen"
    else if g == deviceiPad7Gen then "deviceiPad7Gen"
    else if g == deviceiPad9Gen then "deviceiPad9Gen"
    else if g == deviceiPadAir1 then "deviceiPadAir1"
    else if g == deviceiPadAir2 then "deviceiPadAir2"
    else if g == deviceiPadAir3Gen then "deviceiPadAir3Gen"
    else if g == deviceiPadPro1Gen then "deviceiPadPro1Gen"
    else if g == deviceiPadPro2Gen then "deviceiPadPro2Gen"
    else if g == deviceiPadPro10Inch1Gen then "deviceiPadPro10Inch1Gen"
    else if g == deviceiPadPro10Inch2Gen then "deviceiPadPro10Inch2Gen"
    else if g == deviceiPadPro11Inch then "deviceiPadPro11Inch"
    else if g == deviceiPadPro11Inch2Gen then "deviceiPadPro11Inch2Gen"
    else if g == deviceiPadPro11Inch3Gen then "deviceiPadPro11Inch3Gen"
    else if g == deviceiPadPro3Gen then "deviceiPadPro3Gen"
    else if g == deviceiPadPro4Gen then "deviceiPadPro4Gen"
    else if g == deviceiPadPro5Gen then "deviceiPadPro5Gen"
    else if g == deviceiPad8Gen then "deviceiPad8Gen"
    else if g == deviceiPadAir4Gen then "deviceiPadAir4Gen"
    else if g == deviceiPadAir5Gen then "deviceiPadAir5Gen"
    else if g == deviceiPadPro6Gen then "deviceiPadPro6Gen"
    else if g == deviceiPadPro11Inch4Gen then "deviceiPadPro11Inch4Gen"
    else if g == deviceiPad10Gen then "deviceiPad10Gen"
    else if g == deviceAppleTVHD then "deviceAppleTVHD"
    else if g == deviceAppleTV4K then "deviceAppleTV4K"
    else if g == deviceAppleTV4K2Gen then "deviceAppleTV4K2Gen"
    else if g == deviceAppleTV4K3Gen then "deviceAppleTV4K3Gen"
    else if g == deviceUnknown then "deviceUnknown"
    else if g == deviceiPhoneUnknown then "deviceiPhoneUnknown"
    else if g == deviceiPadUnknown then "deviceiPadUnknown"
    else if g == deviceiPodTouchUnknown then "deviceiPodTouchUnknown"
    else if g == deviceAppleTVUnknown then "deviceAppleTVUnknown"
    else ""
  }
}
