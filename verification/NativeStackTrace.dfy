/** il2cpp_native_stack_trace of il2cpp-api.cpp, as compiled with native instruction pointers. */
module NativeStackTrace {
  import opened Options

  const INT_MAX: int := 0x7fff_ffff
  const TWO_TO_32: int := 0x1_0000_0000

  /** An array length as the length query returns it and an `int` stores it: its low 32 bits, the
      highest of them the sign. */
  function LengthAsInt(maxLength: nat): (n: int)
    ensures -INT_MAX - 1 <= n <= INT_MAX && n <= maxLength
  {
    var low := maxLength % TWO_TO_32;
    if low <= INT_MAX then low else low - TWO_TO_32
  }

  class Il2CppException {
    var nativeTraceIps: array?<nat>

    constructor (ips: array?<nat>)
      ensures nativeTraceIps == ips
    {
      nativeTraceIps := ips;
    }
  }

  /** The frame count that the out-parameter receives. */
  function FrameCount(ex: Il2CppException?): int
    reads ex
  {
    if ex == null || ex.nativeTraceIps == null then 0 else LengthAsInt(ex.nativeTraceIps.Length)
  }

  /** The count is the length as an int holds it, and zero without a trace. Either it is positive and
      comes with a fresh copy of that many leading elements, which is all of them when the length
      fits, and both image strings, or it is not positive and nothing comes with it. */
  method StackTrace(ex: Il2CppException?, uuid: string, name: string)
    returns (addresses: array?<nat>, numFrames: int, imageUUID: Option<string>, imageName: Option<string>)
    ensures numFrames == FrameCount(ex)
    ensures ex == null || ex.nativeTraceIps == null ==> numFrames == 0
    ensures ex != null && ex.nativeTraceIps != null ==>
              var n := ex.nativeTraceIps.Length;
              && -0x8000_0000 <= numFrames <= 0x7fff_ffff && (n - numFrames) % 0x1_0000_0000 == 0
              && (n <= 0x7fff_ffff ==> numFrames == n)
              && (0 < n <= 0x7fff_ffff ==> addresses != null && addresses[..] == ex.nativeTraceIps[..])
              && (0x8000_0000 <= n <= 0xffff_ffff ==> numFrames == n - 0x1_0000_0000)
    ensures numFrames <= 0 ==> addresses == null && imageUUID == None && imageName == None
    ensures numFrames > 0 ==> imageUUID == Some(uuid) && imageName == Some(name)
    ensures numFrames > 0 ==>
              && addresses != null && fresh(addresses) && addresses.Length == numFrames
              && addresses[..] == ex.nativeTraceIps[..numFrames]
  {
    if ex == null || ex.nativeTraceIps == null {
      return null, 0, None, None;
    }
    numFrames := LengthAsInt(ex.nativeTraceIps.Length);
    if numFrames <= 0 {
      addresses, imageUUID, imageName := null, None, None;
    } else {
      var buffer := new nat[numFrames];
      var i := 0;
      while i < numFrames
        invariant 0 <= i <= numFrames
        invariant buffer[..i] == ex.nativeTraceIps[..i]
      {
        var ptrAddr := ex.nativeTraceIps[i];
        buffer[i] := ptrAddr;
        i := i + 1;
      }
      addresses, imageUUID, imageName := buffer, Some(uuid), Some(name);
    }
  }

  /** The copy is complete exactly for lengths that fit in an int. A longer array is reported as
      nothing when bit 31 of its length is set or its low bits are zero, and as a shorter array
      otherwise. */
  lemma CopyIsComplete(maxLength: nat)
    ensures LengthAsInt(maxLength) == maxLength <==> maxLength <= 0x7fff_ffff
    ensures -0x8000_0000 <= LengthAsInt(maxLength) <= 0x7fff_ffff
    ensures (maxLength - LengthAsInt(maxLength)) % 0x1_0000_0000 == 0
    ensures maxLength > 0x7fff_ffff ==>
              (LengthAsInt(maxLength) <= 0
               <==> maxLength % 0x1_0000_0000 == 0 || maxLength % 0x1_0000_0000 > 0x7fff_ffff)
    ensures maxLength > 0x7fff_ffff && LengthAsInt(maxLength) > 0 ==> LengthAsInt(maxLength) < maxLength
  {}
}
