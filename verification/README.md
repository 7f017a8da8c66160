# Verified model of the iOS player's device, attitude, macro and symbol code

This project models four parts of the exported player in Dafny and proves properties of them. Run
`dafny verify dfyconfig.toml` to check everything.

1. **Attitude algebra.** `Vector3`, `Quaternion4`, `RotationFromTo`, `InPlace`, `QuarterTurns`, `Euler` and
   `GravityAttitude` follow `Classes/Vector3.h`, `Classes/Quaternion4.h` and the callers in
   `Classes/iPhone_Sensors.mm`. `QuaternionAlgebra`, `Rotation`, `RotationMatrix`, `Products` and `ShortestArc` hold the
   theory. `float` is `real`. `sqrtf`, `asinf`, `atan2f`, and the sine and cosine the angles are read back with, are the
   fields of `MathLibrary.Libm`; nothing is known of them but the laws `LawfulSqrt` and `LawfulTrig`.
   `FLT_EPSILON` and `1e-6` are exact constants.
2. **Device model parser.** `CStrings` models NUL-terminated strings, `strncmp` against a literal and `strtol` after
   section 7.22.1.4 of ISO/IEC 9899:2011 with a 64-bit `long`. `DeviceGenerations`, `DeviceTable`, `DeviceParser`,
   `DeviceQueries` and `DeviceCaches` follow `Classes/Unity/DeviceInfo.cpp` and the enumeration in
   `Classes/Unity/UnityInternalInterface.h`; `ModelNumbers` holds an independent account of the answers by model number; enumerators keep their C names, and being numbers, the two pairs of Apple TV
   names that share a value are equal. A string is its characters before the terminator, and every read goes through
   `CStrings.At`, whose precondition stops at the terminator. `UnityDeviceModel()` is the constant field `model`.
3. **Platform macro protocol.** `PlatformMacros` and `PlatformRuns` follow `Classes/UndefinePlatforms.h` and
   `Classes/RedefinePlatforms.h` over the macro table of the preprocessor. A replacement list is empty, a number (a constant
   expression by its value) or one identifier, which `#if` expands as the preprocessor does.
4. **Symbol registry and stack trace.** `SymbolTable` and `NativeStackTrace` follow two groups of functions in
   `il2cpp-api.cpp`. The `std::map` is a search tree; `Registry` inserts without rebalancing, and
   `SymbolTable.LookupIsFirstRegistered` lets every insertion be followed by any rebalancing at all.

Where the code and what is said about it differ, the model follows the code:

- The comments beside `gQuatRot` call entry 1 a rotation by 90 degrees; its numbers turn vectors by minus 90 degrees, which is
  what the sensor code needs (`QuarterTurns.ReorientationsAgree`).
- `QuatRotationFromTo` takes nearly opposite vectors to a half turn about z, whatever they are. It is accurate there exactly
  under the condition in `RotationFromTo.MissIsSmall`; `RotationFromTo.StraightUpIsMissed` is the failing input that
  `SimulateAttitudeViaGravityVector` gives it for a device lying face down.
- `SimulateAttitudeViaGravityVector` divides by the old time minus the new one, so when time advances the rate has the opposite
  sign of the turn, and is right only when there is no turn (`GravityAttitude.RateIsBackward`); a first frame that shows it is
  in `GravityAttitude.FirstFrameIsBackward`.
- The angles of `QuatToEuler` lose yaw and roll when the pitch is straight up or down (`Euler.AnglesRebuildExactly`); a turn by
  120 degrees about a diagonal is one that is lost (`Euler.DiagonalTurnIsLost`).
- A platform macro defined as one that the header undefines earlier is not restored: PLATFORM_TVOS as PLATFORM_IOS, and
  PLATFORM_VISIONOS as either, but not the other way round (`PlatformRuns.SavedExactly`,
  `PlatformRuns.AliasesSaved`).
- `il2cpp_native_stack_trace` copies all of the array only when the length fits in an `int` (`NativeStackTrace.CopyIsComplete`).

## Model

| member | source | states |
|---|---|---|
| Vector3.NormalizeIsUnit | Classes/Vector3.h:37-40 | Normalising gives a vector of length one, and scaling that by the magnitude gives the vector back |
| Vector3.Lagrange | Classes/Vector3.h:8-30 | Lagrange's identity between the dot and the cross product |
| Vector3.CauchySchwarz | Classes/Vector3.h:8-11 | The squared dot product never exceeds the product of the squared lengths |
| QuaternionAlgebra.Associative | Classes/Quaternion4.h:17-23 | The product is associative for all quaternions |
| QuaternionAlgebra.FourSquares | Classes/Quaternion4.h:48-51 | Euler's four-square identity: the squared norm is multiplicative |
| QuaternionAlgebra.ConjugateReverses | Classes/Quaternion4.h:53-56 | Conjugation reverses products |
| QuaternionAlgebra.NormIsPositive | Classes/Quaternion4.h:48-51 | Only the zero quaternion has squared norm zero, so inverses exist for all others |
| Rotation.ConjugationIsPure | Classes/Quaternion4.h:17-30 | Conjugating a vector by any quaternion leaves no real part |
| Rotation.RotateByProduct | Classes/Quaternion4.h:17-30 | Rotating by a product is rotating by the right factor and then by the left one |
| Rotation.RotateProducts | Classes/Vector3.h:8-30 | What conjugation by any quaternion, unit or not, does to dot and cross products |
| Rotation.RotateIsRigid | Classes/Vector3.h:8-30 | A unit quaternion keeps dot and cross products: lengths, angles and orientation |
| Rotation.RotateBack | Classes/Quaternion4.h:53-56 | The conjugate of a unit quaternion undoes its rotation on both sides |
| RotationMatrix.RotateByRows | Classes/Quaternion4.h:17-30 | Conjugation is multiplication by a matrix whose entries are quadratic in the quaternion |
| Products.BracketingDoesNotMatter | Classes/Quaternion4.h:25-30 | A product of any length has the same value under every bracketing |
| Products.NormOfProduct | Classes/Quaternion4.h:48-51 | The squared norm of a product of any length is the product of the squared norms |
| Products.ConjugateOfProduct | Classes/Quaternion4.h:53-56 | The conjugate of a product of any length is the reversed product of the conjugates |
| Products.RotateByLongProduct | Classes/Quaternion4.h:25-30 | Rotating by a product of any length is rotating by its factors in turn, last first |
| Products.InverseLaws | Classes/Quaternion4.h:58-61 | The inverse is two-sided and its own inverse, for every quaternion with nonzero norm |
| Products.DifferenceIsUnique | Classes/Quaternion4.h:83-86 | The difference of a and b is the one and only x with b * x = a |
| Products.DifferenceOfUnits | Classes/Quaternion4.h:83-86 | The difference of attitudes is a unit quaternion and turns the second attitude into the first |
| Products.SameRotation | Classes/Quaternion4.h:17-30 | Two unit quaternions rotate all vectors alike if and only if they are equal up to sign |
| InPlace.QuatMultiplyInto | Classes/Quaternion4.h:17-23 | The in-place form is the product when its result is distinct from both operands; for every aliasing, the state it leaves, touching only the result |
| InPlace.QuatMultiplyFresh | Classes/Quaternion4.h:25-30 | The returning form is the product whether or not its operands are the same object |
| InPlace.SquareInPlace | Classes/Quaternion4.h:17-23 | With all three arguments one object the result is right exactly for real quaternions and those with real part plus or minus one half |
| InPlace.LeftInPlace | Classes/Quaternion4.h:17-23 | For which operands exactly writing over the left one still gives the product, as a test on the operands by the vanishing coordinates of the right one |
| InPlace.RightInPlace | Classes/Quaternion4.h:17-23 | The same for writing over the right one |
| InPlace.UnitsMayNotBeResult | Classes/Quaternion4.h:17-23 | The concrete failure: i times j is k, but zero when written over either |
| RotationFromTo.ResultIsUnit | Classes/Quaternion4.h:88-118 | The result is a unit quaternion for every pair of vectors |
| RotationFromTo.HalfwayRoot | Classes/Quaternion4.h:108-112 | The divisor of the last branch is positive for every dot product that the branch lets through |
| RotationFromTo.HalfwayIsUnit | Classes/Quaternion4.h:111-117 | The quaternion built before the final normalisation already has norm one |
| RotationFromTo.HalfwayRotates | Classes/Quaternion4.h:111-117 | That quaternion takes the first direction exactly to the second |
| RotationFromTo.NormalizedIsUnit | Classes/Quaternion4.h:73-81 | Normalising any quaternion with nonzero norm gives a unit quaternion, and scaling that by the norm gives the quaternion back |
| RotationFromTo.GeneralBranchIsExact | Classes/Quaternion4.h:88-118 | In the last branch the source direction lands exactly on the destination direction, and the source on a multiple of the destination |
| RotationFromTo.MissIsSmall | Classes/Quaternion4.h:88-118 | For all vectors, in numbers: the identity below magnitude 2^-23; else, by the dot product d of the directions, the exact turn for -0.999999 <= d < 0.999999, the identity with a squared miss of at most 0.000002 from there on, and below a half turn about z whose squared miss is that small if and only if the z parts are not too opposed |
| RotationFromTo.OppositeVectors | Classes/Quaternion4.h:108-109 | For exactly opposite vectors the squared miss is four times the squared z part of the direction, hence zero only in the xy plane |
| RotationFromTo.StraightUpIsMissed | Classes/Quaternion4.h:108-109 | The concrete failure: straight up, asked to turn straight down, stays |
| ShortestArc.ResultTurnsLeast | Classes/Quaternion4.h:90-118 | Every unit quaternion that takes the one direction to the other turns at least as far as the result of the last branch |
| ShortestArc.ShortestTurnIsUnique | Classes/Quaternion4.h:90-118 | Such a quaternion turns exactly as far as that result if and only if it is that result or its negation |
| ShortestArc.Rodrigues | Classes/Quaternion4.h:17-30 | Conjugation by any quaternion is Rodrigues' formula about its vector part |
| ShortestArc.SwappingUndoes | Classes/Quaternion4.h:88-118 | In every branch, turning from source to destination and then back leaves every vector alone |
| ShortestArc.ResultIgnoresLengths | Classes/Quaternion4.h:91-100 | Stretching the arguments above the length test does not change the result |
| QuarterTurns.PowersAreEntries | Classes/Quaternion4.h:8-15 | Every power of entry 1 is the entry with that index modulo 4, up to a sign of period 8 |
| QuarterTurns.EntriesMultiply | Classes/Quaternion4.h:8-15 | The table is closed under multiplication up to sign and indices add modulo 4 |
| QuarterTurns.EntriesAreQuarterTurns | Classes/Quaternion4.h:8-15 | For every n, entry n modulo 4 rotates vectors by n quarter turns about z |
| QuarterTurns.ReorientationsOfVectors | Classes/iPhone_Sensors.mm:89-115 | Which way vectors are turned: left takes x to y and y to minus x, right undoes left, upside down is two of them, and nothing else turns |
| QuarterTurns.ReorientationsAgree | Classes/iPhone_Sensors.mm:89-141 | For every orientation, the reoriented attitude takes the reoriented vector to where the raw attitude takes the raw vector |
| Euler.ArgumentsAreAxes | Classes/Quaternion4.h:63-71 | The five arguments are coordinates of the image of the z axis and of the vector whose image is the y axis |
| Euler.ArgumentsAreLegal | Classes/Quaternion4.h:63-71 | For unit quaternions asinf gets a value in [-1, 1], both atan2f pairs have squared length one minus its square, and negation changes no argument |
| Euler.AnglesRebuildRotation | Classes/Quaternion4.h:63-71 | Rolling, pitching and yawing by the three angles is the rotation of the quaternion, unless the pitch is straight up or down |
| Euler.AnglesRebuildExactly | Classes/Quaternion4.h:63-71 | The angles describe the rotation if and only if the pitch is not straight or the x axis is kept |
| Euler.DiagonalTurnIsLost | Classes/Quaternion4.h:63-71 | The concrete failure: a unit quaternion with pitch straight up that its angles do not describe |
| GravityAttitude.AttitudeSimulator.Simulate | Classes/iPhone_Sensors.mm:570-580 | One frame reports the attitude that takes gravity straight down up to the tolerance unless the device lies face down, keeps it as a unit quaternion, so the next difference is defined and legal, and has no finite rate only when no time has passed |
| GravityAttitude.GravityIsTakenDown | Classes/iPhone_Sensors.mm:576 | The rotated direction of gravity is within 0.000002, squared, of straight down if and only if its z part is at most 0.999999, exactly down above -0.999999, and still up above 0.999999 |
| GravityAttitude.RateIsBackward | Classes/iPhone_Sensors.mm:575-577 | When time advances the rate is minus the angles over the elapsed time, and the angles over the elapsed time if and only if they are zero |
| GravityAttitude.FirstFrameIsBackward | Classes/iPhone_Sensors.mm:570-580 | The concrete failure: the first frame of a device lying face down reports the opposite of its half turn |
| GravityAttitude.DifferencesTelescope | Classes/iPhone_Sensors.mm:570-580 | Over every run of frames the differences are unit quaternions with legal Euler arguments and multiply up to the whole change of attitude |
| CStrings.StrncmpIsPrefix | Classes/Unity/DeviceInfo.cpp:150-165 | Comparing character by character, stopping at the terminator, is zero exactly when the literal is a prefix |
| CStrings.CharacterClasses | Classes/Unity/DeviceInfo.cpp:177-181 | White space and digits as strtol tells them, by character code |
| CStrings.StrtolReadsNumeral | Classes/Unity/DeviceInfo.cpp:177-181 | A nonzero result comes from white space, a sign and digits that end at the end pointer, saturated, with no further digit |
| CStrings.StrtolReadsAll | Classes/Unity/DeviceInfo.cpp:177-181 | Every numeral not followed by a digit is read whole, exact within 64 bits and clamped outside |
| CStrings.DecimalRoundTrip | Classes/Unity/DeviceInfo.cpp:177-181 | Printing a number in decimal and reading the digits back gives the number |
| DeviceTable.MatchIsUnique | Classes/Unity/DeviceInfo.cpp:186-195 | In a disjoint table of any length the scan returns an entry exactly when that entry matches |
| DeviceTable.OrderDoesNotMatter | Classes/Unity/DeviceInfo.cpp:186-195 | Reordering a disjoint table of any length does not change what the scan finds |
| DeviceTable.TableIsDisjoint | Classes/Unity/DeviceInfo.cpp:33-135 | No two entries of the table match the same type, major and minor number |
| DeviceTable.TableIsSound | Classes/Unity/DeviceInfo.cpp:33-135 | Every entry's numbers are positive and fit one byte, its enumerator is of the family of its type, and its name is the enumerator's |
| DeviceParser.ParseDeviceGeneration | Classes/Unity/DeviceInfo.cpp:148-199 | The moving-pointer parser computes the entry and type functions, with every pointer at or before the terminator |
| DeviceParser.ScanTable | Classes/Unity/DeviceInfo.cpp:186-195 | The loop with its three skips finds the first match |
| DeviceParser.TypeIsPrefix | Classes/Unity/DeviceInfo.cpp:150-174 | A type is reported exactly when its prefix, iPhone, iPad, iPod or AppleTV, starts the string, whatever the order of the tests |
| DeviceParser.ParserAcceptsLanguage | Classes/Unity/DeviceInfo.cpp:148-199 | An entry is returned if and only if the text is its prefix, a numeral, one separator that is not a digit and a numeral, with exact values in its ranges |
| DeviceParser.PrintParseRoundTrip | Classes/Unity/DeviceInfo.cpp:33-199 | Printing any minor number of any entry with a comma and parsing it returns that very entry |
| DeviceParser.UnityParseDeviceGeneration | Classes/Unity/DeviceInfo.cpp:300-306 | The public parser returns the device of the entry, or the unknown device of the type |
| DeviceParser.GenerationHasFamily | Classes/Unity/DeviceInfo.cpp:201-217 | For every string the generation belongs to the family the prefix names, and to none without a known prefix |
| ModelNumbers.ScanIsGrid | Classes/Unity/DeviceInfo.cpp:33-195 | For all pairs of numbers the scan of the intervals gives the generation that a grid by major and minor number gives, and nothing where the grid is empty |
| ModelNumbers.PrintedGeneration | Classes/Unity/DeviceInfo.cpp:148-306 | For all pairs of numbers, of any size, the model printed with them has the generation of the grid, or else the unknown one of its family |
| DeviceQueries.SwitchesByFamily | Classes/Unity/DeviceInfo.cpp:375-499 | The DPI switch assigns a positive value exactly to iPhone, iPad and iPod generations, and cutouts occur only among known iPhones |
| DeviceQueries.DpiByPrefix | Classes/Unity/DeviceInfo.cpp:369-507 | Over all strings the DPI is positive if and only if the model begins with iPhone, iPad or iPod, and zero otherwise |
| DeviceQueries.CutoutOnlyForKnownPhones | Classes/Unity/DeviceInfo.cpp:219-292 | Over all strings a cutout is reported only for iPhone models in the table, as a proper part of the screen, and the ratio is zero otherwise |
| DeviceQueries.StylusTestAgreesWithParser | Classes/Unity/DeviceInfo.cpp:346-367 | The raw prefix test of the stylus query agrees with the family the parser reports |
| ModelNumbers.FactsAreAnswers | Classes/Unity/DeviceInfo.cpp:219-507 | For every string, generation, DPI, cutout with its ratio, and stylus are those that the numbers of its table entry, or else its prefix, call for |
| ModelNumbers.CutoutExactly | Classes/Unity/DeviceInfo.cpp:219-292 | A cutout is reported if and only if the model is an iPhone in the table with number 10,3 or 10,6, or from 11 on but not 12,8 or 14,6 |
| ModelNumbers.StylusExactly | Classes/Unity/DeviceInfo.cpp:346-367 | The stylus is supported if and only if the model begins with iPad and its table entry, if any, is from 7 on or of 6 up to 6,8 |
| ModelNumbers.IPhoneX | Classes/Unity/DeviceInfo.cpp:148-507 | One string in full: iPhone10,3 has generation 39, 458 dots per inch, a cutout of 0.5391 by 0.0368 and no stylus |
| DeviceQueries.UnityTest_IterateDeviceGenerations | Classes/Unity/DeviceInfo.cpp:512-523 | The callback sees values and names of the table in order and then the five unknown ones with their numbers |
| DeviceQueries.IterationIsComplete | Classes/Unity/DeviceInfo.cpp:300-306 | Every value the parser can return, for any string, is among those the iteration passes on, with its own name |
| DeviceCaches.DeviceInfo.UnityDeviceGeneration | Classes/Unity/DeviceInfo.cpp:308-325 | The query fills the pointer only when it is null and returns what it points to, which is the generation by number when the caches agree |
| DeviceCaches.DeviceInfo.GetCutoutInfo | Classes/Unity/DeviceInfo.cpp:277-292 | The cutout is computed once from the current generation and then returned unchanged, and is the one by number when the caches agree |
| DeviceCaches.DeviceInfo.UnityDeviceIsStylusTouchSupported | Classes/Unity/DeviceInfo.cpp:346-367 | For models without the prefix no cache is touched, and the answer is the one by number when the caches agree |
| DeviceCaches.DeviceInfo.UnityDeviceDPI | Classes/Unity/DeviceInfo.cpp:369-507 | The DPI is computed when the cache is negative and never negative afterwards, and is the one by number when the caches agree |
| DeviceCaches.StepAgrees | Classes/Unity/DeviceInfo.cpp:277-507 | Every query keeps the caches in agreement with the uncached functions and answers what those give |
| DeviceCaches.StepKeeps | Classes/Unity/DeviceInfo.cpp:277-507 | No query, whatever model is reported at the time, changes a cache that is set |
| DeviceCaches.RunAgrees | Classes/Unity/DeviceInfo.cpp:277-507 | Over every finite run all caches agree and every answer is the uncached one |
| DeviceCaches.ColdRunAnswers | Classes/Unity/DeviceInfo.cpp:340-507 | End to end from a cold start: every answer of every run is the one that the numbers in the model string call for, in particular upside-down support exactly without a cutout and the sign of the DPI by the prefix |
| PlatformMacros.Preprocessor.IncludeUndefinePlatforms | Classes/UndefinePlatforms.h:16-35 | The directives in order compute the save function, and fail exactly when it has no value |
| PlatformMacros.Preprocessor.IncludeRedefinePlatforms | Classes/RedefinePlatforms.h:15-43 | The directives in order compute the restore function, and fail exactly when it has no value |
| PlatformRuns.IfByChains | Classes/UndefinePlatforms.h:20-33 | An #if has a value other than zero if and only if names lead to that number, and is ill formed if and only if they lead to nothing; undefined and circular names are zero |
| PlatformRuns.IfAfterUndef | Classes/UndefinePlatforms.h:20-33 | After undefining macros an #if has the value zero if its expansion leads through one of them, and the value it had otherwise |
| PlatformRuns.SavedExactly | Classes/UndefinePlatforms.h:20-33 | A platform is saved if and only if it was truthy and its replacement does not lead through a platform already undefined |
| PlatformRuns.AliasIsLost | Classes/UndefinePlatforms.h:20-28 | A concrete truthy platform macro that is not saved |
| PlatformRuns.AliasesSaved | Classes/UndefinePlatforms.h:20-33 | Of the six ways to define one platform macro as another, itself 1, exactly three are forgotten |
| PlatformRuns.UndefineResult | Classes/UndefinePlatforms.h:16-35 | The header succeeds exactly outside a pair with well-formed tests, and what is defined afterwards |
| PlatformRuns.RedefineResult | Classes/RedefinePlatforms.h:15-43 | The header succeeds exactly inside a pair; none of the protocol's macros is left and every platform macro is one or zero |
| PlatformRuns.SuccessAlternates | Classes/RedefinePlatforms.h:15-19 | A run without an error strictly alternates the headers, and outside a pair none of the protocol's macros is defined |
| PlatformRuns.SuccessIffAlternating | Classes/UndefinePlatforms.h:16-18 | A run is free of errors if and only if the headers strictly alternate and every #if it meets is well formed |
| PlatformRuns.AlternatingIsEnough | Classes/UndefinePlatforms.h:16-18 | When nobody defines a macro as nothing, strict alternation alone is equivalent to success |
| PlatformRuns.PairRestores | Classes/RedefinePlatforms.h:19-43 | Whatever third parties do in between, a pair leaves every platform macro one if saved and zero otherwise, and other macros as they left them |
| PlatformRuns.PairIsTransparent | Classes/RedefinePlatforms.h:19-43 | Once the platform macros are numbers, a pair around any third-party code keeps their truth values |
| PlatformRuns.EveryRedefineRestores | Classes/RedefinePlatforms.h:15-43 | In every run without an error each restore has its matching save with only third-party events between, and restores exactly what was truthy then |
| SymbolTable.SymbolCompareIsStrictOrder | Il2CppOutputProject/IL2CPP/libil2cpp/il2cpp-api.cpp:57-63 | The comparison is a strict total order on string contents |
| SymbolTable.SymbolCompareIsLexicographic | Il2CppOutputProject/IL2CPP/libil2cpp/il2cpp-api.cpp:57-63 | One name is less than another if and only if at some position, before which they agree, its character is the smaller, the terminator included |
| SymbolTable.FindIsContents | Il2CppOutputProject/IL2CPP/libil2cpp/il2cpp-api.cpp:80-88 | Searching an ordered tree of any shape finds exactly what it associates with the name |
| SymbolTable.InsertKeepsOrder | Il2CppOutputProject/IL2CPP/libil2cpp/il2cpp-api.cpp:68-71 | Inserting keeps the order, adds the association, and leaves a name that is there already as it is |
| SymbolTable.ShapeDoesNotMatter | Il2CppOutputProject/IL2CPP/libil2cpp/il2cpp-api.cpp:65-66 | However the tree is balanced, equal contents give equal answers |
| SymbolTable.Registry.RegisterAPIFunction | Il2CppOutputProject/IL2CPP/libil2cpp/il2cpp-api.cpp:68-71 | Registration keeps the map ordered and the first symbol of a name |
| SymbolTable.Registry.LookupSymbol | Il2CppOutputProject/IL2CPP/libil2cpp/il2cpp-api.cpp:80-88 | Lookup returns the associated symbol, or NULL |
| SymbolTable.LookupIsFirstRegistered | Il2CppOutputProject/IL2CPP/libil2cpp/il2cpp-api.cpp:57-88 | After any sequence of registrations and any rebalancing, lookup gives what a plain list searched from the front gives |
| SymbolTable.RegisteringAgainChangesNothing | Il2CppOutputProject/IL2CPP/libil2cpp/il2cpp-api.cpp:73-78 | Registering the same names a second time changes no association and no answer, however the map is rebalanced |
| SymbolTable.RegisteringAgainIsIdle | Il2CppOutputProject/IL2CPP/libil2cpp/il2cpp-api.cpp:73-78 | Without rebalancing it leaves the very same tree |
| NativeStackTrace.StackTrace | Il2CppOutputProject/IL2CPP/libil2cpp/il2cpp-api.cpp:589-622 | The count is the length modulo 2^32 as a signed number, hence the length itself up to 0x7fffffff, with a fresh element-by-element copy of all of the array then, and zero without a trace; a count that is not positive comes with no pointers |
| NativeStackTrace.CopyIsComplete | Il2CppOutputProject/IL2CPP/libil2cpp/il2cpp-api.cpp:601-614 | A length survives the conversion to int if and only if it is at most 0x7fffffff, and what longer arrays are reported as |

## Left out

- IEEE-754 rounding, infinities and NaN in the attitude code: reals have none, so the divisions by a zero norm or magnitude that give infinities in C are outside the functions' preconditions.
- GravityAttitude.AttitudeSimulator.Simulate: the infinities and NaNs that the rate holds when two frames have the same time stamp are only reported as not finite.
- The values of atan2f, asinf, sine and cosine beyond the laws they are given; atan2 at the origin is zero, as for positive zeros in C.
- UnityReorientHeading and everything else in `Classes/iPhone_Sensors.mm` beyond the reorientation of vectors and attitudes and the simulated attitude.
- The message printed for an unrecognised model, and the multi-threaded first use of the caches.
- UnityDeviceModel reading the model from the system: it is a constant of the model.
- Replacement lists of several tokens that name other macros, and function-like macros; a wrong redefinition is taken over silently, as compilers do after a warning.
- Third parties that define or undefine the protocol's own DETAIL__ macros.
- PlatformMacros.Preprocessor.IncludeUndefinePlatforms: the macro table after an error is not stated, because the translation unit is rejected.
- How std::map rebalances, and the lifetime of the name pointers; `RegisterSymbols` takes the list of functions as a parameter instead of including it.
- A failing allocation in il2cpp_native_stack_trace, and the variant compiled without instruction pointers, which leaves its outputs alone.
- The rest of `il2cpp-api.cpp`, which forwards to the runtime, and the player's Objective-C classes.
