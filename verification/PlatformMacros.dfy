/** The macro protocol of Classes/UndefinePlatforms.h and Classes/RedefinePlatforms.h over runs in
    which third-party headers define and undefine macros as they like. */
module PlatformMacros {
  import opened Options

  datatype Platform = Ios | Tvos | Visionos

  /** PLATFORM_x, DETAIL__TEMP_PLATFORM_x_WAS_1, the marker
      DETAIL__PLATFORMS_HAD_BEEN_UNDEFINED_BY_UNDEFINEPLATFORMS_H, and every other macro. */
  datatype Macro = Is(platform: Platform) | Temp(platform: Platform) | Marker | Other(name: string)

  /** A replacement list: nothing, a constant expression given by its value, or one identifier. */
  datatype Body = Empty | Number(n: int) | Name(macro: Macro)

  type Macros = map<Macro, Body>

  predicate IsDetail(m: Macro) {
    m.Temp? || m.Marker?
  }

  // ----- #if -----

  /** The value of `#if m`. A name is expanded until a number, an undefined name or a name that is
      already being expanded is reached; the last two count as zero. An empty expansion is an
      error. */
  function IfValue(ms: Macros, m: Macro, expanding: set<Macro>): Option<int>
    decreases ms.Keys - expanding
  {
    if m !in ms || m in expanding then Some(0)
    else
      match ms[m]
      case Empty => None
      case Number(n) => Some(n)
      case Name(next) => IfValue(ms, next, expanding + {m})
  }

  predicate Truthy(ms: Macros, p: Platform) {
    IfValue(ms, Is(p), {}).Some? && IfValue(ms, Is(p), {}).value != 0
  }

  // ----- The two headers, one platform at a time -----

  function Save(ms: Macros, p: Platform): Option<Macros> {
    match IfValue(ms, Is(p), {})
    case None => None
    case Some(v) => Some((if v != 0 then ms[Temp(p) := Empty] else ms) - {Is(p)})
  }

  function Restore(ms: Macros, p: Platform): Macros {
    var ms' := ms - {Is(p)};
    if Temp(p) in ms' then (ms' - {Temp(p)})[Is(p) := Number(1)] else ms'[Is(p) := Number(0)]
  }

  /** Including UndefinePlatforms.h; None is an #error or an ill-formed #if. */
  function UndefinePlatforms(ms: Macros): Option<Macros> {
    if Marker in ms then None else
    match Save(ms, Ios)
    case None => None
    case Some(ms1) =>
      match Save(ms1, Tvos)
      case None => None
      case Some(ms2) =>
        match Save(ms2, Visionos)
        case None => None
        case Some(ms3) => Some(ms3[Marker := Empty])
  }

  /** Including RedefinePlatforms.h; None is its #error. */
  function RedefinePlatforms(ms: Macros): Option<Macros> {
    if Marker !in ms then None
    else Some(Restore(Restore(Restore(ms - {Marker}, Ios), Tvos), Visionos))
  }

  // ----- The headers as sequences of directives -----

  class Preprocessor {
    var macros: Macros

    constructor (macros: Macros)
      ensures this.macros == macros
    {
      this.macros := macros;
    }

    method Define(m: Macro, body: Body)
      modifies this
      ensures macros == old(macros)[m := body]
    {
      macros := macros[m := body];
    }

    method Undef(m: Macro)
      modifies this
      ensures macros == old(macros) - {m}
    {
      macros := macros - {m};
    }

    /** When `ok` is false the translation unit is rejected. */
    method IncludeUndefinePlatforms() returns (ok: bool)
      modifies this
      ensures ok == UndefinePlatforms(old(macros)).Some?
      ensures ok ==> macros == UndefinePlatforms(old(macros)).value
    {
      hide IfValue;
      if Marker in macros {
        return false;
      }
      ok := SaveOne(Ios);
      if !ok {
        return;
      }
      ok := SaveOne(Tvos);
      if !ok {
        return;
      }
      ok := SaveOne(Visionos);
      if !ok {
        return;
      }
      Define(Marker, Empty);
    }

    method SaveOne(p: Platform) returns (ok: bool)
      modifies this
      ensures ok == Save(old(macros), p).Some?
      ensures ok ==> macros == Save(old(macros), p).value
    {
      hide IfValue;
      var v := IfValue(macros, Is(p), {});
      if v.None? {
        return false;
      }
      if v.value != 0 {
        Define(Temp(p), Empty);
      }
      Undef(Is(p));
      ok := true;
    }

    method IncludeRedefinePlatforms() returns (ok: bool)
      modifies this
      ensures ok == RedefinePlatforms(old(macros)).Some?
      ensures ok ==> macros == RedefinePlatforms(old(macros)).value
    {
      if Marker !in macros {
        return false;
      }
      Undef(Marker);
      RestoreOne(Ios);
      RestoreOne(Tvos);
      RestoreOne(Visionos);
      ok := true;
    }

    method RestoreOne(p: Platform)
      modifies this
      ensures macros == Restore(old(macros), p)
    {
      Undef(Is(p));
      if Temp(p) in macros {
        Undef(Temp(p));
        Define(Is(p), Number(1));
      } else {
        Define(Is(p), Number(0));
      }
    }
  }
}
