/** What Classes/UndefinePlatforms.h and Classes/RedefinePlatforms.h keep over runs of any length. */
module PlatformRuns {
  import opened Options
  import opened PlatformMacros

  // ----- Which macros a state has -----

  /** None of the protocol's own macros is defined. */
  ghost predicate Clean(ms: Macros) {
    forall m :: m in ms ==> !IsDetail(m)
  }

  /** No replacement list names one of the protocol's own macros. */
  ghost predicate Foreign(ms: Macros) {
    forall m :: m in ms && ms[m].Name? ==> !IsDetail(ms[m].macro)
  }

  /** The two states agree on all macros but the protocol's own. */
  ghost predicate SameForeign(ms: Macros, ms': Macros) {
    forall m :: !IsDetail(m) ==> ((m in ms) <==> (m in ms')) && (m in ms ==> ms[m] == ms'[m])
  }

  lemma {:induction false} IfIgnoresDetails(ms: Macros, ms': Macros, m: Macro, expanding: set<Macro>)
    requires Foreign(ms) && SameForeign(ms, ms') && !IsDetail(m)
    ensures IfValue(ms, m, expanding) == IfValue(ms', m, expanding)
    decreases ms.Keys - expanding
  {
    if m in ms && m !in expanding && ms[m].Name? {
      IfIgnoresDetails(ms, ms', ms[m].macro, expanding + {m});
    }
  }

  // ----- The value of an #if -----

  /** Following names from the first macro of the chain, and meeting none that is being expanded
      already, leads to a replacement that is no name. */
  ghost predicate LeadsTo(ms: Macros, chain: seq<Macro>, expanding: set<Macro>, end: Body)
    decreases |chain|
  {
    && chain != [] && chain[0] in ms && chain[0] !in expanding
    && if |chain| == 1 then ms[chain[0]] == end && !end.Name?
       else ms[chain[0]] == Name(chain[1]) && LeadsTo(ms, chain[1..], expanding + {chain[0]}, end)
  }

  ghost predicate Reaches(ms: Macros, m: Macro, expanding: set<Macro>, end: Body) {
    exists chain: seq<Macro> :: chain != [] && chain[0] == m && LeadsTo(ms, chain, expanding, end)
  }

  /** An #if is ill formed exactly when names lead to an empty replacement, and has a value other than
      zero exactly when they lead to that number; undefined and circular names are zero. */
  lemma IfByChains(ms: Macros, m: Macro, expanding: set<Macro>)
    ensures IfValue(ms, m, expanding) == None <==> Reaches(ms, m, expanding, Empty)
    ensures forall n: int :: n != 0 ==> (IfValue(ms, m, expanding) == Some(n) <==> Reaches(ms, m, expanding, Number(n)))
  {
    IfEndsChain(ms, m, expanding);
    forall chain: seq<Macro>, end: Body | chain != [] && chain[0] == m && LeadsTo(ms, chain, expanding, end)
      ensures IfValue(ms, m, expanding) == (if end.Number? then Some(end.n) else None) {
      ChainGivesIf(ms, chain, expanding, end);
    }
  }

  lemma {:induction false} IfEndsChain(ms: Macros, m: Macro, expanding: set<Macro>)
    ensures match IfValue(ms, m, expanding)
            case None => Reaches(ms, m, expanding, Empty)
            case Some(n) => n != 0 ==> Reaches(ms, m, expanding, Number(n))
    decreases ms.Keys - expanding
  {
    if m in ms && m !in expanding {
      if ms[m].Name? {
        var next := ms[m].macro;
        IfEndsChain(ms, next, expanding + {m});
        forall end: Body | Reaches(ms, next, expanding + {m}, end) ensures Reaches(ms, m, expanding, end) {
          var rest: seq<Macro> :| rest != [] && rest[0] == next && LeadsTo(ms, rest, expanding + {m}, end);
          assert ([m] + rest)[1..] == rest;
          assert LeadsTo(ms, [m] + rest, expanding, end);
        }
      } else {
        assert LeadsTo(ms, [m], expanding, ms[m]);
      }
    }
  }

  lemma {:induction false} ChainGivesIf(ms: Macros, chain: seq<Macro>, expanding: set<Macro>, end: Body)
    requires LeadsTo(ms, chain, expanding, end)
    ensures !end.Name? && IfValue(ms, chain[0], expanding) == (if end.Number? then Some(end.n) else None)
    decreases |chain|
  {
    if |chain| > 1 {
      ChainGivesIf(ms, chain[1..], expanding + {chain[0]}, end);
    }
  }

  // ----- What UndefinePlatforms.h saves -----

  /** The platform macros that are gone by the time the test for `p` runs. */
  function Before(p: Platform): set<Macro> {
    match p
    case Ios => {}
    case Tvos => {Is(Ios)}
    case Visionos => {Is(Ios), Is(Tvos)}
  }

  /** Expanding `m` meets one of the targets. */
  ghost predicate Visits(ms: Macros, m: Macro, expanding: set<Macro>, targets: set<Macro>)
    decreases ms.Keys - expanding
  {
    m in targets
    || (m in ms && m !in expanding && ms[m].Name? && Visits(ms, ms[m].macro, expanding + {m}, targets))
  }

  lemma {:induction false} IfAfterUndef(ms: Macros, m: Macro, expanding: set<Macro>, targets: set<Macro>)
    ensures IfValue(ms - targets, m, expanding)
            == if Visits(ms, m, expanding, targets) then Some(0) else IfValue(ms, m, expanding)
    decreases ms.Keys - expanding
  {
    if m in ms && m !in targets && m !in expanding && ms[m].Name? {
      IfAfterUndef(ms, ms[m].macro, expanding + {m}, targets);
    }
  }

  /** `p` is saved as one when UndefinePlatforms.h is included in state `ms`. */
  ghost predicate Saved(ms: Macros, p: Platform) {
    Truthy(ms - Before(p), p)
  }

  /** Every test of the header is a well-formed #if. */
  ghost predicate TestsAreFormed(ms: Macros) {
    forall p: Platform :: IfValue(ms - Before(p), Is(p), {}).Some?
  }

  /** A platform that is truthy just before the header is saved unless its replacement leads
      through a platform macro that the header has already undefined. */
  lemma SavedExactly(ms: Macros, p: Platform)
    ensures Saved(ms, p) <==> Truthy(ms, p) && !Visits(ms, Is(p), {}, Before(p))
    ensures Saved(ms, Ios) <==> Truthy(ms, Ios)
    ensures Is(p) in ms && ms[Is(p)].Number? ==> (Saved(ms, p) <==> Truthy(ms, p))
  {
    IfAfterUndef(ms, Is(p), {}, Before(p));
    assert ms - Before(Ios) == ms;
  }

  /** The case a caller can meet: PLATFORM_TVOS defined as PLATFORM_IOS, itself 1. */
  lemma AliasIsLost()
    ensures var ms := map[Is(Ios) := Number(1), Is(Tvos) := Name(Is(Ios))];
            Truthy(ms, Tvos) && !Saved(ms, Tvos)
  {
    var ms: Macros := map[Is(Ios) := Number(1), Is(Tvos) := Name(Is(Ios))];
    assert IfValue(ms, Is(Ios), {Is(Tvos)}) == Some(1);
    assert Visits(ms, Is(Ios), {Is(Tvos)}, Before(Tvos));
    SavedExactly(ms, Tvos);
  }

  lemma SaveStep(ms: Macros, now: Macros, p: Platform, gone: set<Macro>)
    requires Foreign(ms) && SameForeign(ms - gone, now)
    ensures Save(now, p).Some? <==> IfValue(ms - gone, Is(p), {}).Some?
    ensures Save(now, p).Some? ==>
              var r := Save(now, p).value;
              && SameForeign(ms - (gone + {Is(p)}), r)
              && (forall m :: IsDetail(m) ==> (m in r <==> m in now || (m == Temp(p) && Truthy(ms - gone, p))))
  {
    hide IfValue;
    IfIgnoresDetails(ms - gone, now, Is(p), {});
  }

  /** The header succeeds exactly outside a pair with well-formed tests; then the marker is set,
      the temporaries are the saved platforms, no platform macro is left, and every macro that
      is not part of the protocol is as it was. */
  lemma UndefineResult(ms: Macros)
    requires Foreign(ms) && (Marker !in ms ==> Clean(ms))
    ensures UndefinePlatforms(ms).Some? <==> Marker !in ms && TestsAreFormed(ms)
    ensures UndefinePlatforms(ms).Some? ==>
              var r := UndefinePlatforms(ms).value;
              && Marker in r
              && (forall p :: (Temp(p) in r <==> Saved(ms, p)) && Is(p) !in r)
              && (forall n :: (Other(n) in r <==> Other(n) in ms) && (Other(n) in ms ==> r[Other(n)] == ms[Other(n)]))
  {
    hide IfValue, Save, SameForeign, Foreign;
    if Marker !in ms {
      StartsSame(ms);
      SaveStep(ms, ms, Ios, {});
      if Save(ms, Ios).Some? {
        var ms1 := Save(ms, Ios).value;
        assert {} + {Is(Ios)} == {Is(Ios)};
        SaveStep(ms, ms1, Tvos, {Is(Ios)});
        if Save(ms1, Tvos).Some? {
          var ms2 := Save(ms1, Tvos).value;
          assert {Is(Ios)} + {Is(Tvos)} == {Is(Ios), Is(Tvos)};
          SaveStep(ms, ms2, Visionos, {Is(Ios), Is(Tvos)});
          if Save(ms2, Visionos).Some? {
            EndsWithoutPlatforms(ms, Save(ms2, Visionos).value);
          }
        }
      }
    }
  }

  lemma StartsSame(ms: Macros)
    ensures SameForeign(ms - {}, ms)
  {
    assert ms - {} == ms;
  }

  lemma EndsWithoutPlatforms(ms: Macros, r: Macros)
    requires SameForeign(ms - ({Is(Ios), Is(Tvos)} + {Is(Visionos)}), r)
    ensures forall p :: Is(p) !in r
    ensures forall n :: (Other(n) in r <==> Other(n) in ms) && (Other(n) in ms ==> r[Other(n)] == ms[Other(n)])
  {
    forall p ensures Is(p) !in r {
      assert p == Ios || p == Tvos || p == Visionos;
    }
  }

  /** The other header succeeds exactly inside a pair; then none of the protocol's macros is left,
      every platform macro is one or zero by its temporary, and all other macros are as they were. */
  lemma RedefineResult(ms: Macros)
    ensures RedefinePlatforms(ms).Some? <==> Marker in ms
    ensures RedefinePlatforms(ms).Some? ==>
              var r := RedefinePlatforms(ms).value;
              && Clean(r)
              && (forall p :: Is(p) in r && r[Is(p)] == Number(if Temp(p) in ms then 1 else 0))
              && (forall n :: (Other(n) in r <==> Other(n) in ms) && (Other(n) in ms ==> r[Other(n)] == ms[Other(n)]))
  {
    hide Restore;
    if Marker in ms {
      var ms0 := ms - {Marker};
      var ms1 := Restore(ms0, Ios);
      var ms2 := Restore(ms1, Tvos);
      var r := Restore(ms2, Visionos);
      RestoreStep(ms0, Ios);
      RestoreStep(ms1, Tvos);
      RestoreStep(ms2, Visionos);
      forall p ensures Temp(p) !in r && Is(p) in r && r[Is(p)] == Number(if Temp(p) in ms then 1 else 0) {
        assert p == Ios || p == Tvos || p == Visionos;
      }
    }
  }

  lemma RestoreStep(ms: Macros, p: Platform)
    ensures var r := Restore(ms, p);
            && Is(p) in r && r[Is(p)] == Number(if Temp(p) in ms then 1 else 0) && Temp(p) !in r
            && (forall m :: m != Is(p) && m != Temp(p) ==> (m in r <==> m in ms) && (m in ms ==> r[m] == ms[m]))
  {}

  // ----- Runs -----

  /** Including a header of the protocol, or a directive of somebody else's. */
  datatype Event = IncludeUndefine | IncludeRedefine | Define(m: Macro, body: Body) | Undef(m: Macro) {
    predicate ThirdParty() {
      Define? || Undef?
    }

    /** Third parties keep their hands off the protocol's own macros. */
    predicate Legal() {
      match this
      case Define(m, body) => !IsDetail(m) && (body.Name? ==> !IsDetail(body.macro))
      case Undef(m) => !IsDetail(m)
      case _ => true
    }
  }

  function Step(ms: Macros, e: Event): Option<Macros> {
    match e
    case IncludeUndefine => UndefinePlatforms(ms)
    case IncludeRedefine => RedefinePlatforms(ms)
    case Define(m, body) => Some(ms[m := body])
    case Undef(m) => Some(ms - {m})
  }

  /** The state after the events; None when one of them is rejected. */
  function Run(ms: Macros, es: seq<Event>): Option<Macros> {
    if es == [] then Some(ms)
    else
      match Run(ms, es[..|es| - 1])
      case None => None
      case Some(s) => Step(s, es[|es| - 1])
  }

  ghost predicate AllLegal(es: seq<Event>) {
    forall i :: 0 <= i < |es| ==> es[i].Legal()
  }

  ghost predicate AllThirdParty(es: seq<Event>) {
    forall i :: 0 <= i < |es| ==> es[i].ThirdParty()
  }

  /** Whether a pair is open after the events; None when the headers do not strictly alternate,
      beginning with UndefinePlatforms.h. */
  function Open(es: seq<Event>): Option<bool> {
    if es == [] then Some(false)
    else
      match Open(es[..|es| - 1])
      case None => None
      case Some(open) =>
        match es[|es| - 1]
        case IncludeUndefine => if open then None else Some(true)
        case IncludeRedefine => if open then Some(false) else None
        case _ => Some(open)
  }

  /** What every step of a run keeps. */
  ghost predicate Invariant(ms: Macros) {
    Foreign(ms) && (Marker !in ms ==> Clean(ms))
  }

  lemma StepKeepsInvariant(ms: Macros, e: Event)
    requires Invariant(ms) && e.Legal() && Step(ms, e).Some?
    ensures Invariant(Step(ms, e).value)
    ensures Marker in Step(ms, e).value <==> if e.ThirdParty() then Marker in ms else e.IncludeUndefine?
  {
    hide UndefinePlatforms, RedefinePlatforms, Saved, TestsAreFormed;
    UndefineResult(ms);
    RedefineResult(ms);
    if e == IncludeUndefine {
      var r := UndefinePlatforms(ms).value;
      forall m | m in r && r[m].Name? ensures !IsDetail(r[m].macro) {
        UndefineKeepsBodies(ms, m);
      }
    }
  }

  lemma UndefineKeepsBodies(ms: Macros, m: Macro)
    requires UndefinePlatforms(ms).Some? && m in UndefinePlatforms(ms).value
    ensures var b := UndefinePlatforms(ms).value[m]; b == Empty || (m in ms && b == ms[m])
  {
    hide IfValue;
  }

  /** A run without an error alternates the two headers strictly, its marker says whether a pair
      is open, and outside a pair none of the protocol's own macros is defined. */
  lemma {:induction false} SuccessAlternates(ms: Macros, es: seq<Event>)
    requires Clean(ms) && Foreign(ms) && AllLegal(es) && Run(ms, es).Some?
    ensures var s := Run(ms, es).value;
            Invariant(s) && Open(es) == Some(Marker in s) && (Open(es) == Some(false) ==> Clean(s))
  {
    hide UndefinePlatforms, RedefinePlatforms, Clean, Foreign;
    if es == [] {
      NoMarker(ms);
    } else {
      var front := es[..|es| - 1];
      SuccessAlternates(ms, front);
      var s := Run(ms, front).value;
      StepKeepsInvariant(s, es[|es| - 1]);
      MarkerSwitches(s);
    }
  }

  lemma NoMarker(ms: Macros)
    requires Clean(ms)
    ensures Marker !in ms
  {
    assert IsDetail(Marker);
  }

  lemma MarkerSwitches(ms: Macros)
    ensures UndefinePlatforms(ms).Some? ==> Marker !in ms
    ensures RedefinePlatforms(ms).Some? <==> Marker in ms
  {}

  // ----- When a run succeeds -----

  /** Wherever the run reaches an UndefinePlatforms.h, the three tests of that header are well formed. */
  ghost predicate EveryTestIsFormed(ms: Macros, es: seq<Event>) {
    forall i :: 0 <= i < |es| && es[i] == IncludeUndefine && Run(ms, es[..i]).Some?
                ==> TestsAreFormed(Run(ms, es[..i]).value)
  }

  lemma FormedPrefix(ms: Macros, es: seq<Event>)
    requires es != []
    ensures var front := es[..|es| - 1];
            EveryTestIsFormed(ms, es)
            <==> EveryTestIsFormed(ms, front)
                 && (es[|es| - 1] == IncludeUndefine && Run(ms, front).Some? ==> TestsAreFormed(Run(ms, front).value))
  {
    hide Run, TestsAreFormed;
    var front := es[..|es| - 1];
    assert forall i :: 0 <= i < |front| ==> front[..i] == es[..i] && front[i] == es[i];
  }

  /** A run is free of errors exactly when the two headers strictly alternate, beginning with
      UndefinePlatforms.h, and every #if it meets is well formed. */
  lemma {:induction false} SuccessIffAlternating(ms: Macros, es: seq<Event>)
    requires Clean(ms) && Foreign(ms) && AllLegal(es)
    ensures Run(ms, es).Some? <==> Open(es).Some? && EveryTestIsFormed(ms, es)
  {
    hide UndefinePlatforms, RedefinePlatforms, Clean, Foreign, TestsAreFormed, EveryTestIsFormed;
    if es == [] {
      NothingToForm(ms);
    } else {
      var front := es[..|es| - 1];
      SuccessIffAlternating(ms, front);
      FormedPrefix(ms, es);
      if Run(ms, front).Some? {
        SuccessAlternates(ms, front);
        MarkerSwitches(Run(ms, front).value);
        UndefineResult(Run(ms, front).value);
      }
    }
  }

  lemma NothingToForm(ms: Macros)
    ensures EveryTestIsFormed(ms, [])
  {}

  /** No macro outside the protocol has an empty replacement. */
  ghost predicate NoEmptyBodies(ms: Macros) {
    forall m :: m in ms && !IsDetail(m) ==> ms[m] != Empty
  }

  ghost predicate DefinesNoEmptyBodies(es: seq<Event>) {
    forall i :: 0 <= i < |es| && es[i].Define? ==> es[i].body != Empty
  }

  lemma {:induction false} IfIsFormed(ms: Macros, m: Macro, expanding: set<Macro>)
    requires Foreign(ms) && NoEmptyBodies(ms) && !IsDetail(m)
    ensures IfValue(ms, m, expanding).Some?
    decreases ms.Keys - expanding
  {
    if m in ms && m !in expanding && ms[m].Name? {
      IfIsFormed(ms, ms[m].macro, expanding + {m});
    }
  }

  lemma StepKeepsBodies(ms: Macros, e: Event)
    requires Invariant(ms) && NoEmptyBodies(ms) && e.Legal() && Step(ms, e).Some?
    requires e.Define? ==> e.body != Empty
    ensures NoEmptyBodies(Step(ms, e).value)
  {
    hide UndefinePlatforms, RedefinePlatforms, Saved, TestsAreFormed;
    UndefineResult(ms);
    RedefineResult(ms);
  }

  /** When nobody defines a macro as nothing, alternating is all it takes. */
  lemma {:induction false} AlternatingIsEnough(ms: Macros, es: seq<Event>)
    requires Clean(ms) && Foreign(ms) && NoEmptyBodies(ms) && AllLegal(es) && DefinesNoEmptyBodies(es)
    ensures Run(ms, es).Some? <==> Open(es).Some?
    ensures Run(ms, es).Some? ==> NoEmptyBodies(Run(ms, es).value)
  {
    hide UndefinePlatforms, RedefinePlatforms, Clean, Foreign, NoEmptyBodies;
    if es != [] {
      var front, e := es[..|es| - 1], es[|es| - 1];
      AlternatingIsEnough(ms, front);
      if Run(ms, front).Some? {
        var s := Run(ms, front).value;
        SuccessAlternates(ms, front);
        MarkerSwitches(s);
        if e == IncludeUndefine && Marker !in s {
          UndefineSucceeds(s);
        }
        if Step(s, e).Some? {
          StepKeepsBodies(s, e);
        }
      }
    }
  }

  lemma UndefineSucceeds(ms: Macros)
    requires Invariant(ms) && NoEmptyBodies(ms) && Marker !in ms
    ensures UndefinePlatforms(ms).Some?
  {
    hide IfValue, UndefinePlatforms;
    forall p: Platform ensures IfValue(ms - Before(p), Is(p), {}).Some? {
      IfIsFormed(ms - Before(p), Is(p), {});
    }
    UndefineResult(ms);
  }

  /** All the aliases: of a platform macro that is defined as another one, itself 1, the header forgets
      exactly three. */
  lemma AliasesSaved(ms: Macros, p: Platform, q: Platform)
    requires p != q && ms == map[Is(q) := Number(1), Is(p) := Name(Is(q))]
    ensures UndefinePlatforms(ms).Some?
    ensures Temp(p) in UndefinePlatforms(ms).value
            <==> (p, q) !in {(Tvos, Ios), (Visionos, Ios), (Visionos, Tvos)}
  {
    hide UndefinePlatforms, TestsAreFormed;
    UndefineSucceeds(ms);
    UndefineResult(ms);
    SavedExactly(ms, p);
    assert {} + {Is(p)} == {Is(p)};
    assert IfValue(ms, Is(q), {Is(p)}) == Some(1);
    assert Is(p) !in Before(p);
    assert Is(q) in Before(p) <==> (p, q) in {(Tvos, Ios), (Visionos, Ios), (Visionos, Tvos)};
    assert Visits(ms, Is(q), {Is(p)}, Before(p)) <==> Is(q) in Before(p);
  }

  // ----- What a pair restores -----

  lemma {:induction false} RunConcatenation(ms: Macros, es: seq<Event>, fs: seq<Event>)
    ensures Run(ms, es + fs) == match Run(ms, es) case None => None case Some(s) => Run(s, fs)
    decreases |fs|
  {
    hide Step;
    if fs == [] {
      assert es + fs == es;
    } else {
      var front := fs[..|fs| - 1];
      assert (es + fs)[..|es + fs| - 1] == es + front;
      RunConcatenation(ms, es, front);
    }
  }

  /** Third parties leave the protocol's own macros alone, and never cause an error. */
  lemma {:induction false} ThirdPartiesKeepDetails(ms: Macros, es: seq<Event>)
    requires AllLegal(es) && AllThirdParty(es)
    ensures Run(ms, es).Some?
    ensures forall m :: IsDetail(m) ==> (m in Run(ms, es).value <==> m in ms)
  {
    if es != [] {
      ThirdPartiesKeepDetails(ms, es[..|es| - 1]);
    }
  }

  /** Between the two headers anything may happen to the platform macros: the pair leaves each of
      them one if it was saved by the first header and zero otherwise, and leaves every other
      macro as the third parties left it. */
  lemma PairRestores(ms: Macros, middle: seq<Event>)
    requires Invariant(ms) && AllLegal(middle) && AllThirdParty(middle) && UndefinePlatforms(ms).Some?
    ensures var u := Run(UndefinePlatforms(ms).value, middle);
            && u.Some? && RedefinePlatforms(u.value).Some?
            && var r := RedefinePlatforms(u.value).value;
               && Clean(r)
               && (forall p :: Is(p) in r && r[Is(p)] == Number(if Saved(ms, p) then 1 else 0))
               && (forall n :: (Other(n) in r <==> Other(n) in u.value)
                               && (Other(n) in r ==> r[Other(n)] == u.value[Other(n)]))
  {
    hide UndefinePlatforms, RedefinePlatforms, Saved, TestsAreFormed, Run;
    UndefineResult(ms);
    var s := UndefinePlatforms(ms).value;
    ThirdPartiesKeepDetails(s, middle);
    assert forall p :: IsDetail(Temp(p));
    RedefineResult(Run(s, middle).value);
  }

  /** Once the platform macros are numbers, as they are after any pair, a pair around any third-party
      code puts every platform macro back to the truth value it had. */
  lemma PairIsTransparent(ms: Macros, middle: seq<Event>, p: Platform)
    requires Invariant(ms) && AllLegal(middle) && AllThirdParty(middle) && Marker !in ms
    requires forall q :: Is(q) in ms && ms[Is(q)].Number?
    ensures UndefinePlatforms(ms).Some?
    ensures var u := Run(UndefinePlatforms(ms).value, middle);
            && u.Some? && RedefinePlatforms(u.value).Some? && Is(p) in RedefinePlatforms(u.value).value
            && RedefinePlatforms(u.value).value[Is(p)] == Number(if ms[Is(p)].n != 0 then 1 else 0)
  {
    hide UndefinePlatforms, RedefinePlatforms, Saved, Run;
    assert TestsAreFormed(ms) by {
      forall q: Platform ensures IfValue(ms - Before(q), Is(q), {}).Some? {
        IfAfterUndef(ms, Is(q), {}, Before(q));
      }
    }
    UndefineResult(ms);
    PairRestores(ms, middle);
    SavedExactly(ms, p);
  }

  /** In a run without an error every RedefinePlatforms.h has a matching UndefinePlatforms.h with only
      third-party events between, and leaves each platform macro one exactly when it was truthy
      just before that header and its replacement did not lead through a platform undefined before
      it; outside pairs none of the protocol's own macros is ever defined. */
  lemma EveryRedefineRestores(ms: Macros, es: seq<Event>, k: nat) returns (u: nat)
    requires Clean(ms) && Foreign(ms) && AllLegal(es) && k < |es| && es[k] == IncludeRedefine
    requires Run(ms, es[..k + 1]).Some?
    ensures u < k && es[u] == IncludeUndefine && AllThirdParty(es[u + 1..k])
    ensures Run(ms, es[..u]).Some? && Clean(Run(ms, es[..u]).value) && Clean(Run(ms, es[..k + 1]).value)
    ensures var before, after := Run(ms, es[..u]).value, Run(ms, es[..k + 1]).value;
            forall p :: Is(p) in after && after[Is(p)]
              == Number(if Truthy(before, p) && !Visits(before, Is(p), {}, Before(p)) then 1 else 0)
  {
    hide UndefinePlatforms, RedefinePlatforms, Saved, Visits, Truthy;
    var now := es[..k + 1];
    assert now[..k] == es[..k] && now[k] == IncludeRedefine;
    SuccessAlternates(ms, now);
    SuccessAlternates(ms, es[..k]);
    MarkerSwitches(Run(ms, es[..k]).value);
    u := LastUndefine(es, k);
    var before := es[..u];
    var middle := es[u + 1..k];
    assert es[..u + 1][..u] == before && es[..u + 1][u] == IncludeUndefine;
    assert es[..k] == es[..u + 1] + middle;
    RunConcatenation(ms, es[..u + 1], middle);
    SuccessAlternates(ms, es[..u + 1]);
    SuccessAlternates(ms, before);
    MarkerSwitches(Run(ms, before).value);
    PairRestores(Run(ms, before).value, middle);
    forall p ensures Saved(Run(ms, before).value, p)
                     <==> Truthy(Run(ms, before).value, p) && !Visits(Run(ms, before).value, Is(p), {}, Before(p)) {
      SavedExactly(Run(ms, before).value, p);
    }
  }

  /** An open pair was opened by some UndefinePlatforms.h with only third-party events since. */
  lemma {:induction false} LastUndefine(es: seq<Event>, k: nat) returns (u: nat)
    requires k <= |es| && Open(es[..k]) == Some(true)
    ensures u < k && es[u] == IncludeUndefine && AllThirdParty(es[u + 1..k])
    decreases k
  {
    assert k > 0;
    assert es[..k][..k - 1] == es[..k - 1] && es[..k][k - 1] == es[k - 1];
    if es[k - 1] == IncludeUndefine {
      u := k - 1;
    } else {
      u := LastUndefine(es, k - 1);
      assert es[u + 1..k] == es[u + 1..k - 1] + [es[k - 1]];
    }
  }
}
