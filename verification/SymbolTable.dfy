/** The API symbol registry of il2cpp-api.cpp: SymbolCompare, RegisterAPIFunction and
    il2cpp_api_lookup_symbol over a map that is ordered by string contents. */
module SymbolTable {
  import opened Options
  import opened CStrings

  type Pointer = nat

  const NULL: Pointer := 0

  // ----- The order -----

  /** strcmp from position `k` on, up to which the strings agree; characters compare as unsigned. */
  function Strcmp(a: CString, b: CString, k: nat): int
    requires k <= |a| && k <= |b|
    decreases |a| - k
  {
    var x, y := At(a, k) as int, At(b, k) as int;
    if x != y then x - y else if k == |a| then 0 else Strcmp(a, b, k + 1)
  }

  predicate SymbolCompare(lhs: CString, rhs: CString) {
    Strcmp(lhs, rhs, 0) < 0
  }

  lemma {:induction false} StrcmpIsContents(a: CString, b: CString, k: nat)
    requires k <= |a| && k <= |b| && a[..k] == b[..k]
    ensures Strcmp(a, b, k) == 0 <==> a == b
    ensures Strcmp(b, a, k) == -Strcmp(a, b, k)
    decreases |a| - k
  {
    if At(a, k) == At(b, k) && k < |a| {
      assert a[..k + 1] == a[..k] + [a[k]] == b[..k + 1];
      StrcmpIsContents(a, b, k + 1);
    } else if At(a, k) == At(b, k) {
      assert a == a[..k] && b == b[..k];
    }
  }

  lemma {:induction false} StrcmpChains(a: CString, b: CString, c: CString, k: nat)
    requires k <= |a| && k <= |b| && k <= |c|
    requires Strcmp(a, b, k) < 0 && Strcmp(b, c, k) < 0
    ensures Strcmp(a, c, k) < 0
    decreases |a| - k
  {
    if At(a, k) == At(b, k) == At(c, k) && k < |a| {
      StrcmpChains(a, b, c, k + 1);
    }
  }

  /** SymbolCompare is a strict total order on contents. */
  lemma SymbolCompareIsStrictOrder(a: CString, b: CString, c: CString)
    ensures !SymbolCompare(a, a)
    ensures SymbolCompare(a, b) ==> !SymbolCompare(b, a)
    ensures SymbolCompare(a, b) && SymbolCompare(b, c) ==> SymbolCompare(a, c)
    ensures !SymbolCompare(a, b) && !SymbolCompare(b, a) <==> a == b
  {
    StrcmpIsContents(a, a, 0);
    StrcmpIsContents(a, b, 0);
    if SymbolCompare(a, b) && SymbolCompare(b, c) {
      StrcmpChains(a, b, c, 0);
    }
  }

  /** The strings agree before position `k`, where the character of `a` is the smaller one. */
  ghost predicate SmallerAt(a: string, b: string, k: nat) {
    && k <= |a| && k <= |b| && a[..k] == b[..k]
    && (if k < |a| then a[k] else '\0') < (if k < |b| then b[k] else '\0')
  }

  lemma {:induction false} NegativeMeansSmaller(a: CString, b: CString, k: nat)
    requires k <= |a| && k <= |b| && a[..k] == b[..k] && Strcmp(a, b, k) < 0
    ensures exists j: nat :: SmallerAt(a, b, j)
    decreases |a| - k
  {
    if At(a, k) == At(b, k) {
      assert a[..k + 1] == a[..k] + [a[k]] == b[..k + 1];
      NegativeMeansSmaller(a, b, k + 1);
    } else {
      assert SmallerAt(a, b, k);
    }
  }

  lemma {:induction false} SmallerMeansNegative(a: CString, b: CString, k: nat, j: nat)
    requires k <= j && SmallerAt(a, b, j)
    ensures Strcmp(a, b, k) < 0
    decreases j - k
  {
    if k < j {
      assert a[..j][k] == b[..j][k];
      SmallerMeansNegative(a, b, k + 1, j);
    }
  }

  /** SymbolCompare is the lexicographic order: less means a smaller character, the terminator included,
      at the first difference. */
  lemma SymbolCompareIsLexicographic(a: CString, b: CString)
    ensures SymbolCompare(a, b) <==> exists k: nat :: SmallerAt(a, b, k)
  {
    if SymbolCompare(a, b) {
      NegativeMeansSmaller(a, b, 0);
    }
    forall k: nat | SmallerAt(a, b, k) ensures SymbolCompare(a, b) {
      SmallerMeansNegative(a, b, 0, k);
    }
  }

  // ----- The search tree behind std::map, of any shape -----

  datatype Tree = Leaf | Node(left: Tree, name: CString, symbol: Pointer, right: Tree)

  function Names(t: Tree): set<CString> {
    match t
    case Leaf => {}
    case Node(l, n, _, r) => Names(l) + {n} + Names(r)
  }

  ghost predicate Ordered(t: Tree) {
    match t
    case Leaf => true
    case Node(l, n, _, r) =>
      && Ordered(l) && Ordered(r)
      && (forall m :: m in Names(l) ==> SymbolCompare(m, n))
      && (forall m :: m in Names(r) ==> SymbolCompare(n, m))
  }

  /** The association that the tree stands for. */
  function Contents(t: Tree): map<CString, Pointer> {
    match t
    case Leaf => map[]
    case Node(l, n, s, r) => Contents(l) + map[n := s] + Contents(r)
  }

  /** std::map::insert: an equivalent key that is already there stays as it is. */
  function Insert(t: Tree, name: CString, symbol: Pointer): Tree {
    match t
    case Leaf => Node(Leaf, name, symbol, Leaf)
    case Node(l, n, s, r) =>
      if SymbolCompare(name, n) then Node(Insert(l, name, symbol), n, s, r)
      else if SymbolCompare(n, name) then Node(l, n, s, Insert(r, name, symbol))
      else t
  }

  /** std::map::find. */
  function Find(t: Tree, name: CString): Option<Pointer> {
    match t
    case Leaf => None
    case Node(l, n, s, r) =>
      if SymbolCompare(name, n) then Find(l, name)
      else if SymbolCompare(n, name) then Find(r, name)
      else Some(s)
  }

  lemma {:induction false} ContentsHasNames(t: Tree)
    ensures Contents(t).Keys == Names(t)
  {
    match t
    case Leaf =>
    case Node(l, n, s, r) =>
      ContentsHasNames(l);
      ContentsHasNames(r);
  }

  lemma {:induction false} FindIsContents(t: Tree, name: CString)
    requires Ordered(t)
    ensures Find(t, name) == if name in Contents(t) then Some(Contents(t)[name]) else None
  {
    match t
    case Leaf =>
    case Node(l, n, s, r) =>
      FindIsContents(l, name);
      FindIsContents(r, name);
      ContentsHasNames(l);
      ContentsHasNames(r);
      SymbolCompareIsStrictOrder(name, n, name);
  }

  /** Inserting keeps the order, and adds the association unless an equal name is there already, in
      which case the tree stays the very same. */
  lemma InsertKeepsOrder(t: Tree, name: CString, symbol: Pointer)
    requires Ordered(t)
    ensures Ordered(Insert(t, name, symbol))
    ensures Contents(Insert(t, name, symbol))
            == if name in Contents(t) then Contents(t) else Contents(t)[name := symbol]
    ensures name in Contents(t) ==> Insert(t, name, symbol) == t
  {
    InsertIsOrdered(t, name, symbol);
    InsertIsIdle(t, name, symbol);
    ContentsHasNames(t);
    if name !in Names(t) {
      InsertAdds(t, name, symbol);
    }
  }

  lemma {:induction false} InsertIsOrdered(t: Tree, name: CString, symbol: Pointer)
    requires Ordered(t)
    ensures Ordered(Insert(t, name, symbol)) && Names(Insert(t, name, symbol)) == Names(t) + {name}
  {
    hide SymbolCompare;
    match t
    case Leaf =>
    case Node(l, n, s, r) =>
      InsertIsOrdered(l, name, symbol);
      InsertIsOrdered(r, name, symbol);
      SymbolCompareIsStrictOrder(name, n, name);
  }

  lemma {:induction false} InsertIsIdle(t: Tree, name: CString, symbol: Pointer)
    requires Ordered(t)
    ensures name in Names(t) ==> Insert(t, name, symbol) == t
  {
    hide SymbolCompare;
    match t
    case Leaf =>
    case Node(l, n, s, r) =>
      InsertIsIdle(l, name, symbol);
      InsertIsIdle(r, name, symbol);
      SymbolCompareIsStrictOrder(name, n, name);
  }

  lemma {:induction false} InsertAdds(t: Tree, name: CString, symbol: Pointer)
    requires Ordered(t) && name !in Names(t)
    ensures Contents(Insert(t, name, symbol)) == Contents(t)[name := symbol]
  {
    hide SymbolCompare;
    match t
    case Leaf =>
    case Node(l, n, s, r) =>
      SymbolCompareIsStrictOrder(name, n, name);
      ContentsHasNames(l);
      ContentsHasNames(r);
      if SymbolCompare(name, n) {
        InsertAdds(l, name, symbol);
        AddOnLeft(Contents(l), map[n := s], Contents(r), name, symbol);
      } else {
        InsertAdds(r, name, symbol);
        AddOnRight(Contents(l), map[n := s], Contents(r), name, symbol);
      }
  }

  lemma AddOnLeft(l: map<CString, Pointer>, m: map<CString, Pointer>, r: map<CString, Pointer>,
                  name: CString, symbol: Pointer)
    requires name !in m && name !in r
    ensures l[name := symbol] + m + r == (l + m + r)[name := symbol]
  {}

  lemma AddOnRight(l: map<CString, Pointer>, m: map<CString, Pointer>, r: map<CString, Pointer>,
                   name: CString, symbol: Pointer)
    ensures l + m + r[name := symbol] == (l + m + r)[name := symbol]
  {}

  /** However the tree is balanced, equal contents give equal answers. */
  lemma ShapeDoesNotMatter(t: Tree, u: Tree, name: CString)
    requires Ordered(t) && Ordered(u) && Contents(t) == Contents(u)
    ensures Find(t, name) == Find(u, name)
  {
    FindIsContents(t, name);
    FindIsContents(u, name);
  }

  // ----- The registry -----

  datatype Registration = Registration(name: CString, symbol: Pointer)

  class Registry {
    var symbols: Tree

    constructor ()
      ensures symbols == Leaf && Valid()
    {
      symbols := Leaf;
    }

    ghost predicate Valid()
      reads this
    {
      Ordered(symbols)
    }

    method RegisterAPIFunction(name: CString, symbol: Pointer)
      requires Valid()
      modifies this
      ensures Valid() && symbols == Insert(old(symbols), name, symbol)
      ensures Contents(symbols)
              == if name in Contents(old(symbols)) then Contents(old(symbols))
                 else Contents(old(symbols))[name := symbol]
    {
      InsertKeepsOrder(symbols, name, symbol);
      symbols := Insert(symbols, name, symbol);
    }

    /** il2cpp_api_register_symbols, for the list of functions that it is compiled with. */
    method RegisterSymbols(functions: seq<Registration>)
      requires Valid()
      modifies this
      ensures Valid() && symbols == RegisterAll(old(symbols), functions)
    {
      for i := 0 to |functions|
        invariant Valid() && symbols == RegisterAll(old(symbols), functions[..i])
      {
        RegisterAPIFunction(functions[i].name, functions[i].symbol);
        assert functions[..i + 1][..i] == functions[..i];
      }
      assert functions[..|functions|] == functions;
    }

    method LookupSymbol(name: CString) returns (symbol: Pointer)
      requires Valid()
      ensures symbol == if name in Contents(symbols) then Contents(symbols)[name] else NULL
    {
      FindIsContents(symbols, name);
      var it := Find(symbols, name);
      if it.Some? {
        return it.value;
      }
      return NULL;
    }
  }

  function RegisterAll(t: Tree, regs: seq<Registration>): Tree {
    if regs == [] then t
    else
      var last := regs[|regs| - 1];
      Insert(RegisterAll(t, regs[..|regs| - 1]), last.name, last.symbol)
  }

  /** The same registrations as a plain list, searched from the front. */
  function FirstRegistered(regs: seq<Registration>, name: CString): Option<Pointer> {
    if regs == [] then None
    else if regs[0].name == name then Some(regs[0].symbol)
    else FirstRegistered(regs[1..], name)
  }

  lemma {:induction false} FirstRegisteredOfFront(regs: seq<Registration>, name: CString)
    requires regs != []
    ensures FirstRegistered(regs, name)
            == if FirstRegistered(regs[..|regs| - 1], name).Some? then FirstRegistered(regs[..|regs| - 1], name)
               else if regs[|regs| - 1].name == name then Some(regs[|regs| - 1].symbol) else None
  {
    if |regs| > 1 && regs[0].name != name {
      FirstRegisteredOfFront(regs[1..], name);
      assert regs[1..][..|regs| - 2] == regs[..|regs| - 1][1..];
    }
  }

  /** `u` is `t` after some rebalancing: any ordered tree of the same contents. */
  ghost predicate Rebalanced(t: Tree, u: Tree) {
    Ordered(u) && Contents(u) == Contents(t)
  }

  /** The trees of a run of registrations, each rebalanced in some way after the insertion. */
  ghost predicate IsRun(trees: seq<Tree>, regs: seq<Registration>) {
    && |trees| == |regs| + 1 && Ordered(trees[0])
    && forall i :: 0 <= i < |regs| ==> Rebalanced(Insert(trees[i], regs[i].name, regs[i].symbol), trees[i + 1])
  }

  /** Rebalancing changes nothing but the shape: the run ends with the contents that plain insertion
      gives. */
  lemma {:induction false} RunHasContents(trees: seq<Tree>, regs: seq<Registration>)
    requires IsRun(trees, regs)
    ensures Ordered(RegisterAll(trees[0], regs)) && Rebalanced(RegisterAll(trees[0], regs), trees[|regs|])
    decreases |regs|
  {
    hide SymbolCompare, Insert, Ordered, Contents;
    if regs != [] {
      var k := |regs| - 1;
      var front := regs[..k];
      assert forall i :: 0 <= i < k ==> front[i] == regs[i] && trees[..k + 1][i + 1] == trees[i + 1];
      assert trees[..k + 1][0] == trees[0];
      RunHasContents(trees[..k + 1], front);
      InsertKeepsOrder(trees[k], regs[k].name, regs[k].symbol);
      InsertKeepsOrder(RegisterAll(trees[0], front), regs[k].name, regs[k].symbol);
    }
  }

  /** For every sequence of registrations and every rebalancing, looking a name up in the ordered map
      gives what the plain list gives: the first symbol registered under a name with the same
      contents, or nothing. */
  lemma LookupIsFirstRegistered(trees: seq<Tree>, regs: seq<Registration>, name: CString)
    requires IsRun(trees, regs) && trees[0] == Leaf
    ensures Find(trees[|regs|], name) == FirstRegistered(regs, name)
  {
    RunHasContents(trees, regs);
    ShapeDoesNotMatter(trees[|regs|], RegisterAll(Leaf, regs), name);
    PlainLookup(regs, name);
  }

  lemma {:induction false} PlainLookup(regs: seq<Registration>, name: CString)
    ensures Ordered(RegisterAll(Leaf, regs))
    ensures Find(RegisterAll(Leaf, regs), name) == FirstRegistered(regs, name)
  {
    hide SymbolCompare, Insert, Find, Ordered;
    if regs == [] {
      EmptyTree(name);
    } else {
      var front, last := regs[..|regs| - 1], regs[|regs| - 1];
      var t := RegisterAll(Leaf, front);
      PlainLookup(front, name);
      InsertKeepsOrder(t, last.name, last.symbol);
      FindIsContents(t, name);
      FindIsContents(Insert(t, last.name, last.symbol), name);
      FirstRegisteredOfFront(regs, name);
    }
  }

  lemma EmptyTree(name: CString)
    ensures Ordered(Leaf) && Find(Leaf, name) == None
  {}

  lemma {:induction false} RegisteredNamesStay(t: Tree, regs: seq<Registration>)
    requires Ordered(t)
    ensures Ordered(RegisterAll(t, regs)) && Contents(t).Keys <= Contents(RegisterAll(t, regs)).Keys
    ensures forall i :: 0 <= i < |regs| ==> regs[i].name in Contents(RegisterAll(t, regs))
  {
    hide SymbolCompare, Insert, Ordered, Contents;
    if regs != [] {
      var front, last := regs[..|regs| - 1], regs[|regs| - 1];
      RegisteredNamesStay(t, front);
      InsertKeepsOrder(RegisterAll(t, front), last.name, last.symbol);
      assert forall i :: 0 <= i < |front| ==> regs[i] == front[i];
    }
  }

  lemma {:induction false} KnownNamesChangeNothing(t: Tree, regs: seq<Registration>)
    requires Ordered(t) && forall i :: 0 <= i < |regs| ==> regs[i].name in Contents(t)
    ensures RegisterAll(t, regs) == t
  {
    hide SymbolCompare, Insert, Ordered, Contents;
    if regs != [] {
      var front, last := regs[..|regs| - 1], regs[|regs| - 1];
      assert forall i :: 0 <= i < |front| ==> front[i] == regs[i];
      KnownNamesChangeNothing(t, front);
      InsertKeepsOrder(t, last.name, last.symbol);
    }
  }

  /** Registering everything a second time changes no answer, whatever symbols come with it and however
      the map is rebalanced. */
  lemma RegisteringAgainChangesNothing(trees: seq<Tree>, regs: seq<Registration>,
                                       trees': seq<Tree>, again: seq<Registration>)
    requires IsRun(trees, regs) && IsRun(trees', again) && trees'[0] == trees[|regs|]
    requires |again| == |regs| && forall i :: 0 <= i < |regs| ==> again[i].name == regs[i].name
    ensures Contents(trees'[|again|]) == Contents(trees[|regs|])
    ensures forall name :: Find(trees'[|again|], name) == Find(trees[|regs|], name)
  {
    hide SymbolCompare, Insert, Find, Ordered, Contents;
    RunHasContents(trees, regs);
    RunHasContents(trees', again);
    RegisteredNamesStay(trees[0], regs);
    KnownNamesChangeNothing(trees'[0], again);
    forall name ensures Find(trees'[|again|], name) == Find(trees[|regs|], name) {
      ShapeDoesNotMatter(trees'[|again|], trees[|regs|], name);
    }
  }

  /** Without rebalancing it leaves the very same tree. */
  lemma RegisteringAgainIsIdle(t: Tree, regs: seq<Registration>, again: seq<Registration>)
    requires Ordered(t) && |again| == |regs| && forall i :: 0 <= i < |regs| ==> again[i].name == regs[i].name
    ensures RegisterAll(RegisterAll(t, regs), again) == RegisterAll(t, regs)
  {
    RegisteredNamesStay(t, regs);
    KnownNamesChangeNothing(RegisterAll(t, regs), again);
  }
}
