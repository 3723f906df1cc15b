/**
 * Load-combination bookkeeping of `ForceEffect`: a parsed combination row is
 * a category tag and an ordered list of (coefficient, load-case name) pairs;
 * the combined force of a row is the coefficient-weighted sum of the named
 * single-case forces; a factor table (fundamental, nominal or quasi-permanent)
 * is an ordered list of rows and may be absent.
 */
module Combinations {

  import opened Wrappers
  import opened Forces

  /** The combination categories of `E_CombinationType`. */
  datatype CombinationType =
    | E_CT_CASE     // single load case
    | E_CT_LOAD     // non-seismic load combination
    | E_CT_SEISMIC  // seismic combination
    | E_CT_AD       // civil-defence combination
    | E_CT_FC       // fundamental combination
    | E_CT_NC       // nominal (characteristic) combination
    | E_CT_QPC      // quasi-permanent combination

  /** One (coefficient, single-case name) entry of a row. */
  datatype CombinePair = CombinePair(coef: real, caseName: string)

  /** A parsed combination row; the datatype constructor is the two-argument constructor. */
  datatype CombineExp = CombineExp(combineType: CombinationType, casePairData: seq<CombinePair>)

  /** A combined force together with the category of the row it came from. */
  datatype CombineForceData = CombineForceData(force: ForceValue, combinationType: CombinationType)

  /** The default `CombineExp`: a single-case row with no pairs. */
  function DefaultCombineExp(): (e: CombineExp)
    ensures e.combineType == E_CT_CASE && e.casePairData == []
  {
    CombineExp(E_CT_CASE, [])
  }

  /** The default row is a single-case row that combines to the zero force under any case map. */
  lemma DefaultCombinesToZero(cases: map<string, ForceValue>)
    ensures DefaultCombineExp().combineType == E_CT_CASE
    ensures DefaultCombineExp().casePairData == []
    ensures Resolves(DefaultCombineExp().casePairData, cases)
    ensures CombinedForce(DefaultCombineExp(), cases) == Zero()
  {
  }

  /** Every case name a pair list mentions is a key of the case map. */
  predicate Resolves(pairs: seq<CombinePair>, cases: map<string, ForceValue>) {
    forall p :: p in pairs ==> p.caseName in cases
  }

  /** Every row of a factor table resolves against the case map. */
  predicate TableResolves(table: seq<CombineExp>, cases: map<string, ForceValue>) {
    forall e :: e in table ==> Resolves(e.casePairData, cases)
  }

  /** One term of a weighted sum: the named case force times its coefficient. */
  function Term(p: CombinePair, cases: map<string, ForceValue>): ForceValue
    requires p.caseName in cases
  {
    Scale(cases[p.caseName], p.coef)
  }

  /**
   * The weighted sum coef_1 * cases[name_1] + ... + coef_n * cases[name_n],
   * accumulated from the zero force in list order.
   */
  function WeightedSum(pairs: seq<CombinePair>, cases: map<string, ForceValue>): ForceValue
    requires Resolves(pairs, cases)
    decreases |pairs|
  {
    if pairs == [] then Zero()
    else
      var last := |pairs| - 1;
      assert pairs[last] in pairs;
      assert forall p :: p in pairs[..last] ==> p in pairs;
      Add(WeightedSum(pairs[..last], cases), Term(pairs[last], cases))
  }

  /** The combined force of one row. */
  function CombinedForce(e: CombineExp, cases: map<string, ForceValue>): ForceValue
    requires Resolves(e.casePairData, cases)
  {
    WeightedSum(e.casePairData, cases)
  }

  /** Splitting a pair list splits its weighted sum. */
  lemma {:induction false} WeightedSumAppend(p: seq<CombinePair>, q: seq<CombinePair>, cases: map<string, ForceValue>)
    requires Resolves(p, cases) && Resolves(q, cases)
    ensures Resolves(p + q, cases)
    ensures WeightedSum(p + q, cases) == Add(WeightedSum(p, cases), WeightedSum(q, cases))
    decreases |q|
  {
    assert forall x :: x in p + q ==> x in p || x in q;
    if q == [] {
      assert p + q == p;
    } else {
      var last := |q| - 1;
      var q' := q[..last];
      assert forall x :: x in q' ==> x in q;
      assert q[last] in q;
      assert (p + q)[..|p + q| - 1] == p + q';
      assert (p + q)[|p + q| - 1] == q[last];
      WeightedSumAppend(p, q', cases);
      AddAssociates(WeightedSum(p, cases), WeightedSum(q', cases), Term(q[last], cases));
    }
  }

  /** Extending a prefix of a row by its next pair adds that pair's term. */
  lemma WeightedSumStep(pairs: seq<CombinePair>, i: nat, cases: map<string, ForceValue>)
    requires i < |pairs| && Resolves(pairs, cases)
    ensures pairs[i].caseName in cases
    ensures Resolves(pairs[..i], cases) && Resolves(pairs[..i + 1], cases)
    ensures WeightedSum(pairs[..i + 1], cases) == Add(WeightedSum(pairs[..i], cases), Term(pairs[i], cases))
  {
    assert pairs[i] in pairs;
    assert pairs[..i + 1][..i] == pairs[..i];
    assert forall p :: p in pairs[..i + 1] ==> p in pairs;
  }

  /** A row that names one case with coefficient 1 yields that case's force. */
  lemma SingleCase(name: string, cases: map<string, ForceValue>)
    requires name in cases
    ensures Resolves([CombinePair(1.0, name)], cases)
    ensures WeightedSum([CombinePair(1.0, name)], cases) == cases[name]
  {
    var s := [CombinePair(1.0, name)];
    assert s[..0] == [];
  }

  /** Taking out the pair at index j takes its term out of the weighted sum. */
  lemma WeightedSumRemove(q: seq<CombinePair>, j: nat, cases: map<string, ForceValue>)
    requires j < |q| && Resolves(q, cases)
    ensures q[j].caseName in cases
    ensures Resolves(q[..j] + q[j + 1..], cases)
    ensures WeightedSum(q, cases) == Add(WeightedSum(q[..j] + q[j + 1..], cases), Term(q[j], cases))
  {
    var x, left, right := q[j], q[..j], q[j + 1..];
    assert q == (left + [x]) + right;
    assert x in q;
    ResolvesSlice(q, 0, j, cases);
    ResolvesSlice(q, j + 1, |q|, cases);
    SingletonSum(x, cases);
    WeightedSumAppend(left, [x], cases);
    WeightedSumAppend(left + [x], right, cases);
    WeightedSumAppend(left, right, cases);
  }

  lemma ResolvesSlice(q: seq<CombinePair>, lo: nat, hi: nat, cases: map<string, ForceValue>)
    requires lo <= hi <= |q| && Resolves(q, cases)
    ensures Resolves(q[lo..hi], cases)
  {
    forall y | y in q[lo..hi]
      ensures y.caseName in cases
    {
      var i :| lo <= i < hi && q[i] == y;
      assert q[i] in q;
    }
  }

  lemma SingletonSum(x: CombinePair, cases: map<string, ForceValue>)
    requires x.caseName in cases
    ensures Resolves([x], cases)
    ensures WeightedSum([x], cases) == Term(x, cases)
  {
    assert [x][..0] == [];
  }

  lemma MultisetRemove(q: seq<CombinePair>, j: nat)
    requires j < |q|
    ensures multiset(q[..j] + q[j + 1..]) == multiset(q) - multiset{q[j]}
  {
    assert q == q[..j] + [q[j]] + q[j + 1..];
  }

  lemma ResolvesPermutation(p: seq<CombinePair>, q: seq<CombinePair>, cases: map<string, ForceValue>)
    requires multiset(p) == multiset(q) && Resolves(p, cases)
    ensures Resolves(q, cases)
  {
    forall y | y in q
      ensures y.caseName in cases
    {
      assert y in multiset(q);
      assert y in p;
    }
  }

  /**
   * The weighted sum does not depend on the order of the pairs: any
   * rearrangement of the list gives the same combined force.
   */
  lemma {:induction false} WeightedSumPermutation(p: seq<CombinePair>, q: seq<CombinePair>, cases: map<string, ForceValue>)
    requires multiset(p) == multiset(q)
    requires Resolves(p, cases)
    ensures Resolves(q, cases)
    ensures WeightedSum(p, cases) == WeightedSum(q, cases)
    decreases |p|
  {
    ResolvesPermutation(p, q, cases);
    if p == [] {
      assert |q| == |multiset(q)| == 0;
    } else {
      var last := |p| - 1;
      assert p[last] in multiset(q);
      var j :| 0 <= j < |q| && q[j] == p[last];
      MultisetRemove(p, last);
      MultisetRemove(q, j);
      assert p[..last] + p[last + 1..] == p[..last];
      WeightedSumRemove(p, last, cases);
      WeightedSumRemove(q, j, cases);
      WeightedSumPermutation(p[..last], q[..j] + q[j + 1..], cases);
    }
  }

  /**
   * The weighted sum reads only the cases the row names: two case maps that
   * agree on those names give the same combined force.
   */
  lemma {:induction false} WeightedSumLocal(pairs: seq<CombinePair>, c1: map<string, ForceValue>, c2: map<string, ForceValue>)
    requires Resolves(pairs, c1)
    requires forall p :: p in pairs ==> p.caseName in c2 && c2[p.caseName] == c1[p.caseName]
    ensures Resolves(pairs, c2)
    ensures WeightedSum(pairs, c1) == WeightedSum(pairs, c2)
    decreases |pairs|
  {
    if pairs != [] {
      var last := |pairs| - 1;
      assert pairs[last] in pairs;
      assert forall p :: p in pairs[..last] ==> p in pairs;
      WeightedSumLocal(pairs[..last], c1, c2);
    }
  }

  /**
   * A worked case: dead load (N 100, M3 50) times 1.2 plus live load
   * (N 20, M3 10) times 1.4 gives N 148 and M3 74.
   */
  lemma DeadPlusLive()
    ensures
      var cases := map["DEAD" := ForceValue(100.0, 0.0, 0.0, 0.0, 0.0, 50.0),
                       "LIVE" := ForceValue(20.0, 0.0, 0.0, 0.0, 0.0, 10.0)];
      var row := CombineExp(E_CT_LOAD, [CombinePair(1.2, "DEAD"), CombinePair(1.4, "LIVE")]);
      Resolves(row.casePairData, cases) &&
      CombinedForce(row, cases) == ForceValue(148.0, 0.0, 0.0, 0.0, 0.0, 74.0)
  {
    var pairs := [CombinePair(1.2, "DEAD"), CombinePair(1.4, "LIVE")];
    assert pairs[..1] == [CombinePair(1.2, "DEAD")];
    assert pairs[..1][..0] == [];
    var cases := map["DEAD" := ForceValue(100.0, 0.0, 0.0, 0.0, 0.0, 50.0),
                     "LIVE" := ForceValue(20.0, 0.0, 0.0, 0.0, 0.0, 10.0)];
    assert WeightedSum(pairs[..1], cases) == ForceValue(120.0, 0.0, 0.0, 0.0, 0.0, 60.0);
  }

  /**
   * The combination state of `ForceEffect`: the single-case force map and
   * the three parsed factor tables, each of which may be absent.
   */
  class ForceEffect {
    var caseMap: map<string, ForceValue>
    var factorFC: Option<seq<CombineExp>>
    var factorNC: Option<seq<CombineExp>>
    var factorQPC: Option<seq<CombineExp>>

    /** `setCaseMap`: installs the single-case forces. */
    method SetCaseMap(caseMap: map<string, ForceValue>)
      modifies this`caseMap
      ensures this.caseMap == caseMap
    {
      this.caseMap := caseMap;
    }

    /** `setFC`: installs (or, with None, removes) the fundamental table. */
    method SetFC(factorFC: Option<seq<CombineExp>>)
      modifies this`factorFC
      ensures this.factorFC == factorFC
      ensures HasFC() <==> factorFC.Some?
    {
      this.factorFC := factorFC;
    }

    /** `setNC`: installs (or, with None, removes) the nominal table. */
    method SetNC(factorNC: Option<seq<CombineExp>>)
      modifies this`factorNC
      ensures this.factorNC == factorNC
      ensures HasNC() <==> factorNC.Some?
    {
      this.factorNC := factorNC;
    }

    /** `setQPC`: installs (or, with None, removes) the quasi-permanent table. */
    method SetQPC(factorQPC: Option<seq<CombineExp>>)
      modifies this`factorQPC
      ensures this.factorQPC == factorQPC
      ensures HasQPC() <==> factorQPC.Some?
    {
      this.factorQPC := factorQPC;
    }

    predicate HasFC()
      reads this
    {
      factorFC != None
    }

    predicate HasNC()
      reads this
    {
      factorNC != None
    }

    predicate HasQPC()
      reads this
    {
      factorQPC != None
    }

    /**
     * `calcCombineForce`: the combined force of one row, accumulated pair by
     * pair with the `Force` operators.
     */
    method CalcCombineForce(curCombineExp: CombineExp) returns (f: Force)
      requires Resolves(curCombineExp.casePairData, caseMap)
      ensures fresh(f)
      ensures f.Value() == CombinedForce(curCombineExp, caseMap)
    {
      var pairs, cases := curCombineExp.casePairData, caseMap;
      f := new Force(0.0, 0.0, 0.0, 0.0, 0.0, 0.0);
      var i := 0;
      while i < |pairs|
        invariant 0 <= i <= |pairs|
        invariant fresh(f)
        invariant Resolves(pairs[..i], cases)
        invariant f.Value() == WeightedSum(pairs[..i], cases)
      {
        WeightedSumStep(pairs, i, cases);
        ghost var sum := f.Value();
        var pair := pairs[i];
        var c := cases[pair.caseName];
        var term := new Force(c.N, c.V2, c.V3, c.T, c.M2, c.M3);
        var _ := term.Times(pair.coef);
        assert term.Value() == Term(pair, cases);
        var _ := f.Plus(term);
        assert f.Value() == Add(sum, Term(pair, cases));
        i := i + 1;
      }
      assert pairs[..i] == pairs;
    }

    /**
     * `calcCombination`: the combination results of a factor table, one per
     * row and in row order, each tagged with its row's category.
     */
    method CalcCombination(factorTable: seq<CombineExp>) returns (combinationTable: seq<CombineForceData>)
      requires TableResolves(factorTable, caseMap)
      ensures |combinationTable| == |factorTable|
      ensures forall i :: 0 <= i < |factorTable| ==>
                combinationTable[i].force == CombinedForce(factorTable[i], caseMap) &&
                combinationTable[i].combinationType == factorTable[i].combineType
    {
      combinationTable := [];
      var i := 0;
      while i < |factorTable|
        invariant 0 <= i <= |factorTable|
        invariant |combinationTable| == i
        invariant forall k :: 0 <= k < i ==>
                    combinationTable[k].force == CombinedForce(factorTable[k], caseMap) &&
                    combinationTable[k].combinationType == factorTable[k].combineType
      {
        var row := factorTable[i];
        assert row in factorTable;
        var f := CalcCombineForce(row);
        combinationTable := combinationTable + [CombineForceData(f.Value(), row.combineType)];
        i := i + 1;
      }
    }
  }
}
