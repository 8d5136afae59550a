/**
 * The three-valued validity of a databag and its worst-case reduction
 * (`get_worst_case`), used at every level of aggregation.
 */
module Verdicts {

  /** Python's `True`, `None` and `False` as validity values. */
  datatype Verdict = Valid | Unfilled | Invalid

  /** Position on the order Valid > Unfilled > Invalid. */
  function Rank(v: Verdict): nat {
    match v
    case Valid => 2
    case Unfilled => 1
    case Invalid => 0
  }

  /** The worse of two verdicts. */
  function Worst(a: Verdict, b: Verdict): (r: Verdict)
    ensures Rank(r) <= Rank(a) && Rank(r) <= Rank(b)
    ensures r == a || r == b
  {
    if Rank(a) <= Rank(b) then a else b
  }

  /** Worst case of a sequence, folded from the left starting at Valid. */
  function WorstOf(s: seq<Verdict>): Verdict {
    if s == [] then Valid else Worst(WorstOf(s[..|s| - 1]), s[|s| - 1])
  }

  /** `get_worst_case`: the accumulator starts at Valid and is demoted by each input. */
  method GetWorstCase(validity: seq<Verdict>) returns (out: Verdict)
    ensures out == WorstOf(validity)
    ensures Invalid in validity ==> out == Invalid
    ensures Invalid !in validity && Unfilled in validity ==> out == Unfilled
    ensures Invalid !in validity && Unfilled !in validity ==> out == Valid
  {
    out := Valid;
    for i := 0 to |validity|
      invariant out == WorstOf(validity[..i])
    {
      var value := validity[i];
      if value == Unfilled && out == Valid {
        out := value;
      }
      if value == Invalid && (out == Unfilled || out == Valid) {
        out := value;
      }
      assert validity[..i + 1][..i] == validity[..i];
    }
    assert validity[..|validity|] == validity;
    WorstOfCases(validity);
  }

  /** The worst case is a lower bound of every input and is itself an input (Valid when empty). */
  lemma {:induction false} WorstOfIsMinimum(s: seq<Verdict>)
    ensures forall i :: 0 <= i < |s| ==> Rank(WorstOf(s)) <= Rank(s[i])
    ensures s == [] ==> WorstOf(s) == Valid
    ensures s != [] ==> WorstOf(s) in s
  {
    if s != [] {
      var init := s[..|s| - 1];
      WorstOfIsMinimum(init);
      assert forall i :: 0 <= i < |init| ==> init[i] == s[i];
      if init != [] {
        var j :| 0 <= j < |init| && init[j] == WorstOf(init);
        assert s[j] == WorstOf(init);
      }
    }
  }

  /** False if any input is False, else None if any is None, else True. */
  lemma WorstOfCases(s: seq<Verdict>)
    ensures WorstOf(s) == (if Invalid in s then Invalid else if Unfilled in s then Unfilled else Valid)
  {
    WorstOfIsMinimum(s);
    if Invalid in s {
      var i :| 0 <= i < |s| && s[i] == Invalid;
    } else if Unfilled in s {
      var i :| 0 <= i < |s| && s[i] == Unfilled;
    }
  }

  /** Reducing a concatenation is reducing each part and then the two results. */
  lemma WorstOfAppend(a: seq<Verdict>, b: seq<Verdict>)
    ensures WorstOf(a + b) == Worst(WorstOf(a), WorstOf(b))
  {
    WorstOfCases(a);
    WorstOfCases(b);
    WorstOfCases(a + b);
    assert forall v :: v in a + b <==> v in a || v in b;
  }

  /** Reducing a pair is taking the worse of the two. */
  lemma WorstOfPair(a: Verdict, b: Verdict)
    ensures WorstOf([a, b]) == Worst(a, b)
  {
    assert [a, b][..1] == [a];
    assert [a][..0] == [];
    assert WorstOf([a]) == Worst(Valid, a) == a;
  }

  /** Folding pointwise worst cases is the worse of the two folds. */
  lemma {:induction false} WorstOfPointwise(w: seq<Verdict>, x: seq<Verdict>, y: seq<Verdict>)
    requires |w| == |x| == |y|
    requires forall i :: 0 <= i < |w| ==> w[i] == Worst(x[i], y[i])
    ensures WorstOf(w) == Worst(WorstOf(x), WorstOf(y))
  {
    if w != [] {
      var n := |w| - 1;
      WorstOfPointwise(w[..n], x[..n], y[..n]);
      WorstIsMeet(WorstOf(x[..n]), WorstOf(y[..n]), x[n]);
      WorstIsMeet(WorstOf(x[..n]), x[n], y[n]);
    }
  }

  /** The result does not depend on the order of the inputs. */
  lemma WorstOfPermutation(a: seq<Verdict>, b: seq<Verdict>)
    requires multiset(a) == multiset(b)
    ensures WorstOf(a) == WorstOf(b)
  {
    WorstOfCases(a);
    WorstOfCases(b);
    assert forall v :: v in a <==> v in multiset(a);
    assert forall v :: v in b <==> v in multiset(b);
  }

  /** Worst is the meet of the order: commutative, associative, idempotent, with unit Valid. */
  lemma WorstIsMeet(a: Verdict, b: Verdict, c: Verdict)
    ensures Worst(a, b) == Worst(b, a)
    ensures Worst(Worst(a, b), c) == Worst(a, Worst(b, c))
    ensures Worst(a, a) == a && Worst(a, Valid) == a && Worst(a, Invalid) == Invalid
  {
  }
}
