/** The static catalog of problem categories and the facts the generator relies on. */
module Catalog {
  import opened Types
  import opened Decimal
  import opened MathUtils

  const SUBTYPES: seq<ProblemSubtype> := [
    ProblemSubtype("add_1", "Addition: 1-digit", Addition, 1, 1, None),
    ProblemSubtype("add_2", "Addition: 2-digits", Addition, 2, 2, None),
    ProblemSubtype("add_3", "Addition: 3-digits", Addition, 3, 3, None),
    ProblemSubtype("sub_1", "Subtraction: 1-digit", Subtraction, 1, 1, None),
    ProblemSubtype("sub_2", "Subtraction: 2-digits", Subtraction, 2, 2, None),
    ProblemSubtype("sub_3", "Subtraction: 3-digits", Subtraction, 3, 3, None),
    ProblemSubtype("mul_1", "Multiplication: Simple (2-5)", Multiplication, 1, 1, None),
    ProblemSubtype("mul_2", "Multiplication: Medium (2-12)", Multiplication, 1, 1, None),
    ProblemSubtype("mul_long", "Long Multiplication", Multiplication, 4, 2, None),
    ProblemSubtype("div_1", "Division: Simple (1-digit divisor)", Division, 2, 1, None),
    ProblemSubtype("div_2", "Division: Medium (2-digit divisor)", Division, 3, 2, None)
  ]

  /** JavaScript's `s.startsWith(prefix)`, comparing character by character from the front. */
  function StartsWith(s: string, prefix: string): (b: bool)
    ensures b <==> |prefix| <= |s| && s[..|prefix|] == prefix
  {
    prefix == [] || (s != [] && s[0] == prefix[0] && StartsWith(s[1..], prefix[1..]))
  }

  function CatalogIds(): (ids: set<string>)
    ensures forall s :: s in SUBTYPES ==> s.id in ids
    ensures forall id :: id in ids ==> exists s :: s in SUBTYPES && s.id == id
  {
    set s | s in SUBTYPES :: s.id
  }

  /** The eleven ids are pairwise distinct, so an id names one category. */
  lemma CatalogIdsDistinct()
    ensures |SUBTYPES| == 11
    ensures forall i, j :: 0 <= i < j < |SUBTYPES| ==> SUBTYPES[i].id != SUBTYPES[j].id
  {
  }

  /** Every category has positive digit widths, so no digit range is empty. */
  lemma CatalogDigitsPositive()
    ensures forall s :: s in SUBTYPES ==> s.digitsTop >= 1 && s.digitsBottom >= 1
  {
    forall i | 0 <= i < |SUBTYPES| ensures SUBTYPES[i].digitsTop >= 1 && SUBTYPES[i].digitsBottom >= 1 {
    }
  }

  /**
   * Every category is feasible for every draw, except that long
   * multiplication also needs positive widths in the options. In particular
   * the whole-number quotient range of div_1 ([2, 99/9 = 11] at worst) and
   * of div_2 ([2, 999/99 = 10] at worst) is never empty.
   */
  lemma CatalogFeasible(options: GeneratorOptions)
    ensures forall s :: s in SUBTYPES ==>
      (Feasible(s, options) <==>
         (s.id == "mul_long" ==> options.longMulti.m1 >= 1 && options.longMulti.m2 >= 1))
  {
    assert Pow10(1) == 10 && Pow10(2) == 100 && Pow10(3) == 1000;
    forall s | s in SUBTYPES
      ensures Feasible(s, options) <==>
        (s.id == "mul_long" ==> options.longMulti.m1 >= 1 && options.longMulti.m2 >= 1)
    {
      if s.operation == Division {
        assert s == SUBTYPES[9] || s == SUBTYPES[10];
      }
    }
  }

  /** The only multiplication ids are mul_1, mul_2 and mul_long: the generator's fallback is never reached. */
  lemma CatalogMultiplicationIds()
    ensures forall s :: s in SUBTYPES && s.operation == Multiplication ==>
      s.id == "mul_1" || s.id == "mul_2" || s.id == "mul_long"
  {
    forall i | 0 <= i < |SUBTYPES| && SUBTYPES[i].operation == Multiplication
      ensures SUBTYPES[i].id == "mul_1" || SUBTYPES[i].id == "mul_2" || SUBTYPES[i].id == "mul_long"
    {
      assert 6 <= i <= 8;
    }
  }

  /** An id starts with "div_" exactly when its category is a division. */
  lemma CatalogDivisionPrefix()
    ensures forall s :: s in SUBTYPES ==> (StartsWith(s.id, "div_") <==> s.operation == Division)
  {
    forall i | 0 <= i < |SUBTYPES|
      ensures StartsWith(SUBTYPES[i].id, "div_") <==> SUBTYPES[i].operation == Division
    {
      if i < 9 {
        assert SUBTYPES[i].operation != Division && SUBTYPES[i].id[0] != 'd';
      } else {
        assert SUBTYPES[i].operation == Division && SUBTYPES[i].id[..4] == "div_";
      }
    }
  }
}
