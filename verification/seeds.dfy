/** `check_random_state` (`kungpao/utils.py`, lines 216-255): which
    random generator a seed selects.  Python's run-time types become the
    constructors of `Seed`; the generator that comes back becomes a
    `Generator` naming how it was made.

    The checks run in order: `None` or the `np.random` module select the
    global generator; an integer (Python's `bool` is one) seeds a new
    generator; any other real is truncated by `int()` and seeds a new one;
    an existing generator is returned as it is; a list whose first element
    is an integer seeds a new generator from the list.  Everything else
    raises `ValueError`, and an empty list raises `IndexError` at
    `seed[0]`.
 */
module Seeds {
  import opened Wrappers
  import Numeric

  datatype Seed =
    | NoSeed                      // None
    | RandomModule                // the np.random module itself
    | IntSeed(n: int)             // int, long or a NumPy integer
    | BoolSeed(b: bool)           // True or False
    | FloatSeed(x: real)          // float or another numbers.Real
    | StateSeed(id: nat)          // an existing RandomState, by identity
    | ListSeed(items: seq<Seed>)  // a Python list
    | OtherSeed                   // any other object (str, tuple, ...)

  datatype Generator =
    | GlobalGenerator             // np.random.mtrand._rand
    | Seeded(n: int)              // np.random.RandomState(n)
    | Existing(id: nat)           // the generator that was passed in
    | SeededByList(items: seq<Seed>)

  /** `isinstance(seed, (numbers.Integral, np.integer))`. */
  predicate IsIntegral(s: Seed) {
    s.IntSeed? || s.BoolSeed?
  }

  /** The seeds the code accepts. */
  predicate Admissible(s: Seed) {
    match s
    case OtherSeed => false
    case ListSeed(items) => |items| > 0 && IsIntegral(items[0])
    case _ => true
  }

  function CheckRandomState(seed: Seed): (r: Result<Generator>)
    ensures r.Success? <==> Admissible(seed)
    ensures r.Failure? ==> (r.error == IndexError <==> seed == ListSeed([]))
    ensures r.Failure? ==> r.error == ValueError || r.error == IndexError
    ensures r.Success? && r.value.Existing? ==> seed == StateSeed(r.value.id)
    ensures r.Success? && r.value.SeededByList? ==> seed == ListSeed(r.value.items)
    ensures seed.IntSeed? ==> r == Success(Seeded(seed.n))
    ensures seed.ListSeed? && Admissible(seed) ==> r == Success(SeededByList(seed.items))
  {
    match seed
    case NoSeed => Success(GlobalGenerator)
    case RandomModule => Success(GlobalGenerator)
    case IntSeed(n) => Success(Seeded(n))
    case BoolSeed(b) => Success(Seeded(if b then 1 else 0))
    case FloatSeed(x) => Success(Seeded(Numeric.Truncate(x)))
    case StateSeed(id) => Success(Existing(id))
    case ListSeed(items) =>
      if |items| == 0 then Failure(IndexError)
      else if IsIntegral(items[0]) then Success(SeededByList(items))
      else Failure(ValueError)
    case OtherSeed => Failure(ValueError)
  }

  /** A real seed selects the generator of the integer `int()` truncates
      it to: no further from zero than the seed and less than one away. */
  lemma FloatSeedTruncates(x: real)
    ensures CheckRandomState(FloatSeed(x)).Success?
    ensures var n := CheckRandomState(FloatSeed(x)).value.n;
            (x >= 0.0 ==> 0 <= n && n as real <= x < n as real + 1.0) &&
            (x < 0.0 ==> n <= 0 && n as real - 1.0 < x <= n as real)
  {
  }

  /** A whole-number float and the integer it equals select the same
      generator, and so do `True`/`False` and `1`/`0`. */
  lemma SeedsThatAgree(n: int, b: bool)
    ensures CheckRandomState(FloatSeed(n as real)) == CheckRandomState(IntSeed(n))
    ensures CheckRandomState(BoolSeed(b)) == CheckRandomState(IntSeed(if b then 1 else 0))
  {
    if n >= 0 {
      assert (n as real).Floor == n;
    } else {
      assert (-(n as real)).Floor == -n;
    }
    assert Numeric.Truncate(n as real) == n;
  }

  /** Only `None` and `np.random` select the global generator; every other
      accepted seed except an existing generator makes a new one. */
  lemma GlobalOnlyForNone(seed: Seed)
    requires CheckRandomState(seed).Success?
    ensures CheckRandomState(seed).value.GlobalGenerator? <==> seed == NoSeed || seed == RandomModule
    ensures CheckRandomState(seed).value.Existing? <==> seed.StateSeed?
  {
  }
}
