/**
 * The benchmark's work item (`ComputeRequest`), how a worker evaluates it,
 * the self-check a worker runs on its own answer (`check_answer`), and the
 * rule by which the driver generates item number `num`.
 *
 * src/async.rs and src/sync.rs declare the item type, `check_answer`, the
 * evaluating match and the generator identically; this module is the single
 * model of both copies.
 */
module Requests {
  import opened Wrapping

  /** A closed set of four operations, each on two `usize` operands. */
  datatype ComputeRequest =
    | Add(a: Usize, b: Usize)
    | Sub(a: Usize, b: Usize)
    | Mul(a: Usize, b: Usize)
    | Div(a: Usize, b: Usize)

  /** Evaluating this item panics in Rust: `wrapping_div` by zero. */
  predicate DividesByZero(req: ComputeRequest) {
    req.Div? && req.b == 0
  }

  /**
   * The mathematical value of the operation over unbounded integers: the
   * reference against which the wrapping evaluation is judged.
   */
  function Exact(req: ComputeRequest): (v: int)
    requires !DividesByZero(req)
    ensures req.Add? || req.Mul? ==> 0 <= v
    ensures req.Sub? ==> 0 - req.b as int <= v <= req.a && (0 <= v <==> req.b <= req.a)
    ensures req.Div? ==> 0 <= v <= req.a
  {
    match req
    case Add(a, b) => a + b
    case Sub(a, b) => a - b
    case Mul(a, b) => a * b
    case Div(a, b) => DivBounds(a, b); a / b
  }

  /**
   * The worker's evaluation of an item (the `match next_msg` that builds the
   * `ComputeResult`): the exact value reduced modulo 2^64, which is the
   * exact value itself whenever that fits in a `usize`.
   */
  function Compute(req: ComputeRequest): (r: Usize)
    requires !DividesByZero(req)
    ensures r == Exact(req) % Modulus
    ensures 0 <= Exact(req) < Modulus ==> r == Exact(req)
  {
    match req
    case Add(a, b) => WrappingAdd(a, b)
    case Sub(a, b) => WrappingSub(a, b)
    case Mul(a, b) => WrappingMul(a, b)
    case Div(a, b) => WrappingDiv(a, b)
  }

  /**
   * `check_answer`: the `assert_eq!` of each arm passes exactly when the
   * answer equals the arm's wrapping operation recomputed on the item's own
   * operands; otherwise the worker panics. Its only caller has already
   * evaluated the item, so a zero divisor never reaches it. The recomputation
   * agrees with the worker's own evaluation: the check passes exactly for
   * the answer `Compute` gives.
   */
  predicate CheckAnswer(req: ComputeRequest, answer: Usize)
    requires !DividesByZero(req)
    ensures CheckAnswer(req, answer) <==> answer == Compute(req)
  {
    match req
    case Add(a, b) => answer == WrappingAdd(a, b)
    case Sub(a, b) => answer == WrappingSub(a, b)
    case Mul(a, b) => answer == WrappingMul(a, b)
    case Div(a, b) => answer == WrappingDiv(a, b)
  }

  /**
   * The self-check accepts an answer iff it is the exact value reduced
   * modulo 2^64; in particular it accepts what `Compute` returns and
   * rejects every other answer, so the worker's `assert_eq!` never fires.
   */
  lemma CheckAnswerAcceptsExactlyCompute(req: ComputeRequest, answer: Usize)
    requires !DividesByZero(req)
    ensures CheckAnswer(req, answer) <==> answer == Exact(req) % Modulus
    ensures CheckAnswer(req, Compute(req))
  {
  }

  /**
   * The driver's rule for item number `num`: the variant cycles through
   * Add, Sub, Mul, Div by `num % 4`, the operands are `(num, num / 2)`.
   * Rust's fifth arm, `_ => unreachable!()`, is dead: the assertion below
   * shows that the only remainder left after 0, 1 and 2 is 3. No generated
   * item divides by zero: a Div item has `num % 4 == 3`, so `num >= 3` and
   * its divisor `num / 2` is at least 1.
   */
  function Generate(num: Usize): (req: ComputeRequest)
    ensures req.a == num && req.b == num / 2
    ensures !DividesByZero(req)
    ensures req.Div? ==> req.b >= 1
  {
    var k := num % 4;
    if k == 0 then Add(num, num / 2)
    else if k == 1 then Sub(num, num / 2)
    else if k == 2 then Mul(num, num / 2)
    else assert k == 3; Div(num, num / 2)
  }

  /**
   * The items for the index range `0..m`: one per index, item `i` at
   * position `i`.
   */
  function Jobs(m: nat): (js: seq<ComputeRequest>)
    requires m <= Modulus
    ensures |js| == m
    ensures forall i :: 0 <= i < m ==> js[i] == Generate(i)
  {
    seq(m, i requires 0 <= i < m => Generate(i))
  }

  /** The generation rule, stated per variant in both directions. */
  lemma GenerateCycles(num: Usize)
    ensures Generate(num).Add? <==> num % 4 == 0
    ensures Generate(num).Sub? <==> num % 4 == 1
    ensures Generate(num).Mul? <==> num % 4 == 2
    ensures Generate(num).Div? <==> num % 4 == 3
    ensures Generate(num).a == num && Generate(num).b == num / 2
  {
  }

  /** The number of items each benchmark binary sends. */
  const ItemCount: nat := 100_000_000

  /**
   * For every index the driver actually uses, evaluation never wraps: the
   * wrapping result is the exact mathematical value. Sub cannot underflow
   * since `num / 2 <= num`, and Mul stays below 10^8 * 5 * 10^7 < 2^64.
   */
  lemma GeneratedNeverWraps(num: Usize)
    requires num < ItemCount
    ensures !DividesByZero(Generate(num))
    ensures 0 <= Exact(Generate(num)) < Modulus
    ensures Compute(Generate(num)) == Exact(Generate(num))
  {
    var half := num / 2;
    if num % 4 == 2 {
      assert half <= num;
      ProductBound(num, half, ItemCount);
    }
  }

  lemma ProductBound(x: nat, y: nat, n: nat)
    requires x < n && y <= x
    ensures x * y <= n * n
  {
    assert x * y <= x * x;
    assert x * x <= n * n;
  }

  /** The outcomes of items 0 through 7 are 0, 1, 2, 3, 6, 3, 18, 2. */
  lemma FirstEightOutcomes()
    ensures forall num :: 0 <= num < 8 ==> !DividesByZero(Generate(num))
    ensures seq(8, num requires 0 <= num < 8 => Compute(Generate(num)))
         == [0, 1, 2, 3, 6, 3, 18, 2]
  {
  }

  /** Every job in the driver's sequence can be evaluated and checked. */
  lemma JobsNeverDivideByZero(m: nat)
    requires m <= Modulus
    ensures forall req :: req in Jobs(m) ==> !DividesByZero(req)
  {
    forall req | req in Jobs(m) ensures !DividesByZero(req) {
      var i :| 0 <= i < m && Jobs(m)[i] == req;
    }
  }
}
