/** The game's only source of chance: `getRandom(min, max)` turns a draw of
    `Math.random()` into an integer. The draw itself is a parameter `u`, which
    `Math.random()` promises to lie in [0, 1). */
module Random {

  /** `Math.floor(Math.random() * (max - min + 1) + min)`, for the draw `u`. */
  function GetRandom(min: int, max: int, u: real): (r: int)
    requires 0.0 <= u < 1.0
    ensures min <= max ==> min <= r <= max
  {
    ScaledDrawBelowWidth(max - min + 1, u);
    (u * (max - min + 1) as real + min as real).Floor
  }

  /** A draw scaled by a positive width stays in [0, width). */
  lemma ScaledDrawBelowWidth(n: int, u: real)
    requires 0.0 <= u < 1.0
    ensures n > 0 ==> 0.0 <= u * n as real < n as real
  {
    if n > 0 {
      assert u * n as real < 1.0 * n as real;
    }
  }

  /** Every integer of [min, max] is drawn: the draw `(k - min) / (max - min + 1)`
      gives exactly `k`, so the range of `GetRandom` is the whole interval. */
  lemma {:induction false} GetRandomReachesEvery(min: int, max: int, k: int)
    requires min <= k <= max
    ensures var u := (k - min) as real / (max - min + 1) as real;
            0.0 <= u < 1.0 && GetRandom(min, max, u) == k
  {
    var n := (max - min + 1) as real;
    var u := (k - min) as real / n;
    assert u * n == (k - min) as real;
    assert u < 1.0 by {
      assert (k - min) as real < n;
    }
    assert u * n + min as real == k as real;
  }
}
