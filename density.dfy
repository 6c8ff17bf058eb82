/** Size-dependent rendering quality: the density at which the vector source
    is rasterised before it is scaled to the target, and the resampling
    kernel used for that scaling. Small targets are rendered from a denser
    intermediate and resampled with the sharper kernel. */
module Density {

  /** The two resampling kernels the generator chooses between. */
  datatype Kernel = Lanczos3 | Lanczos2

  /** The density used to rasterise the source for a `size`-pixel target,
      given the base `density`. A non-negative base is never lowered. */
  function EffectiveDensity(size: int, density: int): (r: int)
    ensures density >= 0 ==> density <= r <= density * 8
  {
    if size <= 16 then density * 8
    else if size <= 32 then density * 6
    else if size <= 64 then density * 2
    else density
  }

  /** The kernel used to scale a `size`-pixel target. */
  function KernelFor(size: int): Kernel
  {
    if size <= 64 then Lanczos3 else Lanczos2
  }

  // An independent statement of the same table: upper bounds of the first
  // three size buckets (the last bucket is unbounded) and each bucket's
  // density multiplier.
  const UpperBounds: seq<int> := [16, 32, 64]
  const Multipliers: seq<int> := [8, 6, 2, 1]

  /** Bucket `k` holds the sizes above the previous bound and up to its own;
      the boundary value belongs to the smaller bucket. */
  predicate InBucket(size: int, k: nat)
  {
    k < 4 &&
    (k == 0 || UpperBounds[k - 1] < size) &&
    (k == 3 || size <= UpperBounds[k])
  }

  /** The first bucket, from `k` on, that holds `size`. */
  function BucketFrom(size: int, k: nat): (b: nat)
    requires k < 4 && (k == 0 || UpperBounds[k - 1] < size)
    ensures k <= b < 4 && InBucket(size, b)
    decreases 4 - k
  {
    if k == 3 || size <= UpperBounds[k] then k else BucketFrom(size, k + 1)
  }

  /** The bucket of `size`. */
  function Bucket(size: int): (b: nat)
    ensures b < 4 && InBucket(size, b)
  {
    BucketFrom(size, 0)
  }

  /** No size lies in two buckets. */
  lemma BucketUnique(size: int, j: nat, k: nat)
    requires InBucket(size, j) && InBucket(size, k)
    ensures j == k
  {
  }

  /** Every size falls in exactly one bucket, and the effective density is
      the base density times that bucket's multiplier; the sharper kernel
      is used exactly in the three boosted buckets. */
  lemma DensityByBucket(size: int, density: int)
    ensures forall k: nat :: InBucket(size, k) <==> k == Bucket(size)
    ensures EffectiveDensity(size, density) == density * Multipliers[Bucket(size)]
    ensures KernelFor(size) == Lanczos3 <==> Bucket(size) < 3
  {
    var b := Bucket(size);
    forall k: nat | InBucket(size, k) ensures k == b {
      BucketUnique(size, k, b);
    }
    if size <= 16 {
      BucketUnique(size, b, 0);
    } else if size <= 32 {
      BucketUnique(size, b, 1);
    } else if size <= 64 {
      BucketUnique(size, b, 2);
    } else {
      BucketUnique(size, b, 3);
    }
  }

  /** A larger target is never rendered at a higher density than a smaller
      one (for a non-negative base). */
  lemma DensityNonIncreasing(small: int, large: int, density: int)
    requires small <= large && density >= 0
    ensures EffectiveDensity(large, density) <= EffectiveDensity(small, density)
    ensures KernelFor(large) == Lanczos3 ==> KernelFor(small) == Lanczos3
  {
  }
}
