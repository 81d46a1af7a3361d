/** The quantised entropy of `calculate_entropy`: the password length times
    the bit length of the size of the character pool it draws from. */
module EntropyEstimator {
  import opened Text

  const LOWERCASE := "abcdefghijklmnopqrstuvwxyz"
  const UPPERCASE := "ABCDEFGHIJKLMNOPQRSTUVWXYZ"
  const NUMBERS := "0123456789"
  /** 26 symbols; not the same set as the 20 "special" characters of the scorer. */
  const SYMBOLS := "!@#$%^&*()_+-=[]{}|;:,.<>?"
  /** The four sets, in the order the dictionary enumerates them. */
  const CHAR_SETS := [LOWERCASE, UPPERCASE, NUMBERS, SYMBOLS]

  function Pow2(k: nat): (r: nat)
    ensures r >= 1
  {
    if k == 0 then 1 else 2 * Pow2(k - 1)
  }

  /** Python's `int.bit_length` on a non-negative integer. */
  function BitLength(n: nat): (r: nat)
    ensures r == 0 <==> n == 0
    ensures n > 0 ==> Pow2(r - 1) <= n < Pow2(r)
  {
    if n == 0 then 0 else 1 + BitLength(n / 2)
  }

  lemma {:induction false} Pow2Monotone(j: nat, k: nat)
    requires j <= k
    ensures Pow2(j) <= Pow2(k)
  {
    if j < k {
      Pow2Monotone(j, k - 1);
    }
  }

  /** The bit length is the unique k with 2^(k-1) <= n < 2^k. */
  lemma BitLengthUnique(n: nat, k: nat)
    requires 1 <= k && Pow2(k - 1) <= n < Pow2(k)
    ensures BitLength(n) == k
  {
    var b := BitLength(n);
    if b < k {
      Pow2Monotone(b, k - 1);
    } else if b > k {
      Pow2Monotone(k, b - 1);
    }
  }

  /** Sum of the sizes of those `sets` that share a character with `s`. */
  function PoolSize(s: string, sets: seq<string>): nat
  {
    if sets == [] then 0
    else
      var last := sets[|sets| - 1];
      PoolSize(s, sets[..|sets| - 1]) + (if ContainsAny(s, last) then |last| else 0)
  }

  function Pool(s: string): nat
  {
    PoolSize(s, CHAR_SETS)
  }

  function Entropy(s: string): nat
  {
    |s| * BitLength(Pool(s))
  }

  /** The pool adds 26, 26, 10 and 26 for each set the password touches. */
  lemma PoolSum(s: string)
    ensures Pool(s) == (if ContainsAny(s, LOWERCASE) then 26 else 0)
                     + (if ContainsAny(s, UPPERCASE) then 26 else 0)
                     + (if ContainsAny(s, NUMBERS) then 10 else 0)
                     + (if ContainsAny(s, SYMBOLS) then 26 else 0)
  {
    assert |LOWERCASE| == 26 && |UPPERCASE| == 26 && |NUMBERS| == 10 && |SYMBOLS| == 26;
    var one, two, three := [LOWERCASE], [LOWERCASE, UPPERCASE], [LOWERCASE, UPPERCASE, NUMBERS];
    assert one[..0] == [] && two[..1] == one && three[..2] == two && CHAR_SETS[..3] == three;
    assert PoolSize(s, one) == (if ContainsAny(s, LOWERCASE) then 26 else 0);
    assert PoolSize(s, two) == PoolSize(s, one) + (if ContainsAny(s, UPPERCASE) then 26 else 0);
    assert PoolSize(s, three) == PoolSize(s, two) + (if ContainsAny(s, NUMBERS) then 10 else 0);
  }

  /** The character belongs to one of the four entropy sets. */
  predicate InSomeSet(c: char)
  {
    c in LOWERCASE || c in UPPERCASE || c in NUMBERS || c in SYMBOLS
  }

  lemma PoolZero(s: string)
    ensures Pool(s) == 0 <==> forall i | 0 <= i < |s| :: !InSomeSet(s[i])
  {
    PoolSum(s);
  }

  /** A non-empty pool has between 10 and 88 characters, so 4 to 7 bits. */
  lemma PoolBits(s: string)
    requires Pool(s) != 0
    ensures 4 <= BitLength(Pool(s)) <= 7
  {
    PoolSum(s);
    var p := Pool(s);
    assert 10 <= p <= 88;
    assert Pow2(4) == 16 && Pow2(5) == 32 && Pow2(6) == 64 && Pow2(7) == 128;
    if p < 16 {
      BitLengthUnique(p, 4);
    } else if p < 32 {
      BitLengthUnique(p, 5);
    } else if p < 64 {
      BitLengthUnique(p, 6);
    } else {
      BitLengthUnique(p, 7);
    }
  }

  lemma ScaledBounds(n: nat, b: nat)
    requires n > 0 && 4 <= b <= 7
    ensures 4 * n <= n * b <= 7 * n && (n * b) % n == 0
  {
    assert n * b == b * n;
  }

  /** Entropy is zero exactly when no character is in any set; otherwise it is
      a multiple of the length between 4 and 7 bits per character. */
  lemma EntropyRange(s: string)
    ensures Entropy(s) == 0 <==> forall i | 0 <= i < |s| :: !InSomeSet(s[i])
    ensures Entropy(s) != 0 ==>
              4 * |s| <= Entropy(s) <= 7 * |s| && Entropy(s) % |s| == 0
  {
    PoolZero(s);
    if Pool(s) != 0 {
      PoolBits(s);
      assert |s| > 0;
      ScaledBounds(|s|, BitLength(Pool(s)));
    }
  }

  /** The loop of `calculate_entropy`: accumulate the pool set by set, then
      multiply the length by its bit length. */
  method CalculateEntropy(password: string) returns (entropy: nat)
    ensures entropy == Entropy(password)
  {
    var charSets := CHAR_SETS;
    var poolSize := 0;
    for k := 0 to |charSets|
      invariant poolSize == PoolSize(password, charSets[..k])
    {
      assert charSets[..k + 1][..k] == charSets[..k];
      if ContainsAny(password, charSets[k]) {
        poolSize := poolSize + |charSets[k]|;
      }
    }
    assert charSets[..|charSets|] == charSets;
    entropy := |password| * (if poolSize > 0 then BitLength(poolSize) else 0);
  }
}
