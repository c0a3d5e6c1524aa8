/** What several components share. */
module Common {

  datatype Option<T> = None | Some(value: T)

  /** C++ integer division: truncated toward zero. */
  function Quot(a: int, b: int): int
    requires b != 0
  {
    if b > 0 then (if a < 0 then -((-a) / b) else a / b)
    else (if a < 0 then (-a) / (-b) else -(a / (-b)))
  }

  lemma Assoc<T>(a: seq<T>, b: seq<T>, c: seq<T>)
    ensures a + (b + c) == a + b + c
  {
  }

  lemma MulMonotone(a: nat, b: nat, c: nat)
    requires b <= c
    ensures 0 <= a * b <= a * c
  {
    assert a * c == a * b + a * (c - b);
  }

  lemma DivMod(n: nat, b: nat)
    requires b > 0
    ensures n == (n / b) * b + n % b
  {
  }

  lemma QuotientBound(n: nat, b: nat, p: nat)
    requires b > 0 && n < b * p
    ensures n / b < p
  {
    DivMod(n, b);
    if n / b >= p {
      MulMonotone(b, p, n / b);
      assert false;
    }
  }

  lemma QuotientIsNatural(n: nat, b: nat)
    requires b > 0
    ensures n / b >= 0
  {
    DivMod(n, b);
  }

  lemma QuotientUnique(n: nat, b: nat, q: nat)
    requires b > 0 && q * b <= n < (q + 1) * b
    ensures n / b == q
  {
    QuotientBound(n, b, q + 1);
    DivMod(n, b);
    QuotientIsNatural(n, b);
    if n / b < q {
      MulMonotone(b, n / b + 1, q);
    }
  }
}
