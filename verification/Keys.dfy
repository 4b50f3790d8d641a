/** The one Redis keyspace that the four stores share under their default prefixes. */
module Keys {

  const ACCESS_BLOCK_PREFIX := "auth:access:block:"
  const REFRESH_PREFIX := "auth:refresh:"
  const SESSION_PREFIX := "auth:session:ver:"
  const TOKEN_PREFIX := "auth:token:ver:"

  function Digits(n: nat): (s: string)
    ensures |s| > 0 && forall i :: 0 <= i < |s| ==> '0' <= s[i] <= '9'
  {
    if n < 10 then ['0' + n as char] else Digits(n / 10) + ['0' + (n % 10) as char]
  }

  /** Go's %d of a signed integer. */
  function Decimal(n: int): string {
    if n < 0 then "-" + Digits(-n) else Digits(n)
  }

  /** The number that a string of decimal digits stands for. */
  function Value(s: string): nat
    requires forall i :: 0 <= i < |s| ==> '0' <= s[i] <= '9'
  {
    if s == [] then 0 else 10 * Value(s[..|s| - 1]) + (s[|s| - 1] as int - '0' as int)
  }

  lemma {:induction false} DigitsValue(n: nat)
    ensures Value(Digits(n)) == n
    ensures n > 0 ==> Digits(n)[0] != '0'
    ensures n == 0 ==> Digits(n) == "0"
  {
    var s := Digits(n);
    if n >= 10 {
      DigitsValue(n / 10);
      assert s[..|s| - 1] == Digits(n / 10);
    } else {
      assert s[..0] == [];
    }
  }

  /** A printed number reads back: a minus sign exactly for a negative one, then its digits, none of them a leading zero. */
  lemma DecimalReads(n: int)
    ensures var s := Decimal(n);
            if n < 0 then
              && |s| > 1 && s[0] == '-' && s[1] != '0'
              && (forall i :: 1 <= i < |s| ==> '0' <= s[i] <= '9')
              && Value(s[1..]) == -n
            else
              && |s| > 0 && (s[0] == '0' ==> s == "0")
              && (forall i :: 0 <= i < |s| ==> '0' <= s[i] <= '9')
              && Value(s) == n
  {
    if n < 0 {
      DigitsValue(-n);
      assert Decimal(n)[1..] == Digits(-n);
      forall i | 1 <= i < |Decimal(n)| ensures '0' <= Decimal(n)[i] <= '9' {
        assert Decimal(n)[i] == Digits(-n)[i - 1];
      }
    } else {
      DigitsValue(n);
    }
  }

  lemma {:induction false} DigitsInjective(a: nat, b: nat)
    requires Digits(a) == Digits(b)
    ensures a == b
  {
    var s, t := Digits(a), Digits(b);
    assert s[|s| - 1] == t[|t| - 1];
    if a >= 10 && b >= 10 {
      assert s[..|s| - 1] == Digits(a / 10) && t[..|t| - 1] == Digits(b / 10);
      DigitsInjective(a / 10, b / 10);
    }
  }

  lemma DecimalInjective(a: int, b: int)
    requires Decimal(a) == Decimal(b)
    ensures a == b
  {
    assert Decimal(a)[0] == Decimal(b)[0];
    if a < 0 {
      assert Decimal(a)[1..] == Digits(-a) && Decimal(b)[1..] == Digits(-b);
      DigitsInjective(-a, -b);
    } else {
      DigitsInjective(a, b);
    }
  }

  /** What a key is about: a refresh jti, a revoked access jti, a user's session or token version. */
  datatype StoreKey = Refresh(jti: string) | Block(jti: string) | Session(userId: int) | Version(userId: int)

  function Render(k: StoreKey): string {
    match k
    case Refresh(jti) => REFRESH_PREFIX + jti
    case Block(jti) => ACCESS_BLOCK_PREFIX + jti
    case Session(u) => SESSION_PREFIX + Decimal(u)
    case Version(u) => TOKEN_PREFIX + Decimal(u)
  }

  /** The keys as they are written. */
  lemma KeysSpelt(jti: string, u: int)
    ensures Render(Refresh(jti)) == "auth:refresh:" + jti
    ensures Render(Block(jti)) == "auth:access:block:" + jti
    ensures Render(Session(u)) == "auth:session:ver:" + Decimal(u)
    ensures Render(Version(u)) == "auth:token:ver:" + Decimal(u)
  {
  }

  /** No key of one store is a key of another, and within a store each jti or user has its own. */
  lemma KeysApart(a: StoreKey, b: StoreKey)
    ensures Render(a) == Render(b) <==> a == b
  {
    if Render(a) == Render(b) {
      assert Render(a)[5] == Render(b)[5];
      match a {
        case Refresh(j) =>
          assert Render(a)[|REFRESH_PREFIX|..] == j && Render(b)[|REFRESH_PREFIX|..] == b.jti;
        case Block(j) =>
          assert Render(a)[|ACCESS_BLOCK_PREFIX|..] == j && Render(b)[|ACCESS_BLOCK_PREFIX|..] == b.jti;
        case Session(u) =>
          assert Render(a)[|SESSION_PREFIX|..] == Decimal(u) && Render(b)[|SESSION_PREFIX|..] == Decimal(b.userId);
          DecimalInjective(u, b.userId);
        case Version(u) =>
          assert Render(a)[|TOKEN_PREFIX|..] == Decimal(u) && Render(b)[|TOKEN_PREFIX|..] == Decimal(b.userId);
          DecimalInjective(u, b.userId);
      }
    }
  }

  lemma KeyApartFromAll(k: StoreKey)
    ensures forall h: StoreKey {:trigger Render(h)} :: Render(h) == Render(k) <==> h == k
  {
    forall h: StoreKey ensures Render(h) == Render(k) <==> h == k {
      KeysApart(h, k);
    }
  }
}
