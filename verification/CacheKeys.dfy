/** The decimal identifiers Go prints for session and car, and the cache key joined from them. */
module CacheKeys {

  const DIGITS := "0123456789"

  /** `fmt.Sprint` of an unsigned integer. */
  function Decimal(n: nat): (s: string)
    ensures s != ""
  {
    if n < 10 then [DIGITS[n]] else Decimal(n / 10) + [DIGITS[n % 10]]
  }

  /** Decimal digits without a leading zero, other than in "0" itself. */
  predicate IsNumeral(s: string) {
    && s != ""
    && (forall c | c in s :: '0' <= c <= '9')
    && (s[0] == '0' ==> |s| == 1)
  }

  /** The number that a string of digits is read as, from the codes of its characters. */
  function ValueOf(s: string): int {
    if s == "" then 0 else 10 * ValueOf(s[..|s| - 1]) + (s[|s| - 1] as int - '0' as int)
  }

  /** What is printed is the numeral of the number, and no other string is. */
  lemma DecimalExactly(s: string, n: nat)
    ensures s == Decimal(n) <==> IsNumeral(s) && ValueOf(s) == n
  {
    DecimalIsNumeral(n);
    if IsNumeral(s) && ValueOf(s) == n {
      NumeralIsDecimal(s);
    }
  }

  lemma DigitsInOrder(d: nat)
    requires d < 10
    ensures DIGITS[d] as int == '0' as int + d && '0' <= DIGITS[d] <= '9'
  {
    assert d == 0 || d == 1 || d == 2 || d == 3 || d == 4 || d == 5 || d == 6 || d == 7 || d == 8 || d == 9;
  }

  lemma {:induction false} DecimalIsNumeral(n: nat)
    ensures IsNumeral(Decimal(n)) && ValueOf(Decimal(n)) == n
    ensures Decimal(n)[0] == '0' <==> n == 0
  {
    DigitsInOrder(n % 10);
    if n < 10 {
      assert [DIGITS[n]][..0] == "";
    } else {
      DecimalIsNumeral(n / 10);
      var s := Decimal(n);
      assert s[..|s| - 1] == Decimal(n / 10) && s[0] == Decimal(n / 10)[0];
      assert forall c | c in s :: c in Decimal(n / 10) || c == DIGITS[n % 10];
    }
  }

  /** One digit more. */
  lemma DecimalOfMore(n: nat, d: nat)
    requires n > 0 && d < 10
    ensures Decimal(10 * n + d) == Decimal(n) + [DIGITS[d]]
  {
    assert (10 * n + d) / 10 == n && (10 * n + d) % 10 == d;
  }

  lemma DigitOf(c: char) returns (d: nat)
    requires '0' <= c <= '9'
    ensures d < 10 && DIGITS[d] == c && c as int - '0' as int == d
  {
    d := c as int - '0' as int;
    DigitsInOrder(d);
  }

  lemma {:induction false} NumeralIsDecimal(s: string)
    requires IsNumeral(s)
    ensures ValueOf(s) >= 0 && Decimal(ValueOf(s)) == s
    ensures s[0] != '0' ==> ValueOf(s) > 0
  {
    var front, c := s[..|s| - 1], s[|s| - 1];
    assert c in s;
    assert s == front + [c];
    var d := DigitOf(c);
    if front != "" {
      assert front[0] == s[0];
      assert forall x | x in front :: x in s;
      NumeralIsDecimal(front);
      hide Decimal;
      DecimalOfMore(ValueOf(front), d);
    }
  }

  lemma DecimalInjective(m: nat, n: nat)
    requires Decimal(m) == Decimal(n)
    ensures m == n
  {
    DecimalIsNumeral(m);
    DecimalIsNumeral(n);
  }

  lemma DecimalHasNoDot(n: nat)
    ensures '.' !in Decimal(n)
  {
    DecimalIsNumeral(n);
  }

  /** `fmt.Sprintf("%s.%s", sessionID, userID)`. */
  function JoinKey(sessionId: string, userId: string): string {
    sessionId + "." + userId
  }

  /** The joined key determines both parts as long as neither session contains a dot. */
  lemma JoinKeyInjective(s: string, u: string, s': string, u': string)
    requires '.' !in s && '.' !in s'
    requires JoinKey(s, u) == JoinKey(s', u')
    ensures s == s' && u == u'
  {
    var j, j' := JoinKey(s, u), JoinKey(s', u');
    assert j[|s|] == '.' && j'[|s'|] == '.';
    assert j[..|s|] == s && j'[..|s'|] == s';
    assert j[|s| + 1..] == u && j'[|s'| + 1..] == u';
  }

  /** The cache key of a session and a car as the header carries them. */
  function CarKey(session: nat, car: nat): string {
    JoinKey(Decimal(session), Decimal(car))
  }

  /** Two cars share a cache slot exactly when they are the same car of the same session. */
  lemma CarKeyInjective(s: nat, c: nat, s': nat, c': nat)
    ensures CarKey(s, c) == CarKey(s', c') <==> s == s' && c == c'
  {
    if CarKey(s, c) == CarKey(s', c') {
      DecimalHasNoDot(s);
      DecimalHasNoDot(s');
      JoinKeyInjective(Decimal(s), Decimal(c), Decimal(s'), Decimal(c'));
      DecimalInjective(s, s');
      DecimalInjective(c, c');
    }
  }

  /** A joined key belongs to one pair of strings only, exactly if neither has a dot. */
  lemma JoinKeyUniqueExactly(s: string, u: string)
    ensures (forall s', u' :: JoinKey(s', u') == JoinKey(s, u) ==> s' == s && u' == u) <==> '.' !in s && '.' !in u
  {
    if '.' !in s && '.' !in u {
      forall s', u' | JoinKey(s', u') == JoinKey(s, u) ensures s' == s && u' == u {
        NoDotsEither(s, u, s', u');
        JoinKeyInjective(s, u, s', u');
      }
    } else if '.' in s {
      var i :| 0 <= i < |s| && s[i] == '.';
      assert JoinKey(s[..i], s[i + 1..] + "." + u) == JoinKey(s, u);
    } else {
      var i :| 0 <= i < |u| && u[i] == '.';
      assert JoinKey(s + "." + u[..i], u[i + 1..]) == JoinKey(s, u);
    }
  }

  /** A key with one dot can only be split there. */
  lemma NoDotsEither(s: string, u: string, s': string, u': string)
    requires '.' !in s && '.' !in u && JoinKey(s', u') == JoinKey(s, u)
    ensures '.' !in s'
  {
    var j := JoinKey(s, u);
    assert forall i | 0 <= i < |j| && j[i] == '.' :: i == |s|;
    assert JoinKey(s', u')[|s'|] == '.';
    forall i | 0 <= i < |s'| ensures s'[i] != '.' {
      assert JoinKey(s', u')[i] == s'[i];
    }
  }

  /** Without the dot-free identifiers the join is ambiguous. */
  lemma JoinKeyAmbiguousWithDots()
    ensures JoinKey("1", "2.3") == JoinKey("1.2", "3") && "1" != "1.2"
  {
  }
}
