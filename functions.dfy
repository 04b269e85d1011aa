/**
 * The plugin's two helpers: reading a cache lifetime such as "300s" or
 * "2h" as a number of seconds, and naming a cache entry by the hex SHA-256
 * of its key string.
 */
module Functions {
  import opened Wrappers
  import opened GoStrings
  import opened GoStrconv
  import opened GoHex
  import opened Library
  import S3

  /** `strconv.Atoi` with an error read as 0, as every branch of `CalculateTTL` does. */
  function AtoiOrZero(s: string): (r: int)
    ensures InIntRange(r)
    ensures Atoi(s).None? ==> r == 0
    ensures Atoi(s).Some? ==> r == Atoi(s).value
  {
    match Atoi(s)
    case None => 0
    case Some(n) => n
  }

  /** The string ends in the unit letter, in either case. */
  predicate EndsInUnit(t: string, lower: char, upper: char) {
    HasSuffix(t, [lower]) || HasSuffix(t, [upper])
  }

  /** The lowercase, then the uppercase unit letter trimmed, and the rest parsed (an error gives 0). */
  function UnitCount(t: string, lower: char, upper: char): (r: int)
    ensures InIntRange(r)
  {
    AtoiOrZero(TrimSuffix(TrimSuffix(t, [lower]), [upper]))
  }

  /**
   * `CalculateTTL` after the spaces are gone: the first of the suffixes s/S,
   * m/M, h/H, d/D the string ends with picks the unit. Without a unit suffix
   * the whole string is parsed as seconds. The products are Go `int`
   * products, wrapping on overflow.
   */
  function SpaceFreeTTL(t: string): (r: int)
    ensures InIntRange(r)
  {
    if EndsInUnit(t, 's', 'S') then UnitCount(t, 's', 'S')
    else if EndsInUnit(t, 'm', 'M') then Mul(UnitCount(t, 'm', 'M'), 60)
    else if EndsInUnit(t, 'h', 'H') then Mul(Mul(UnitCount(t, 'h', 'H'), 60), 60)
    else if EndsInUnit(t, 'd', 'D') then Mul(Mul(Mul(UnitCount(t, 'd', 'D'), 60), 60), 24)
    else AtoiOrZero(t)
  }

  /** `CalculateTTL`: a lifetime in seconds, read with every space removed first. */
  function CalculateTTL(ttl: string): (r: int)
    ensures InIntRange(r)
  {
    SpaceFreeTTL(RemoveSpaces(ttl))
  }

  /** The lowercase and uppercase letter of one unit, as the branches test them. */
  predicate UnitLetters(lower: char, upper: char) {
    (lower == 's' && upper == 'S') || (lower == 'm' && upper == 'M')
    || (lower == 'h' && upper == 'H') || (lower == 'd' && upper == 'D')
  }

  /** The unit letters, either case, and the seconds one unit stands for. */
  function UnitSeconds(unit: char): Option<int> {
    if unit == 's' || unit == 'S' then Some(1)
    else if unit == 'm' || unit == 'M' then Some(60)
    else if unit == 'h' || unit == 'H' then Some(3600)
    else if unit == 'd' || unit == 'D' then Some(86400)
    else None
  }

  /** `GetCacheKey`: the lowercase hex SHA-256 of the string. */
  function GetCacheKey(c: Crypto, str: string): (r: string)
    ensures |r| == 64
    ensures forall i :: 0 <= i < |r| ==> IsLowerHex(r[i])
    ensures DecodeString(r) == Some(c.sha256(c.toBytes(str)))
  {
    var hashBytes := c.sha256(c.toBytes(str));
    DecodeEncode(hashBytes);
    EncodeToString(hashBytes)
  }

  /** Spaces anywhere in the lifetime, even inside the number, make no difference. */
  lemma CalculateTTLIgnoresSpaces(ttl: string)
    ensures CalculateTTL(ttl) == CalculateTTL(RemoveSpaces(ttl))
  {
    RemoveSpacesIdentity(RemoveSpaces(ttl));
  }

  /** The printed form of an `int` has no space and ends in a digit. */
  lemma ItoaShape(n: int)
    ensures ' ' !in Itoa(n)
    ensures IsDigit(Itoa(n)[|Itoa(n)| - 1])
  {
    var s := Itoa(n);
    forall i | 0 <= i < |s| ensures s[i] != ' ' {
      if i > 0 {
        assert s[i] == s[1..][i - 1];
      }
    }
  }

  /** A suffix of one character is there exactly when the string ends in that character. */
  lemma HasSuffixChar(s: string, c: char)
    ensures HasSuffix(s, [c]) <==> |s| > 0 && s[|s| - 1] == c
  {
  }

  /** A space-free lifetime not ending in a unit letter is read whole by `Atoi` as seconds (0 if it does not parse). */
  lemma PlainCount(count: string)
    requires ' ' !in count && (|count| == 0 || UnitSeconds(count[|count| - 1]).None?)
    ensures CalculateTTL(count) == AtoiOrZero(count)
  {
    RemoveSpacesIdentity(count);
    HasSuffixChar(count, 's');
    HasSuffixChar(count, 'S');
    HasSuffixChar(count, 'm');
    HasSuffixChar(count, 'M');
    HasSuffixChar(count, 'h');
    HasSuffixChar(count, 'H');
    HasSuffixChar(count, 'd');
    HasSuffixChar(count, 'D');
  }

  /** A plain number is read as that many seconds. */
  lemma PlainNumberIsSeconds(n: int)
    requires InIntRange(n)
    ensures CalculateTTL(Itoa(n)) == n
  {
    ItoaShape(n);
    PlainCount(Itoa(n));
    AtoiItoa(n);
  }

  /** The count before the unit, parsed after trimming both forms of the unit's suffix. */
  lemma TrimmedNumber(count: string, unit: char, lower: char, upper: char)
    requires |count| > 0 && IsDigit(count[|count| - 1])
    requires unit == lower || unit == upper
    requires !IsDigit(lower) && !IsDigit(upper)
    ensures UnitCount(count + [unit], lower, upper) == AtoiOrZero(count)
  {
    var t := count + [unit];
    HasSuffixChar(t, lower);
    HasSuffixChar(t, upper);
    assert t[..|t| - 1] == count;
    var once := TrimSuffix(t, [lower]);
    HasSuffixChar(once, upper);
    if unit == lower {
      assert once == count;
    } else {
      assert once == t;
    }
    assert TrimSuffix(once, [upper]) == count;
  }

  /** The chains of `int` products for hours and days wrap like the single products. */
  lemma ScaleChains(n: int)
    ensures Mul(Mul(n, 60), 60) == Wrap(n * 3600)
    ensures Mul(Mul(Mul(n, 60), 60), 24) == Wrap(n * 86400)
  {
    WrapMul(n * 60, 60);
    assert n * 60 * 60 == n * 3600;
    WrapMul(n * 3600, 24);
    assert n * 3600 * 24 == n * 86400;
  }

  /** Which unit branch a string ending in a letter takes. */
  lemma EndsInUnitChar(t: string, lower: char, upper: char)
    ensures EndsInUnit(t, lower, upper) <==> |t| > 0 && (t[|t| - 1] == lower || t[|t| - 1] == upper)
  {
    HasSuffixChar(t, lower);
    HasSuffixChar(t, upper);
  }

  /**
   * A count ending in a digit, followed by one unit letter, is `Atoi`'s value
   * of the count (0 if it does not parse) times the unit's seconds, with Go's
   * wrap-around.
   */
  lemma CountWithUnit(count: string, unit: char)
    requires ' ' !in count && |count| > 0 && IsDigit(count[|count| - 1])
    requires UnitSeconds(unit).Some?
    ensures CalculateTTL(count + [unit]) == Wrap(AtoiOrZero(count) * UnitSeconds(unit).value)
  {
    var t := count + [unit];
    assert ' ' !in t;
    RemoveSpacesIdentity(t);
    EndsInUnitChar(t, 's', 'S');
    EndsInUnitChar(t, 'm', 'M');
    EndsInUnitChar(t, 'h', 'H');
    EndsInUnitChar(t, 'd', 'D');
    ScaleChains(AtoiOrZero(count));
    if unit == 's' || unit == 'S' {
      TrimmedNumber(count, unit, 's', 'S');
    } else if unit == 'm' || unit == 'M' {
      TrimmedNumber(count, unit, 'm', 'M');
    } else if unit == 'h' || unit == 'H' {
      TrimmedNumber(count, unit, 'h', 'H');
    } else {
      TrimmedNumber(count, unit, 'd', 'D');
    }
  }

  /** A number followed by one unit letter is that many units, in seconds, with Go's wrap-around. */
  lemma NumberWithUnit(n: int, unit: char)
    requires InIntRange(n)
    requires UnitSeconds(unit).Some?
    ensures CalculateTTL(Itoa(n) + [unit]) == Wrap(n * UnitSeconds(unit).value)
  {
    ItoaShape(n);
    CountWithUnit(Itoa(n), unit);
    AtoiItoa(n);
  }

  /** Every character a trimmed string keeps was in the string. */
  lemma TrimSuffixKeeps(s: string, suffix: string)
    ensures forall c :: c in TrimSuffix(s, suffix) ==> c in s
  {
    if HasSuffix(s, suffix) {
      forall c | c in TrimSuffix(s, suffix) ensures c in s {
        var i :| 0 <= i < |s| - |suffix| && s[..|s| - |suffix|][i] == c;
        assert s[i] == c;
      }
    }
  }

  /** A lifetime with no digit in it is read as 0. */
  lemma NoDigitsNoLifetime(ttl: string)
    requires forall i :: 0 <= i < |ttl| ==> !IsDigit(ttl[i])
    ensures CalculateTTL(ttl) == 0
  {
    var t := RemoveSpaces(ttl);
    assert forall c :: c in t ==> c in ttl;
    NoDigitsAtoi(t, ttl);
    NoDigitsTrimmed(t, ttl, 's', 'S');
    NoDigitsTrimmed(t, ttl, 'm', 'M');
    NoDigitsTrimmed(t, ttl, 'h', 'H');
    NoDigitsTrimmed(t, ttl, 'd', 'D');
    assert Mul(0, 60) == 0;
  }

  /** Trimming both forms of a suffix from a digit-free string leaves nothing that parses. */
  lemma NoDigitsTrimmed(t: string, from: string, lower: char, upper: char)
    requires forall i :: 0 <= i < |from| ==> !IsDigit(from[i])
    requires forall c :: c in t ==> c in from
    ensures UnitCount(t, lower, upper) == 0
  {
    TrimSuffixKeeps(t, [lower]);
    TrimSuffixKeeps(TrimSuffix(t, [lower]), [upper]);
    NoDigitsAtoi(TrimSuffix(TrimSuffix(t, [lower]), [upper]), from);
  }

  /** A string whose characters all come from a digit-free string does not parse. */
  lemma NoDigitsAtoi(s: string, from: string)
    requires forall i :: 0 <= i < |from| ==> !IsDigit(from[i])
    requires forall c :: c in s ==> c in from
    ensures AtoiOrZero(s) == 0
  {
    forall i | 0 <= i < |s| ensures !IsDigit(s[i]) {
      assert s[i] in from;
    }
  }

  /** The plugin's default lifetime "300s" is five minutes. */
  lemma DefaultLifetime()
    ensures CalculateTTL("300s") == 300
  {
    assert Itoa(300) + ['s'] == "300s" by { assert Decimal(300) == "300"; }
    NumberWithUnit(300, 's');
  }

  /** The lifetime in the plugin's test, "zzz", is read as 0. */
  lemma UnparsableLifetime()
    ensures CalculateTTL("zzz") == 0
  {
    NoDigitsNoLifetime("zzz");
  }

  /** The branches a space-free lifetime ending in `c` does not take, and the one it does. */
  lemma BranchesFor(t: string, c: char)
    requires |t| > 0 && t[|t| - 1] == c
    ensures EndsInUnit(t, 's', 'S') <==> c == 's' || c == 'S'
    ensures EndsInUnit(t, 'm', 'M') <==> c == 'm' || c == 'M'
    ensures EndsInUnit(t, 'h', 'H') <==> c == 'h' || c == 'H'
    ensures EndsInUnit(t, 'd', 'D') <==> c == 'd' || c == 'D'
  {
    EndsInUnitChar(t, 's', 'S');
    EndsInUnitChar(t, 'm', 'M');
    EndsInUnitChar(t, 'h', 'H');
    EndsInUnitChar(t, 'd', 'D');
  }

  /**
   * A space-free lifetime ending in a unit letter takes that unit's branch:
   * its lowercase, then its uppercase letter is trimmed, the rest is parsed
   * and scaled to seconds with Go's wrap-around.
   */
  lemma UnitBranch(t: string, lower: char, upper: char)
    requires ' ' !in t && |t| > 0 && (t[|t| - 1] == lower || t[|t| - 1] == upper)
    requires UnitLetters(lower, upper)
    ensures lower == 's' ==> CalculateTTL(t) == UnitCount(t, 's', 'S')
    ensures lower == 'm' ==> CalculateTTL(t) == Wrap(UnitCount(t, 'm', 'M') * 60)
    ensures lower == 'h' ==> CalculateTTL(t) == Wrap(UnitCount(t, 'h', 'H') * 3600)
    ensures lower == 'd' ==> CalculateTTL(t) == Wrap(UnitCount(t, 'd', 'D') * 86400)
  {
    RemoveSpacesIdentity(t);
    BranchesFor(t, t[|t| - 1]);
    ScaleChains(UnitCount(t, 'h', 'H'));
    ScaleChains(UnitCount(t, 'd', 'D'));
  }


  /** A count that does not end in a digit does not parse. */
  lemma NonDigitLast(s: string)
    requires |s| > 0 && !IsDigit(s[|s| - 1])
    ensures AtoiOrZero(s) == 0
  {
  }

  /** Trimming a one-character suffix from a string ending in `c`. */
  lemma TrimChar(s: string, c: char, d: char)
    ensures TrimSuffix(s + [c], [d]) == if c == d then s else s + [c]
  {
    HasSuffixChar(s + [c], d);
    assert (s + [c])[..|s|] == s;
  }

  /** The seconds suffix is tested first, so a count followed by "ms" is an unparsable "<n>m" and gives 0, not minutes. */
  lemma SecondsSuffixTestedFirst(n: int)
    ensures CalculateTTL(Itoa(n) + "ms") == 0
  {
    var s := Itoa(n);
    ItoaShape(n);
    assert s + "ms" == s + ['m'] + ['s'];
    UnitBranch(s + "ms", 's', 'S');
    TrimChar(s + ['m'], 's', 's');
    TrimChar(s, 'm', 'S');
    NonDigitLast(s + ['m']);
  }

  /**
   * The lowercase letter is trimmed before the uppercase one, so a count
   * followed by the uppercase and then the lowercase letter of a unit
   * ("Ss", "Mm", "Hh", "Dd") loses both letters.
   */
  lemma BothCasesTrimmed(n: int, lower: char, upper: char)
    requires InIntRange(n)
    requires UnitLetters(lower, upper)
    ensures UnitSeconds(lower).Some?
    ensures CalculateTTL(Itoa(n) + [upper, lower]) == Wrap(n * UnitSeconds(lower).value)
  {
    var s := Itoa(n);
    ItoaShape(n);
    UnitBranch(s + [upper, lower], lower, upper);
    BothLettersTrimmed(s, lower, upper);
    AtoiItoa(n);
    UnitScale(n, lower, upper);
  }

  /** Scaling by a unit's seconds, one unit at a time. */
  lemma UnitScale(x: int, lower: char, upper: char)
    requires InIntRange(x) && UnitLetters(lower, upper)
    ensures UnitSeconds(lower).Some?
    ensures lower == 's' ==> Wrap(x * UnitSeconds(lower).value) == x
    ensures lower == 'm' ==> Wrap(x * UnitSeconds(lower).value) == Wrap(x * 60)
    ensures lower == 'h' ==> Wrap(x * UnitSeconds(lower).value) == Wrap(x * 3600)
    ensures lower == 'd' ==> Wrap(x * UnitSeconds(lower).value) == Wrap(x * 86400)
  {
  }

  /** Trimming the unit's letters from a count followed by its uppercase, then its lowercase letter leaves the count. */
  lemma BothLettersTrimmed(s: string, lower: char, upper: char)
    requires UnitLetters(lower, upper)
    ensures UnitCount(s + [upper, lower], lower, upper) == AtoiOrZero(s)
  {
    assert s + [upper, lower] == s + [upper] + [lower];
    TrimChar(s + [upper], lower, lower);
    TrimChar(s, upper, upper);
  }


  /**
   * With the letters the other way round ("sS", "mM", "hH", "dD"), only the
   * uppercase letter is trimmed and what is left does not parse.
   */
  lemma OnlyLastCaseTrimmed(n: int, lower: char, upper: char)
    requires UnitLetters(lower, upper)
    ensures CalculateTTL(Itoa(n) + [lower, upper]) == 0
  {
    var s := Itoa(n);
    ItoaShape(n);
    UnitBranch(s + [lower, upper], lower, upper);
    OnlyUpperTrimmed(s, lower, upper);
    assert Wrap(0) == 0;
  }

  /** Trimming the unit's letters from a count followed by its lowercase, then its uppercase letter leaves a count ending in a letter. */
  lemma OnlyUpperTrimmed(s: string, lower: char, upper: char)
    requires UnitLetters(lower, upper)
    ensures UnitCount(s + [lower, upper], lower, upper) == 0
  {
    assert s + [lower, upper] == s + [lower] + [upper];
    TrimChar(s + [lower], upper, lower);
    TrimChar(s + [lower], upper, upper);
    NonDigitLast(s + [lower]);
  }


  /** `GetCacheKey` computes what `hashSHA256` of the signer computes. */
  lemma GetCacheKeyIsHashSHA256(c: Crypto, str: string)
    ensures GetCacheKey(c, str) == S3.HashSHA256(c, str)
  {
  }

  /** Two strings share a cache key only if their SHA-256 digests are equal. */
  lemma CacheKeysCollideOnlyWithDigests(c: Crypto, a: string, b: string)
    requires GetCacheKey(c, a) == GetCacheKey(c, b)
    ensures c.sha256(c.toBytes(a)) == c.sha256(c.toBytes(b))
  {
    EncodeInjective(c.sha256(c.toBytes(a)), c.sha256(c.toBytes(b)));
  }
}
