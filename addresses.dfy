/**
 * Actor addresses and the basic address factory.
 *
 * An address is an immutable id (a 64-bit `long`) with an optional name. The factory
 * hands out ids from two atomic counters: an ordinary one that starts at 1 and counts
 * up, and a "high" one that starts at the world's `HighRootId` and counts down, for
 * root and system actors.
 */
module Addresses {
  import opened Wrappers

  const LongMin: int := -0x8000_0000_0000_0000
  const LongMax: int := 0x7FFF_FFFF_FFFF_FFFF

  /** The values of a C# `long`. */
  type Long = x: int | LongMin <= x <= LongMax

  // The world's reserved ids. World.cs is not part of this model: the values below are
  // the runtime's convention of counting the reserved ids down from long.MaxValue.
  const PrivateRootId: Long := LongMax
  const PublicRootId: Long := PrivateRootId - 1
  const DeadLettersId: Long := PublicRootId - 1
  const HighRootId: Long := DeadLettersId - 1

  /**
   * A `BasicAddress`: its id, its optional name, and whether the name was given as a
   * prefix (`UniquePrefixedWith`).
   */
  datatype Address = Address(id: Long, name: Option<string>, prefixed: bool)

  /** Address equality compares ids; BasicAddress.cs is not part of this model. */
  predicate SameAddress(a: Address, b: Address)
  {
    a.id == b.id
  }

  /** The fixed `None` address: id 0, name "(none)". */
  const FixedNoneAddress: Address := Address(0, Some("(none)"), false)

  // ---------------------------------------------------------------------------
  // AtomicLong arithmetic: two's-complement wrap-around at the ends of the range.
  // ---------------------------------------------------------------------------

  function Increment(x: Long): Long
  {
    if x == LongMax then LongMin else x + 1
  }

  function Decrement(x: Long): Long
  {
    if x == LongMin then LongMax else x - 1
  }

  /** The value of the ordinary counter after `n` calls to `GetAndIncrement`. */
  function NextAfter(n: nat): Long
  {
    if n == 0 then 1 else Increment(NextAfter(n - 1))
  }

  /** The value of the high counter after `n` calls to `DecrementAndGet`. */
  function HighAfter(n: nat): Long
  {
    if n == 0 then HighRootId else Decrement(HighAfter(n - 1))
  }

  /** Until the ordinary counter reaches long.MaxValue, the k-th call hands out id k + 1. */
  lemma {:induction false} NextAfterCounts(n: nat)
    requires n < LongMax
    ensures NextAfter(n) == n + 1
  {
    if n > 0 {
      NextAfterCounts(n - 1);
    }
  }

  /** Until the high counter reaches long.MinValue, it stands n below HighRootId. */
  lemma {:induction false} HighAfterCounts(n: nat)
    requires n <= HighRootId - LongMin
    ensures HighAfter(n) == HighRootId - n
  {
    if n > 0 {
      HighAfterCounts(n - 1);
    }
  }

  /** Ids handed out by `Unique*` strictly increase, hence are pairwise distinct. */
  lemma UniqueIdsIncrease(i: nat, j: nat)
    requires i < j < LongMax
    ensures NextAfter(i) < NextAfter(j)
  {
    NextAfterCounts(i);
    NextAfterCounts(j);
  }

  /** Ids handed out by `WithHighId` strictly decrease, hence are pairwise distinct. */
  lemma HighIdsDecrease(i: nat, j: nat)
    requires i < j <= HighRootId - LongMin
    ensures HighAfter(j) < HighAfter(i)
  {
    HighAfterCounts(i);
    HighAfterCounts(j);
  }

  /**
   * After `u` ordinary and `h` high allocations, as long as the ordinary counter
   * (u + 1) has not passed the high counter (HighRootId - h), no id handed out by
   * `Unique*` (NextAfter(i), i < u) equals an id handed out by `WithHighId`
   * (HighAfter(j), 1 <= j <= h).
   */
  lemma UniqueAndHighIdsDisjoint(u: nat, h: nat, i: nat, j: nat)
    requires u + 1 <= HighRootId - h
    requires i < u && 1 <= j <= h
    ensures NextAfter(i) != HighAfter(j)
    ensures NextAfter(i) < HighAfter(j)
  {
    NextAfterCounts(i);
    HighAfterCounts(j);
  }

  // ---------------------------------------------------------------------------
  // long.Parse and long.ToString, under NumberStyles.Integer and the invariant culture.
  // ---------------------------------------------------------------------------

  datatype ParseError = InvalidFormat | Overflow

  predicate IsWhite(c: char)
  {
    c == ' ' || '\t' <= c <= '\r'
  }

  predicate IsDigit(c: char)
  {
    '0' <= c <= '9'
  }

  predicate AllDigits(s: string)
  {
    forall i :: 0 <= i < |s| ==> IsDigit(s[i])
  }

  function DigitValue(c: char): nat
    requires IsDigit(c)
  {
    (c as int) - ('0' as int)
  }

  function DigitChar(d: nat): (c: char)
    requires d < 10
    ensures IsDigit(c) && DigitValue(c) == d
  {
    (('0' as int) + d) as char
  }

  /** Drops leading white space: the result is a suffix, and only white space was dropped. */
  function TrimLeading(s: string): (t: string)
    ensures |t| <= |s| && t == s[|s| - |t|..]
    ensures forall i :: 0 <= i < |s| - |t| ==> IsWhite(s[i])
    ensures t == [] || !IsWhite(t[0])
  {
    if s != [] && IsWhite(s[0]) then
      var t := TrimLeading(s[1..]);
      assert s[1..][|s[1..]| - |t|..] == s[|s| - |t|..];
      assert forall i :: 1 <= i < |s| - |t| ==> s[i] == s[1..][i - 1];
      t
    else s
  }

  /** Drops trailing white space: the result is a prefix, and only white space was dropped. */
  function TrimTrailing(s: string): (t: string)
    ensures |t| <= |s| && t == s[..|t|]
    ensures forall i :: |t| <= i < |s| ==> IsWhite(s[i])
    ensures t == [] || !IsWhite(t[|t| - 1])
  {
    if s != [] && IsWhite(s[|s| - 1]) then
      var t := TrimTrailing(s[..|s| - 1]);
      assert s[..|s| - 1][..|t|] == s[..|t|];
      assert forall i :: |t| <= i < |s| - 1 ==> s[i] == s[..|s| - 1][i];
      t
    else s
  }

  /** The value of a string of decimal digits, most significant first. */
  function DigitsValue(s: string): nat
    requires AllDigits(s)
  {
    if s == [] then 0 else DigitsValue(s[..|s| - 1]) * 10 + DigitValue(s[|s| - 1])
  }

  /** The text `long.Parse` reads: `s` without its leading and trailing white space. */
  function Trimmed(s: string): string
  {
    TrimTrailing(TrimLeading(s))
  }

  predicate HasSign(t: string)
  {
    |t| > 0 && (t[0] == '-' || t[0] == '+')
  }

  /** What follows the optional sign. */
  function Magnitude(t: string): string
  {
    if HasSign(t) then t[1..] else t
  }

  /** Optional white space, an optional sign, one or more decimal digits, optional white space. */
  predicate WellFormedLong(s: string)
  {
    var digits := Magnitude(Trimmed(s));
    digits != [] && AllDigits(digits)
  }

  /** The integer a well-formed text denotes, whether or not it fits in a `long`. */
  function NumeralValue(s: string): int
    requires WellFormedLong(s)
  {
    var t := Trimmed(s);
    var m := DigitsValue(Magnitude(t));
    if HasSign(t) && t[0] == '-' then 0 - m else m
  }

  predicate NumeralChar(c: char)
  {
    IsWhite(c) || IsDigit(c) || c == '-' || c == '+'
  }

  predicate AllNumeral(s: string)
  {
    forall i :: 0 <= i < |s| ==> NumeralChar(s[i])
  }

  /**
   * `long.Parse(s)`: a text that is not well formed is a format error; a well-formed
   * text whose value lies outside the `long` range is an overflow; otherwise the
   * answer is that value.
   */
  function ParseLong(s: string): (r: Result<Long, ParseError>)
    ensures !WellFormedLong(s) ==> r == Failure(InvalidFormat)
    ensures r == Failure(Overflow) <==> WellFormedLong(s) && !(LongMin <= NumeralValue(s) <= LongMax)
    ensures r.Success? <==> WellFormedLong(s) && LongMin <= NumeralValue(s) <= LongMax
    ensures r.Success? ==> r.value == NumeralValue(s)
    ensures r.Success? ==> AllNumeral(s)
  {
    if !WellFormedLong(s) then
      Failure(InvalidFormat)
    else if LongMin <= NumeralValue(s) <= LongMax then
      WellFormedIsNumeral(s);
      Success(NumeralValue(s))
    else
      Failure(Overflow)
  }

  lemma AllNumeralConcat(a: string, b: string)
    requires AllNumeral(a) && AllNumeral(b)
    ensures AllNumeral(a + b)
  {
    forall i | 0 <= i < |a + b|
      ensures NumeralChar((a + b)[i])
    {
      if i < |a| {
        assert (a + b)[i] == a[i];
      } else {
        assert (a + b)[i] == b[i - |a|];
      }
    }
  }

  /** A sign followed by digits is made of numeral characters. */
  lemma SignedDigitsAreNumeral(t: string)
    requires AllDigits(Magnitude(t))
    ensures AllNumeral(t)
  {
    forall i | 0 <= i < |t|
      ensures NumeralChar(t[i])
    {
      if HasSign(t) && i > 0 {
        assert t[i] == Magnitude(t)[i - 1];
      } else if !HasSign(t) {
        assert t[i] == Magnitude(t)[i];
      }
    }
  }

  /** White space `TrimLeading` drops does not spoil an all-numeral text. */
  lemma {:induction false} TrimLeadingKeepsNumeral(s: string)
    requires AllNumeral(TrimLeading(s))
    ensures AllNumeral(s)
  {
    if s != [] && IsWhite(s[0]) {
      TrimLeadingKeepsNumeral(s[1..]);
      assert s == [s[0]] + s[1..];
      AllNumeralConcat([s[0]], s[1..]);
    }
  }

  /** White space `TrimTrailing` drops does not spoil an all-numeral text. */
  lemma {:induction false} TrimTrailingKeepsNumeral(s: string)
    requires AllNumeral(TrimTrailing(s))
    ensures AllNumeral(s)
  {
    if s != [] && IsWhite(s[|s| - 1]) {
      TrimTrailingKeepsNumeral(s[..|s| - 1]);
      assert s == s[..|s| - 1] + [s[|s| - 1]];
      AllNumeralConcat(s[..|s| - 1], [s[|s| - 1]]);
    }
  }

  /** Helper for ParseLong's contract: a well-formed text has only white, digit and sign characters. */
  lemma WellFormedIsNumeral(s: string)
    requires WellFormedLong(s)
    ensures AllNumeral(s)
  {
    SignedDigitsAreNumeral(Trimmed(s));
    TrimTrailingKeepsNumeral(TrimLeading(s));
    TrimLeadingKeepsNumeral(s);
  }

  /** The decimal digits of a natural number, without leading zeros. */
  function FormatNat(n: nat): (s: string)
    ensures |s| > 0 && AllDigits(s)
    ensures n > 0 ==> s[0] != '0'
  {
    if n < 10 then [DigitChar(n)] else FormatNat(n / 10) + [DigitChar(n % 10)]
  }

  /** `long.ToString()` under the invariant culture. */
  function FormatLong(n: Long): (s: string)
    ensures |s| > 0
    ensures !IsWhite(s[0]) && !IsWhite(s[|s| - 1])
  {
    if n < 0 then "-" + FormatNat(0 - n as int) else FormatNat(n)
  }

  lemma {:induction false} DigitsValueOfFormat(n: nat)
    ensures DigitsValue(FormatNat(n)) == n
  {
    var s := FormatNat(n);
    if n >= 10 {
      DigitsValueOfFormat(n / 10);
      assert s[..|s| - 1] == FormatNat(n / 10);
    }
  }

  /** Round trip: every `long` parses back from its own decimal text. */
  lemma FormatThenParse(n: Long)
    ensures ParseLong(FormatLong(n)) == Success(n)
  {
    if n < 0 {
      ParseCanonicalNumeral(0 - n as int, true);
    } else {
      ParseCanonicalNumeral(n, false);
    }
  }

  /** A sign with no digits is a format error. */
  lemma LoneSignFails()
    ensures ParseLong("+") == Failure(InvalidFormat)
  {
    NotWhiteAtEndsIsTrimmed("+");
    assert Magnitude("+") == [];
  }

  /** A doubled sign is a format error. */
  lemma DoubledSignFails()
    ensures ParseLong("--1") == Failure(InvalidFormat)
  {
    NotWhiteAtEndsIsTrimmed("--1");
    assert Magnitude("--1") == "-1";
    assert !IsDigit("-1"[0]);
  }

  /** White space inside the digits is a format error. */
  lemma InnerWhiteFails()
    ensures ParseLong("1 2") == Failure(InvalidFormat)
  {
    NotWhiteAtEndsIsTrimmed("1 2");
    assert Magnitude("1 2") == "1 2";
    assert !IsDigit("1 2"[1]);
  }

  predicate AllWhite(w: string)
  {
    forall i :: 0 <= i < |w| ==> IsWhite(w[i])
  }

  lemma {:induction false} TrimLeadingSkipsWhite(w: string, t: string)
    requires AllWhite(w) && |t| > 0 && !IsWhite(t[0])
    ensures TrimLeading(w + t) == t
  {
    if w == [] {
      assert w + t == t;
    } else {
      assert (w + t)[0] == w[0];
      assert (w + t)[1..] == w[1..] + t;
      TrimLeadingSkipsWhite(w[1..], t);
    }
  }

  lemma {:induction false} TrimTrailingSkipsWhite(t: string, w: string)
    requires AllWhite(w) && |t| > 0 && !IsWhite(t[|t| - 1])
    ensures TrimTrailing(t + w) == t
  {
    if w == [] {
      assert t + w == t;
    } else {
      assert (t + w)[|t + w| - 1] == w[|w| - 1];
      assert (t + w)[..|t + w| - 1] == t + w[..|w| - 1];
      TrimTrailingSkipsWhite(t, w[..|w| - 1]);
    }
  }

  /** White space around a text changes nothing that `long.Parse` answers. */
  lemma SurroundingWhiteIgnored(lead: string, t: string, trail: string)
    requires AllWhite(lead) && AllWhite(trail)
    requires |t| > 0 && !IsWhite(t[0]) && !IsWhite(t[|t| - 1])
    ensures ParseLong(lead + t + trail) == ParseLong(t)
  {
    assert lead + t + trail == lead + (t + trail);
    assert (t + trail)[0] == t[0];
    TrimLeadingSkipsWhite(lead, t + trail);
    TrimTrailingSkipsWhite(t, trail);
    NotWhiteAtEndsIsTrimmed(t);
    ParseSeesOnlyTrimmed(lead + t + trail, t);
  }

  /** `long.Parse` answers the same for two texts that trim to the same text. */
  lemma ParseSeesOnlyTrimmed(a: string, b: string)
    requires Trimmed(a) == Trimmed(b)
    ensures ParseLong(a) == ParseLong(b)
  {
    assert WellFormedLong(a) == WellFormedLong(b);
    if WellFormedLong(a) {
      assert NumeralValue(a) == NumeralValue(b);
    }
  }

  /** Text that neither starts nor ends with white space is already trimmed. */
  lemma NotWhiteAtEndsIsTrimmed(s: string)
    requires |s| > 0 && !IsWhite(s[0]) && !IsWhite(s[|s| - 1])
    ensures TrimLeading(s) == s && TrimTrailing(s) == s && Trimmed(s) == s
  {
  }

  /**
   * A canonical decimal numeral, with or without a minus sign, parses to its value
   * when that value fits in a `long`, and is an overflow otherwise.
   */
  lemma ParseCanonicalNumeral(n: nat, negative: bool)
    ensures var v: int := if negative then 0 - n else n;
      ParseLong(if negative then "-" + FormatNat(n) else FormatNat(n)) ==
        if LongMin <= v <= LongMax then Success(v) else Failure(Overflow)
  {
    var f := FormatNat(n);
    var s := if negative then "-" + f else f;
    var v: int := if negative then 0 - n else n;
    assert s[|s| - 1] == f[|f| - 1];
    assert IsDigit(s[0]) || s[0] == '-';
    NotWhiteAtEndsIsTrimmed(s);
    if negative {
      assert s[1..] == f;
    }
    assert Magnitude(s) == f;
    DigitsValueOfFormat(n);
    assert WellFormedLong(s) && NumeralValue(s) == v;
  }

  // ---------------------------------------------------------------------------
  // The factory.
  // ---------------------------------------------------------------------------

  class BasicAddressFactory {
    /** The ordinary counter: the id the next `Unique*` call hands out. */
    var nextId: Long
    /** The high counter: the id the last `WithHighId` call handed out. */
    var highId: Long
    /** How many ids each counter has handed out so far. */
    ghost var uniqueCount: nat
    ghost var highCount: nat

    ghost predicate Valid()
      reads this
    {
      nextId == NextAfter(uniqueCount) && highId == HighAfter(highCount)
    }

    constructor ()
      ensures Valid() && uniqueCount == 0 && highCount == 0
      ensures nextId == 1 && highId == HighRootId
    {
      highId := HighRootId;
      nextId := 1;
      uniqueCount, highCount := 0, 0;
    }

    /** `nextId.GetAndIncrement()`: answers the counter, then advances it (wrapping at long.MaxValue). */
    method NextUniqueId() returns (id: Long)
      requires Valid()
      modifies this
      ensures Valid()
      ensures id == old(nextId) == NextAfter(old(uniqueCount))
      ensures uniqueCount == old(uniqueCount) + 1 && nextId == Increment(old(nextId))
      ensures highId == old(highId) && highCount == old(highCount)
    {
      id := nextId;
      nextId := Increment(nextId);
      uniqueCount := uniqueCount + 1;
    }

    method Unique() returns (a: Address)
      requires Valid()
      modifies this
      ensures Valid()
      ensures a == Address(old(nextId), None, false)
      ensures uniqueCount == old(uniqueCount) + 1 && nextId == Increment(old(nextId))
      ensures highId == old(highId) && highCount == old(highCount)
    {
      var id := NextUniqueId();
      a := Address(id, None, false);
    }

    method UniqueWith(name: Option<string>) returns (a: Address)
      requires Valid()
      modifies this
      ensures Valid()
      ensures a == Address(old(nextId), name, false)
      ensures uniqueCount == old(uniqueCount) + 1 && nextId == Increment(old(nextId))
      ensures highId == old(highId) && highCount == old(highCount)
    {
      var id := NextUniqueId();
      a := Address(id, name, false);
    }

    method UniquePrefixedWith(prefixedWith: string) returns (a: Address)
      requires Valid()
      modifies this
      ensures Valid()
      ensures a == Address(old(nextId), Some(prefixedWith), true)
      ensures uniqueCount == old(uniqueCount) + 1 && nextId == Increment(old(nextId))
      ensures highId == old(highId) && highCount == old(highCount)
    {
      var id := NextUniqueId();
      a := Address(id, Some(prefixedWith), true);
    }

    /** `WithHighId(name)`: `highId.DecrementAndGet()` (wrapping at long.MinValue), then the new value. */
    method WithHighIdNamed(name: Option<string>) returns (a: Address)
      requires Valid()
      modifies this
      ensures Valid()
      ensures highId == Decrement(old(highId)) && highCount == old(highCount) + 1
      ensures a == Address(highId, name, false) && a.id == HighAfter(highCount)
      ensures nextId == old(nextId) && uniqueCount == old(uniqueCount)
    {
      highId := Decrement(highId);
      highCount := highCount + 1;
      a := Address(highId, name, false);
    }

    /** `WithHighId()` is `WithHighId(null)`. */
    method WithHighId() returns (a: Address)
      requires Valid()
      modifies this
      ensures Valid()
      ensures highId == Decrement(old(highId)) && highCount == old(highCount) + 1
      ensures a == Address(highId, None, false)
      ensures nextId == old(nextId) && uniqueCount == old(uniqueCount)
    {
      a := WithHighIdNamed(None);
    }

    /** `TestNextIdValue()`: after n `Unique*` calls on a fresh factory it answers NextAfter(n). */
    method TestNextIdValue() returns (v: Long)
      requires Valid()
      ensures v == NextAfter(uniqueCount)
      ensures uniqueCount < LongMax ==> v == uniqueCount + 1
    {
      v := nextId;
      if uniqueCount < LongMax {
        NextAfterCounts(uniqueCount);
      }
    }

    /** `None()` always answers the same address and touches no counter. */
    function NoneAddress(): (a: Address)
      ensures a.id == 0 && a.name == Some("(none)")
    {
      FixedNoneAddress
    }

    /** `From(reservedId, name)`: the given id with the given name. */
    function FromReserved(reservedId: Long, name: string): (a: Address)
      ensures a.id == reservedId && a.name == Some(name) && !a.prefixed
    {
      Address(reservedId, Some(name), false)
    }

    /** `From(idString)`: the parsed id, or the parse error. */
    function FromIdString(idString: string): (r: Result<Address, ParseError>)
      ensures r.Success? <==> ParseLong(idString).Success?
      ensures r.Success? ==> r.value == Address(ParseLong(idString).value, None, false)
      ensures r.Failure? ==> r.error == ParseLong(idString).error
    {
      match ParseLong(idString)
      case Success(id) => Success(Address(id, None, false))
      case Failure(e) => Failure(e)
    }

    /** `From(idString, name)`: the parsed id with the given name, or the parse error. */
    function FromIdStringNamed(idString: string, name: string): (r: Result<Address, ParseError>)
      ensures r.Success? <==> ParseLong(idString).Success?
      ensures r.Success? ==> r.value == Address(ParseLong(idString).value, Some(name), false)
      ensures r.Failure? ==> r.error == ParseLong(idString).error
    {
      match ParseLong(idString)
      case Success(id) => Success(Address(id, Some(name), false))
      case Failure(e) => Failure(e)
    }

    /**
     * `FindableBy<T>(id)`: parses `id.ToString()`; `render` stands for the id type's
     * `ToString`. For a `long` id rendered as decimal text the answer is that very id.
     */
    function FindableBy<T>(id: T, render: T -> string): (r: Result<Address, ParseError>)
      ensures r.Success? <==> ParseLong(render(id)).Success?
      ensures r.Success? ==> r.value == Address(ParseLong(render(id)).value, None, false)
    {
      match ParseLong(render(id))
      case Success(v) => Success(Address(v, None, false))
      case Failure(e) => Failure(e)
    }

    lemma FindableByLongId(id: Long)
      ensures FindableBy(id, FormatLong) == Success(Address(id, None, false))
    {
      FormatThenParse(id);
    }
  }
}
