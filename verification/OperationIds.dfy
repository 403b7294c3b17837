/** The process-wide operation counter and the identifiers minted from it. */
module OperationIds {
  import opened Prelude
  import opened Text

  predicate IsDigit(c: char) {
    '0' <= c <= '9'
  }

  function Digit(d: nat): char
    requires d < 10
  {
    ('0' as int + d) as char
  }

  /** `u64::to_string`: decimal, most significant digit first, no leading zero. */
  function Decimal(n: nat): string {
    if n < 10 then [Digit(n)] else Decimal(n / 10) + [Digit(n % 10)]
  }

  /** The number a digit string denotes. */
  ghost function ValueOf(s: string): nat
    requires forall c :: c in s ==> IsDigit(c)
  {
    if s == "" then 0
    else
      var last := s[|s| - 1];
      assert IsDigit(last) && forall c :: c in s[..|s| - 1] ==> c in s;
      10 * ValueOf(s[..|s| - 1]) + (last as int - '0' as int) as nat
  }

  lemma {:induction false} DecimalRoundTrip(n: nat)
    ensures forall c :: c in Decimal(n) ==> IsDigit(c)
    ensures ValueOf(Decimal(n)) == n
  {
    if n >= 10 {
      DecimalRoundTrip(n / 10);
      var s := Decimal(n);
      assert s[..|s| - 1] == Decimal(n / 10);
    } else {
      assert Decimal(n)[..0] == "";
    }
  }

  function Power10(k: nat): nat {
    if k == 0 then 1 else 10 * Power10(k - 1)
  }

  lemma {:induction false} DecimalLength(n: nat, k: nat)
    requires 1 <= k && n < Power10(k)
    ensures 1 <= |Decimal(n)| <= k
  {
    if n >= 10 {
      assert k > 1;
      DecimalLength(n / 10, k - 1);
    }
  }

  /** `format!("web-{now}-{sequence}")`. */
  function OperationId(now: nat, sequence: nat): string {
    "web-" + Decimal(now) + "-" + Decimal(sequence)
  }

  /** An identifier determines the clock reading and the sequence number it was made from. */
  lemma OperationIdInjective(now1: nat, sequence1: nat, now2: nat, sequence2: nat)
    requires OperationId(now1, sequence1) == OperationId(now2, sequence2)
    ensures now1 == now2 && sequence1 == sequence2
  {
    DecimalRoundTrip(now1);
    DecimalRoundTrip(now2);
    DecimalRoundTrip(sequence1);
    DecimalRoundTrip(sequence2);
    var id1, id2 := OperationId(now1, sequence1), OperationId(now2, sequence2);
    assert id1[4..] == Decimal(now1) + ['-'] + Decimal(sequence1);
    assert id2[4..] == Decimal(now2) + ['-'] + Decimal(sequence2);
    SplitUnique(Decimal(now1), Decimal(sequence1), Decimal(now2), Decimal(sequence2), '-');
  }

  /** A decimal number has no leading zero. */
  lemma {:induction false} NoLeadingZero(n: nat)
    requires n > 0
    ensures Decimal(n)[0] != '0'
  {
    if n >= 10 { NoLeadingZero(n / 10); }
  }

  /** The clock reading comes first, then the counter. */
  lemma ForExample()
    ensures OperationId(120, 7) == "web-120-7"
  {
    assert Decimal(120) == Decimal(12) + "0" && Decimal(12) == Decimal(1) + "2" && Decimal(1) == "1";
  }

  /** The value the counter hands to its `ticket`-th caller: it starts at 1 and wraps at 2^64. */
  function SequenceOf(ticket: nat): (sequence: nat)
    ensures sequence < U64
  {
    (1 + ticket) % U64
  }

  /** Two mints of one process share an identifier exactly when they read the same clock value and lie a
      multiple of 2^64 mints apart, so no two of the first 2^64 mints do. */
  lemma MintsCollideExactly(now1: nat, ticket1: nat, now2: nat, ticket2: nat)
    requires ticket1 <= ticket2
    ensures OperationId(now1, SequenceOf(ticket1)) == OperationId(now2, SequenceOf(ticket2))
       <==> now1 == now2 && (ticket2 - ticket1) % U64 == 0
    ensures ticket1 < ticket2 < U64 ==> OperationId(now1, SequenceOf(ticket1)) != OperationId(now2, SequenceOf(ticket2))
  {
    if OperationId(now1, SequenceOf(ticket1)) == OperationId(now2, SequenceOf(ticket2)) {
      OperationIdInjective(now1, SequenceOf(ticket1), now2, SequenceOf(ticket2));
    }
  }

  /** `validate_identifier`. */
  predicate ValidIdentifier(value: string, maximum: nat) {
    && value != ""
    && ByteLength(value) <= maximum
    && Trim(value) == value
    && NoControl(value)
  }

  /** A valid identifier, in full: some text of at most so many bytes, with no white space at either end and no
      control character anywhere. */
  lemma ValidIdentifierExact(value: string, maximum: nat)
    ensures ValidIdentifier(value, maximum)
       <==> && value != "" && ByteLength(value) <= maximum
            && !IsWhitespace(value[0]) && !IsWhitespace(value[|value| - 1])
            && forall c :: c in value ==> !IsControl(c)
  {
    TrimFixed(value);
  }

  /** Letters, digits and hyphens: neither white space nor control, and inert inside a URL path segment. */
  predicate IsIdChar(c: char) {
    'a' <= c <= 'z' || IsDigit(c) || c == '-'
  }

  /** Every identifier made from two 64-bit numbers is pure ASCII, at most 45 bytes, and accepted by the
      check that the status route applies to identifiers. */
  lemma MintedIdIsValid(now: nat, sequence: nat)
    requires now < U64 && sequence < U64
    ensures forall c :: c in OperationId(now, sequence) ==> IsIdChar(c)
    ensures 7 <= |OperationId(now, sequence)| == ByteLength(OperationId(now, sequence)) <= 45
    ensures ValidIdentifier(OperationId(now, sequence), 128)
  {
    var id := OperationId(now, sequence);
    MintedIdShape(now, sequence);
    assert forall c :: c in id ==> c as int < 0x80 && !IsWhitespace(c) && !IsControl(c) by {
      forall c | c in id ensures c as int < 0x80 && !IsWhitespace(c) && !IsControl(c) { assert IsIdChar(c); }
    }
    AsciiByteLength(id);
    TrimNoWhitespace(id);
  }

  lemma MintedIdShape(now: nat, sequence: nat)
    requires now < U64 && sequence < U64
    ensures forall c :: c in OperationId(now, sequence) ==> IsIdChar(c)
    ensures 7 <= |OperationId(now, sequence)| <= 45
  {
    assert U64 < Power10(20) by {
      assert Power10(5) == 100_000;
      Power10Sum(5, 5);
      Power10Sum(10, 10);
    }
    DecimalLength(now, 20);
    DecimalLength(sequence, 20);
    DecimalRoundTrip(now);
    DecimalRoundTrip(sequence);
    forall c | c in OperationId(now, sequence) ensures IsIdChar(c) {
      assert c in "web-" || c in Decimal(now) || c in "-" || c in Decimal(sequence);
    }
  }

  lemma {:induction false} Power10Sum(j: nat, k: nat)
    ensures Power10(j + k) == Power10(j) * Power10(k)
  {
    if j > 0 { Power10Sum(j - 1, k); }
  }
}
