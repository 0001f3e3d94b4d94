/** Request ids: the generator, their decimal text, and which ids share a slot. */
module RequestIds {
  import opened TransactionTable

  // ----- Text -----

  function Digit(d: nat): char
    requires d < 10
  {
    '0' + d as char
  }

  predicate IsDigit(c: char) {
    '0' <= c <= '9'
  }

  /** `snprintf` with `%u`. */
  function Decimal(n: nat): (s: string)
    ensures |s| > 0 && forall i :: 0 <= i < |s| ==> IsDigit(s[i])
  {
    if n < 10 then [Digit(n)] else Decimal(n / 10) + [Digit(n % 10)]
  }

  /** `atoi` on text without sign or leading blanks: the value of the leading digits. */
  function Atoi(s: string): nat {
    AtoiFrom(s, 0)
  }

  function AtoiFrom(s: string, acc: nat): nat {
    if s == [] || !IsDigit(s[0]) then acc
    else AtoiFrom(s[1..], 10 * acc + (s[0] - '0') as nat)
  }

  lemma {:induction false} AtoiAppend(s: string, d: nat, acc: nat)
    requires d < 10 && forall i :: 0 <= i < |s| ==> IsDigit(s[i])
    ensures AtoiFrom(s + [Digit(d)], acc) == 10 * AtoiFrom(s, acc) + d
  {
    if s == [] {
      assert ([] + [Digit(d)])[1..] == [];
    } else {
      assert (s + [Digit(d)])[1..] == s[1..] + [Digit(d)];
      AtoiAppend(s[1..], d, 10 * acc + (s[0] - '0') as nat);
    }
  }

  /** The text of an id reads back as that id. */
  lemma {:induction false} AtoiDecimal(n: nat)
    ensures Atoi(Decimal(n)) == n
  {
    if n < 10 {
      AtoiAppend([], n, 0);
      assert Decimal(n) == [] + [Digit(n)];
    } else {
      AtoiDecimal(n / 10);
      AtoiAppend(Decimal(n / 10), n % 10, 0);
    }
  }

  lemma DecimalInjective(a: nat, b: nat)
    ensures Decimal(a) == Decimal(b) <==> a == b
  {
    AtoiDecimal(a);
    AtoiDecimal(b);
  }

  /** The text of a 32-bit id fits the 12-byte buffer of a request id, and so is
      never cut by the 37-byte key of a receipt. */
  lemma DecimalFits(n: nat)
    requires n < ID_SPACE
    ensures |Decimal(n)| <= 10
  {
    DecimalLength(n, 10);
  }

  function Pow10(k: nat): nat {
    if k == 0 then 1 else 10 * Pow10(k - 1)
  }

  lemma {:induction false} DecimalLength(n: nat, k: nat)
    requires 0 < k && n < Pow10(k)
    ensures |Decimal(n)| <= k
  {
    if n >= 10 {
      DecimalLength(n / 10, k - 1);
    }
  }

  // ----- Generation -----

  const ID_SPACE: nat := 0x1_0000_0000

  /** `id_generate`: the counter is an unsigned 32-bit integer. */
  function NextId(id: nat): nat {
    (id + 1) % ID_SPACE
  }

  /** The id generated j steps after id n. */
  function NthId(n: nat, j: nat): nat {
    (n + j) % ID_SPACE
  }

  lemma NthIdIsIterated(n: nat, j: nat)
    requires n < ID_SPACE
    ensures NthId(n, 0) == n && NthId(n, j + 1) == NextId(NthId(n, j))
  {
  }

  predicate DistinctSlots(n: nat, w: nat) {
    forall i, j :: 0 <= i < j < w ==> Key(NthId(n, i)) != Key(NthId(n, j))
  }

  /** w consecutively generated ids fall into distinct slots exactly when there are
      at most five of them and the counter does not wrap among them: across the wrap
      the guarantee is lost, since 2^32 leaves remainder 1 modulo 5. */
  lemma ConsecutiveIdsDistinctIff(n: nat, w: nat)
    requires n < ID_SPACE && w > 1
    ensures DistinctSlots(n, w) <==> w <= MAX_TABLE_SIZE && n + w <= ID_SPACE
  {
    if n + w > ID_SPACE {
      var i := ID_SPACE - 1 - n;
      assert NthId(n, i) == ID_SPACE - 1 && NthId(n, i + 1) == 0;
      assert Key(NthId(n, i)) == Key(NthId(n, i + 1));
    } else if w > MAX_TABLE_SIZE {
      assert NthId(n, 0) == n && NthId(n, 5) == n + 5;
      assert Key(NthId(n, 0)) == Key(NthId(n, 5));
    } else {
      assert forall i :: 0 <= i < w ==> NthId(n, i) == n + i;
    }
  }
}
