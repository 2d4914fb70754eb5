/**
 * Registration of log-reference blocks, from `log_ref_block_add` in
 * lib/ferr.c.
 *
 * Blocks are appended at the tail of a singly linked list through a
 * pointer to the last `next` field. For every non-null reference in a
 * block, a 32-bit id is hashed from its format string and file name
 * (`jhash`, a foreign function, arrives as a parameter) and written as a
 * seven-character prefix in a 32-symbol alphabet: six digits of five bits
 * each for the low 30 bits, most significant first, after a lead symbol
 * from the upper half of the alphabet that carries the top two bits and
 * the population count modulo 4.
 *
 * The id arithmetic is written on `nat`: `id & 0x1f` is `id % 32`,
 * `id >>= 5` is `id / 32`, and the lead index
 * `(id & 0x3) | 0x10 | ((popcount << 2) & 0x0c)` combines three disjoint
 * bit fields, so it is their sum.
 */
module LogRefs {
  import opened Optional

  const U32Range: nat := 0x1_0000_0000
  /** The seed of the inner `jhash` call. */
  const HashSeed: nat := 0xd4ed0298
  /** `_lrid`, the prefix alphabet. */
  const Lrid: string := "0123456789ABCDEFGHJKMNPQRSTVWXYZ"

  /** `__builtin_popcount`. */
  function Popcount(x: nat): nat
  {
    if x == 0 then 0 else x % 2 + Popcount(x / 2)
  }

  /** `id` after `k` shifts right by five bits. */
  function Shift(id: nat, k: nat): nat
  {
    if k == 0 then id else Shift(id, k - 1) / 32
  }

  /** The five-bit group `k` of `id`, counted from the least significant. */
  function Digit(id: nat, k: nat): nat
  {
    Shift(id, k) % 32
  }

  function Pow32(k: nat): (r: nat)
    ensures r > 0
  {
    if k == 0 then 1 else 32 * Pow32(k - 1)
  }

  lemma DivDiv32(x: nat, b: nat)
    requires b > 0
    ensures x / b / 32 == x / (b * 32)
  {
    var q := x / b;
    var r := x % b;
    var q2 := q / 32;
    var r2 := q % 32;
    assert x == (b * 32) * q2 + (b * r2 + r) by {
      assert x == b * q + r;
      assert q == 32 * q2 + r2;
      assert b * q == b * (32 * q2) + b * r2;
    }
    MulStep(b, r2, 32);
    var rest: nat := b * r2 + r;
    DivUnique(x, b * 32, q2, rest);
  }

  lemma DivUnique(x: nat, d: nat, q: nat, r: nat)
    requires d > 0 && r < d && x == d * q + r
    ensures x / d == q
  {
    var q0 := x / d;
    assert d * q0 + x % d == d * q + r;
    if q0 < q {
      MulStep(d, q0, q);
    } else if q0 > q {
      MulStep(d, q, q0);
    }
  }

  lemma {:induction false} MulStep(d: nat, a: nat, b: nat)
    requires a < b
    ensures d * a + d <= d * b
    decreases b - a
  {
    if b > a + 1 {
      MulStep(d, a, b - 1);
      assert d * (b - 1) + d == d * b;
    } else {
      assert d * (a + 1) == d * a + d;
    }
  }

  /** `k` shifts by five bits divide by 32 to the `k`. */
  lemma {:induction false} ShiftIsDiv(id: nat, k: nat)
    ensures Shift(id, k) == id / Pow32(k)
  {
    if k > 0 {
      ShiftIsDiv(id, k - 1);
      DivDiv32(id, Pow32(k - 1));
      assert Pow32(k - 1) * 32 == Pow32(k);
    }
  }

  /** After six shifts only the top two bits of a 32-bit id remain. */
  lemma TopBits(id: nat)
    requires id < U32Range
    ensures Shift(id, 6) < 4
  {
    assert Shift(id, 1) < 0x800_0000;
    assert Shift(id, 2) < 0x40_0000;
    assert Shift(id, 3) < 0x2_0000;
    assert Shift(id, 4) < 0x1000;
    assert Shift(id, 5) < 0x80;
  }

  /** The alphabet index of the lead symbol. */
  function LeadIndex(id: nat): (r: nat)
    requires id < U32Range
    ensures 16 <= r < 32
    ensures r % 4 == Shift(id, 6) && (r - 16) / 4 == Popcount(id) % 4
  {
    TopBits(id);
    Shift(id, 6) + 0x10 + (Popcount(id) % 4) * 4
  }

  /**
   * The eight bytes written at the start of `prefix` over a 32-symbol
   * alphabet: lead symbol, six digits, NUL. The registry uses it with
   * `Lrid`; the lemmas below hold for any strictly increasing alphabet.
   */
  function Prefix(a: string, id: nat): (p: seq<char>)
    requires |a| == 32 && id < U32Range
    ensures |p| == 8 && p[7] == '\0'
  {
    [a[LeadIndex(id)], a[Digit(id, 5)], a[Digit(id, 4)], a[Digit(id, 3)],
     a[Digit(id, 2)], a[Digit(id, 1)], a[Digit(id, 0)], '\0']
  }

  // ---- decoding ----

  /** The first position of `c` in `s`, `|s|` when absent. */
  function IndexIn(s: string, c: char): (r: nat)
    ensures r <= |s|
    ensures r < |s| ==> s[r] == c
  {
    if s == [] then 0 else if s[0] == c then 0 else 1 + IndexIn(s[1..], c)
  }

  predicate StepUp(s: string)
  {
    forall i :: 0 <= i < |s| - 1 ==> s[i] < s[i + 1]
  }

  /** 32 symbols in strictly increasing order, so no symbol repeats. */
  predicate Alphabet(a: string)
  {
    |a| == 32 && StepUp(a)
  }

  lemma LridAlphabet()
    ensures Alphabet(Lrid)
  {
  }

  lemma {:induction false} StepUpLess(s: string, i: nat, j: nat)
    requires StepUp(s) && i < j < |s|
    ensures s[i] < s[j]
  {
    if j > i + 1 {
      StepUpLess(s, i, j - 1);
    }
  }

  /** In a strictly increasing string every symbol is found at its own position. */
  lemma {:induction false} IndexInStepUp(s: string, i: nat)
    requires StepUp(s) && i < |s|
    ensures IndexIn(s, s[i]) == i
  {
    if i > 0 {
      StepUpLess(s, 0, i);
      assert s[1..][i - 1] == s[i];
      IndexInStepUp(s[1..], i - 1);
    }
  }

  /** Reassembles a number from its leading part and five-bit digits, most significant first. */
  function Join(acc: nat, ds: seq<nat>): nat
    decreases |ds|
  {
    if ds == [] then acc else Join(acc * 32 + ds[0], ds[1..])
  }

  /** Digits `k - 1` down to 0 of `id`. */
  function DigitsBelow(id: nat, k: nat): seq<nat>
  {
    if k == 0 then [] else [Digit(id, k - 1)] + DigitsBelow(id, k - 1)
  }

  lemma {:induction false} JoinDigits(id: nat, k: nat)
    ensures Join(Shift(id, k), DigitsBelow(id, k)) == id
  {
    if k > 0 {
      var ds := DigitsBelow(id, k);
      assert ds[0] == Digit(id, k - 1) && ds[1..] == DigitsBelow(id, k - 1);
      assert Shift(id, k) * 32 + Digit(id, k - 1) == Shift(id, k - 1);
      JoinDigits(id, k - 1);
    }
  }

  predicate AllDigits(ds: seq<nat>)
  {
    forall k :: 0 <= k < |ds| ==> ds[k] < 32
  }

  /** The alphabet positions of a run of symbols. */
  function Indices(a: string, s: string): (r: seq<nat>)
    ensures |r| == |s|
  {
    if s == [] then [] else [IndexIn(a, s[0])] + Indices(a, s[1..])
  }

  /** The id a lead index and six digits spell, if the lead is valid and agrees with the id's population count. */
  function Spelled(lead: nat, ds: seq<nat>): Option<nat>
  {
    if lead < 16 || lead >= 32 || !AllDigits(ds) then None
    else
      var id := Join(lead % 4, ds);
      if (lead - 16) / 4 == Popcount(id) % 4 then Some(id) else None
  }

  /**
   * Reads a prefix back: None unless it is eight bytes ending in NUL, every
   * symbol is in the alphabet, the lead symbol is in the upper half and its
   * population-count field agrees with the id it spells.
   */
  function Decode(a: string, p: seq<char>): Option<nat>
  {
    if |p| != 8 || p[7] != '\0' then None
    else Spelled(IndexIn(a, p[0]), Indices(a, p[1..7]))
  }

  lemma {:induction false} IndicesOfDigits(a: string, id: nat, k: nat, s: string)
    requires Alphabet(a) && |s| == k
    requires forall i :: 0 <= i < k ==> s[i] == a[Digit(id, k - 1 - i)]
    ensures Indices(a, s) == DigitsBelow(id, k)
  {
    if k > 0 {
      IndexInStepUp(a, Digit(id, k - 1));
      IndicesOfDigits(a, id, k - 1, s[1..]);
    }
  }

  lemma DigitsSix(id: nat)
    ensures AllDigits(DigitsBelow(id, 6))
  {
    assert DigitsBelow(id, 1) == [Digit(id, 0)];
    assert DigitsBelow(id, 2) == [Digit(id, 1), Digit(id, 0)];
    assert DigitsBelow(id, 3) == [Digit(id, 2), Digit(id, 1), Digit(id, 0)];
    assert DigitsBelow(id, 4) == [Digit(id, 3), Digit(id, 2), Digit(id, 1), Digit(id, 0)];
    assert DigitsBelow(id, 5) == [Digit(id, 4), Digit(id, 3), Digit(id, 2), Digit(id, 1), Digit(id, 0)];
    assert DigitsBelow(id, 6) == [Digit(id, 5), Digit(id, 4), Digit(id, 3), Digit(id, 2), Digit(id, 1), Digit(id, 0)];
  }

  /** Every written prefix decodes to the id it was written for. */
  lemma DecodePrefix(a: string, id: nat)
    requires Alphabet(a) && id < U32Range
    ensures Decode(a, Prefix(a, id)) == Some(id)
  {
    var p := Prefix(a, id);
    IndexInStepUp(a, LeadIndex(id));
    IndicesOfDigits(a, id, 6, p[1..7]);
    JoinDigits(id, 6);
    DigitsSix(id);
  }

  /** So the prefix determines the id: two ids with the same prefix are equal. */
  lemma PrefixInjective(a: string, x: nat, y: nat)
    requires Alphabet(a) && x < U32Range && y < U32Range
    requires Prefix(a, x) == Prefix(a, y)
    ensures x == y
  {
    DecodePrefix(a, x);
    DecodePrefix(a, y);
  }

  /** The lead symbol always comes from the upper half of the alphabet, the digits from the alphabet. */
  lemma PrefixSymbols(a: string, id: nat)
    requires |a| == 32 && id < U32Range
    ensures Prefix(a, id)[0] in a[16..]
    ensures forall i :: 1 <= i < 7 ==> Prefix(a, id)[i] in a
  {
    assert a[16..][LeadIndex(id) - 16] == Prefix(a, id)[0];
  }

  /**
   * Prefix positions 1 to 6 spell bits 29 to 0 of the id in five-bit
   * groups, most significant first; position 0 is drawn from index
   * 16 + 4 * (popcount mod 4) + (the id's top two bits).
   */
  lemma PrefixFields(a: string, id: nat)
    requires |a| == 32 && id < U32Range
    ensures forall i :: 1 <= i < 7 ==> Prefix(a, id)[i] == a[id / Pow32(6 - i) % 32]
    ensures Prefix(a, id)[0] == a[16 + 4 * (Popcount(id) % 4) + id / 0x4000_0000]
  {
    assert Pow32(6) == 0x4000_0000;
    ShiftIsDiv(id, 0);
    ShiftIsDiv(id, 1);
    ShiftIsDiv(id, 2);
    ShiftIsDiv(id, 3);
    ShiftIsDiv(id, 4);
    ShiftIsDiv(id, 5);
    ShiftIsDiv(id, 6);
  }

  /** The lead index as `log_ref_block_add` computes it from the id shifted 30 bits right. */
  lemma LeadOf(id: nat, v: nat)
    requires id < U32Range && v == Shift(id, 6)
    ensures (v % 4) + 0x10 + (Popcount(id) % 4) * 4 == LeadIndex(id)
  {
    TopBits(id);
  }

  lemma PrefixWrites(id: nat, s0: seq<char>, s: seq<char>)
    requires id < U32Range && |s0| >= 8 && |s| == |s0|
    requires s[0] == Lrid[LeadIndex(id)] && s[7] == '\0'
    requires s[1] == Lrid[Digit(id, 5)] && s[2] == Lrid[Digit(id, 4)] && s[3] == Lrid[Digit(id, 3)]
    requires s[4] == Lrid[Digit(id, 2)] && s[5] == Lrid[Digit(id, 1)] && s[6] == Lrid[Digit(id, 0)]
    requires forall j :: 8 <= j < |s| ==> s[j] == s0[j]
    ensures s[..8] == Prefix(Lrid, id) && s[8..] == s0[8..]
  {
    assert forall j :: 0 <= j < 8 ==> s[..8][j] == Prefix(Lrid, id)[j];
  }

  // ---- the registry ----

  /** A `struct log_ref`: the strings its id is hashed from, the id, and the prefix buffer. */
  class LogRef {
    const fmtstring: string
    const file: string
    var uniqueId: nat
    const prefix: array<char>

    constructor(fmtstring: string, file: string, prefixSize: nat)
      ensures this.fmtstring == fmtstring && this.file == file && uniqueId == 0
      ensures fresh(prefix) && prefix.Length == prefixSize
    {
      this.fmtstring := fmtstring;
      this.file := file;
      uniqueId := 0;
      prefix := new char[prefixSize](_ => '\0');
    }
  }

  /** The id `log_ref_block_add` assigns: the format string hashed with the hash of the file name as seed. */
  function RefId(lr: LogRef, jhash: (string, nat) -> nat): (id: nat)
    ensures id < U32Range
  {
    jhash(lr.fmtstring, jhash(lr.file, HashSeed) % U32Range) % U32Range
  }

  /** A reference carries the id of its strings and the prefix of that id. */
  ghost predicate Encoded(lr: LogRef, jhash: (string, nat) -> nat)
    reads lr, lr.prefix
  {
    lr.prefix.Length >= 8 && lr.uniqueId == RefId(lr, jhash) && lr.prefix[..8] == Prefix(Lrid, lr.uniqueId)
  }

  /** A `struct log_ref_block`: the references between `start` and `stop`, and the list link. */
  class LogRefBlock {
    var next: LogRefBlock?
    const entries: seq<LogRef?>

    constructor(entries: seq<LogRef?>)
      ensures this.entries == entries && next == null
    {
      this.entries := entries;
      next := null;
    }
  }

  /** Every reference has a prefix buffer of at least eight bytes, and distinct references have distinct buffers. */
  ghost predicate Separate(entries: seq<LogRef?>)
  {
    (forall j :: 0 <= j < |entries| && entries[j] != null ==> entries[j].prefix.Length >= 8) &&
    (forall j, k :: 0 <= j < |entries| && 0 <= k < |entries| && entries[j] != null && entries[k] != null && entries[j] != entries[k] ==>
       entries[j].prefix != entries[k].prefix)
  }

  function Refs(entries: seq<LogRef?>): set<LogRef>
  {
    set lr: LogRef | lr in entries
  }

  function Buffers(entries: seq<LogRef?>): set<array<char>>
  {
    set lr: LogRef | lr in entries :: lr.prefix
  }

  /**
   * `log_ref_blocks` with its tail pointer `log_ref_block_last`: `last` is
   * the block whose `next` field the tail pointer addresses, null while it
   * addresses the list head.
   */
  class Registry {
    var blocks: LogRefBlock?
    var last: LogRefBlock?
    ghost var list: seq<LogRefBlock>

    ghost predicate Valid()
      reads this, list
    {
      (list == [] ==> blocks == null && last == null) &&
      (list != [] ==> blocks == list[0] && last == list[|list| - 1]) &&
      (forall i :: 0 <= i < |list| - 1 ==> list[i].next == list[i + 1]) &&
      (forall i, j :: 0 <= i < j < |list| ==> list[i] != list[j])
    }

    constructor()
      ensures Valid() && list == []
    {
      blocks := null;
      last := null;
      list := [];
    }

    /**
     * One `*--p = _lrid[id & 0x1f]; id >>= 5;` step; `v` is what is left of
     * `id` after `d` such steps.
     */
    static method PutDigit(p: array<char>, k: nat, v: nat, ghost id: nat, ghost d: nat) returns (v': nat)
      requires k < p.Length && v == Shift(id, d)
      modifies p
      ensures p[k] == Lrid[v % 32] && p[k] == Lrid[Digit(id, d)]
      ensures forall j :: 0 <= j < p.Length && j != k ==> p[j] == old(p[j])
      ensures v' == v / 32 && v' == Shift(id, d + 1)
    {
      p[k] := Lrid[v % 32];
      v' := v / 32;
    }

    /** The prefix writes of `log_ref_block_add`, from index 7 down to 0. */
    static method WritePrefix(p: array<char>, id: nat)
      requires p.Length >= 8 && id < U32Range
      modifies p
      ensures p[..8] == Prefix(Lrid, id)
      ensures p[8..] == old(p[8..])
    {
      var v := id;
      p[7] := '\0';
      v := PutDigit(p, 6, v, id, 0);
      v := PutDigit(p, 5, v, id, 1);
      v := PutDigit(p, 4, v, id, 2);
      v := PutDigit(p, 3, v, id, 3);
      v := PutDigit(p, 2, v, id, 4);
      v := PutDigit(p, 1, v, id, 5);
      LeadOf(id, v);
      p[0] := Lrid[(v % 4) + 0x10 + (Popcount(id) % 4) * 4];
      PrefixWrites(id, old(p[..]), p[..]);
    }

    /** The list half of `log_ref_block_add`: the block is linked in at the tail. */
    method Link(block: LogRefBlock)
      requires Valid() && block !in list
      modifies this, list
      ensures Valid() && list == old(list) + [block]
      ensures block.next == old(block.next)
    {
      if last == null {
        blocks := block;
      } else {
        last.next := block;
      }
      last := block;
      list := list + [block];
    }

    /** The body of the loop of `log_ref_block_add` for one non-null reference. */
    static method AssignId(lr: LogRef, jhash: (string, nat) -> nat)
      requires lr.prefix.Length >= 8
      modifies lr, lr.prefix
      ensures Encoded(lr, jhash)
      ensures lr.prefix[8..] == old(lr.prefix[8..])
      ensures forall k :: 8 <= k < lr.prefix.Length ==> lr.prefix[k] == old(lr.prefix[k])
    {
      var id := jhash(lr.fmtstring, jhash(lr.file, HashSeed) % U32Range) % U32Range;
      lr.uniqueId := id;
      WritePrefix(lr.prefix, id);
    }

    /** One turn of the loop of `log_ref_block_add`: entry `i` gets its id and prefix unless it is null. */
    static method AssignAt(entries: seq<LogRef?>, i: nat, jhash: (string, nat) -> nat)
      requires Separate(entries) && i < |entries|
      requires forall j :: 0 <= j < i && entries[j] != null ==> Encoded(entries[j], jhash)
      modifies Refs(entries), Buffers(entries)
      ensures forall j :: 0 <= j <= i && entries[j] != null ==> Encoded(entries[j], jhash)
      ensures forall j, k :: 0 <= j < |entries| && entries[j] != null && 8 <= k < entries[j].prefix.Length ==>
                entries[j].prefix[k] == old(entries[j].prefix[k])
    {
      var lr := entries[i];
      if lr != null {
        AssignId(lr, jhash);
      }
    }

    /** The loop of `log_ref_block_add` over the references of a block; null entries are skipped. */
    static method AssignIds(entries: seq<LogRef?>, jhash: (string, nat) -> nat)
      requires Separate(entries)
      modifies Refs(entries), Buffers(entries)
      ensures forall j :: 0 <= j < |entries| && entries[j] != null ==> Encoded(entries[j], jhash)
      ensures forall j :: 0 <= j < |entries| && entries[j] != null ==> entries[j].prefix[8..] == old(entries[j].prefix[8..])
    {
      for i := 0 to |entries|
        invariant forall j :: 0 <= j < i && entries[j] != null ==> Encoded(entries[j], jhash)
        invariant forall j, k :: 0 <= j < |entries| && entries[j] != null && 8 <= k < entries[j].prefix.Length ==>
                    entries[j].prefix[k] == old(entries[j].prefix[k])
      {
        AssignAt(entries, i, jhash);
      }
      forall j | 0 <= j < |entries| && entries[j] != null
        ensures entries[j].prefix[8..] == old(entries[j].prefix[8..])
      {
      }
    }

    /**
     * `log_ref_block_add`: the block becomes the new tail, and every
     * non-null reference in it gets its id and prefix. Each reference
     * embeds its own prefix buffer of at least eight bytes.
     */
    method Add(block: LogRefBlock, jhash: (string, nat) -> nat)
      requires Valid() && block !in list
      requires Separate(block.entries)
      modifies this, list, Refs(block.entries), Buffers(block.entries)
      ensures Valid() && list == old(list) + [block]
      ensures block.next == old(block.next)
      ensures forall j :: 0 <= j < |block.entries| && block.entries[j] != null ==> Encoded(block.entries[j], jhash)
      ensures forall j :: 0 <= j < |block.entries| && block.entries[j] != null ==>
                block.entries[j].prefix[8..] == old(block.entries[j].prefix[8..])
    {
      Link(block);
      AssignIds(block.entries, jhash);
    }
  }
}
