/**
 * The opcode word split shared by every Intcode machine that knows
 * addressing modes: the low two decimal digits are the opcode, the
 * hundreds, thousands and ten-thousands digits the modes of the first,
 * second and third (destination) parameter. The split uses Rust's
 * truncating `/` and `%`, so a negative word yields a non-positive opcode.
 */
module IntcodeDecode {
  import opened RustInt

  datatype Word = Word(opcode: int, m1: int, m2: int, md: int)

  /**
   * `(word / 10000) % 10, (word / 1000) % 10, (word / 100) % 10, word % 100`
   * with Rust's truncating operators, written per sign of `word` so that no
   * field needs more than one division by a constant (`TruncatingSplit`
   * proves it equal to the operators of `RustInt`).
   */
  function Split(word: int): (w: Word)
    ensures word >= 0 ==> 0 <= w.opcode < 100 && 0 <= w.m1 < 10 && 0 <= w.m2 < 10 && 0 <= w.md < 10
    ensures word < 0 ==> -100 < w.opcode <= 0 && -10 < w.m1 <= 0 && -10 < w.m2 <= 0 && -10 < w.md <= 0
  {
    if word >= 0 then
      Word(word % 100, word / 100 % 10, word / 1000 % 10, word / 10000 % 10)
    else
      var n := -word;
      Word(-(n % 100), -(n / 100 % 10), -(n / 1000 % 10), -(n / 10000 % 10))
  }

  /** `Split` is exactly the source's expression under Rust's truncating `/` and `%`. */
  lemma TruncatingSplit(word: int)
    ensures Split(word)
      == Word(TRem(word, 100), TRem(TDiv(word, 100), 10), TRem(TDiv(word, 1000), 10), TRem(TDiv(word, 10000), 10))
  {
    if word >= 0 {
      NonNegativeAgrees(word, 100);
      NonNegativeAgrees(word, 1000);
      NonNegativeAgrees(word, 10000);
      NonNegativeAgrees(word / 100, 10);
      NonNegativeAgrees(word / 1000, 10);
      NonNegativeAgrees(word / 10000, 10);
    } else {
      var n := -word;
      NegativeAgrees(word, 100);
      NegativeAgrees(word, 1000);
      NegativeAgrees(word, 10000);
      if n / 100 > 0 { NegativeAgrees(TDiv(word, 100), 10); }
      if n / 1000 > 0 { NegativeAgrees(TDiv(word, 1000), 10); }
      if n / 10000 > 0 { NegativeAgrees(TDiv(word, 10000), 10); }
    }
  }

  /** On a non-negative word the four fields are exactly its five low decimal digits. */
  lemma SplitRecombines(word: int)
    requires word >= 0
    ensures var w := Split(word); word % 100000 == w.opcode + 100 * w.m1 + 1000 * w.m2 + 10000 * w.md
  {
    var n := word;
    var a, b, c := n / 100, n / 1000, n / 10000;
    assert a / 10 == b && b / 10 == c && c / 10 == n / 100000 by {
      DivTen(n);
    }
    assert n == 100 * a + n % 100;
    assert a == 10 * b + a % 10;
    assert b == 10 * c + b % 10;
    assert c == 10 * (n / 100000) + c % 10;
  }

  lemma DivTen(n: int)
    requires n >= 0
    ensures n / 100 / 10 == n / 1000 && n / 1000 / 10 == n / 10000 && n / 10000 / 10 == n / 100000
  {
  }

  /** The opcodes the full instruction set accepts. */
  predicate KnownOpcode(op: int)
  {
    1 <= op <= 9 || op == 99
  }

  /** A negative word never decodes to a known opcode: it is always fatal. */
  lemma NegativeWordIsUnknown(word: int)
    requires word < 0
    ensures !KnownOpcode(Split(word).opcode)
  {
  }

  /** Every known opcode with modes 0..9 is encoded by exactly one word below 100000. */
  lemma {:induction false} SplitEncode(op: nat, m1: nat, m2: nat, md: nat)
    requires op < 100 && m1 < 10 && m2 < 10 && md < 10
    ensures Split(op + 100 * m1 + 1000 * m2 + 10000 * md) == Word(op, m1, m2, md)
  {
    var w := op + 100 * m1 + 1000 * m2 + 10000 * md;
    assert w / 100 == m1 + 10 * m2 + 100 * md;
    assert w / 1000 == m2 + 10 * md;
    assert w / 10000 == md;
  }
}
