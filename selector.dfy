/**
 * The selector index of the eight-channel multiplexer and its two views.
 *
 * In the source, `UnionMultiplexer8` overlays one byte (`Index`) with a
 * bit-field struct `FMultiplexerBool8` whose one-bit members `bPinC`,
 * `bPinB` and `bPinA` are declared in that order. Bit-field placement is
 * implementation-defined; this model fixes the usual least-significant-bit-
 * first layout, so `bPinC` is bit 0, `bPinB` bit 1 and `bPinA` bit 2 of the
 * byte. The union is then plain arithmetic on the index.
 */
module Selector {

  /** Number of multiplexed channels: one per value of the 3-bit selector. */
  const Channels: nat := 8

  /** Levels of the three select lines A, B and C (true drives a line on). */
  datatype Lines = Lines(a: bool, b: bool, c: bool)

  /** The value a selector byte stands for when the three lines are read back:
      A weighs 4, B weighs 2, C weighs 1. */
  function Recombine(l: Lines): (index: nat)
    ensures index < Channels
    ensures l.a <==> index >= 4
  {
    (if l.a then 4 else 0) + (if l.b then 2 else 0) + (if l.c then 1 else 0)
  }

  /** The bit-field view of an `Index` byte: the three lowest bits, with the
      bits above them ignored. */
  function Decompose(index: nat): (l: Lines)
    requires index < 256
    ensures Recombine(l) == index % Channels
  {
    Lines((index / 4) % 2 == 1, (index / 2) % 2 == 1, index % 2 == 1)
  }

  /** Every triple of select-line levels is the view of exactly the selector
      index it recombines to, so all eight triples are reached by 0..7. */
  lemma {:induction false} DecomposeRecombine(l: Lines)
    ensures Decompose(Recombine(l)) == l
  {
  }

  /** Within 0..7 the bit view loses nothing: the index is recovered from it. */
  lemma {:induction false} RecombineDecompose(index: nat)
    requires index < Channels
    ensures Recombine(Decompose(index)) == index
  {
  }

  /** Distinct indices 0..7 drive distinct select-line triples. */
  lemma {:induction false} DecomposeInjective(i: nat, j: nat)
    requires i < Channels && j < Channels
    requires Decompose(i) == Decompose(j)
    ensures i == j
  {
    RecombineDecompose(i);
    RecombineDecompose(j);
  }
}
