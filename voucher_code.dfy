/** `generateVoucherCode` (script.js:396-403): eight characters, each picked
    from the 36-character alphabet by `Math.floor(Math.random() * chars.length)`.
    The values `Math.random()` returns are an input, `draws`. */
module VoucherCode {

  const Alphabet: string := "ABCDEFGHIJKLMNOPQRSTUVWXYZ0123456789"
  const CodeLength: nat := 8

  /** What `Math.random()` can return: a number in [0, 1). */
  predicate IsDraw(r: real) {
    0.0 <= r < 1.0
  }

  predicate ValidDraws(draws: seq<real>) {
    |draws| == CodeLength && forall k :: 0 <= k < |draws| ==> IsDraw(draws[k])
  }

  predicate InAlphabet(s: string) {
    forall k :: 0 <= k < |s| ==> s[k] in Alphabet
  }

  /** `Math.floor(r * chars.length)` for one draw. */
  function DrawIndex(r: real): (i: nat)
    requires IsDraw(r)
    ensures i < |Alphabet|
    ensures i as real <= r * 36.0 < i as real + 1.0
  {
    (r * 36.0).Floor
  }

  /** The code a given sequence of draws produces. */
  function CodeFrom(draws: seq<real>): (code: string)
    requires ValidDraws(draws)
    ensures |code| == CodeLength && InAlphabet(code)
  {
    seq(CodeLength, k requires 0 <= k < CodeLength => Alphabet[DrawIndex(draws[k])])
  }

  /** The loop of `generateVoucherCode`, appending one character per draw. */
  method GenerateVoucherCode(draws: seq<real>) returns (code: string)
    requires ValidDraws(draws)
    ensures |code| == CodeLength && InAlphabet(code)
    ensures code == CodeFrom(draws)
  {
    code := "";
    for i := 0 to CodeLength
      invariant |code| == i
      invariant forall k :: 0 <= k < i ==> code[k] == Alphabet[DrawIndex(draws[k])]
    {
      code := code + [Alphabet[DrawIndex(draws[i])]];
    }
  }

  /** The position of an alphabet character. */
  function IndexIn(c: char, s: string): (i: nat)
    requires c in s
    ensures i < |s| && s[i] == c
  {
    if s[0] == c then 0 else 1 + IndexIn(c, s[1..])
  }

  /** Every draw lands on the character whose slot of width 1/36 it falls in. */
  lemma DrawOfSlot(i: nat)
    requires i < 36
    ensures IsDraw(i as real / 36.0) && DrawIndex(i as real / 36.0) == i
  {
    assert (i as real / 36.0) * 36.0 == i as real;
  }

  /** For each character of a code over a 36-character alphabet, the draw that picks it. */
  lemma {:induction false} DrawsFor(code: string, alphabet: string) returns (draws: seq<real>)
    requires |alphabet| == 36 && |code| == CodeLength
    requires forall k :: 0 <= k < |code| ==> code[k] in alphabet
    ensures ValidDraws(draws)
    ensures forall k :: 0 <= k < CodeLength ==> alphabet[DrawIndex(draws[k])] == code[k]
  {
    draws := [];
    for i := 0 to CodeLength
      invariant |draws| == i
      invariant forall k :: 0 <= k < i ==> IsDraw(draws[k]) && alphabet[DrawIndex(draws[k])] == code[k]
    {
      var slot := IndexIn(code[i], alphabet);
      DrawOfSlot(slot);
      draws := draws + [slot as real / 36.0];
    }
  }

  /** Every eight-character string over the alphabet is a possible code:
      the alphabet is the whole range of the generator, not only a bound on it. */
  lemma {:induction false} EveryCodeIsReachable(code: string)
    requires |code| == CodeLength && InAlphabet(code)
    ensures exists draws :: ValidDraws(draws) && CodeFrom(draws) == code
  {
    var draws := DrawsFor(code, Alphabet);
    var made := CodeFrom(draws);
    assert forall k :: 0 <= k < CodeLength ==> made[k] == code[k];
    assert made == code;
  }
}
