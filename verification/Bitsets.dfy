/**
 Sets of operation ids packed into 64-bit words (src/porcupine/bitset.go), proved against
 the mathematical set that the words stand for.  A word is the vector of its bits, lowest
 first; the bitwise operations of the code act on each bit on its own.
 */
module Bitsets {

  type Word = w: seq<bool> | |w| == 64 witness seq(64, _ => false)

  predicate HasBit(words: seq<Word>, i: nat)
    requires i < 64 * |words|
  {
    words[i / 64][i % 64]
  }

  /** The set that a sequence of words stands for. */
  ghost function Bits(words: seq<Word>): (r: set<nat>)
    ensures forall i :: i in r <==> 0 <= i < 64 * |words| && HasBit(words, i)
  {
    set i | 0 <= i < 64 * |words| && HasBit(words, i)
  }

  lemma BitPosition(j: nat, k: nat)
    requires k < 64
    ensures (64 * j + k) / 64 == j && (64 * j + k) % 64 == k
  {
  }

  /** Words of the same length are equal exactly when they stand for the same set. */
  lemma BitsInjective(a: seq<Word>, b: seq<Word>)
    requires |a| == |b|
    ensures Bits(a) == Bits(b) <==> a == b
  {
    if a != b {
      var j :| 0 <= j < |a| && a[j] != b[j];
      var k :| 0 <= k < 64 && a[j][k] != b[j][k];
      var i := 64 * j + k;
      BitPosition(j, k);
      assert HasBit(a, i) != HasBit(b, i);
      assert i in Bits(a) <==> HasBit(a, i);
    }
  }

  // ----- Operations -----

  method NewBitset(bits: nat) returns (b: array<Word>)
    ensures fresh(b)
    ensures bits <= 64 * b.Length < bits + 64
    ensures Bits(b[..]) == {}
  {
    var extra := if bits % 64 != 0 then 1 else 0;
    var zero: Word := seq(64, _ => false);
    b := new Word[bits / 64 + extra](_ => zero);
  }

  method Clone(b: array<Word>) returns (c: array<Word>)
    ensures fresh(c) && c[..] == b[..]
  {
    c := new Word[b.Length](i requires 0 <= i < b.Length reads b => b[i]);
  }

  method Set(b: array<Word>, pos: nat)
    requires pos < 64 * b.Length
    modifies b
    ensures Bits(b[..]) == old(Bits(b[..])) + {pos}
  {
    var major, minor := pos / 64, pos % 64;
    b[major] := b[major][minor := true];
    assert forall i :: 0 <= i < 64 * b.Length ==> (HasBit(b[..], i) <==> HasBit(old(b[..]), i) || i == pos);
  }

  method Clear(b: array<Word>, pos: nat)
    requires pos < 64 * b.Length
    modifies b
    ensures Bits(b[..]) == old(Bits(b[..])) - {pos}
  {
    var major, minor := pos / 64, pos % 64;
    b[major] := b[major][minor := false];
    assert forall i :: 0 <= i < 64 * b.Length ==> (HasBit(b[..], i) <==> HasBit(old(b[..]), i) && i != pos);
  }

  method Equals(b: seq<Word>, c: seq<Word>) returns (r: bool)
    ensures r <==> |b| == |c| && Bits(b) == Bits(c)
  {
    if |b| != |c| {
      return false;
    }
    BitsInjective(b, c);
    for i := 0 to |b|
      invariant b[..i] == c[..i]
    {
      if b[i] != c[i] {
        return false;
      }
    }
    assert b == b[..|b|] && c == c[..|c|];
    return true;
  }

  // ----- Hashing -----

  /** The number of bits of `w` below `k`. */
  function Ones(w: Word, k: nat): nat
    requires k <= 64
  {
    if k == 0 then 0 else Ones(w, k - 1) + if w[k-1] then 1 else 0
  }

  function PopCount(words: seq<Word>): nat {
    if words == [] then 0 else PopCount(words[..|words|-1]) + Ones(words[|words|-1], 64)
  }

  function Xor(a: Word, b: Word): Word {
    seq(64, i requires 0 <= i < 64 => a[i] != b[i])
  }

  function XorAll(seed: Word, words: seq<Word>): Word {
    if words == [] then seed else Xor(XorAll(seed, words[..|words|-1]), words[|words|-1])
  }

  /** The low `k` bits of a number. */
  function LowBits(n: nat, k: nat): (w: seq<bool>)
    ensures |w| == k
  {
    if k == 0 then [] else [n % 2 == 1] + LowBits(n / 2, k - 1)
  }

  /** Depends on the words only, so equal sets of equal length have equal hashes. */
  function HashOf(words: seq<Word>): Word {
    XorAll(LowBits(PopCount(words), 64), words)
  }

  method PopCnt(b: seq<Word>) returns (total: nat)
    ensures total == |Bits(b)|
  {
    total := 0;
    for i := 0 to |b|
      invariant total == PopCount(b[..i])
    {
      assert b[..i+1][..i] == b[..i];
      total := total + Ones(b[i], 64);
    }
    assert b == b[..|b|];
    PopCountIsSize(b);
  }

  method Hash(b: seq<Word>) returns (hash: Word)
    ensures hash == HashOf(b)
  {
    var count := PopCnt(b);
    PopCountIsSize(b);
    var seed: Word := LowBits(count, 64);
    hash := seed;
    for i := 0 to |b|
      invariant hash == XorAll(seed, b[..i])
    {
      assert b[..i+1][..i] == b[..i];
      hash := Xor(hash, b[i]);
    }
    assert b == b[..|b|];
  }

  /** The ids from `base` on that the first `k` bits of a word stand for. */
  ghost function WordIds(w: Word, base: nat, k: nat): (r: set<nat>)
    requires k <= 64
    ensures forall i :: i in r <==> base <= i < base + k && w[i - base]
    ensures |r| == Ones(w, k)
  {
    if k == 0 then {}
    else if w[k-1] then WordIds(w, base, k - 1) + {base + k - 1} else WordIds(w, base, k - 1)
  }

  /** The population count is the size of the set. */
  lemma {:induction false} PopCountIsSize(words: seq<Word>)
    ensures PopCount(words) == |Bits(words)|
  {
    if words == [] {
      assert Bits(words) == {};
    } else {
      var init := words[..|words|-1];
      PopCountIsSize(init);
      var last := WordIds(words[|init|], 64 * |init|, 64);
      forall i | 64 * |init| <= i < 64 * |words|
        ensures i in last <==> HasBit(words, i)
      {
        BitPosition(|init|, i - 64 * |init|);
      }
      assert forall i :: 0 <= i < 64 * |init| ==> HasBit(words, i) == HasBit(init, i);
      assert Bits(words) == Bits(init) + last;
      assert Bits(init) !! last;
    }
  }
}
