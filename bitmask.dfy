/** The selection bitmasks passed from the score page to the MIDI handler.

    A list of flags travels as one integer: a leading 1 bit followed by one
    bit per flag, the first flag being the most significant.  The leading 1
    keeps leading `false` flags from disappearing.  Python's `n & 1` is
    `n % 2` and `n >> 1` is `n / 2` for every integer, with Dafny's
    Euclidean division that also holds for negative `n`. */
module Bitmasks {

  function Bit(b: bool): nat { if b then 1 else 0 }

  function Pow2(k: nat): (p: nat)
    ensures p >= 1
  {
    if k == 0 then 1 else 2 * Pow2(k - 1)
  }

  /** Start from 1, then for each flag shift left and add the flag. */
  function Encode(flags: seq<bool>): (n: int)
    ensures Pow2(|flags|) <= n < 2 * Pow2(|flags|)
  {
    if flags == [] then 1 else 2 * Encode(flags[..|flags| - 1]) + Bit(flags[|flags| - 1])
  }

  /** Peel bits off the low end while more than the leading 1 is left, then reverse. */
  function Decode(n: int): (flags: seq<bool>)
    decreases if n > 0 then n else 0
  {
    if n <= 1 then [] else Decode(n / 2) + [n % 2 == 1]
  }

  /** Decoding inverts encoding. */
  lemma {:induction false} DecodeEncode(flags: seq<bool>)
    ensures Decode(Encode(flags)) == flags
  {
    if flags != [] {
      var init := flags[..|flags| - 1];
      var n := Encode(flags);
      DecodeEncode(init);
      assert n / 2 == Encode(init) && n % 2 == Bit(flags[|flags| - 1]);
      assert Encode(init) >= 1;
      assert flags == init + [flags[|flags| - 1]];
    }
  }

  /** Every integer of at least 1 is the encoding of its decoding. */
  lemma {:induction false} EncodeDecode(n: int)
    requires n >= 1
    ensures Encode(Decode(n)) == n
    decreases n
  {
    if n > 1 {
      EncodeDecode(n / 2);
      var f := Decode(n);
      assert f[..|f| - 1] == Decode(n / 2);
    }
  }

  /** Anything at most 1, the bare leading bit included, carries no flags. */
  lemma NothingBelowTwo(n: int)
    requires n <= 1
    ensures Decode(n) == []
  {
  }

  /** Decoding yields one flag per bit below the leading one. */
  lemma {:induction false} DecodeLength(n: int, k: nat)
    requires Pow2(k) <= n < 2 * Pow2(k)
    ensures |Decode(n)| == k
    decreases k
  {
    if k > 0 {
      assert Pow2(k - 1) <= n / 2 < 2 * Pow2(k - 1);
      DecodeLength(n / 2, k - 1);
    }
  }

  /** The three play-together options as the score page reads them. */
  datatype PlayOptions = PlayOptions(all: bool, selected: bool, unselected: bool)

  /** The play-options mask: play-all is bit 2, play-selected bit 1, play-unselected bit 0. */
  function PackPlayOptions(o: PlayOptions): (n: int)
    ensures n == 8 + 4 * Bit(o.all) + 2 * Bit(o.selected) + Bit(o.unselected)
  {
    var f := [o.all, o.selected, o.unselected];
    assert f[..2] == [o.all, o.selected] && f[..2][..1] == [o.all] && [o.all][..0] == [];
    assert Encode([o.all]) == 2 + Bit(o.all);
    assert Encode(f[..2]) == 4 + 2 * Bit(o.all) + Bit(o.selected);
    Encode(f)
  }

  /** Read bit 0 as play-unselected, shift, bit 1 as play-selected, shift, bit 2 as play-all. */
  function UnpackPlayOptions(n: int): PlayOptions {
    var unselected := n % 2 == 1;
    var n1 := n / 2;
    var selected := n1 % 2 == 1;
    var n2 := n1 / 2;
    PlayOptions(n2 % 2 == 1, selected, unselected)
  }

  /** Unpacking inverts packing. */
  lemma PlayOptionsRoundTrip(o: PlayOptions)
    ensures UnpackPlayOptions(PackPlayOptions(o)) == o
  {
    var n := PackPlayOptions(o);
    assert n / 2 == 4 + 2 * Bit(o.all) + Bit(o.selected);
    assert n / 2 / 2 == 2 + Bit(o.all);
  }

  /** The play-options mask is the flag encoding of the three choices, so the general decoder reads it back too. */
  lemma PlayOptionsAreFlags(o: PlayOptions)
    ensures Decode(PackPlayOptions(o)) == [o.all, o.selected, o.unselected]
  {
    DecodeEncode([o.all, o.selected, o.unselected]);
  }

  function Reversed<T>(s: seq<T>): (r: seq<T>)
    ensures |r| == |s|
    ensures forall i :: 0 <= i < |s| ==> r[i] == s[|s| - 1 - i]
  {
    if s == [] then [] else Reversed(s[1..]) + [s[0]]
  }
}
