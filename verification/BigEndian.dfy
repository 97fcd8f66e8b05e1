/** Fixed-width big-endian numbers. */
module BigEndian {
  import opened Common

  function Pow256(width: nat): (p: nat)
    ensures p >= 1
  {
    if width == 0 then 1 else 256 * Pow256(width - 1)
  }

  /** The low `width` bytes of `n`; higher ones are cut off. */
  function Be(n: nat, width: nat): (b: Bytes)
    ensures |b| == width
    decreases width
  {
    if width == 0 then [] else Be(n / 256, width - 1) + [(n % 256) as byte]
  }

  function FromBe(b: Bytes): nat {
    if b == [] then 0 else FromBe(b[..|b| - 1]) * 256 + b[|b| - 1] as nat
  }

  lemma {:induction false} BeRoundTrip(n: nat, width: nat)
    requires n < Pow256(width)
    ensures FromBe(Be(n, width)) == n
    decreases width
  {
    if width > 0 {
      BeRoundTrip(n / 256, width - 1);
      assert Be(n, width)[..width - 1] == Be(n / 256, width - 1);
    }
  }

  lemma {:induction false} FromBeBounded(b: Bytes)
    ensures FromBe(b) < Pow256(|b|)
  {
    if b != [] { FromBeBounded(b[..|b| - 1]); }
  }

  lemma {:induction false} FromBeCanonical(b: Bytes)
    ensures Be(FromBe(b), |b|) == b
  {
    if b != [] {
      var init, last := b[..|b| - 1], b[|b| - 1] as nat;
      FromBeCanonical(init);
      assert FromBe(b) == FromBe(init) * 256 + last;
      assert FromBe(b) / 256 == FromBe(init) && FromBe(b) % 256 == last;
      assert b == init + [b[|b| - 1]];
    }
  }

  lemma Widths()
    ensures Pow256(1) == 0x100 && Pow256(2) == 0x1_0000 && Pow256(4) == 0x1_0000_0000
    ensures Pow256(8) == U64_LIMIT && Pow256(16) == U128_LIMIT
  {
    assert Pow256(3) == 0x100_0000;
    assert Pow256(6) == 0x1_0000_0000_0000;
    assert Pow256(10) == 0x1_0000_0000_0000_0000_0000;
    assert Pow256(12) == 0x1_0000_0000_0000_0000_0000_0000;
    assert Pow256(14) == 0x1_0000_0000_0000_0000_0000_0000_0000;
  }
}
