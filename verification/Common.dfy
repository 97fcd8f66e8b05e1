/** Values shared by every part of the model. */
module Common {

  datatype Option<+T> = None | Some(value: T)

  newtype byte = x: int | 0 <= x < 256

  type Bytes = seq<byte>

  const U128_LIMIT: nat := 0x1_0000_0000_0000_0000_0000_0000_0000_0000

  /** An identifier of 128 bits, read as a big-endian number. */
  type Uuid = n: nat | n < U128_LIMIT

  /** An exact routing key; both parts are the bytes of validated text. */
  datatype Destination = Destination(namespace: Bytes, name: Bytes)

  const U64_LIMIT: nat := 0x1_0000_0000_0000_0000

  type U64 = n: nat | n < U64_LIMIT

  /** A moment of the monotonic clock, in nanoseconds. */
  type Instant = nat

  predicate IsLeast(m: nat, s: set<nat>) {
    m in s && forall x :: x in s ==> m <= x
  }

  lemma {:induction false} LeastExists(s: set<nat>) returns (m: nat)
    requires s != {}
    ensures IsLeast(m, s)
    decreases |s|
  {
    var y :| y in s;
    var rest := s - {y};
    if rest == {} {
      assert s == {y};
      m := y;
    } else {
      m := LeastExists(rest);
      if y < m { m := y; }
      assert s == rest + {y};
    }
  }

  /** First element of an ordered set. */
  function Least(s: set<nat>): (m: nat)
    requires s != {}
    ensures IsLeast(m, s)
  {
    assert exists m :: IsLeast(m, s) by { var m := LeastExists(s); }
    var m :| IsLeast(m, s);
    m
  }
}
