/** encoding/binary's BigEndian for 32-bit values. */
module BigEndian {
  import opened Common
  import opened Protocol

  function Put32(v: nat): (b: seq<Byte>)
    ensures |b| == 4
  {
    var q1 := v / 256;
    var q2 := q1 / 256;
    var q3 := q2 / 256;
    [q3 % 256, q2 % 256, q1 % 256, v % 256]
  }

  function Get32(b: seq<Byte>): (v: nat)
    requires |b| == 4
    ensures v < UINT32
  {
    var b0: nat, b1: nat, b2: nat, b3: nat := b[0], b[1], b[2], b[3];
    ((b0 * 256 + b1) * 256 + b2) * 256 + b3
  }

  lemma GetPut(v: nat)
    requires v < UINT32
    ensures Get32(Put32(v)) == v
  {
    var q1 := v / 256;
    var q2 := q1 / 256;
    var q3 := q2 / 256;
    assert q3 < 256;
    assert q2 == q3 * 256 + q2 % 256;
    assert q1 == q2 * 256 + q1 % 256;
  }

  lemma PutGet(b: seq<Byte>)
    requires |b| == 4
    ensures Put32(Get32(b)) == b
  {
    var v := Get32(b);
    var b0: nat, b1: nat, b2: nat, b3: nat := b[0], b[1], b[2], b[3];
    assert v % 256 == b3 && v / 256 == (b0 * 256 + b1) * 256 + b2;
    var q1 := v / 256;
    assert q1 % 256 == b2 && q1 / 256 == b0 * 256 + b1;
    var q2 := q1 / 256;
    assert q2 % 256 == b1 && q2 / 256 == b0;
  }
}
