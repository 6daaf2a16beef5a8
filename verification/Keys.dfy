/** Public keys (ironwood/network/crypto.go).

    A key is a fixed-size byte array compared byte by byte.  Every other module
    works with the key's big-endian value: `Less` and
    `ValueInjective` show that nothing is lost, because the byte order is the
    order of the values and the value determines the bytes. */
module Keys {

  type Byte = b: int | 0 <= b < 256

  /** A key as the rest of the model sees it: its big-endian value.  The zero
      key, Go's zero value for a missing map entry, is 0. */
  type Key = nat

  const KEY_SIZE: nat := 32

  /** Big-endian value of a byte string. */
  function Value(k: seq<Byte>): (v: nat)
  {
    if k == [] then 0 else Value(k[..|k| - 1]) * 256 + k[|k| - 1]
  }

  /** The loop of `publicKey.less`: the first differing byte decides. */
  method Less(key: array<Byte>, compared: array<Byte>) returns (less: bool)
    requires key.Length == compared.Length
    ensures less <==> Value(key[..]) < Value(compared[..])
  {
    var idx := 0;
    while idx < key.Length
      invariant 0 <= idx <= key.Length
      invariant key[..idx] == compared[..idx]
    {
      if key[idx] < compared[idx] {
        FirstDifferenceDecides(key[..], compared[..], idx);
        return true;
      }
      if key[idx] > compared[idx] {
        FirstDifferenceDecides(compared[..], key[..], idx);
        return false;
      }
      assert key[..idx + 1] == key[..idx] + [key[idx]];
      assert compared[..idx + 1] == compared[..idx] + [compared[idx]];
      idx := idx + 1;
    }
    assert key[..] == key[..idx] == compared[..idx] == compared[..];
    return false;
  }

  lemma {:induction false} FirstDifferenceDecides(a: seq<Byte>, b: seq<Byte>, i: nat)
    requires i < |a| == |b| && a[..i] == b[..i] && a[i] < b[i]
    ensures Value(a) < Value(b)
  {
    var a', b' := a[..|a| - 1], b[..|b| - 1];
    if i == |a| - 1 {
      assert a' == a[..i] && b' == b[..i];
    } else {
      assert a'[..i] == a[..i] && b'[..i] == b[..i];
      FirstDifferenceDecides(a', b', i);
    }
  }

  /** Equal values of equally long keys come from equal bytes. */
  lemma {:induction false} ValueInjective(a: seq<Byte>, b: seq<Byte>)
    requires |a| == |b| && Value(a) == Value(b)
    ensures a == b
  {
    if a != [] {
      ValueInjective(a[..|a| - 1], b[..|b| - 1]);
      assert a == a[..|a| - 1] + [a[|a| - 1]] && b == b[..|b| - 1] + [b[|b| - 1]];
    }
  }
}
