/** The mono sample buffer of the crate's wave module: a growable sequence of
    samples with offset mixing, scaling and element-wise products.
    Samples are modelled as exact reals. */
module Wave {

  function Max(a: int, b: int): int { if a < b then b else a }

  function Min(a: int, b: int): int { if a < b then a else b }

  function Plus(a: real, b: real): real { a + b }

  function Times(a: real, b: real): real { a * b }

  /** Sample k of s, reading as silence (0.0) outside the buffer. */
  function At(s: seq<real>, k: int): real { if 0 <= k < |s| then s[k] else 0.0 }

  /** What `Vec::resize(n, value)` leaves behind: truncated, or extended with `value`. */
  function Resized(s: seq<real>, n: nat, value: real): (r: seq<real>)
    ensures |r| == n
    ensures forall k :: 0 <= k < Min(n, |s|) ==> r[k] == s[k]
    ensures forall k :: |s| <= k < n ==> r[k] == value
  {
    if n <= |s| then s[..n] else s + seq(n - |s|, _ => value)
  }

  /** What `zip(&mut s, t)` followed by `*e1 = f(*e1, e2)` leaves in s: the
      common prefix is combined, the rest of s is untouched. */
  function ZipWith(s: seq<real>, t: seq<real>, f: (real, real) -> real): (r: seq<real>)
    ensures |r| == |s|
    ensures forall k :: 0 <= k < |s| ==> r[k] == if k < |t| then f(s[k], t[k]) else s[k]
  {
    if s == [] || t == [] then s else [f(s[0], t[0])] + ZipWith(s[1..], t[1..], f)
  }

  /** `map(|x| x * value)` over the buffer. */
  function Scaled(s: seq<real>, value: real): (r: seq<real>)
    ensures |r| == |s|
    ensures forall k :: 0 <= k < |s| ==> r[k] == s[k] * value
  {
    if s == [] then [] else [s[0] * value] + Scaled(s[1..], value)
  }

  /** The loop `for i in 0..t.len() { s[i + index] += t[i] }` on a buffer that
      is already long enough. */
  function AddAt(s: seq<real>, t: seq<real>, index: nat): (r: seq<real>)
    requires index + |t| <= |s|
    ensures |r| == |s|
    ensures forall k :: 0 <= k < |s| ==>
      r[k] == s[k] + (if index <= k < index + |t| then t[k - index] else 0.0)
    decreases |t|
  {
    if t == [] then s else AddAt(s[index := s[index] + t[0]], t[1..], index + 1)
  }

  /** The general path of `add`: grow with zeros to `index + |t|` when too
      short, then add t in at `index`. */
  function Mixed(s: seq<real>, t: seq<real>, index: nat): (r: seq<real>)
    ensures |r| == Max(|s|, index + |t|)
    ensures |r| >= |s|
    ensures forall k :: 0 <= k < |r| ==>
      r[k] == At(s, k) + (if index <= k < index + |t| then t[k - index] else 0.0)
  {
    var grown := if |s| < index + |t| then Resized(s, index + |t|, 0.0) else s;
    AddAt(grown, t, index)
  }

  /** The fast path of `add` (offset 0, equal lengths) computes what the
      general path would. */
  lemma FastPathAgrees(s: seq<real>, t: seq<real>)
    requires |s| == |t|
    ensures ZipWith(s, t, Plus) == Mixed(s, t, 0)
  {
    var z, m := ZipWith(s, t, Plus), Mixed(s, t, 0);
    assert |z| == |m|;
    forall k | 0 <= k < |z| ensures z[k] == m[k] {
      assert At(s, k) == s[k];
    }
  }

  /** Mixing two buffers into a third does not depend on which goes first. */
  lemma MixCommutes(s: seq<real>, a: seq<real>, i: nat, b: seq<real>, j: nat)
    ensures Mixed(Mixed(s, a, i), b, j) == Mixed(Mixed(s, b, j), a, i)
  {
    var sa, sb := Mixed(s, a, i), Mixed(s, b, j);
    var x, y := Mixed(sa, b, j), Mixed(sb, a, i);
    assert |x| == |y|;
    forall k | 0 <= k < |x| ensures x[k] == y[k] {
      var da := if i <= k < i + |a| then a[k - i] else 0.0;
      var db := if j <= k < j + |b| then b[k - j] else 0.0;
      assert At(sa, k) == At(s, k) + da;
      assert At(sb, k) == At(s, k) + db;
    }
  }

  /** Mixing into an empty buffer at offset 0 yields the mixed-in buffer. */
  lemma MixIntoEmpty(t: seq<real>)
    ensures Mixed([], t, 0) == t
  {
    var m := Mixed([], t, 0);
    assert |m| == |t|;
    forall k | 0 <= k < |t| ensures m[k] == t[k] { }
  }

  /** Scaling by 1.0 changes nothing. */
  lemma ScaledByOne(s: seq<real>)
    ensures Scaled(s, 1.0) == s
  {
  }

  /** The concrete single-channel buffer (`Mono`, a `Vec<f64>` of samples). */
  class Mono {
    var wave: seq<real>

    constructor New()
      ensures wave == []
    {
      wave := [];
    }

    /** The capacity is only an allocation hint; the buffer is empty. */
    constructor WithCapacity(capacity: nat)
      ensures wave == []
    {
      wave := [];
    }

    constructor Zeros(length: nat)
      ensures |wave| == length
      ensures forall k :: 0 <= k < length ==> wave[k] == 0.0
    {
      wave := seq(length, _ => 0.0);
    }

    constructor Ones(length: nat)
      ensures |wave| == length
      ensures forall k :: 0 <= k < length ==> wave[k] == 1.0
    {
      wave := seq(length, _ => 1.0);
    }

    constructor FromVec(vec: seq<real>)
      ensures wave == vec
    {
      wave := vec;
    }

    method GetVec() returns (vec: seq<real>)
      ensures vec == wave
    {
      vec := wave;
    }

    method Len() returns (n: nat)
      ensures n == |wave|
    {
      n := |wave|;
    }

    method IsEmpty() returns (empty: bool)
      ensures empty <==> |wave| == 0
    {
      empty := |wave| == 0;
    }

    method Clear()
      modifies this
      ensures wave == []
    {
      wave := [];
    }

    method Resize(newLen: nat, value: real)
      modifies this
      ensures wave == Resized(old(wave), newLen, value)
    {
      wave := Resized(wave, newLen, value);
    }

    method Scale(value: real)
      modifies this
      ensures wave == Scaled(old(wave), value)
    {
      wave := Scaled(wave, value);
    }

    /** Adds `other` in at sample offset `index`, taking it by value. */
    method AddConsuming(other: Mono, index: nat)
      requires other != this
      modifies this
      ensures wave == Mixed(old(wave), other.wave, index)
    {
      if index == 0 && |wave| == |other.wave| {
        for i := 0 to |wave|
          invariant |wave| == |other.wave| == |old(wave)|
          invariant forall k :: 0 <= k < i ==> wave[k] == old(wave)[k] + other.wave[k]
          invariant forall k :: i <= k < |wave| ==> wave[k] == old(wave)[k]
        {
          wave := wave[i := wave[i] + other.wave[i]];
        }
        assert wave == ZipWith(old(wave), other.wave, Plus);
        FastPathAgrees(old(wave), other.wave);
      } else {
        if |wave| < index + |other.wave| {
          wave := Resized(wave, index + |other.wave|, 0.0);
        }
        ghost var grown := wave;
        for i := 0 to |other.wave|
          invariant |wave| == |grown|
          invariant forall k :: 0 <= k < |wave| ==>
            wave[k] == grown[k] + (if index <= k < index + i then other.wave[k - index] else 0.0)
        {
          wave := wave[i + index := wave[i + index] + other.wave[i]];
        }
        assert wave == AddAt(grown, other.wave, index);
      }
    }

    /** Adds `other` in at sample offset `index`, borrowing it. */
    method Add(other: Mono, index: nat)
      requires other != this
      modifies this
      ensures wave == Mixed(old(wave), other.wave, index)
    {
      if index == 0 && |wave| == |other.wave| {
        for i := 0 to |wave|
          invariant |wave| == |other.wave| == |old(wave)|
          invariant forall k :: 0 <= k < i ==> wave[k] == old(wave)[k] + other.wave[k]
          invariant forall k :: i <= k < |wave| ==> wave[k] == old(wave)[k]
        {
          wave := wave[i := wave[i] + other.wave[i]];
        }
        assert wave == ZipWith(old(wave), other.wave, Plus);
        FastPathAgrees(old(wave), other.wave);
      } else {
        if |wave| < index + |other.wave| {
          Resize(index + |other.wave|, 0.0);
        }
        ghost var grown := wave;
        for i := 0 to |other.wave|
          invariant |wave| == |grown|
          invariant forall k :: 0 <= k < |wave| ==>
            wave[k] == grown[k] + (if index <= k < index + i then other.wave[k - index] else 0.0)
        {
          wave := wave[i + index := wave[i + index] + other.wave[i]];
        }
        assert wave == AddAt(grown, other.wave, index);
      }
    }

    /** Multiplies sample-wise by `vec`; the Rust code demands equal lengths
        only through a debug assertion, so past the shorter of the two the
        buffer is left as it was. */
    method ScaleByVec(vec: seq<real>)
      modifies this
      ensures wave == ZipWith(old(wave), vec, Times)
    {
      for i := 0 to Min(|wave|, |vec|)
        invariant |wave| == |old(wave)|
        invariant forall k :: 0 <= k < i ==> wave[k] == old(wave)[k] * vec[k]
        invariant forall k :: i <= k < |wave| ==> wave[k] == old(wave)[k]
      {
        wave := wave[i := wave[i] * vec[i]];
      }
    }

    method MultConsuming(other: Mono)
      requires other != this
      modifies this
      ensures wave == ZipWith(old(wave), other.wave, Times)
    {
      for i := 0 to Min(|wave|, |other.wave|)
        invariant |wave| == |old(wave)|
        invariant forall k :: 0 <= k < i ==> wave[k] == old(wave)[k] * other.wave[k]
        invariant forall k :: i <= k < |wave| ==> wave[k] == old(wave)[k]
      {
        wave := wave[i := wave[i] * other.wave[i]];
      }
    }

    method Mult(other: Mono)
      requires other != this
      modifies this
      ensures wave == ZipWith(old(wave), other.wave, Times)
    {
      for i := 0 to Min(|wave|, |other.wave|)
        invariant |wave| == |old(wave)|
        invariant forall k :: 0 <= k < i ==> wave[k] == old(wave)[k] * other.wave[k]
        invariant forall k :: i <= k < |wave| ==> wave[k] == old(wave)[k]
      {
        wave := wave[i := wave[i] * other.wave[i]];
      }
    }
  }

  /** `get_vec(from_vec(v))` gives back `v`. */
  method FromVecRoundTrip(vec: seq<real>) returns (r: seq<real>)
    ensures r == vec
  {
    var m := new Mono.FromVec(vec);
    r := m.GetVec();
  }

  /** `add` and `add_consuming` leave the same buffer for the same inputs. */
  method AddMatchesAddConsuming(s: seq<real>, t: seq<real>, index: nat)
    returns (borrowed: seq<real>, consumed: seq<real>)
    ensures borrowed == consumed
    ensures |borrowed| == Max(|s|, index + |t|)
  {
    var a := new Mono.FromVec(s);
    var b := new Mono.FromVec(s);
    var other := new Mono.FromVec(t);
    a.Add(other, index);
    b.AddConsuming(other, index);
    borrowed := a.GetVec();
    consumed := b.GetVec();
  }
}
