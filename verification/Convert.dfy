/** Conversion of raw pixels to 32-bit floats, also in place: source and destination may be the same
    bytes, and the loops run from back to front. */
module Convert {

  /** The signed 32-bit integers of the loop counters. */
  newtype gint = x: int | -0x8000_0000 <= x < 0x8000_0000

  datatype Depth = Depth8U | Depth12U | Depth16U | Depth16S | Depth32S | Depth32U | Depth32F | Invalid

  // Reading pixels: bytes of 16 and 32 bit values are in little-endian order, 12 bit values are packed
  // in big-endian order, two in three bytes.

  function Unsigned16(a: bv8, b: bv8): nat { a as nat + 0x100 * (b as nat) }

  function Unsigned32(a: bv8, b: bv8, c: bv8, d: bv8): nat { Unsigned16(a, b) + 0x1_0000 * Unsigned16(c, d) }

  function Signed16(a: bv8, b: bv8): int {
    if Unsigned16(a, b) < 0x8000 then Unsigned16(a, b) else Unsigned16(a, b) - 0x1_0000
  }

  function Signed32(a: bv8, b: bv8, c: bv8, d: bv8): int {
    if Unsigned32(a, b, c, d) < 0x8000_0000 then Unsigned32(a, b, c, d) else Unsigned32(a, b, c, d) - 0x1_0000_0000
  }

  /** The first and the second pixel of three bytes. */
  function High12(first: bv8, second: bv8): bv16 {
    ((first as bv16) << 4) | (((second as bv16) & 0xF0) >> 4)
  }

  function Low12(second: bv8, third: bv8): bv16 {
    (((second as bv16) & 0x0F) << 8) | (third as bv16)
  }

  /** The number of source bytes for `n` pixels. */
  function Needed(depth: Depth, n: nat): nat {
    match depth
    case Depth8U => n
    case Depth12U => (3 * n + 1) / 2
    case Depth16U => 2 * n
    case Depth16S => 2 * n
    case _ => 4 * n
  }

  predicate Converts(depth: Depth) { depth != Depth32F && depth != Invalid }

  /** The value of pixel `i`. */
  function Pixel(depth: Depth, data: seq<bv8>, i: nat): int
    requires Converts(depth) && Needed(depth, i + 1) <= |data|
  {
    match depth
    case Depth8U => data[i] as int
    case Depth12U =>
      if i % 2 == 0 then High12(data[3 * (i / 2)], data[3 * (i / 2) + 1]) as int
      else Low12(data[3 * (i / 2) + 1], data[3 * (i / 2) + 2]) as int
    case Depth16U => Unsigned16(data[2 * i], data[2 * i + 1])
    case Depth16S => Signed16(data[2 * i], data[2 * i + 1])
    case Depth32U => Unsigned32(data[4 * i], data[4 * i + 1], data[4 * i + 2], data[4 * i + 3])
    case Depth32S => Signed32(data[4 * i], data[4 * i + 1], data[4 * i + 2], data[4 * i + 3])
  }

  /** Four bytes that hold a float; `enc` gives the float of an integer. */
  ghost predicate Encodes(enc: int -> seq<bv8>) {
    forall v :: |enc(v)| == 4
  }

  /** Pixels `lo` to `n` of `host` are floats of the pixels of `data`. */
  ghost predicate Done(host: seq<bv8>, depth: Depth, data: seq<bv8>, enc: int -> seq<bv8>, lo: int, n: int) {
    && Converts(depth) && 0 <= n && 4 * n <= |host| && Needed(depth, n) <= |data|
    && forall p :: 0 <= p && lo <= p < n ==> DoneAt(host, depth, data, enc, p)
  }

  ghost predicate DoneAt(host: seq<bv8>, depth: Depth, data: seq<bv8>, enc: int -> seq<bv8>, p: int) {
    && 0 <= p && Converts(depth) && 4 * p + 4 <= |host| && Needed(depth, p + 1) <= |data|
    && host[4 * p..4 * p + 4] == enc(Pixel(depth, data, p))
  }

  /** The first `k` bytes are as they were. */
  ghost predicate Kept(now: seq<bv8>, before: seq<bv8>, k: int) {
    0 <= k <= |now| == |before| && now[..k] == before[..k]
  }

  /** Stores a float. */
  method Store(host: array<bv8>, p: nat, f: seq<bv8>)
    requires |f| == 4 && 4 * p + 4 <= host.Length
    modifies host
    ensures host[..4 * p] == old(host[..4 * p]) && host[4 * p..4 * p + 4] == f && host[4 * p + 4..] == old(host[4 * p + 4..])
  {
    host[4 * p], host[4 * p + 1], host[4 * p + 2], host[4 * p + 3] := f[0], f[1], f[2], f[3];
  }

  /** Storing pixel `p` completes the pixels from `p` on and leaves the bytes before it alone. */
  lemma Stored(before: seq<bv8>, after: seq<bv8>, depth: Depth, data: seq<bv8>, enc: int -> seq<bv8>, p: nat, n: nat)
    requires Done(before, depth, data, enc, p + 1, n) && p < n && |after| == |before|
    requires Needed(depth, p + 1) <= |data|
    requires after[4 * p..4 * p + 4] == enc(Pixel(depth, data, p)) && after[4 * p + 4..] == before[4 * p + 4..]
    ensures Done(after, depth, data, enc, p, n)
  {
    forall q: int | p <= q < n
      ensures DoneAt(after, depth, data, enc, q)
    {
      if q > p {
        assert DoneAt(before, depth, data, enc, q);
        assert after[4 * q..4 * q + 4] == after[4 * p + 4..][4 * q - 4 * p - 4..4 * q - 4 * p];
        assert before[4 * q..4 * q + 4] == before[4 * p + 4..][4 * q - 4 * p - 4..4 * q - 4 * p];
      }
    }
  }

  lemma KeptLess(now: seq<bv8>, before: seq<bv8>, k: int, j: int)
    requires Kept(now, before, k) && 0 <= j <= k
    ensures Kept(now, before, j)
  {
    assert now[..j] == now[..k][..j] && before[..j] == before[..k][..j];
  }

  /** A pixel depends on the bytes up to it only. */
  lemma SamePixel(depth: Depth, now: seq<bv8>, before: seq<bv8>, k: int, i: nat)
    requires Converts(depth) && Kept(now, before, k) && Needed(depth, i + 1) <= k
    ensures Pixel(depth, now, i) == Pixel(depth, before, i)
  {
    forall q | 0 <= q < k
      ensures now[q] == before[q]
    {
      assert now[..k][q] == before[..k][q];
    }
  }

  /** The store of pixel `p` leaves the bytes that are still to be read alone, also if they are in the
      same array. */
  lemma StillKept(host: array<bv8>, data: array<bv8>, mid: seq<bv8>, before: seq<bv8>, p: nat, k: nat, j: nat)
    requires Kept(mid, before, k) && j <= k && j <= 4 * p
    requires |mid| == data.Length && 4 * p <= host.Length
    requires if data == host then host[..4 * p] == mid[..4 * p] else data[..] == mid
    ensures Kept(data[..], before, j)
  {
    KeptLess(mid, before, k, j);
    if data == host {
      assert data[..][..j] == host[..4 * p][..j] == mid[..4 * p][..j] == mid[..j];
    }
  }

  /** Bytes. */
  method Convert8U(host: array<bv8>, data: array<bv8>, n: gint, enc: int -> seq<bv8>)
    requires Encodes(enc) && 0 <= n && host.Length == 4 * (n as int) && Needed(Depth8U, n as int) <= data.Length
    modifies host
    ensures Done(host[..], Depth8U, old(data[..]), enc, 0, n as int)
  {
    ghost var before := data[..];
    var i: gint := n - 1;
    while i >= 0
      invariant -1 <= i < n && Done(host[..], Depth8U, before, enc, i as int + 1, n as int)
      invariant Kept(data[..], before, Needed(Depth8U, i as int + 1))
    {
      ghost var was, mid := host[..], data[..];
      var p := i as nat;
      SamePixel(Depth8U, mid, before, Needed(Depth8U, p + 1), p);
      Store(host, p, enc(data[p] as int));
      Stored(was, host[..], Depth8U, before, enc, p, n as int);
      StillKept(host, data, mid, before, p, Needed(Depth8U, p + 1), Needed(Depth8U, p));
      i := i - 1;
    }
  }

  /** Unsigned 16 bit values. */
  method Convert16U(host: array<bv8>, data: array<bv8>, n: gint, enc: int -> seq<bv8>)
    requires Encodes(enc) && 0 <= n && host.Length == 4 * (n as int) && Needed(Depth16U, n as int) <= data.Length
    modifies host
    ensures Done(host[..], Depth16U, old(data[..]), enc, 0, n as int)
  {
    ghost var before := data[..];
    var i: gint := n - 1;
    while i >= 0
      invariant -1 <= i < n && Done(host[..], Depth16U, before, enc, i as int + 1, n as int)
      invariant Kept(data[..], before, Needed(Depth16U, i as int + 1))
    {
      ghost var was, mid := host[..], data[..];
      var p := i as nat;
      SamePixel(Depth16U, mid, before, Needed(Depth16U, p + 1), p);
      Store(host, p, enc(Unsigned16(data[2 * p], data[2 * p + 1])));
      Stored(was, host[..], Depth16U, before, enc, p, n as int);
      StillKept(host, data, mid, before, p, Needed(Depth16U, p + 1), Needed(Depth16U, p));
      i := i - 1;
    }
  }

  /** Signed 16 bit values. */
  method Convert16S(host: array<bv8>, data: array<bv8>, n: gint, enc: int -> seq<bv8>)
    requires Encodes(enc) && 0 <= n && host.Length == 4 * (n as int) && Needed(Depth16S, n as int) <= data.Length
    modifies host
    ensures Done(host[..], Depth16S, old(data[..]), enc, 0, n as int)
  {
    ghost var before := data[..];
    var i: gint := n - 1;
    while i >= 0
      invariant -1 <= i < n && Done(host[..], Depth16S, before, enc, i as int + 1, n as int)
      invariant Kept(data[..], before, Needed(Depth16S, i as int + 1))
    {
      ghost var was, mid := host[..], data[..];
      var p := i as nat;
      SamePixel(Depth16S, mid, before, Needed(Depth16S, p + 1), p);
      Store(host, p, enc(Signed16(data[2 * p], data[2 * p + 1])));
      Stored(was, host[..], Depth16S, before, enc, p, n as int);
      StillKept(host, data, mid, before, p, Needed(Depth16S, p + 1), Needed(Depth16S, p));
      i := i - 1;
    }
  }

  /** Unsigned 32 bit values. */
  method Convert32U(host: array<bv8>, data: array<bv8>, n: gint, enc: int -> seq<bv8>)
    requires Encodes(enc) && 0 <= n && host.Length == 4 * (n as int) && Needed(Depth32U, n as int) <= data.Length
    modifies host
    ensures Done(host[..], Depth32U, old(data[..]), enc, 0, n as int)
  {
    ghost var before := data[..];
    var i: gint := n - 1;
    while i >= 0
      invariant -1 <= i < n && Done(host[..], Depth32U, before, enc, i as int + 1, n as int)
      invariant Kept(data[..], before, Needed(Depth32U, i as int + 1))
    {
      ghost var was, mid := host[..], data[..];
      var p := i as nat;
      SamePixel(Depth32U, mid, before, Needed(Depth32U, p + 1), p);
      Store(host, p, enc(Unsigned32(data[4 * p], data[4 * p + 1], data[4 * p + 2], data[4 * p + 3])));
      Stored(was, host[..], Depth32U, before, enc, p, n as int);
      StillKept(host, data, mid, before, p, Needed(Depth32U, p + 1), Needed(Depth32U, p));
      i := i - 1;
    }
  }

  /** Signed 32 bit values. */
  method Convert32S(host: array<bv8>, data: array<bv8>, n: gint, enc: int -> seq<bv8>)
    requires Encodes(enc) && 0 <= n && host.Length == 4 * (n as int) && Needed(Depth32S, n as int) <= data.Length
    modifies host
    ensures Done(host[..], Depth32S, old(data[..]), enc, 0, n as int)
  {
    ghost var before := data[..];
    var i: gint := n - 1;
    while i >= 0
      invariant -1 <= i < n && Done(host[..], Depth32S, before, enc, i as int + 1, n as int)
      invariant Kept(data[..], before, Needed(Depth32S, i as int + 1))
    {
      ghost var was, mid := host[..], data[..];
      var p := i as nat;
      SamePixel(Depth32S, mid, before, Needed(Depth32S, p + 1), p);
      Store(host, p, enc(Signed32(data[4 * p], data[4 * p + 1], data[4 * p + 2], data[4 * p + 3])));
      Stored(was, host[..], Depth32S, before, enc, p, n as int);
      StillKept(host, data, mid, before, p, Needed(Depth32S, p + 1), Needed(Depth32S, p));
      i := i - 1;
    }
  }

  /** Storing two pixels, the first one first. */
  lemma StoredTwo(before: seq<bv8>, mid: seq<bv8>, after: seq<bv8>, data: seq<bv8>, enc: int -> seq<bv8>, p: nat, n: nat)
    requires Done(before, Depth12U, data, enc, p + 2, n) && p + 1 < n && |after| == |mid| == |before|
    requires Needed(Depth12U, p + 2) <= |data|
    requires mid[4 * p..4 * p + 4] == enc(Pixel(Depth12U, data, p)) && mid[4 * p + 4..] == before[4 * p + 4..]
    requires after[..4 * p + 4] == mid[..4 * p + 4]
    requires after[4 * p + 4..4 * p + 8] == enc(Pixel(Depth12U, data, p + 1)) && after[4 * p + 8..] == mid[4 * p + 8..]
    ensures Done(after, Depth12U, data, enc, p, n)
  {
    forall q: int | p <= q < n
      ensures DoneAt(after, Depth12U, data, enc, q)
    {
      if q > p + 1 {
        assert DoneAt(before, Depth12U, data, enc, q);
        assert after[4 * q..4 * q + 4] == after[4 * p + 8..][4 * q - 4 * p - 8..4 * q - 4 * p - 4];
        assert mid[4 * p + 8..] == mid[4 * p + 4..][4..] && before[4 * p + 8..] == before[4 * p + 4..][4..];
        assert before[4 * q..4 * q + 4] == before[4 * p + 8..][4 * q - 4 * p - 8..4 * q - 4 * p - 4];
      } else if q == p {
        assert after[4 * p..4 * p + 4] == after[..4 * p + 4][4 * p..] == mid[..4 * p + 4][4 * p..] == mid[4 * p..4 * p + 4];
      }
    }
  }

  lemma KeptBytes(now: seq<bv8>, before: seq<bv8>, k: int, q: nat)
    requires Kept(now, before, k) && q < k
    ensures now[q] == before[q]
  {
    assert now[..k][q] == before[..k][q];
  }

  lemma Halves(h: nat)
    ensures 2 * h / 2 == h && 2 * h % 2 == 0 && (6 * h + 3) / 2 == 3 * h + 1 && (6 * h + 4) / 2 == 3 * h + 2
  {
  }

  lemma LastPixel(data: seq<bv8>, h: nat)
    requires Needed(Depth12U, 2 * h + 1) <= |data|
    ensures Needed(Depth12U, 2 * h + 1) == 3 * h + 2
    ensures Pixel(Depth12U, data, 2 * h) == High12(data[3 * h], data[3 * h + 1]) as int
  {
    Halves(h);
  }

  /** Reads the last pixel of an odd number. */
  method ReadLast(data: array<bv8>, n: gint, ghost h: nat) returns (a: bv16)
    requires n as int == 2 * h + 1 && n <= 0x7FFF_FFFF / 3 && Needed(Depth12U, n as int) <= data.Length
    ensures a as int == Pixel(Depth12U, data[..], n as nat - 1)
  {
    LastPixel(data[..], h);
    Halves(h);
    var j := 3 * n / 2;
    var first, second := data[j - 1], data[j];
    a := High12(first, second);
  }

  lemma Odd(n: nat) returns (h: nat)
    requires n % 2 == 1
    ensures n == 2 * h + 1 && (n - 1) % 2 == 0
  {
    h := n / 2;
  }

  /** The last pixel of an odd number. */
  method LastOf12U(host: array<bv8>, data: array<bv8>, n: gint, enc: int -> seq<bv8>)
    requires Encodes(enc) && 0 < n <= 0x7FFF_FFFF / 3 && n % 2 == 1
    requires host.Length == 4 * (n as int) && Needed(Depth12U, n as int) <= data.Length
    modifies host
    ensures Done(host[..], Depth12U, old(data[..]), enc, n as int - 1, n as int)
    ensures Kept(data[..], old(data[..]), Needed(Depth12U, n as int - 1))
  {
    ghost var before, was, p := data[..], host[..], n as int - 1;
    ghost var h := Odd(n as nat);
    var a := ReadLast(data, n, h);
    Store(host, (n - 1) as nat, enc(a as int));
    Stored(was, host[..], Depth12U, before, enc, p, n as int);
    StillKept(host, data, before, before, p, data.Length, Needed(Depth12U, p));
  }

  /** Two pixels at a time. */
  method PairsOf12U(host: array<bv8>, data: array<bv8>, n: gint, m: gint, enc: int -> seq<bv8>, ghost before: seq<bv8>)
    requires Encodes(enc) && 0 <= m <= n <= 0x7FFF_FFFF / 3 && m % 2 == 0
    requires host.Length == 4 * (n as int) && Needed(Depth12U, n as int) <= data.Length == |before|
    requires Done(host[..], Depth12U, before, enc, m as int, n as int) && Kept(data[..], before, Needed(Depth12U, m as int))
    modifies host
    ensures Done(host[..], Depth12U, before, enc, 0, n as int)
  {
    var i: gint := m - 2;
    ghost var pairs: nat := m as nat / 2;
    while i >= 0
      invariant i as int == 2 * pairs - 2 && i <= m - 2
      invariant Done(host[..], Depth12U, before, enc, 2 * pairs, n as int)
      invariant Kept(data[..], before, Needed(Depth12U, 2 * pairs))
    {
      pairs := pairs - 1;
      var a, b := ReadPair(data, n, i, pairs, before);
      StorePair(host, data, i as nat, n as nat, a, b, enc, before);
      i := i - 2;
    }
  }

  lemma PrefixThrough(after: seq<bv8>, half: seq<bv8>, was: seq<bv8>, k: nat)
    requires |after| == |half| == |was| >= k + 4 && after[..k + 4] == half[..k + 4] && half[..k] == was[..k]
    ensures after[..k] == was[..k]
  {
    assert after[..k] == after[..k + 4][..k] && half[..k] == half[..k + 4][..k];
  }

  /** Reads the two pixels from `i` on. */
  method ReadPair(data: array<bv8>, n: gint, i: gint, ghost h: nat, ghost before: seq<bv8>) returns (a: bv16, b: bv16)
    requires i as int == 2 * h && i as int + 1 < n as int && n <= 0x7FFF_FFFF / 3
    requires Needed(Depth12U, n as int) <= data.Length == |before| && Kept(data[..], before, Needed(Depth12U, i as int + 2))
    ensures a as int == Pixel(Depth12U, before, i as nat) && b as int == Pixel(Depth12U, before, i as nat + 1)
  {
    var j := 3 * i / 2;
    var first, second, third := data[j], data[j + 1], data[j + 2];
    KeptBytes(data[..], before, Needed(Depth12U, i as int + 2), j as nat);
    KeptBytes(data[..], before, Needed(Depth12U, i as int + 2), j as nat + 1);
    KeptBytes(data[..], before, Needed(Depth12U, i as int + 2), j as nat + 2);
    a, b := High12(first, second), Low12(second, third);
  }

  method StorePair(host: array<bv8>, data: array<bv8>, p: nat, n: nat, a: bv16, b: bv16, enc: int -> seq<bv8>,
                   ghost before: seq<bv8>)
    requires Encodes(enc) && p + 1 < n && host.Length == 4 * n && Needed(Depth12U, n) <= data.Length == |before|
    requires a as int == Pixel(Depth12U, before, p) && b as int == Pixel(Depth12U, before, p + 1)
    requires Done(host[..], Depth12U, before, enc, p + 2, n) && Kept(data[..], before, Needed(Depth12U, p + 2))
    modifies host
    ensures Done(host[..], Depth12U, before, enc, p, n) && Kept(data[..], before, Needed(Depth12U, p))
  {
    ghost var was, mid := host[..], data[..];
    Store(host, p, enc(a as int));
    ghost var half := host[..];
    Store(host, p + 1, enc(b as int));
    StoredTwo(was, half, host[..], before, enc, p, n);
    PrefixThrough(host[..], half, was, 4 * p);
    StillKept(host, data, mid, before, p, Needed(Depth12U, p + 2), Needed(Depth12U, p));
  }

  /** Packed 12 bit values. No counter overflows up to (2^31 - 1) / 3 pixels. */
  method Convert12U(host: array<bv8>, data: array<bv8>, n: gint, enc: int -> seq<bv8>)
    requires Encodes(enc) && 0 <= n <= 0x7FFF_FFFF / 3
    requires host.Length == 4 * (n as int) && Needed(Depth12U, n as int) <= data.Length
    modifies host
    ensures Done(host[..], Depth12U, old(data[..]), enc, 0, n as int)
  {
    ghost var before := data[..];
    var m := n;
    if n % 2 == 1 {
      ghost var h := Odd(n as nat);
      LastOf12U(host, data, n, enc);
      m := n - 1;
    }
    PairsOf12U(host, data, n, m, enc, before);
  }

  /** Converts the pixels of `data` to the floats of `host`. The two may be the same array. */
  method ConvertData(host: array<bv8>, data: array<bv8>, depth: Depth, enc: int -> seq<bv8>)
    requires Encodes(enc) && host.Length % 4 == 0 && host.Length / 4 < 0x8000_0000
    requires Converts(depth) ==> Needed(depth, host.Length / 4) <= data.Length
    requires depth == Depth12U ==> host.Length / 4 <= 0x7FFF_FFFF / 3
    modifies host
    ensures Converts(depth) ==> host[..] == Converted(depth, old(data[..]), host.Length / 4, enc)
    ensures !Converts(depth) ==> host[..] == old(host[..])
  {
    ghost var before := data[..];
    var n := (host.Length / 4) as gint;
    match depth {
    case Depth8U => Convert8U(host, data, n, enc);
    case Depth12U => Convert12U(host, data, n, enc);
    case Depth16U => Convert16U(host, data, n, enc);
    case Depth16S => Convert16S(host, data, n, enc);
    case Depth32S => Convert32S(host, data, n, enc);
    case Depth32U => Convert32U(host, data, n, enc);
    case Depth32F =>
    case Invalid =>
    }
    if Converts(depth) {
      AllDone(host[..], depth, before, enc, n as int);
    }
  }

  /** The floats of all pixels. */
  ghost function Converted(depth: Depth, data: seq<bv8>, n: nat, enc: int -> seq<bv8>): seq<bv8>
    requires Converts(depth) && Needed(depth, n) <= |data|
  {
    if n == 0 then [] else Converted(depth, data, n - 1, enc) + enc(Pixel(depth, data, n - 1))
  }

  lemma {:induction false} PartDone(host: seq<bv8>, depth: Depth, data: seq<bv8>, enc: int -> seq<bv8>, m: nat, n: nat)
    requires Encodes(enc) && m <= n && Done(host, depth, data, enc, 0, n) && Needed(depth, m) <= |data|
    ensures host[..4 * m] == Converted(depth, data, m, enc)
  {
    if m > 0 {
      PartDone(host, depth, data, enc, m - 1, n);
      assert DoneAt(host, depth, data, enc, m - 1);
      assert host[..4 * m] == host[..4 * (m - 1)] + host[4 * (m - 1)..4 * (m - 1) + 4];
    }
  }

  lemma AllDone(host: seq<bv8>, depth: Depth, data: seq<bv8>, enc: int -> seq<bv8>, n: nat)
    requires Encodes(enc) && Done(host, depth, data, enc, 0, n) && |host| == 4 * n
    ensures host == Converted(depth, data, n, enc)
  {
    PartDone(host, depth, data, enc, n, n);
    assert host[..4 * n] == host;
  }

  // 12 bit packing.

  /** Two 12 bit values in three bytes, big end first; an odd last value takes two bytes. */
  function Pack12(values: seq<bv16>): seq<bv8>
    requires forall i :: 0 <= i < |values| ==> values[i] < 0x1000
  {
    if values == [] then []
    else if |values| == 1 then [FirstByte(values[0]), MiddleByte(values[0], 0)]
    else [FirstByte(values[0]), MiddleByte(values[0], values[1]), LastByte(values[1])] + Pack12(values[2..])
  }

  function FirstByte(a: bv16): bv8
    requires a < 0x1000
  {
    (a >> 4) as bv8
  }

  function MiddleByte(a: bv16, b: bv16): bv8
    requires a < 0x1000 && b < 0x1000
  {
    (((a & 0x0F) << 4) | (b >> 8)) as bv8
  }

  function LastByte(b: bv16): bv8 {
    (b & 0xFF) as bv8
  }

  lemma Unpacks(a: bv16, b: bv16)
    requires a < 0x1000 && b < 0x1000
    ensures High12(FirstByte(a), MiddleByte(a, b)) == a
    ensures Low12(MiddleByte(a, b), LastByte(b)) == b
  {
  }

  lemma Repacks(a: bv8, b: bv8, c: bv8)
    ensures High12(a, b) < 0x1000 && Low12(b, c) < 0x1000
    ensures FirstByte(High12(a, b)) == a && MiddleByte(High12(a, b), Low12(b, c)) == b && LastByte(Low12(b, c)) == c
  {
  }

  ghost predicate TwelveBit(values: seq<bv16>) {
    forall i :: 0 <= i < |values| ==> values[i] < 0x1000
  }

  lemma {:induction false} PackedSize(values: seq<bv16>)
    requires TwelveBit(values)
    ensures |Pack12(values)| == Needed(Depth12U, |values|)
  {
    if |values| >= 2 {
      PackedSize(values[2..]);
    }
  }

  lemma PixelBehind(head: seq<bv8>, rest: seq<bv8>, i: nat)
    requires |head| == 3 && i >= 2 && Needed(Depth12U, i - 1) <= |rest|
    ensures Pixel(Depth12U, head + rest, i) == Pixel(Depth12U, rest, i - 2)
  {
    assert i / 2 == (i - 2) / 2 + 1;
  }

  /** Converting packed 12 bit values gives back the values, for even and odd numbers of pixels. */
  lemma {:induction false} UnpackingInvertsPacking(values: seq<bv16>, i: nat)
    requires TwelveBit(values) && i < |values|
    ensures Needed(Depth12U, i + 1) <= |Pack12(values)| && Pixel(Depth12U, Pack12(values), i) == values[i] as int
    decreases i
  {
    PackedSize(values);
    if i < 2 {
      Unpacks(values[0], if |values| == 1 then 0 else values[1]);
    } else {
      UnpackingInvertsPacking(values[2..], i - 2);
      PackedSize(values[2..]);
      PixelBehind([FirstByte(values[0]), MiddleByte(values[0], values[1]), LastByte(values[1])], Pack12(values[2..]), i);
    }
  }

  /** The 12 bit values of three bytes after three bytes. */
  function Unpack12(data: seq<bv8>): seq<bv16> {
    if |data| < 3 then [] else [High12(data[0], data[1]), Low12(data[1], data[2])] + Unpack12(data[3..])
  }

  lemma {:induction false} UnpacksTwelveBit(data: seq<bv8>)
    ensures TwelveBit(Unpack12(data))
  {
    if |data| >= 3 {
      Repacks(data[0], data[1], data[2]);
      UnpacksTwelveBit(data[3..]);
    }
  }

  lemma PackTwo(x: bv16, y: bv16, rest: seq<bv16>)
    requires x < 0x1000 && y < 0x1000 && TwelveBit(rest)
    ensures TwelveBit([x, y] + rest)
    ensures Pack12([x, y] + rest) == [FirstByte(x), MiddleByte(x, y), LastByte(y)] + Pack12(rest)
  {
    assert ([x, y] + rest)[2..] == rest;
  }

  lemma RepackThree(a: bv8, b: bv8, c: bv8, rest: seq<bv16>)
    requires TwelveBit(rest)
    ensures TwelveBit([High12(a, b), Low12(b, c)] + rest)
    ensures Pack12([High12(a, b), Low12(b, c)] + rest) == [a, b, c] + Pack12(rest)
  {
    Repacks(a, b, c);
    PackTwo(High12(a, b), Low12(b, c), rest);
  }

  lemma ThreeAndRest(data: seq<bv8>)
    requires |data| >= 3
    ensures data == [data[0], data[1], data[2]] + data[3..]
  {
  }

  /** And packing gives back the bytes of an even number of pixels. */
  lemma {:induction false} PackingInvertsUnpacking(data: seq<bv8>)
    requires |data| % 3 == 0
    ensures TwelveBit(Unpack12(data)) && Pack12(Unpack12(data)) == data
  {
    if |data| >= 3 {
      PackingInvertsUnpacking(data[3..]);
      RepackThree(data[0], data[1], data[2], Unpack12(data[3..]));
      ThreeAndRest(data);
    }
  }

  // Whole bytes.

  function Power(base: nat, k: nat): (r: nat)
    requires base >= 1
    ensures r >= 1
  {
    if k == 0 then 1 else base * Power(base, k - 1)
  }

  /** Byte `k` of an integer, least significant first; of a negative one, in two's complement. */
  function Byte(v: int, k: nat): int { v / Power(0x100, k) % 0x100 }

  lemma Powers()
    ensures Power(0x100, 0) == 1 && Power(0x100, 1) == 0x100 && Power(0x100, 2) == 0x1_0000 && Power(0x100, 3) == 0x100_0000
  {
    assert Power(0x100, 1) == 0x100 * Power(0x100, 0);
    assert Power(0x100, 2) == 0x100 * Power(0x100, 1);
    assert Power(0x100, 3) == 0x100 * Power(0x100, 2);
  }

  /** The number of bytes of a pixel, and the range of its values. */
  function Width(depth: Depth): nat {
    match depth
    case Depth8U => 1
    case Depth16U => 2
    case Depth16S => 2
    case _ => 4
  }

  predicate WholeBytes(depth: Depth) { Converts(depth) && depth != Depth12U }

  predicate InRange(depth: Depth, v: int) {
    match depth
    case Depth8U => 0 <= v < 0x100
    case Depth12U => 0 <= v < 0x1000
    case Depth16U => 0 <= v < 0x1_0000
    case Depth16S => -0x8000 <= v < 0x8000
    case Depth32U => 0 <= v < 0x1_0000_0000
    case Depth32S => -0x8000_0000 <= v < 0x8000_0000
    case _ => false
  }

  /** Pixel `i` of `data` holds the bytes of `v`, wherever in `data` it is. */
  predicate Holds(depth: Depth, data: seq<bv8>, i: nat, v: int) {
    var start := Needed(depth, i);
    start + Width(depth) <= |data| && forall k :: 0 <= k < Width(depth) ==> data[start + k] as int == Byte(v, k)
  }

  lemma ByteIs(v: int)
    ensures Byte(v, 0) == v % 0x100 && Byte(v, 1) == v / 0x100 % 0x100
    ensures Byte(v, 2) == v / 0x1_0000 % 0x100 && Byte(v, 3) == v / 0x100_0000 % 0x100
  {
    Powers();
  }

  lemma Nested(v: int)
    ensures v / 0x1_0000 == v / 0x100 / 0x100 && v / 0x100_0000 == v / 0x1_0000 / 0x100
  {
  }

  lemma Digit(v: int)
    ensures v == 0x100 * (v / 0x100) + v % 0x100 && 0 <= v % 0x100 < 0x100
  {
  }

  /** An integer is put together from its bytes and what is above them. */
  lemma TwoBytes(v: int)
    ensures v == Byte(v, 0) + 0x100 * Byte(v, 1) + 0x1_0000 * (v / 0x1_0000)
    ensures 0 <= Byte(v, 0) < 0x100 && 0 <= Byte(v, 1) < 0x100
  {
    ByteIs(v);
    Nested(v);
    Digit(v);
    Digit(v / 0x100);
  }

  lemma FourBytes(v: int)
    ensures v == Byte(v, 0) + 0x100 * Byte(v, 1) + 0x1_0000 * (Byte(v, 2) + 0x100 * (v / 0x100_0000))
    ensures 0 <= Byte(v, 0) < 0x100 && 0 <= Byte(v, 1) < 0x100 && 0 <= Byte(v, 2) < 0x100
    ensures v / 0x100_0000 == 0x100 * (v / 0x100_0000 / 0x100) + Byte(v, 3) && 0 <= Byte(v, 3) < 0x100
  {
    TwoBytes(v);
    ByteIs(v);
    Nested(v);
    Digit(v / 0x1_0000);
    Digit(v / 0x100_0000);
  }

  lemma SameTwo(a: int, b: int, c: int, d: int)
    requires 0 <= a < 0x100 && 0 <= c < 0x100 && a + 0x100 * b == c + 0x100 * d
    ensures a == c && b == d
  {
  }

  lemma SameFour(a: int, b: int, c: int, d: int, e: int, f: int, g: int, h: int)
    requires 0 <= a < 0x100 && 0 <= b < 0x100 && 0 <= c < 0x100 && 0 <= e < 0x100 && 0 <= f < 0x100 && 0 <= g < 0x100
    requires a + 0x100 * b + 0x1_0000 * (c + 0x100 * d) == e + 0x100 * f + 0x1_0000 * (g + 0x100 * h)
    ensures a == e && b == f && c == g && d == h
  {
    SameTwo(a, b + 0x100 * (c + 0x100 * d), e, f + 0x100 * (g + 0x100 * h));
    SameTwo(b, c + 0x100 * d, f, g + 0x100 * h);
    SameTwo(c, d, g, h);
  }

  /** The top byte of a value with a sign. */
  function Top(signed: bool, d: int): int {
    if signed && d >= 0x80 then d - 0x100 else d
  }

  lemma TopByte(v: int, d: int, size: int, signed: bool)
    requires size == 0x100 || size == 0x100_0000
    requires 0 <= d < 0x100 && (if signed then -0x80 * size <= v < 0x80 * size else 0 <= v < 0x100 * size)
    ensures v / size == Top(signed, d) <==> v / size % 0x100 == d
  {
    var q := v / size;
    assert if signed then -0x80 <= q < 0x80 else 0 <= q < 0x100;
  }

  lemma Holds16(a: int, b: int, v: int, signed: bool)
    requires 0 <= a < 0x100 && 0 <= b < 0x100 && (if signed then -0x8000 <= v < 0x8000 else 0 <= v < 0x1_0000)
    ensures v == a + 0x100 * Top(signed, b) <==> a == Byte(v, 0) && b == Byte(v, 1)
  {
    ByteIs(v);
    Digit(v);
    TopByte(v, b, 0x100, signed);
    if v == a + 0x100 * Top(signed, b) {
      SameTwo(a, Top(signed, b), v % 0x100, v / 0x100);
    }
  }

  lemma Holds32(a: int, b: int, c: int, d: int, v: int, signed: bool)
    requires 0 <= a < 0x100 && 0 <= b < 0x100 && 0 <= c < 0x100 && 0 <= d < 0x100
    requires if signed then -0x8000_0000 <= v < 0x8000_0000 else 0 <= v < 0x1_0000_0000
    ensures v == a + 0x100 * b + 0x1_0000 * (c + 0x100 * Top(signed, d))
       <==> a == Byte(v, 0) && b == Byte(v, 1) && c == Byte(v, 2) && d == Byte(v, 3)
  {
    ByteIs(v);
    FourBytes(v);
    TopByte(v, d, 0x100_0000, signed);
    if v == a + 0x100 * b + 0x1_0000 * (c + 0x100 * Top(signed, d)) {
      SameFour(a, b, c, Top(signed, d), Byte(v, 0), Byte(v, 1), Byte(v, 2), v / 0x100_0000);
    }
  }

  lemma Pixel16U(data: seq<bv8>, i: nat) returns (pixel: int)
    requires 2 * i + 2 <= |data|
    ensures pixel == Pixel(Depth16U, data, i) == data[2 * i] as int + 0x100 * Top(false, data[2 * i + 1] as int)
  {
    pixel := Pixel(Depth16U, data, i);
  }

  lemma Pixel16S(data: seq<bv8>, i: nat) returns (pixel: int)
    requires 2 * i + 2 <= |data|
    ensures pixel == Pixel(Depth16S, data, i) == data[2 * i] as int + 0x100 * Top(true, data[2 * i + 1] as int)
  {
    pixel := Pixel(Depth16S, data, i);
  }

  lemma Pixel32U(data: seq<bv8>, i: nat) returns (pixel: int)
    requires 4 * i + 4 <= |data|
    ensures pixel == Pixel(Depth32U, data, i)
    ensures pixel == data[4 * i] as int + 0x100 * (data[4 * i + 1] as int)
                     + 0x1_0000 * (data[4 * i + 2] as int + 0x100 * Top(false, data[4 * i + 3] as int))
  {
    pixel := Pixel(Depth32U, data, i);
  }

  lemma Pixel32S(data: seq<bv8>, i: nat) returns (pixel: int)
    requires 4 * i + 4 <= |data|
    ensures pixel == Pixel(Depth32S, data, i)
    ensures pixel == data[4 * i] as int + 0x100 * (data[4 * i + 1] as int)
                     + 0x1_0000 * (data[4 * i + 2] as int + 0x100 * Top(true, data[4 * i + 3] as int))
  {
    pixel := Pixel(Depth32S, data, i);
  }

  predicate Four(data: seq<bv8>, at: nat, v: int)
    requires at + 4 <= |data|
  {
    && data[at] as int == Byte(v, 0) && data[at + 1] as int == Byte(v, 1)
    && data[at + 2] as int == Byte(v, 2) && data[at + 3] as int == Byte(v, 3)
  }

  /** The bytes of a pixel, one by one. */
  lemma HoldsBytes(depth: Depth, data: seq<bv8>, i: nat, v: int)
    requires WholeBytes(depth) && Needed(depth, i + 1) <= |data|
    ensures Width(depth) == 1 ==> (Holds(depth, data, i, v) <==> data[i] as int == Byte(v, 0))
    ensures Width(depth) == 2 ==> (Holds(depth, data, i, v) <==> data[2 * i] as int == Byte(v, 0) && data[2 * i + 1] as int == Byte(v, 1))
    ensures Width(depth) == 4 ==> (Holds(depth, data, i, v) <==> Four(data, 4 * i, v))
  {
    var start := Needed(depth, i);
    if Width(depth) == 1 {
      assert Holds(depth, data, i, v) ==> data[start + 0] as int == Byte(v, 0);
    } else if Width(depth) == 2 {
      assert Holds(depth, data, i, v) ==> data[start + 0] as int == Byte(v, 0) && data[start + 1] as int == Byte(v, 1);
    } else {
      assert Holds(depth, data, i, v) ==> Four(data, start + 0, v);
    }
  }

  lemma Holds8(a: int, v: int)
    requires 0 <= a < 0x100 && 0 <= v < 0x100
    ensures a == v <==> a == Byte(v, 0)
  {
    ByteIs(v);
  }

  lemma PixelHolds8(data: seq<bv8>, i: nat, v: int, pixel: int)
    requires i < |data| && InRange(Depth8U, v) && pixel == data[i] as int
    ensures pixel == v <==> Holds(Depth8U, data, i, v)
  {
    HoldsBytes(Depth8U, data, i, v);
    Holds8(data[i] as int, v);
  }

  lemma PixelHolds16(depth: Depth, data: seq<bv8>, i: nat, v: int, pixel: int, signed: bool)
    requires depth == (if signed then Depth16S else Depth16U) && 2 * i + 2 <= |data| && InRange(depth, v)
    requires pixel == data[2 * i] as int + 0x100 * Top(signed, data[2 * i + 1] as int)
    ensures pixel == v <==> Holds(depth, data, i, v)
  {
    HoldsBytes(depth, data, i, v);
    Holds16(data[2 * i] as int, data[2 * i + 1] as int, v, signed);
  }

  lemma PixelHolds32(depth: Depth, data: seq<bv8>, i: nat, v: int, pixel: int, signed: bool)
    requires depth == (if signed then Depth32S else Depth32U) && 4 * i + 4 <= |data| && InRange(depth, v)
    requires pixel == data[4 * i] as int + 0x100 * (data[4 * i + 1] as int)
                      + 0x1_0000 * (data[4 * i + 2] as int + 0x100 * Top(signed, data[4 * i + 3] as int))
    ensures pixel == v <==> Holds(depth, data, i, v)
  {
    HoldsBytes(depth, data, i, v);
    Holds32(data[4 * i] as int, data[4 * i + 1] as int, data[4 * i + 2] as int, data[4 * i + 3] as int, v, signed);
  }

  /** The pixel is `v` exactly when its bytes are those of `v`, for every value of the depth. */
  lemma PixelHolds(depth: Depth, data: seq<bv8>, i: nat, v: int)
    requires WholeBytes(depth) && Needed(depth, i + 1) <= |data| && InRange(depth, v)
    ensures Pixel(depth, data, i) == v <==> Holds(depth, data, i, v)
  {
    match depth
    case Depth8U => PixelHolds8(data, i, v, data[i] as int);
    case Depth16U =>
      var pixel := Pixel16U(data, i);
      PixelHolds16(depth, data, i, v, pixel, false);
    case Depth16S =>
      var pixel := Pixel16S(data, i);
      PixelHolds16(depth, data, i, v, pixel, true);
    case Depth32U =>
      var pixel := Pixel32U(data, i);
      PixelHolds32(depth, data, i, v, pixel, false);
    case Depth32S =>
      var pixel := Pixel32S(data, i);
      PixelHolds32(depth, data, i, v, pixel, true);
  }

  /** Every pixel is a value of its depth. */
  lemma PixelInRange(depth: Depth, data: seq<bv8>, i: nat)
    requires Converts(depth) && Needed(depth, i + 1) <= |data|
    ensures InRange(depth, Pixel(depth, data, i))
  {
    if depth == Depth12U && i % 2 == 0 {
      Repacks(data[3 * (i / 2)], data[3 * (i / 2) + 1], 0);
    } else if depth == Depth12U {
      Repacks(0, data[3 * (i / 2) + 1], data[3 * (i / 2) + 2]);
    }
  }

  /** The bytes of the data are those of the pixels that are read from them. */
  lemma PixelsAreBytes(depth: Depth, data: seq<bv8>, i: nat)
    requires WholeBytes(depth) && Needed(depth, i + 1) <= |data|
    ensures InRange(depth, Pixel(depth, data, i)) && Holds(depth, data, i, Pixel(depth, data, i))
  {
    PixelInRange(depth, data, i);
    PixelHolds(depth, data, i, Pixel(depth, data, i));
  }

  lemma JoinedAt(a: seq<bv8>, b: seq<bv8>, m: nat, p: nat)
    requires |a| == 4 * m && |b| == 4 && p <= m
    ensures |a + b| == 4 * (m + 1) && (a + b)[4 * p..4 * p + 4] == if p == m then b else a[4 * p..4 * p + 4]
  {
  }

  lemma NeededLess(depth: Depth, m: nat, n: nat)
    requires m <= n
    ensures Needed(depth, m) <= Needed(depth, n)
  {
  }

  lemma {:induction false} ConvertedSize(depth: Depth, data: seq<bv8>, n: nat, enc: int -> seq<bv8>)
    requires Encodes(enc) && Converts(depth) && Needed(depth, n) <= |data|
    ensures |Converted(depth, data, n, enc)| == 4 * n
  {
    if n > 0 {
      NeededLess(depth, n - 1, n);
      ConvertedSize(depth, data, n - 1, enc);
      assert |enc(Pixel(depth, data, n - 1))| == 4;
    }
  }

  lemma {:induction false} ConvertedAt(depth: Depth, data: seq<bv8>, n: nat, enc: int -> seq<bv8>, p: nat)
    requires Encodes(enc) && Converts(depth) && p < n && Needed(depth, n) <= |data| && Needed(depth, p + 1) <= |data|
    ensures |Converted(depth, data, n, enc)| == 4 * n
    ensures Converted(depth, data, n, enc)[4 * p..4 * p + 4] == enc(Pixel(depth, data, p))
  {
    var m := n - 1;
    NeededLess(depth, m, n);
    ConvertedSize(depth, data, m, enc);
    assert |enc(Pixel(depth, data, m))| == 4;
    JoinedAt(Converted(depth, data, m, enc), enc(Pixel(depth, data, m)), m, p);
    if p < m {
      ConvertedAt(depth, data, m, enc, p);
    }
  }

  /** Data that hold the bytes of values are converted to the floats of these values, in order. */
  lemma ConvertsValues(depth: Depth, data: seq<bv8>, values: seq<int>, enc: int -> seq<bv8>, p: nat)
    requires Encodes(enc) && WholeBytes(depth) && p < |values| && Needed(depth, |values|) <= |data|
    requires InRange(depth, values[p]) && Holds(depth, data, p, values[p])
    ensures |Converted(depth, data, |values|, enc)| == 4 * |values|
    ensures Converted(depth, data, |values|, enc)[4 * p..4 * p + 4] == enc(values[p])
  {
    NeededLess(depth, p + 1, |values|);
    ConvertedAt(depth, data, |values|, enc, p);
    PixelHolds(depth, data, p, values[p]);
  }

  // The two ways to convert.

  /** Converts the host data of a buffer where they are. */
  method ConvertInPlace(host: array<bv8>, depth: Depth, enc: int -> seq<bv8>)
    requires Encodes(enc) && host.Length % 4 == 0 && host.Length / 4 < 0x8000_0000
    requires depth == Depth12U ==> host.Length / 4 <= 0x7FFF_FFFF / 3
    modifies host
    ensures Converts(depth) ==> Needed(depth, host.Length / 4) <= host.Length
    ensures Converts(depth) ==> host[..] == Converted(depth, old(host[..]), host.Length / 4, enc)
    ensures !Converts(depth) ==> host[..] == old(host[..])
  {
    ConvertData(host, host, depth, enc);
  }

  /** Converts raw data to the host array, which is made if there is none. */
  method ConvertFromData(present: array?<bv8>, size: nat, data: array<bv8>, depth: Depth, enc: int -> seq<bv8>)
    returns (host: array<bv8>)
    requires Encodes(enc) && size % 4 == 0 && size / 4 < 0x8000_0000 && (present != null ==> present.Length == size)
    requires Converts(depth) ==> Needed(depth, size / 4) <= data.Length
    requires depth == Depth12U ==> size / 4 <= 0x7FFF_FFFF / 3
    modifies if present == null then {} else {present}
    ensures host.Length == size && if present == null then fresh(host) else host == present
    ensures data != present ==> data[..] == old(data[..])
    ensures Converts(depth) ==> host[..] == Converted(depth, old(data[..]), size / 4, enc)
    ensures !Converts(depth) && present != null ==> host[..] == old(present[..])
  {
    if present == null {
      host := new bv8[size](_ => 0);
    } else {
      host := present;
    }
    ConvertData(host, data, depth, enc);
  }
}
