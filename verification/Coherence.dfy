/** The three places of a buffer's data: host memory, device array and device image. Data are copied
    when an access needs them elsewhere, and only one place is up to date. */
module Coherence {
  import opened Wrappers

  datatype Location = Host | Device | Image | Invalid

  /** An array that is `None` was not allocated. */
  datatype Store<+C> = Store(host: Option<C>, device: Option<C>, image: Option<C>, location: Location, last: Location)

  function Empty<C>(): Store<C> { Store(None, None, None, Invalid, Invalid) }

  function ArrayAt<C>(s: Store<C>, at: Location): Option<C> {
    match at
    case Host => s.host
    case Device => s.device
    case Image => s.image
    case Invalid => None
  }

  function WithArray<C>(s: Store<C>, at: Location, c: C): (r: Store<C>)
    requires at != Invalid
    ensures ArrayAt(r, at) == Some(c) && r.location == s.location && r.last == s.last
    ensures forall b :: b != at ==> ArrayAt(r, b) == ArrayAt(s, b)
  {
    match at
    case Host => s.(host := Some(c))
    case Device => s.(device := Some(c))
    case Image => s.(image := Some(c))
  }

  /** The place that is said to be up to date exists; nothing is allocated before the first access. */
  predicate Valid<C>(s: Store<C>) {
    if s.location == Invalid then s.host.None? && s.device.None? && s.image.None?
    else ArrayAt(s, s.location).Some?
  }

  /** The contents of the buffer. */
  function Contents<C>(s: Store<C>): Option<C> { ArrayAt(s, s.location) }

  /** Fresh host memory is zeroed; the content of fresh device memory is arbitrary. */
  function FreshAt<C>(at: Location, zero: C, junk: C): C {
    if at == Host then zero else junk
  }

  /** What an access leaves behind. */
  function Accessed<C>(s: Store<C>, at: Location, zero: C, junk: C): (r: Store<C>)
    requires Valid(s) && at != Invalid
    ensures Valid(r) && r.location == at && r.last == s.location
    ensures Contents(r) == Some(if s.location == Invalid then FreshAt(at, zero, junk) else Contents(s).value)
  {
    var s1 := if ArrayAt(s, at).None? then WithArray(s, at, FreshAt(at, zero, junk)) else s;
    var s2 := if s.location != Invalid && s.location != at then WithArray(s1, at, ArrayAt(s1, s.location).value) else s1;
    s2.(location := at, last := s.location)
  }

  /** A client writes through the array that the last access gave it. */
  function Written<C>(s: Store<C>, c: C): Store<C> {
    if s.location == Invalid then s else WithArray(s, s.location, c)
  }

  /** A source without data gets zeroed host memory. */
  function Sourced<C>(s: Store<C>, zero: C): (r: Store<C>)
    requires Valid(s)
    ensures Valid(r) && r.location != Invalid
    ensures Contents(r) == Some(if s.location == Invalid then zero else Contents(s).value)
  {
    if s.location == Invalid then s.(host := Some(zero), location := Host) else s
  }

  /** The destination of a copy keeps its location, unless it has none. */
  function Received<C>(d: Store<C>, src: Store<C>): (r: Store<C>)
    requires Valid(d) && Valid(src) && src.location != Invalid
    ensures Valid(r) && Contents(r) == Contents(src)
    ensures r.location == if d.location == Invalid then src.location else d.location
  {
    var at := if d.location == Invalid then src.location else d.location;
    WithArray(d, at, Contents(src).value).(location := at)
  }

  class UfoBuffer<C(==)> {
    var host: Option<C>
    var device: Option<C>
    var image: Option<C>
    var location: Location
    var last: Location
    const zero: C

    function Value(): Store<C>
      reads this
    {
      Store(host, device, image, location, last)
    }

    constructor (zero: C)
      ensures Value() == Empty() && this.zero == zero
    {
      host, device, image, location, last := None, None, None, Invalid, Invalid;
      this.zero := zero;
    }

    method UpdateLocation(at: Location)
      modifies this`location, this`last
      ensures last == old(location) && location == at
    {
      last := location;
      location := at;
    }

    /** The host array, with the contents of the buffer. */
    method GetHostArray() returns (data: C)
      requires Valid(Value())
      modifies this
      ensures Value() == Accessed(old(Value()), Host, zero, zero) && Contents(Value()) == Some(data)
    {
      if host == None {
        host := Some(zero);
      }
      if location == Device && device != None {
        host := device;
      }
      if location == Image && image != None {
        host := image;
      }
      UpdateLocation(Host);
      data := host.value;
    }

    /** The device array; `junk` is what happens to be in fresh device memory. */
    method GetDeviceArray(junk: C) returns (data: C)
      requires Valid(Value())
      modifies this
      ensures Value() == Accessed(old(Value()), Device, zero, junk) && Contents(Value()) == Some(data)
    {
      if device == None {
        device := Some(junk);
      }
      if location == Host && host != None {
        device := host;
      }
      if location == Image && device != None {
        device := image;
      }
      UpdateLocation(Device);
      data := device.value;
    }

    method GetDeviceImage(junk: C) returns (data: C)
      requires Valid(Value())
      modifies this
      ensures Value() == Accessed(old(Value()), Image, zero, junk) && Contents(Value()) == Some(data)
    {
      if image == None {
        image := Some(junk);
      }
      if location == Host && host != None {
        image := host;
      }
      if location == Device && device != None {
        image := device;
      }
      UpdateLocation(Image);
      data := image.value;
    }

    /** A write through the array that the last access returned. */
    method Write(c: C)
      requires Valid(Value()) && location != Invalid
      modifies this
      ensures Value() == Written(old(Value()), c) && Contents(Value()) == Some(c)
    {
      match location
      case Host => host := Some(c);
      case Device => device := Some(c);
      case Image => image := Some(c);
    }

    /** The data at one place. */
    function DataAt(at: Location): C
      reads this
      requires ArrayAt(Value(), at).Some?
    {
      ArrayAt(Value(), at).value
    }

    method Transfer(at: Location, c: C)
      requires at != Invalid
      modifies this`host, this`device, this`image
      ensures Value() == WithArray(old(Value()), at, c)
    {
      match at
      case Host => host := Some(c);
      case Device => device := Some(c);
      case Image => image := Some(c);
    }
  }

  /** Copies the contents of `src` to `dst`, which may be the same buffer, between buffers of the same
      dimensions. The table of nine transfers reads at the location of the source and writes at that
      of the destination. */
  method CopyBuffer<C(==)>(src: UfoBuffer<C>, dst: UfoBuffer<C>, junk: C)
    requires Valid(src.Value()) && Valid(dst.Value())
    modifies src, dst
    ensures src != dst ==> src.Value() == Sourced(old(src.Value()), src.zero)
    ensures src != dst ==> dst.Value() == Received(old(dst.Value()), src.Value())
    ensures src == dst ==> dst.Value() == Sourced(old(src.Value()), src.zero)
    ensures Valid(src.Value()) && Valid(dst.Value()) && Contents(dst.Value()) == Contents(src.Value())
  {
    if src.location == Invalid {
      src.host := Some(src.zero);
      src.location := Host;
    }
    if dst.location == Invalid || (dst.host == None && dst.device == None && dst.image == None) {
      dst.Transfer(src.location, if src.location == Host then dst.zero else junk);
      dst.location := src.location;
    }
    dst.Transfer(dst.location, src.DataAt(src.location));
  }

  // Any sequence of operations on any number of buffers.

  datatype Op<+C> = Access(id: nat, at: Location, junk: C) | Put(id: nat, c: C) | Copy(src: nat, dst: nat)

  predicate OpOk<C>(op: Op<C>, count: nat) {
    match op
    case Access(id, at, _) => id < count && at != Invalid
    case Put(id, _) => id < count
    case Copy(src, dst) => src < count && dst < count
  }

  ghost predicate AllValid<C>(stores: seq<Store<C>>) {
    forall i :: 0 <= i < |stores| ==> Valid(stores[i])
  }

  ghost function Step<C>(stores: seq<Store<C>>, op: Op<C>, zero: C): (r: seq<Store<C>>)
    requires AllValid(stores) && OpOk(op, |stores|)
    ensures |r| == |stores| && AllValid(r)
  {
    match op
    case Access(id, at, junk) => stores[id := Accessed(stores[id], at, zero, junk)]
    case Put(id, c) => stores[id := Written(stores[id], c)]
    case Copy(src, dst) =>
      var s := Sourced(stores[src], zero);
      if src == dst then stores[src := s] else stores[src := s][dst := Received(stores[dst], s)]
  }

  ghost predicate OpsOk<C>(ops: seq<Op<C>>, count: nat) {
    forall k :: 0 <= k < |ops| ==> OpOk(ops[k], count)
  }

  /** The buffers after a sequence of operations on fresh ones. */
  ghost function After<C>(ops: seq<Op<C>>, count: nat, zero: C): (r: seq<Store<C>>)
    requires OpsOk(ops, count)
    ensures |r| == count && AllValid(r)
  {
    if ops == [] then seq(count, _ => Empty())
    else Step(After(ops[..|ops| - 1], count, zero), ops[|ops| - 1], zero)
  }

  /** The contents of one logical array per buffer, whatever the places: what was last written or copied
      to it. The first access of a buffer finds zeros in host memory, or anything in device memory. */
  function LastContents<C>(ops: seq<Op<C>>, zero: C, id: nat): Option<C> {
    if ops == [] then None
    else
      var n := |ops| - 1;
      var before := LastContents(ops[..n], zero, id);
      match ops[n]
      case Access(i, at, junk) => if i == id && before.None? then Some(FreshAt(at, zero, junk)) else before
      case Put(i, c) => if i == id && before.Some? then Some(c) else before
      case Copy(src, dst) =>
        if id == dst then
          var from := LastContents(ops[..n], zero, src);
          if from.Some? then from else Some(zero)
        else if id == src && before.None? then Some(zero)
        else before
  }

  /** Coherence: under any sequence of operations every buffer behaves like one logical array. */
  lemma {:induction false} Coherent<C>(ops: seq<Op<C>>, count: nat, zero: C, id: nat)
    requires OpsOk(ops, count) && id < count
    ensures Valid(After(ops, count, zero)[id]) && Contents(After(ops, count, zero)[id]) == LastContents(ops, zero, id)
  {
    if ops != [] {
      var n := |ops| - 1;
      Coherent(ops[..n], count, zero, id);
      if ops[n].Copy? {
        Coherent(ops[..n], count, zero, ops[n].src);
      }
    }
  }

  /** An access returns the logical contents, at the place that was asked for. */
  lemma AccessReturns<C>(ops: seq<Op<C>>, count: nat, zero: C, id: nat, at: Location, junk: C)
    requires OpsOk(ops, count) && id < count && at != Invalid
    ensures var r := Step(After(ops, count, zero), Access(id, at, junk), zero)[id];
            && r.location == at
            && (LastContents(ops, zero, id).Some? ==> ArrayAt(r, at) == LastContents(ops, zero, id))
  {
    Coherent(ops, count, zero, id);
  }

  predicate Changes<C>(op: Op<C>, id: nat) {
    (op.Put? && op.id == id) || (op.Copy? && op.dst == id)
  }

  /** What was written stays until the next write or copy to the buffer, through all accesses. */
  lemma {:induction false} LastWriteStays<C>(ops: seq<Op<C>>, zero: C, k: nat, id: nat, c: C)
    requires k < |ops| && ops[k] == Put(id, c) && LastContents(ops[..k], zero, id).Some?
    requires forall j :: k < j < |ops| ==> !Changes(ops[j], id)
    ensures LastContents(ops, zero, id) == Some(c)
  {
    var n := |ops| - 1;
    if k < n {
      assert ops[..n][..k] == ops[..k];
      LastWriteStays(ops[..n], zero, k, id, c);
    }
  }

  /** A copy makes the contents equal, and later changes of one buffer do not show in the other. */
  lemma {:induction false} CopiesAreApart<C>(ops: seq<Op<C>>, zero: C, k: nat, src: nat, dst: nat)
    requires k < |ops| && ops[k] == Copy(src, dst) && LastContents(ops[..k], zero, src).Some?
    requires forall j :: k < j < |ops| ==> !Changes(ops[j], dst)
    ensures LastContents(ops, zero, dst) == LastContents(ops[..k], zero, src)
  {
    var n := |ops| - 1;
    if k < n {
      assert ops[..n][..k] == ops[..k];
      CopiesAreApart(ops[..n], zero, k, src, dst);
    }
  }
}
