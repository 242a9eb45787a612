/** The thin OpenCL helper layer: error-message formatting, N-dimensional
    ranges, native memory objects and their factories, and page-aligned host
    arrays. */
module OCLHelper {
  import opened Common
  import opened Native

  // ---------------------------------------------------------------------------
  // Error messages

  /** The message of a native-call failure: the description, then the status
      as the enum prints it, then its integer value in parentheses. */
  function AppendErrCode(description: string, code: ErrorCode): string
  {
    description + CodeText(code) + "(" + IntToString(code.value) + ")"
  }

  /** Reads back the integer status at the end of a failure message: the text
      between the last '(' and a final ')'. */
  function ReadErrCode(message: string): Option<int>
  {
    if |message| > 0 && message[|message| - 1] == ')' then
      var body := message[..|message| - 1];
      var open := LastIndexOf(body, '(');
      if open < 0 then None else ParseInt(body[open + 1..])
    else None
  }

  lemma NoParenInDecimal(i: int)
    ensures '(' !in IntToString(i)
  {
    var s := IntToString(i);
    if i < 0 {
      assert s == [s[0]] + s[1..];
    }
  }

  /** Whatever precedes it, a parenthesised decimal at the end reads back. */
  lemma ParenthesisedReadsBack(prefix: string, i: int)
    ensures ReadErrCode(prefix + "(" + IntToString(i) + ")") == Some(i)
  {
    var digits := IntToString(i);
    var message := prefix + "(" + digits + ")";
    assert message == prefix + ['('] + digits + [')'];
    var body := message[..|message| - 1];
    assert body == prefix + ['('] + digits;
    NoParenInDecimal(i);
    LastIndexOfSplit(prefix, '(', digits);
    assert body[|prefix| + 1..] == digits;
    ParseIntToString(i);
  }

  /** Every failure message carries the status code it was built from,
      whatever the description and the code's name. */
  lemma AppendErrCodeReadsBack(description: string, code: ErrorCode)
    ensures ReadErrCode(AppendErrCode(description, code)) == Some(code.value as int)
  {
    ParenthesisedReadsBack(description + CodeText(code), code.value);
  }

  // ---------------------------------------------------------------------------
  // NDRange

  /** A work size of up to three dimensions: a dimension count and three
      size slots, of which the first `Dimensions` are meaningful. */
  datatype NDRange = NDRange(Dimensions: u32, Sizes: seq<u64>)

  function Product(s: seq<u64>): int
  {
    if s == [] then 1 else s[0] * Product(s[1..])
  }

  lemma ProductOfFew(a: u64, b: u64, c: u64)
    ensures Product([]) == 1 && Product([a]) == a
    ensures Product([a, b]) == a * b && Product([a, b, c]) == a * b * c
  {
    assert [a, b, c][1..] == [b, c];
    assert [b, c][1..] == [c];
    assert [a, b][1..] == [b];
    assert Product([a, b, c]) == a * Product([b, c]);
    assert Product([c]) == c * Product([]) == c;
    assert Product([b, c]) == b * Product([c]) == b * c;
  }

  /** The number of work-items a launch over this range covers: the product
      of the sizes of the dimensions the driver is told about. */
  function WorkItems(r: NDRange): int
    requires r.Dimensions <= |r.Sizes|
  {
    Product(r.Sizes[..r.Dimensions])
  }

  /** `new NDRange()`: no dimensions, all slots zero; used as "no offset". */
  function Empty(): (r: NDRange)
    ensures r.Dimensions == 0 && |r.Sizes| == 3
    ensures forall i :: 0 <= i < 3 ==> r.Sizes[i] == 0
  {
    NDRange(0, [0, 0, 0])
  }

  function NDRange1(size0: u64): (r: NDRange)
    ensures r.Dimensions == 1 && r.Sizes == [size0, 1, 1]
    ensures WorkItems(r) == size0
  {
    var r := NDRange(1, [size0, 1, 1]);
    assert r.Sizes[..1] == [size0];
    ProductOfFew(size0, 1, 1);
    r
  }

  function NDRange2(size0: u64, size1: u64): (r: NDRange)
    ensures r.Dimensions == 2 && r.Sizes == [size0, size1, 1]
    ensures WorkItems(r) == size0 * size1
  {
    var r := NDRange(2, [size0, size1, 1]);
    assert r.Sizes[..2] == [size0, size1];
    ProductOfFew(size0, size1, 1);
    r
  }

  /** The three-argument constructor as written: it stores all three sizes but
      sets the dimension count to 1. */
  function NDRange3AsWritten(size0: u64, size1: u64, size2: u64): (r: NDRange)
    ensures r.Dimensions == 1 && r.Sizes == [size0, size1, size2]
  {
    NDRange(1, [size0, size1, size2])
  }

  /** A launch over a range built by the three-argument constructor as written
      covers only the first dimension: a 2 x 2 x 2 range runs 2 work-items, not 8. */
  lemma NDRange3AsWrittenDropsDimensions(size0: u64, size1: u64, size2: u64)
    ensures WorkItems(NDRange3AsWritten(size0, size1, size2)) == size0
    ensures WorkItems(NDRange3AsWritten(2, 2, 2)) == 2 != 2 * 2 * 2
  {
    var r := NDRange3AsWritten(size0, size1, size2);
    assert r.Sizes[..1] == [size0];
    assert NDRange3AsWritten(2, 2, 2).Sizes[..1] == [2];
    ProductOfFew(size0, size1, size2);
    ProductOfFew(2, 2, 2);
  }

  /** The three-argument constructor as intended: three dimensions. */
  function NDRange3(size0: u64, size1: u64, size2: u64): (r: NDRange)
    ensures r.Dimensions == 3 && r.Sizes == [size0, size1, size2]
    ensures WorkItems(r) == size0 * size1 * size2
  {
    var r := NDRange(3, [size0, size1, size2]);
    assert r.Sizes[..3] == r.Sizes;
    ProductOfFew(size0, size1, size2);
    r
  }

  /** The indexer `this[i]`: `Sizes[i]`, with the array's bounds check. */
  function SizeAt(r: NDRange, i: int): (res: Result<u64>)
    requires |r.Sizes| == 3
    ensures 0 <= i < 3 <==> res.Ok?
    ensures res.Ok? ==> res.value == r.Sizes[i]
    ensures res.Throw? ==> res.exn == IndexOutOfRangeException
  {
    if 0 <= i < 3 then Ok(r.Sizes[i]) else Throw(IndexOutOfRangeException)
  }

  // ---------------------------------------------------------------------------
  // Buffer<T>: a native memory object

  /** The requested byte size `(nuint)sizeof(T) * length`, wrapping like nuint. */
  function ByteSize(count: int, t: NumType): (size: u64)
    ensures 0 <= count && SizeOf(t) * count < 0x1_0000_0000_0000_0000 ==> size == SizeOf(t) * count
  {
    ToU64(SizeOf(t) * ToU64(count))
  }

  /** A negative `int` element count, as `(nuint)size * ElementSize` sees it:
      the conversion sign-extends and the product wraps, so the request is
      within 2^34 bytes of 2^64, more than any address space holds. */
  lemma NegativeSizeOverAllocates(size: i32, t: NumType)
    requires size < 0
    ensures ByteSize(size, t) == 0x1_0000_0000_0000_0000 + SizeOf(t) * size
    ensures ByteSize(size, t) >= 0x1_0000_0000_0000_0000 - 0x4_0000_0000
  {
    var k := SizeOf(t);
    assert ToU64(size) == 0x1_0000_0000_0000_0000 + size;
    assert k * ToU64(size) == (0x1_0000_0000_0000_0000 + k * size) + (k - 1) * 0x1_0000_0000_0000_0000;
  }

  /** Whether a buffer created with these caller flags lives in host memory. */
  predicate IsOnHostFor(flags: MemFlags)
  {
    HasFlag(flags, AllocHostPtr) || HasFlag(flags, UseHostPtr)
  }

  /** The native create call of `NewCopyHost`: the caller's flags plus
      CopyHostPtr, the byte size of the initial data, and that data. */
  function CopyHostRequest(flags: MemFlags, count: nat, t: NumType): Op
  {
    CreateBuffer(CopyHostPtr | flags, ByteSize(count, t), Some(count))
  }

  /** The native create call of `NewAllocHost`: the caller's flags plus
      AllocHostPtr, and no host data. */
  function AllocHostRequest(flags: MemFlags, length: u64, t: NumType): Op
  {
    CreateBuffer(AllocHostPtr | flags, ByteSize(length, t), None)
  }

  /** The native create call of the public constructor: the caller's flags
      unchanged, and no host data. */
  function PlainRequest(flags: MemFlags, length: u64, t: NumType): Op
  {
    CreateBuffer(flags, ByteSize(length, t), None)
  }

  /** `NewCopyHost` asks for the byte size of the initial data, hands that
      data over, and adds CopyHostPtr to the caller's flags and nothing else. */
  lemma CopyHostRequestFlags(flags: MemFlags, count: nat, t: NumType)
    ensures var op := CopyHostRequest(flags, count, t);
      && op.CreateBuffer? && op.hostElements == Some(count) && op.size == ByteSize(count, t)
      && HasFlag(op.flags, CopyHostPtr) && HasFlag(op.flags, flags)
      && (forall f: MemFlags :: HasFlag(op.flags, f) <==> HasFlag(flags | CopyHostPtr, f))
  {
    assert CopyHostPtr | flags == flags | CopyHostPtr;
  }

  /** `NewAllocHost` adds AllocHostPtr to the caller's flags, so its buffer
      is in host memory, and hands over no data. */
  lemma AllocHostRequestFlags(flags: MemFlags, length: u64, t: NumType)
    ensures var op := AllocHostRequest(flags, length, t);
      && op.CreateBuffer? && op.hostElements == None && op.size == ByteSize(length, t)
      && HasFlag(op.flags, AllocHostPtr) && HasFlag(op.flags, flags) && IsOnHostFor(op.flags)
  {
  }

  const CreateFailure := "Failed to create buffer, code: "

  /** A native memory object holding elements of type T. */
  class Buffer<T> {
    const Handle: Handle
    const IsOnHost: bool

    constructor Wrap(handle: Handle, isOnHost: bool)
      ensures Handle == handle && IsOnHost == isOnHost
    {
      Handle := handle;
      IsOnHost := isOnHost;
    }

    /** A buffer initialised from host data. */
    static method NewCopyHost(api: Api, flags: MemFlags, initial: seq<T>, t: NumType) returns (r: Result<Buffer<T>>)
      modifies api
      ensures var op := CopyHostRequest(flags, |initial|, t);
        var status := Answer(api, old(api.log), op);
        && api.log == old(api.log) + [Call(op, status)]
        && (r.Ok? <==> status == Success)
        && (r.Ok? ==> fresh(r.value) && r.value.Handle == |old(api.log)| && r.value.IsOnHost == IsOnHostFor(flags))
        && (r.Throw? ==> r.exn == Exception(AppendErrCode(CreateFailure, status)))
    {
      var status, h := api.Invoke(CopyHostRequest(flags, |initial|, t));
      if status != Success {
        return Throw(Exception(AppendErrCode(CreateFailure, status)));
      }
      var b := new Buffer<T>.Wrap(h, IsOnHostFor(flags));
      r := Ok(b);
    }

    /** A buffer allocated in host-accessible memory, uninitialised. */
    static method NewAllocHost(api: Api, flags: MemFlags, length: u64, t: NumType) returns (r: Result<Buffer<T>>)
      modifies api
      ensures var op := AllocHostRequest(flags, length, t);
        var status := Answer(api, old(api.log), op);
        && api.log == old(api.log) + [Call(op, status)]
        && (r.Ok? <==> status == Success)
        && (r.Ok? ==> fresh(r.value) && r.value.Handle == |old(api.log)| && r.value.IsOnHost)
        && (r.Throw? ==> r.exn == Exception(AppendErrCode(CreateFailure, status)))
    {
      var status, h := api.Invoke(AllocHostRequest(flags, length, t));
      if status != Success {
        return Throw(Exception(AppendErrCode(CreateFailure, status)));
      }
      var b := new Buffer<T>.Wrap(h, true);
      r := Ok(b);
    }

    /** The public constructor `new Buffer<T>(context, flags, length)`. */
    static method New(api: Api, flags: MemFlags, length: u64, t: NumType) returns (r: Result<Buffer<T>>)
      modifies api
      ensures var op := PlainRequest(flags, length, t);
        var status := Answer(api, old(api.log), op);
        && api.log == old(api.log) + [Call(op, status)]
        && (r.Ok? <==> status == Success)
        && (r.Ok? ==> fresh(r.value) && r.value.Handle == |old(api.log)| && r.value.IsOnHost == IsOnHostFor(flags))
        && (r.Throw? ==> r.exn == Exception(AppendErrCode(CreateFailure, status)))
    {
      var status, h := api.Invoke(PlainRequest(flags, length, t));
      if status != Success {
        return Throw(Exception(AppendErrCode(CreateFailure, status)));
      }
      var b := new Buffer<T>.Wrap(h, IsOnHostFor(flags));
      r := Ok(b);
    }
  }

  // ---------------------------------------------------------------------------
  // DeprecatedArray<T>: page-aligned host memory (SparkOCL's Array<T> is the same class)

  class DeprecatedArray<T(0)> {
    /** The aligned native allocation. */
    const Buf: array<T>
    const Count: nat
    const ElementSize: nat
    var disposedValue: bool
    /** How many times the allocation has been freed. */
    ghost var frees: nat

    ghost predicate Valid()
      reads this
    {
      Buf.Length == Count && frees == (if disposedValue then 1 else 0)
    }

    /** `new DeprecatedArray<T>(span)`: a copy of the span. */
    constructor FromSpan(span: seq<T>, t: NumType)
      ensures Valid() && fresh(Buf) && !disposedValue
      ensures Count == |span| && Buf[..] == span && ElementSize == SizeOf(t)
    {
      Buf := new T[|span|](i requires 0 <= i < |span| => span[i]);
      Count := |span|;
      ElementSize := SizeOf(t);
      disposedValue := false;
      frees := 0;
    }

    /** A successful allocation of `size` elements, contents unspecified. */
    constructor Sized(size: nat, t: NumType)
      ensures Valid() && fresh(Buf) && !disposedValue
      ensures Count == size && ElementSize == SizeOf(t)
    {
      Buf := new T[size];
      Count := size;
      ElementSize := SizeOf(t);
      disposedValue := false;
      frees := 0;
    }

    /** `new DeprecatedArray<T>(size)`: `size` elements, contents unspecified.
        A negative size makes `AlignedAlloc` throw, since the byte count it is
        asked for wraps past any address space (`NegativeSizeOverAllocates`). */
    static method WithSize(size: i32, t: NumType) returns (r: Result<DeprecatedArray<T>>)
      ensures r.Throw? <==> size < 0
      ensures r.Throw? ==> r.exn == OutOfMemoryException
      ensures r.Ok? ==> && fresh(r.value) && fresh(r.value.Buf) && r.value.Valid() && !r.value.disposedValue
                        && r.value.Count == size && r.value.ElementSize == SizeOf(t)
    {
      if size < 0 {
        return Throw(OutOfMemoryException);
      }
      var a := new DeprecatedArray<T>.Sized(size, t);
      r := Ok(a);
    }

    /** The indexer's getter; it does no bounds check, so the caller must stay
        within the allocation, and must not use a freed array. */
    function Get(i: int): T
      reads this, Buf
      requires Valid() && !disposedValue && 0 <= i < Count
    {
      Buf[i]
    }

    /** The indexer's setter. */
    method Set(i: int, value: T)
      requires Valid() && !disposedValue && 0 <= i < Count
      modifies Buf
      ensures Buf[..] == old(Buf[..])[i := value]
      ensures Get(i) == value
      ensures forall j :: 0 <= j < Count && j != i ==> Get(j) == old(Get(j))
    {
      Buf[i] := value;
    }

    /** `AsSpan()`: elements 0 .. Count-1 in order. */
    function AsSpan(): (s: seq<T>)
      reads this, Buf
      requires Valid()
      ensures |s| == Count && forall i :: 0 <= i < Count ==> s[i] == Buf[i]
    {
      Buf[..Count]
    }

    /** `GetEnumerator()`: yields `this[i]` for i = 0 .. Count-1. */
    method GetEnumerator() returns (items: seq<T>)
      requires Valid() && !disposedValue
      ensures items == AsSpan()
    {
      items := [];
      for i := 0 to Count
        invariant items == Buf[..i]
      {
        items := items + [Get(i)];
      }
    }

    /** `CopyTo(destination)`: this array's elements into the start of the
        destination; a shorter destination makes Span.CopyTo throw. */
    method CopyTo(destination: DeprecatedArray<T>) returns (r: Outcome)
      requires Valid() && destination.Valid() && !disposedValue && !destination.disposedValue
      modifies destination.Buf
      ensures r.Pass? <==> Count <= destination.Count
      ensures r.Pass? ==> destination.Buf[..] == old(Buf[..]) + old(destination.Buf[Count..])
      ensures r.Fail? ==> r.exn == ArgumentException("Destination is too short. (Parameter 'destination')")
                          && destination.Buf[..] == old(destination.Buf[..])
    {
      if destination.Count < Count {
        return Fail(ArgumentException("Destination is too short. (Parameter 'destination')"));
      }
      ghost var src := Buf[..];
      ghost var rest := destination.Buf[Count..];
      forall i | 0 <= i < Count {
        destination.Buf[i] := Buf[i];
      }
      assert destination.Buf[..] == src + rest by {
        assert forall i :: 0 <= i < Count ==> destination.Buf[i] == src[i];
        assert forall i :: Count <= i < destination.Count ==> destination.Buf[i] == rest[i - Count];
      }
      r := Pass;
    }

    /** `Dispose()`: frees the allocation the first time only. */
    method Dispose()
      requires Valid()
      modifies this
      ensures Valid() && disposedValue && frees == 1
      ensures frees == old(frees) + (if old(disposedValue) then 0 else 1)
    {
      if !disposedValue {
        frees := frees + 1;
        disposedValue := true;
      }
    }
  }
}
