/** The SparkOCL binding layer: events, the command queue with its enqueue
    conventions (wait lists, offsets, byte counts, when an event is produced),
    native kernels and their argument queries, and buffers over host arrays.
    SparkOCL's `Array<T>` is the same class as OCLHelper's `DeprecatedArray<T>`,
    and its `NDRange` and `AppendErrCode` are the OCLHelper ones. */
module SparkOCL {
  import opened Common
  import opened Native
  import opened OCLHelper

  // ---------------------------------------------------------------------------
  // Failure messages (the write and copy methods reuse the read and unmap ones)

  const WaitFailure := "Couldn't wait for event, code: "
  const QueueFailure := "Couldn't create command queue, code: "
  const KernelFailure := "Couldn't enqueue kernel, code: "
  const MapFailure := "Couldn't enqueue buffer map, code: "
  const ReadFailure := "Couldn't enqueue buffer read, code: "
  const UnmapFailure := "Couldn't enqueue memory object unmap, code: "

  // ---------------------------------------------------------------------------
  // Events

  /** An event: its handle and the device timestamps the driver reports for it. */
  datatype Event = Event(Handle: Handle, times: Profile)

  /** The event wrapping the handle a call produced. */
  function EventFor(api: Api, h: Handle): (ev: Event)
    ensures ev.Handle == h
  {
    Event(h, api.profile(h))
  }

  /** `GetProfilingInfo(info)`: the timestamp the driver reports. */
  function GetProfilingInfo(ev: Event, info: ProfilingInfo): u64
  {
    match info
    case Queued => ev.times.queued
    case Submit => ev.times.submit
    case Start => ev.times.start
    case End => ev.times.end
    case Complete => ev.times.complete
  }

  /** `Event.Wait()`: a wait on this one event. */
  method Wait(api: Api, ev: Event) returns (r: Outcome)
    modifies api
    ensures api.log == old(api.log) + [Call(WaitForEvents([ev.Handle]), Answer(api, old(api.log), WaitForEvents([ev.Handle])))]
    ensures r.Pass? <==> Answer(api, old(api.log), WaitForEvents([ev.Handle])) == Success
    ensures r.Fail? ==> r.exn == Exception(AppendErrCode(WaitFailure, Answer(api, old(api.log), WaitForEvents([ev.Handle]))))
  {
    var status, _ := api.Invoke(WaitForEvents([ev.Handle]));
    if status != Success {
      return Fail(Exception(AppendErrCode(WaitFailure, status)));
    }
    r := Pass;
  }

  // ---------------------------------------------------------------------------
  // Wait lists

  /** An optional array of events (a .NET array has fewer than 2^31 elements). */
  type WaitList = w: Option<seq<Event>> | w.None? || |w.value| < 0x8000_0000 witness None

  /** `Nintize`: the handles of the events, in order; null stays null. */
  function Nintize(evs: Option<seq<Event>>): (r: Option<seq<Handle>>)
    ensures r.None? <==> evs.None?
    ensures r.Some? ==> |r.value| == |evs.value|
    ensures r.Some? ==> forall i :: 0 <= i < |evs.value| ==> r.value[i] == evs.value[i].Handle
  {
    match evs
    case None => None
    case Some(s) => Some(seq(|s|, i requires 0 <= i < |s| => s[i].Handle))
  }

  /** The event count handed to the driver: 0 for a null list, else its length. */
  function WaitCount(w: WaitList): u32
  {
    if w.None? then 0 else |w.value|
  }

  /** The event pointer handed to the driver: the handles pinned with `fixed`,
      which is null for a null list and for an empty array alike. */
  function WaitPointer(w: WaitList): Option<seq<Handle>>
  {
    if w.None? || |w.value| == 0 then None else Nintize(w)
  }

  /** The (count, pointer) pair is always one OpenCL accepts: the pointer is
      null exactly when the count is 0, and otherwise it lists `count`
      handles, those of the events in order. */
  lemma WaitListConsistent(w: WaitList)
    ensures WaitCount(w) == 0 <==> WaitPointer(w).None?
    ensures WaitPointer(w).Some? ==> |WaitPointer(w).value| == WaitCount(w)
    ensures WaitPointer(w).Some? ==> forall i :: 0 <= i < WaitCount(w) ==> WaitPointer(w).value[i] == w.value[i].Handle
  {
  }

  // ---------------------------------------------------------------------------
  // The native calls the enqueue methods make

  /** `clEnqueueNDRangeKernel` as `EnqueueNDRangeKernel` calls it. */
  function KernelLaunch(kernel: Handle, offset: NDRange, global: NDRange, local: NDRange, w: WaitList): (op: Op)
    ensures op.EnqueueNDRangeKernel? && op.kernel == kernel
    ensures op.workDim == global.Dimensions && op.global == global.Sizes && op.local == local.Sizes
    ensures op.globalOffset.None? <==> offset.Dimensions == 0
    ensures op.globalOffset.Some? ==> op.globalOffset.value == offset.Sizes
    ensures op.numEvents == WaitCount(w) && op.eventList == WaitPointer(w)
  {
    EnqueueNDRangeKernel(kernel, global.Dimensions, if offset.Dimensions != 0 then Some(offset.Sizes) else None,
                         global.Sizes, local.Sizes, WaitCount(w), WaitPointer(w))
  }

  /** `clEnqueueMapBuffer` as `EnqueueMapBuffer` calls it: `count` elements, no wait list. */
  function MapRequest(buffer: Handle, blocking: bool, flags: MapFlags, offset: u64, count: u64, t: NumType): (op: Op)
    ensures op.EnqueueMapBuffer? && op.buffer == buffer && op.mapFlags == flags && op.offset == offset
    ensures op.size == ByteSize(count, t) && op.numEvents == 0 && op.eventList.None?
  {
    EnqueueMapBuffer(buffer, blocking, flags, offset, ByteSize(count, t), 0, None)
  }

  /** `clEnqueueReadBuffer` as `EnqueueReadBuffer` calls it: the destination's
      `count` elements, and the caller's wait list. */
  function ReadRequest(buffer: Handle, blocking: bool, offset: u64, count: nat, t: NumType, w: WaitList): (op: Op)
    ensures op.EnqueueReadBuffer? && op.buffer == buffer && op.offset == offset
    ensures op.size == ByteSize(count, t) && op.numEvents == WaitCount(w) && op.eventList == WaitPointer(w)
  {
    EnqueueReadBuffer(buffer, blocking, offset, ByteSize(count, t), WaitCount(w), WaitPointer(w))
  }

  /** `clEnqueueWriteBuffer` as `EnqueueWriteBuffer` calls it: never a wait list. */
  function WriteRequest(buffer: Handle, blocking: bool, offset: u64, count: nat, t: NumType): (op: Op)
    ensures op.EnqueueWriteBuffer? && op.buffer == buffer && op.offset == offset
    ensures op.size == ByteSize(count, t) && op.numEvents == 0 && op.eventList.None?
  {
    EnqueueWriteBuffer(buffer, blocking, offset, ByteSize(count, t), 0, None)
  }

  /** `clEnqueueUnmapMemObject` as `EnqueueUnmapMemObject` calls it: never a wait list. */
  function UnmapRequest(buffer: Handle): (op: Op)
    ensures op.EnqueueUnmapMemObject? && op.buffer == buffer && op.numEvents == 0 && op.eventList.None?
  {
    EnqueueUnmapMemObject(buffer, 0, None)
  }

  /** `clEnqueueCopyBuffer` as `EnqueueCopyBuffer` calls it: `count` elements. */
  function CopyRequest(src: Handle, dst: Handle, srcOffset: u64, dstOffset: u64, count: u64, t: NumType, w: WaitList): (op: Op)
    ensures op.EnqueueCopyBuffer? && op.src == src && op.dst == dst
    ensures op.srcOffset == srcOffset && op.dstOffset == dstOffset
    ensures op.size == ByteSize(count, t) && op.numEvents == WaitCount(w) && op.eventList == WaitPointer(w)
  {
    EnqueueCopyBuffer(src, dst, srcOffset, dstOffset, ByteSize(count, t), WaitCount(w), WaitPointer(w))
  }

  /** The property list of a profiling-enabled queue:
      CL_QUEUE_PROPERTIES, CL_QUEUE_PROFILING_ENABLE, terminator. */
  const ProfilingProperties: seq<u64> := [0x1093, 2, 0]

  /** A mapped region: the host pointer the driver returned, and the event. */
  datatype Mapped<T> = Mapped(ptr: array<T>, ev: Event)

  // ---------------------------------------------------------------------------
  // The command queue

  class CommandQueue {
    const Handle: Handle
    const api: Api

    constructor Wrap(api: Api, h: Handle)
      ensures this.api == api && Handle == h
    {
      this.api := api;
      Handle := h;
    }

    /** `new CommandQueue(context, device)`: a queue with profiling enabled. */
    static method Create(api: Api, device: Handle) returns (r: Result<CommandQueue>)
      modifies api
      ensures var op := CreateCommandQueue(device, ProfilingProperties);
        && api.log == old(api.log) + [Call(op, Answer(api, old(api.log), op))]
        && (r.Ok? <==> Answer(api, old(api.log), op) == Success)
        && (r.Ok? ==> fresh(r.value) && r.value.api == api && r.value.Handle == |old(api.log)|)
        && (r.Throw? ==> r.exn == Exception(AppendErrCode(QueueFailure, Answer(api, old(api.log), op))))
    {
      var status, h := api.Invoke(CreateCommandQueue(device, ProfilingProperties));
      if status != Success {
        return Throw(Exception(AppendErrCode(QueueFailure, status)));
      }
      var q := new CommandQueue.Wrap(api, h);
      r := Ok(q);
    }

    /** `EnqueueNDRangeKernel`: the event is wrapped before the status is
        checked, so the caller gets it whether or not the launch succeeded. */
    method EnqueueNDRangeKernel(kernel: Handle, offset: NDRange, global: NDRange, local: NDRange, waitList: WaitList)
      returns (ev: Event, r: Outcome)
      modifies api
      ensures var op := KernelLaunch(kernel, offset, global, local, waitList);
        && api.log == old(api.log) + [Call(op, Answer(api, old(api.log), op))]
        && ev == EventFor(api, |old(api.log)|)
        && (r.Pass? <==> Answer(api, old(api.log), op) == Success)
        && (r.Fail? ==> r.exn == Exception(AppendErrCode(KernelFailure, Answer(api, old(api.log), op))))
    {
      var status, h := api.Invoke(KernelLaunch(kernel, offset, global, local, waitList));
      ev := EventFor(api, h);
      if status != Success {
        return ev, Fail(Exception(AppendErrCode(KernelFailure, status)));
      }
      r := Pass;
    }

    /** `EnqueueMapBuffer`: no event on failure. */
    method EnqueueMapBuffer<T(0)>(buffer: Handle, blocking: bool, flags: MapFlags, offset: u64, count: u64, t: NumType)
      returns (r: Result<Mapped<T>>)
      modifies api
      ensures var op := MapRequest(buffer, blocking, flags, offset, count, t);
        && api.log == old(api.log) + [Call(op, Answer(api, old(api.log), op))]
        && (r.Ok? <==> Answer(api, old(api.log), op) == Success)
        && (r.Ok? ==> r.value.ev == EventFor(api, |old(api.log)|) && fresh(r.value.ptr) && r.value.ptr.Length == count)
        && (r.Throw? ==> r.exn == Exception(AppendErrCode(MapFailure, Answer(api, old(api.log), op))))
    {
      var status, h, ptr := api.InvokeMap<T>(MapRequest(buffer, blocking, flags, offset, count, t), count);
      if status != Success {
        return Throw(Exception(AppendErrCode(MapFailure, status)));
      }
      r := Ok(Mapped(ptr, EventFor(api, h)));
    }

    /** `EnqueueReadBuffer`: reads `count` elements into host memory. */
    method EnqueueReadBuffer(buffer: Handle, blocking: bool, offset: u64, count: nat, t: NumType, waitList: WaitList)
      returns (r: Result<Event>)
      modifies api
      ensures var op := ReadRequest(buffer, blocking, offset, count, t, waitList);
        && api.log == old(api.log) + [Call(op, Answer(api, old(api.log), op))]
        && (r.Ok? <==> Answer(api, old(api.log), op) == Success)
        && (r.Ok? ==> r.value == EventFor(api, |old(api.log)|))
        && (r.Throw? ==> r.exn == Exception(AppendErrCode(ReadFailure, Answer(api, old(api.log), op))))
    {
      var status, h := api.Invoke(ReadRequest(buffer, blocking, offset, count, t, waitList));
      if status != Success {
        return Throw(Exception(AppendErrCode(ReadFailure, status)));
      }
      r := Ok(EventFor(api, h));
    }

    /** `EnqueueWriteBuffer`: its failure message says "read", as written. */
    method EnqueueWriteBuffer(buffer: Handle, blocking: bool, offset: u64, count: nat, t: NumType)
      returns (r: Result<Event>)
      modifies api
      ensures var op := WriteRequest(buffer, blocking, offset, count, t);
        && api.log == old(api.log) + [Call(op, Answer(api, old(api.log), op))]
        && (r.Ok? <==> Answer(api, old(api.log), op) == Success)
        && (r.Ok? ==> r.value == EventFor(api, |old(api.log)|))
        && (r.Throw? ==> r.exn == Exception(AppendErrCode(ReadFailure, Answer(api, old(api.log), op))))
    {
      var status, h := api.Invoke(WriteRequest(buffer, blocking, offset, count, t));
      if status != Success {
        return Throw(Exception(AppendErrCode(ReadFailure, status)));
      }
      r := Ok(EventFor(api, h));
    }

    /** `EnqueueUnmapMemObject`. */
    method EnqueueUnmapMemObject(buffer: Handle) returns (r: Result<Event>)
      modifies api
      ensures var op := UnmapRequest(buffer);
        && api.log == old(api.log) + [Call(op, Answer(api, old(api.log), op))]
        && (r.Ok? <==> Answer(api, old(api.log), op) == Success)
        && (r.Ok? ==> r.value == EventFor(api, |old(api.log)|))
        && (r.Throw? ==> r.exn == Exception(AppendErrCode(UnmapFailure, Answer(api, old(api.log), op))))
    {
      var status, h := api.Invoke(UnmapRequest(buffer));
      if status != Success {
        return Throw(Exception(AppendErrCode(UnmapFailure, status)));
      }
      r := Ok(EventFor(api, h));
    }

    /** `EnqueueCopyBuffer`: its failure message says "unmap", as written. */
    method EnqueueCopyBuffer(src: Handle, dst: Handle, srcOffset: u64, dstOffset: u64, count: u64, t: NumType, waitList: WaitList)
      returns (r: Result<Event>)
      modifies api
      ensures var op := CopyRequest(src, dst, srcOffset, dstOffset, count, t, waitList);
        && api.log == old(api.log) + [Call(op, Answer(api, old(api.log), op))]
        && (r.Ok? <==> Answer(api, old(api.log), op) == Success)
        && (r.Ok? ==> r.value == EventFor(api, |old(api.log)|))
        && (r.Throw? ==> r.exn == Exception(AppendErrCode(UnmapFailure, Answer(api, old(api.log), op))))
    {
      var status, h := api.Invoke(CopyRequest(src, dst, srcOffset, dstOffset, count, t, waitList));
      if status != Success {
        return Throw(Exception(AppendErrCode(UnmapFailure, status)));
      }
      r := Ok(EventFor(api, h));
    }
  }

  // ---------------------------------------------------------------------------
  // Argument type names

  /** The characters `Encoding.UTF8.GetString` yields for single-byte (ASCII) input. */
  function Decode(bytes: seq<byte>): (s: string)
    ensures |s| == |bytes| && forall i :: 0 <= i < |bytes| ==> s[i] as int == bytes[i]
  {
    seq(|bytes|, i requires 0 <= i < |bytes| => bytes[i] as char)
  }

  /** The type name in a queried buffer: the bytes before the first NUL,
      decoded; with no NUL, `IndexOf` gives -1 and `GetString` throws. */
  function TypeNameFromBytes(bytes: seq<byte>): (r: Result<string>)
    ensures r.Ok? <==> 0 in bytes
    ensures r.Throw? ==> r.exn == ArgumentOutOfRangeException
  {
    var len := IndexOf(bytes, 0);
    if len < 0 then Throw(ArgumentOutOfRangeException) else Ok(Decode(bytes[..len]))
  }

  /** The name is exactly the decoded bytes before the first NUL, so it
      holds no NUL itself. */
  lemma TypeNameIsPrefix(bytes: seq<byte>)
    requires 0 in bytes
    ensures var name := TypeNameFromBytes(bytes).value;
      && |name| == IndexOf(bytes, 0) && Decode(bytes[..|name|]) == name
      && forall i :: 0 <= i < |name| ==> name[i] != 0 as char
  {
  }

  /** An ASCII name with no NUL in it. */
  predicate IsAsciiName(name: string)
  {
    forall i :: 0 <= i < |name| ==> 0 < name[i] as int < 0x80
  }

  /** What the driver writes for a type name: its bytes and a terminating NUL. */
  function NulTerminated(name: string): (bytes: seq<byte>)
    requires IsAsciiName(name)
    ensures |bytes| == |name| + 1 && bytes[|name|] == 0
  {
    seq(|name|, i requires 0 <= i < |name| => name[i] as int as byte) + [0]
  }

  /** The truncation recovers the name whatever follows the terminator. */
  lemma TypeNameRoundTrip(name: string, tail: seq<byte>)
    requires IsAsciiName(name)
    ensures TypeNameFromBytes(NulTerminated(name) + tail) == Ok(name)
  {
    var p := NulTerminated(name)[..|name|];
    assert NulTerminated(name) == p + [0];
    assert 0 !in p by {
      forall i | 0 <= i < |p| ensures p[i] != 0 {
        assert p[i] == name[i] as int;
      }
    }
    IndexOfSplit(p, 0, tail);
    assert p + [0] + tail == NulTerminated(name) + tail;
    assert (NulTerminated(name) + tail)[..|name|] == p;
    assert Decode(p) == name by {
      forall i | 0 <= i < |name| ensures Decode(p)[i] == name[i] {
        assert Decode(p)[i] as int == p[i] == name[i] as int;
      }
    }
  }

  // ---------------------------------------------------------------------------
  // Native kernels

  function InfoFailure(index: u32): string
  {
    "Failed to get kernel argument info (index = " + NatToString(index) + "), code: "
  }

  /** The size of a kernel argument that is a memory object: `sizeof(nint)`. */
  const HandleSize: u64 := 8

  /** `sizeof(KernelArgAddressQualifier)`: an enum over uint. */
  const QualifierSize: u64 := 4

  /** The native calls a query makes, and what it returns or throws. */
  datatype Step<T> = Step(calls: seq<Call>, result: Result<T>)

  /** The type-name query of argument `index` of kernel `k`, from log `before`:
      a size query, then (if it succeeded) the data query with the size the
      driver reported, then the NUL truncation. */
  function TypeNameStep(api: Api, before: seq<Call>, k: Handle, index: u32): Step<string>
  {
    var sizeQuery := GetKernelArgInfo(k, index, TypeNameInfo, 0);
    var s1 := Answer(api, before, sizeQuery);
    if s1 != Success then Step([Call(sizeQuery, s1)], Throw(Exception(AppendErrCode(InfoFailure(index), s1))))
    else
      var dataQuery := GetKernelArgInfo(k, index, TypeNameInfo, ToU64(|api.argTypeName(k, index)|));
      var s2 := Answer(api, before + [Call(sizeQuery, s1)], dataQuery);
      var calls := [Call(sizeQuery, s1), Call(dataQuery, s2)];
      if s2 != Success then Step(calls, Throw(Exception(AppendErrCode(InfoFailure(index), s2))))
      else Step(calls, TypeNameFromBytes(api.argTypeName(k, index)))
  }

  /** The type-name query asks for the size first and for the bytes second,
      with the size the driver reported; it yields a name only when both
      succeeded and the bytes hold a NUL, and the name is then what precedes
      the first NUL. */
  lemma TypeNameStepShape(api: Api, before: seq<Call>, k: Handle, index: u32)
    ensures var s := TypeNameStep(api, before, k, index);
      && 1 <= |s.calls| <= 2 && s.calls[0].op == GetKernelArgInfo(k, index, TypeNameInfo, 0)
      && (|s.calls| == 2 ==> s.calls[1].op == GetKernelArgInfo(k, index, TypeNameInfo, ToU64(|api.argTypeName(k, index)|)))
      && (s.result.Ok? <==> (forall c :: c in s.calls ==> c.status == Success) && 0 in api.argTypeName(k, index))
      && (s.result.Ok? ==> |s.calls| == 2 && s.result == TypeNameFromBytes(api.argTypeName(k, index)))
  {
    var s := TypeNameStep(api, before, k, index);
    var sizeQuery := GetKernelArgInfo(k, index, TypeNameInfo, 0);
    var s1 := Answer(api, before, sizeQuery);
    if s1 != Success {
      assert s.calls == [Call(sizeQuery, s1)] && s.result.Throw?;
    } else {
      var dataQuery := GetKernelArgInfo(k, index, TypeNameInfo, ToU64(|api.argTypeName(k, index)|));
      var s2 := Answer(api, before + [Call(sizeQuery, s1)], dataQuery);
      assert s.calls == [Call(sizeQuery, s1), Call(dataQuery, s2)];
      assert (forall c :: c in s.calls ==> c.status == Success) <==> s2 == Success;
    }
  }

  /** The failure messages of the three argument setters. The buffer one
      is a plain literal, so it shows `{arg_index}` verbatim. */
  function ScalarBindFailure(t: NumType): string
  {
    "Failed to set kernel argument, arg size: " + NatToString(SizeOf(t)) + ", code: "
  }

  const BufferBindFailure := "Failed to set kernel argument (index = {arg_index}), code: "
  const SizeBindFailure := "Failed to set kernel argument, code: "

  class Kernel {
    const Handle: Handle
    const api: Api

    constructor Wrap(api: Api, h: Handle)
      ensures this.api == api && Handle == h
    {
      this.api := api;
      Handle := h;
    }

    /** `GetArgTypeName`: asks for the size, then for the bytes, then
        truncates at the first NUL. */
    method GetArgTypeName(index: u32) returns (r: Result<string>)
      modifies api
      ensures api.log == old(api.log) + TypeNameStep(api, old(api.log), Handle, index).calls
      ensures r == TypeNameStep(api, old(api.log), Handle, index).result
    {
      var bytes := api.argTypeName(Handle, index);
      var status, sizeCall := api.Invoke(GetKernelArgInfo(Handle, index, TypeNameInfo, 0));
      if status != Success {
        return Throw(Exception(AppendErrCode(InfoFailure(index), status)));
      }
      status, sizeCall := api.Invoke(GetKernelArgInfo(Handle, index, TypeNameInfo, ToU64(|bytes|)));
      if status != Success {
        return Throw(Exception(AppendErrCode(InfoFailure(index), status)));
      }
      r := TypeNameFromBytes(bytes);
    }

    /** `GetArgAddressQualifier`. */
    method GetArgAddressQualifier(index: u32) returns (r: Result<AddressQualifier>)
      modifies api
      ensures var op := GetKernelArgInfo(Handle, index, AddressQualifierInfo, QualifierSize);
        && api.log == old(api.log) + [Call(op, Answer(api, old(api.log), op))]
        && (r.Ok? <==> Answer(api, old(api.log), op) == Success)
        && (r.Ok? ==> r.value == api.argQualifier(Handle, index))
        && (r.Throw? ==> r.exn == Exception(AppendErrCode(InfoFailure(index), Answer(api, old(api.log), op))))
    {
      var status, _ := api.Invoke(GetKernelArgInfo(Handle, index, AddressQualifierInfo, QualifierSize));
      if status != Success {
        return Throw(Exception(AppendErrCode(InfoFailure(index), status)));
      }
      r := Ok(api.argQualifier(Handle, index));
    }

    /** `SetArg(index, buffer)`: binds the buffer handle. */
    method SetArgBuffer(index: u32, buffer: Handle) returns (r: Outcome)
      modifies api
      ensures var op := SetKernelArg(Handle, index, HandleSize, MemObject(buffer));
        && api.log == old(api.log) + [Call(op, Answer(api, old(api.log), op))]
        && (r.Pass? <==> Answer(api, old(api.log), op) == Success)
        && (r.Fail? ==> r.exn == Exception(AppendErrCode(BufferBindFailure, Answer(api, old(api.log), op))))
    {
      var status, _ := api.Invoke(SetKernelArg(Handle, index, HandleSize, MemObject(buffer)));
      if status != Success {
        return Fail(Exception(AppendErrCode(BufferBindFailure, status)));
      }
      r := Pass;
    }

    /** `SetArg(index, value)`: binds a scalar of `sizeof(T)` bytes. */
    method SetArgScalar(index: u32, t: NumType) returns (r: Outcome)
      modifies api
      ensures var op := SetKernelArg(Handle, index, SizeOf(t), ScalarValue(t));
        && api.log == old(api.log) + [Call(op, Answer(api, old(api.log), op))]
        && (r.Pass? <==> Answer(api, old(api.log), op) == Success)
        && (r.Fail? ==> r.exn == Exception(AppendErrCode(ScalarBindFailure(t), Answer(api, old(api.log), op))))
    {
      var status, _ := api.Invoke(SetKernelArg(Handle, index, SizeOf(t), ScalarValue(t)));
      if status != Success {
        return Fail(Exception(AppendErrCode(ScalarBindFailure(t), status)));
      }
      r := Pass;
    }

    /** `SetSize<T>(index, length)`: a local array of `length` elements of T. */
    method SetSize(index: u32, t: NumType, length: u64) returns (r: Outcome)
      modifies api
      ensures var op := SetKernelArg(Handle, index, ByteSize(length, t), LocalMemory);
        && api.log == old(api.log) + [Call(op, Answer(api, old(api.log), op))]
        && (r.Pass? <==> Answer(api, old(api.log), op) == Success)
        && (r.Fail? ==> r.exn == Exception(AppendErrCode(SizeBindFailure, Answer(api, old(api.log), op))))
    {
      var status, _ := api.Invoke(SetKernelArg(Handle, index, ByteSize(length, t), LocalMemory));
      if status != Success {
        return Fail(Exception(AppendErrCode(SizeBindFailure, status)));
      }
      r := Pass;
    }
  }

  // ---------------------------------------------------------------------------
  // Buffers over host arrays

  /** `new Buffer<T>(context, flags, host)`: a memory object of the array's
      byte size, created over the array's memory with the caller's flags.
      This layer's `Buffer<T>` keeps only the handle; the model stands it in
      by the helper layer's `Buffer<T>`, whose `IsOnHost` is the model's own
      record of where the memory object lives (in host memory whenever the
      flags hold UseHostPtr or AllocHostPtr), not a field of the source. */
  method NewBuffer<T(0)>(api: Api, flags: MemFlags, host: DeprecatedArray<T>, t: NumType) returns (r: Result<Buffer<T>>)
    modifies api
    ensures var op := CreateBuffer(flags, ByteSize(host.Count, t), Some(host.Count));
      && api.log == old(api.log) + [Call(op, Answer(api, old(api.log), op))]
      && (r.Ok? <==> Answer(api, old(api.log), op) == Success)
      && (r.Ok? ==> fresh(r.value) && r.value.Handle == |old(api.log)| && r.value.IsOnHost == IsOnHostFor(flags))
      && (r.Throw? ==> r.exn == Exception(AppendErrCode(CreateFailure, Answer(api, old(api.log), op))))
  {
    var status, h := api.Invoke(CreateBuffer(flags, ByteSize(host.Count, t), Some(host.Count)));
    if status != Success {
      return Throw(Exception(AppendErrCode(CreateFailure, status)));
    }
    var b := new Buffer<T>.Wrap(h, IsOnHostFor(flags));
    r := Ok(b);
  }
}
