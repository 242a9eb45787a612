/** Compute buffers: an array of T that may have a host-side copy, a
    device-side copy, or (on a device that shares memory with the host) one
    memory object serving as both. The placement chosen at creation decides
    which transfers and copies are allowed afterwards. */
module ComputeBuffers {
  import opened Common
  import opened Native
  import opened OCLHelper
  import opened SparkOCL
  import opened SparkCore

  /** `BufferFlags`, a bit set. */
  type BufferFlags = bv32

  const OnHost: BufferFlags := 1
  const OnDevice: BufferFlags := 2
  const OnHostAndDevice: BufferFlags := 3

  /** `Enum.HasFlag` on BufferFlags. */
  predicate HasPlacement(flags: BufferFlags, flag: BufferFlags)
  {
    flags & flag == flag
  }

  const AllocHostUnsupported := "AllocHostPtr flag is not supported"
  const NoHostCopy := "No host copy to map into. Buffer must be created with OnHost"
  const NeedsBoth := "Buffer must be created with OnHostAndDevice"
  const BothNeedHost := "Both Buffers must be created with OnHost"
  const BothNeedDevice := "Both Buffers must be created with OnDevice"
  const SizeMismatch := "Source and destination sizes doesn't match"

  // ---------------------------------------------------------------------------
  // The creation plan

  /** The native create calls of the span constructor, in order: on a
      unified-memory device one host-memory buffer; otherwise a host-memory
      buffer if OnHost is requested, then a device buffer if OnDevice is. */
  function SpanRequests(unified: bool, bufferFlags: BufferFlags, flags: MemFlags, count: nat, t: NumType): (plan: seq<Op>)
    ensures 1 <= |plan| <= 2 || (!unified && plan == [])
  {
    if unified then [CopyHostRequest(flags | AllocHostPtr, count, t)]
    else
      (if HasPlacement(bufferFlags, OnHost) then [CopyHostRequest(flags | AllocHostPtr, count, t)] else [])
      + (if HasPlacement(bufferFlags, OnDevice) then [CopyHostRequest(flags, count, t)] else [])
  }

  /** The native create calls of the length constructor, in the same order. */
  function LengthRequests(unified: bool, bufferFlags: BufferFlags, flags: MemFlags, elements: u64, t: NumType): (plan: seq<Op>)
    ensures 1 <= |plan| <= 2 || (!unified && plan == [])
  {
    if unified then [AllocHostRequest(flags, elements, t)]
    else
      (if HasPlacement(bufferFlags, OnHost) then [AllocHostRequest(flags, elements, t)] else [])
      + (if HasPlacement(bufferFlags, OnDevice) then [PlainRequest(flags, elements, t)] else [])
  }

  /** Host-side memory objects are always requested in host-accessible memory
      and initialised from the span; a separate device copy is requested with
      the caller's flags only, so (AllocHostPtr being refused) never in host
      memory; and a unified device gets exactly one object. */
  lemma SpanRequestsPlaceMemory(unified: bool, bufferFlags: BufferFlags, flags: MemFlags, count: nat, t: NumType)
    requires !HasFlag(flags, AllocHostPtr)
    ensures var plan := SpanRequests(unified, bufferFlags, flags, count, t);
      && (unified ==> |plan| == 1 && HasFlag(plan[0].flags, AllocHostPtr))
      && (!unified ==> |plan| == (if HasPlacement(bufferFlags, OnHost) then 1 else 0) + (if HasPlacement(bufferFlags, OnDevice) then 1 else 0))
      && (!unified && HasPlacement(bufferFlags, OnHost) ==> HasFlag(plan[0].flags, AllocHostPtr))
      && (!unified && HasPlacement(bufferFlags, OnDevice) ==> !HasFlag(plan[|plan| - 1].flags, AllocHostPtr))
      && (forall k :: 0 <= k < |plan| ==> plan[k].CreateBuffer? && plan[k].hostElements == Some(count)
                                          && HasFlag(plan[k].flags, CopyHostPtr) && plan[k].size == ByteSize(count, t))
  {
    var plan := SpanRequests(unified, bufferFlags, flags, count, t);
    if !unified && HasPlacement(bufferFlags, OnDevice) {
      var last := plan[|plan| - 1];
      assert last == CopyHostRequest(flags, count, t);
      assert last.flags == CopyHostPtr | flags;
    }
  }

  /** The same for the length constructor: the host side in host-accessible
      memory, the device side with the caller's flags, nothing initialised. */
  lemma LengthRequestsPlaceMemory(unified: bool, bufferFlags: BufferFlags, flags: MemFlags, elements: u64, t: NumType)
    requires !HasFlag(flags, AllocHostPtr)
    ensures var plan := LengthRequests(unified, bufferFlags, flags, elements, t);
      && (unified ==> |plan| == 1 && HasFlag(plan[0].flags, AllocHostPtr))
      && (!unified ==> |plan| == (if HasPlacement(bufferFlags, OnHost) then 1 else 0) + (if HasPlacement(bufferFlags, OnDevice) then 1 else 0))
      && (!unified && HasPlacement(bufferFlags, OnHost) ==> HasFlag(plan[0].flags, AllocHostPtr))
      && (!unified && HasPlacement(bufferFlags, OnDevice) ==> plan[|plan| - 1].flags == flags)
      && (forall k :: 0 <= k < |plan| ==> plan[k].CreateBuffer? && plan[k].hostElements.None? && plan[k].size == ByteSize(elements, t))
  {
  }

  /** The calls a creation following `plan` (of at most two steps) makes
      from log position `at`: the planned calls in order, each with the
      driver's status, stopping after the first failure. */
  function PlanCalls(api: Api, at: nat, plan: seq<Op>): seq<Call>
    requires |plan| <= 2
  {
    if plan == [] then []
    else if api.reply(at, plan[0]) != Success || |plan| == 1 then [Call(plan[0], api.reply(at, plan[0]))]
    else [Call(plan[0], Success), Call(plan[1], api.reply(at + 1, plan[1]))]
  }

  /** The status of the first planned call that fails, if any. */
  function PlanFailure(api: Api, at: nat, plan: seq<Op>): Option<ErrorCode>
    requires |plan| <= 2
  {
    if plan == [] then None
    else if api.reply(at, plan[0]) != Success then Some(api.reply(at, plan[0]))
    else if |plan| == 1 || api.reply(at + 1, plan[1]) == Success then None
    else Some(api.reply(at + 1, plan[1]))
  }

  /** A creation either makes every planned call, all succeeding, or stops at
      the first failure: its calls are a prefix of the plan, the last of them
      the failure. */
  lemma PlanCallsArePrefix(api: Api, at: nat, plan: seq<Op>)
    requires |plan| <= 2
    ensures var calls := PlanCalls(api, at, plan);
      && |calls| <= |plan|
      && (forall k :: 0 <= k < |calls| ==> calls[k].op == plan[k] && calls[k].status == api.reply(at + k, plan[k]))
      && (PlanFailure(api, at, plan).None? <==> |calls| == |plan| && forall k :: 0 <= k < |calls| ==> calls[k].status == Success)
      && (PlanFailure(api, at, plan).Some? ==>
            && |calls| > 0 && calls[|calls| - 1].status == PlanFailure(api, at, plan).value != Success
            && forall k :: 0 <= k < |calls| - 1 ==> calls[k].status == Success)
  {
  }

  /** Following two one-step plans one after the other is following their
      concatenation: the second starts only if the first made no failure. */
  lemma PlanAppend(api: Api, at: nat, p: seq<Op>, q: seq<Op>)
    requires |p| <= 1 && |q| <= 1
    ensures PlanCalls(api, at, p + q) ==
      if PlanFailure(api, at, p).Some? then PlanCalls(api, at, p) else PlanCalls(api, at, p) + PlanCalls(api, at + |p|, q)
    ensures PlanFailure(api, at, p + q) == if PlanFailure(api, at, p).Some? then PlanFailure(api, at, p) else PlanFailure(api, at + |p|, q)
  {
    if p == [] {
      assert p + q == q;
    } else if q != [] {
      assert p + q == [p[0], q[0]];
    } else {
      assert p + q == p;
    }
  }

  /** A creation that started from log `before` followed `plan`: it left
      `log` with exactly the plan's calls up to the first failure, and it
      succeeded exactly when no planned call failed, otherwise throwing with
      that call's status. */
  predicate FollowsPlan<X>(api: Api, before: seq<Call>, log: seq<Call>, plan: seq<Op>, r: Result<X>)
    requires |plan| <= 2
  {
    && log == before + PlanCalls(api, |before|, plan)
    && (r.Ok? <==> PlanFailure(api, |before|, plan).None?)
    && (r.Throw? ==> r.exn == Exception(AppendErrCode(CreateFailure, PlanFailure(api, |before|, plan).value)))
  }

  /** Two creations, the second made only when the first succeeded and the
      whole failing as the first failure, together follow the concatenated
      plan. */
  lemma FollowsInSequence<X, Y, Z>(api: Api, before: seq<Call>, mid: seq<Call>, log: seq<Call>, p: seq<Op>, q: seq<Op>,
                                   first: Result<X>, second: Result<Y>, r: Result<Z>)
    requires |p| <= 1 && |q| <= 1
    requires FollowsPlan(api, before, mid, p, first)
    requires first.Throw? ==> log == mid && r.Throw? && r.exn == first.exn
    requires first.Ok? ==> && |mid| == |before| + |p| && FollowsPlan(api, mid, log, q, second)
                           && (r.Ok? <==> second.Ok?) && (second.Throw? ==> r.Throw? && r.exn == second.exn)
    ensures FollowsPlan(api, before, log, p + q, r)
  {
    PlanAppend(api, |before|, p, q);
  }

  // ---------------------------------------------------------------------------
  // ComputeBuffer<T>

  class ComputeBuffer<T(0)> {
    const hostBuffer: Buffer?<T>
    const deviceBuffer: Buffer?<T>
    const Length: i32
    const bufferFlags: BufferFlags
    /** `typeof(T)`. */
    const Elem: NumType
    /** Whether the device it was created on shares memory with the host. */
    ghost const unified: bool

    /** The placement invariant: on a unified device one object is both
        copies; otherwise each copy exists exactly when its flag was given,
        and two copies are two objects. */
    ghost predicate Valid()
    {
      && (unified ==> hostBuffer != null && deviceBuffer == hostBuffer)
      && (!unified ==> (hostBuffer != null <==> HasPlacement(bufferFlags, OnHost))
                       && (deviceBuffer != null <==> HasPlacement(bufferFlags, OnDevice))
                       && (hostBuffer != null && deviceBuffer != null ==> hostBuffer != deviceBuffer))
    }

    /** The stored flags guarantee the handles the operations dereference. */
    lemma FlagsGuardHandles()
      requires Valid()
      ensures HasPlacement(bufferFlags, OnHost) ==> hostBuffer != null
      ensures HasPlacement(bufferFlags, OnDevice) ==> deviceBuffer != null
      ensures HasPlacement(bufferFlags, OnHostAndDevice) ==> hostBuffer != null && deviceBuffer != null
      ensures hostBuffer == deviceBuffer && hostBuffer != null ==> unified
    {
      if HasPlacement(bufferFlags, OnHostAndDevice) {
        assert HasPlacement(bufferFlags, OnHost) && HasPlacement(bufferFlags, OnDevice);
      }
    }

    constructor Make(host: Buffer?<T>, device: Buffer?<T>, length: i32, bufferFlags: BufferFlags, t: NumType, ghost unified: bool)
      requires unified ==> host != null && device == host
      requires !unified ==> (host != null <==> HasPlacement(bufferFlags, OnHost))
                            && (device != null <==> HasPlacement(bufferFlags, OnDevice))
                            && (host != null && device != null ==> host != device)
      ensures Valid()
      ensures hostBuffer == host && deviceBuffer == device && Length == length
      ensures this.bufferFlags == bufferFlags && Elem == t && this.unified == unified
    {
      hostBuffer := host;
      deviceBuffer := device;
      Length := length;
      this.bufferFlags := bufferFlags;
      Elem := t;
      this.unified := unified;
    }

    /** A creation step of the non-unified constructors: when `want`, one
        `NewCopyHost`, else nothing and null. */
    static method CopyHostIf(api: Api, want: bool, flags: MemFlags, span: seq<T>, t: NumType) returns (r: Result<Buffer?<T>>)
      modifies api
      ensures FollowsPlan(api, old(api.log), api.log, if want then [CopyHostRequest(flags, |span|, t)] else [], r)
      ensures r.Ok? ==> |api.log| == |old(api.log)| + (if want then 1 else 0) && (r.value != null <==> want) && (r.value != null ==> fresh(r.value))
      ensures r.Ok? && r.value != null ==> r.value.Handle == |old(api.log)| && r.value.IsOnHost == IsOnHostFor(flags)
    {
      if !want {
        return Ok(null);
      }
      var h := Buffer<T>.NewCopyHost(api, flags, span, t);
      if h.Throw? {
        return Throw(h.exn);
      }
      r := Ok(h.value);
    }

    /** The same with `NewAllocHost`. */
    static method AllocHostIf(api: Api, want: bool, flags: MemFlags, length: u64, t: NumType) returns (r: Result<Buffer?<T>>)
      modifies api
      ensures FollowsPlan(api, old(api.log), api.log, if want then [AllocHostRequest(flags, length, t)] else [], r)
      ensures r.Ok? ==> |api.log| == |old(api.log)| + (if want then 1 else 0) && (r.value != null <==> want) && (r.value != null ==> fresh(r.value))
      ensures r.Ok? && r.value != null ==> r.value.Handle == |old(api.log)| && r.value.IsOnHost
    {
      if !want {
        return Ok(null);
      }
      var h := Buffer<T>.NewAllocHost(api, flags, length, t);
      if h.Throw? {
        return Throw(h.exn);
      }
      r := Ok(h.value);
    }

    /** The same with the public `Buffer<T>` constructor. */
    static method PlainIf(api: Api, want: bool, flags: MemFlags, length: u64, t: NumType) returns (r: Result<Buffer?<T>>)
      modifies api
      ensures FollowsPlan(api, old(api.log), api.log, if want then [PlainRequest(flags, length, t)] else [], r)
      ensures r.Ok? ==> |api.log| == |old(api.log)| + (if want then 1 else 0) && (r.value != null <==> want) && (r.value != null ==> fresh(r.value))
      ensures r.Ok? && r.value != null ==> r.value.Handle == |old(api.log)| && r.value.IsOnHost == IsOnHostFor(flags)
    {
      if !want {
        return Ok(null);
      }
      var d := Buffer<T>.New(api, flags, length, t);
      if d.Throw? {
        return Throw(d.exn);
      }
      r := Ok(d.value);
    }

    /** The span constructor on a device without unified memory: a host copy
        in host-accessible memory if OnHost, then a device copy if OnDevice. */
    static method SeparateCopies(api: Api, bufferFlags: BufferFlags, flags: MemFlags, span: seq<T>, t: NumType)
      returns (r: Result<(Buffer?<T>, Buffer?<T>)>)
      modifies api
      ensures FollowsPlan(api, old(api.log), api.log, SpanRequests(false, bufferFlags, flags, |span|, t), r)
      ensures r.Ok? ==> && (r.value.0 != null <==> HasPlacement(bufferFlags, OnHost))
                        && (r.value.1 != null <==> HasPlacement(bufferFlags, OnDevice))
                        && (r.value.0 != null && r.value.1 != null ==> r.value.0 != r.value.1)
      ensures r.Ok? && r.value.0 != null ==> fresh(r.value.0) && r.value.0.Handle == |old(api.log)| && r.value.0.IsOnHost
      ensures r.Ok? && r.value.1 != null ==> && fresh(r.value.1) && r.value.1.IsOnHost == IsOnHostFor(flags)
                                             && r.value.1.Handle == |old(api.log)| + (if r.value.0 != null then 1 else 0)
    {
      ghost var before := api.log;
      var wantHost, wantDevice := HasPlacement(bufferFlags, OnHost), HasPlacement(bufferFlags, OnDevice);
      ghost var hostPlan := if wantHost then [CopyHostRequest(flags | AllocHostPtr, |span|, t)] else [];
      ghost var devicePlan := if wantDevice then [CopyHostRequest(flags, |span|, t)] else [];
      var h := CopyHostIf(api, wantHost, flags | AllocHostPtr, span, t);
      if h.Throw? {
        r := Throw(h.exn);
        FollowsInSequence(api, before, api.log, api.log, hostPlan, devicePlan, h, h, r);
        return;
      }
      ghost var mid := api.log;
      var d := CopyHostIf(api, wantDevice, flags, span, t);
      if d.Throw? {
        r := Throw(d.exn);
      } else {
        assert h.value != null <==> wantHost;
        assert d.value != null <==> wantDevice;
        r := Ok((h.value, d.value));
      }
      FollowsInSequence(api, before, mid, api.log, hostPlan, devicePlan, h, d, r);
    }

    /** The length constructor on a device without unified memory. */
    static method SeparateAllocations(api: Api, bufferFlags: BufferFlags, flags: MemFlags, n: u64, t: NumType)
      returns (r: Result<(Buffer?<T>, Buffer?<T>)>)
      modifies api
      ensures FollowsPlan(api, old(api.log), api.log, LengthRequests(false, bufferFlags, flags, n, t), r)
      ensures r.Ok? ==> && (r.value.0 != null <==> HasPlacement(bufferFlags, OnHost))
                        && (r.value.1 != null <==> HasPlacement(bufferFlags, OnDevice))
                        && (r.value.0 != null && r.value.1 != null ==> r.value.0 != r.value.1)
      ensures r.Ok? && r.value.0 != null ==> fresh(r.value.0) && r.value.0.Handle == |old(api.log)| && r.value.0.IsOnHost
      ensures r.Ok? && r.value.1 != null ==> && fresh(r.value.1) && r.value.1.IsOnHost == IsOnHostFor(flags)
                                             && r.value.1.Handle == |old(api.log)| + (if r.value.0 != null then 1 else 0)
    {
      ghost var before := api.log;
      var wantHost, wantDevice := HasPlacement(bufferFlags, OnHost), HasPlacement(bufferFlags, OnDevice);
      ghost var hostPlan := if wantHost then [AllocHostRequest(flags, n, t)] else [];
      ghost var devicePlan := if wantDevice then [PlainRequest(flags, n, t)] else [];
      var h := AllocHostIf(api, wantHost, flags, n, t);
      if h.Throw? {
        r := Throw(h.exn);
        FollowsInSequence(api, before, api.log, api.log, hostPlan, devicePlan, h, h, r);
        return;
      }
      ghost var mid := api.log;
      var d := PlainIf(api, wantDevice, flags, n, t);
      if d.Throw? {
        r := Throw(d.exn);
      } else {
        assert h.value != null <==> wantHost;
        assert d.value != null <==> wantDevice;
        r := Ok((h.value, d.value));
      }
      FollowsInSequence(api, before, mid, api.log, hostPlan, devicePlan, h, d, r);
    }

    /** `new ComputeBuffer<T>(span, bufferFlags, flags)`. */
    static method FromSpan(core: Core, span: seq<T>, bufferFlags: BufferFlags, flags: MemFlags, t: NumType)
      returns (r: Result<ComputeBuffer<T>>)
      requires core.Ready() && |span| < 0x8000_0000
      modifies core.api
      ensures HasFlag(flags, AllocHostPtr) ==> r == Throw(Exception(AllocHostUnsupported)) && core.api.log == old(core.api.log)
      ensures !HasFlag(flags, AllocHostPtr) ==>
        FollowsPlan(core.api, old(core.api.log), core.api.log, SpanRequests(core.device.value.IsHostUnifiedMemory, bufferFlags, flags, |span|, t), r)
      ensures r.Ok? ==> && fresh(r.value) && r.value.Valid() && r.value.Length == |span|
                        && r.value.bufferFlags == bufferFlags && r.value.Elem == t
                        && r.value.unified == core.device.value.IsHostUnifiedMemory
      ensures r.Ok? && r.value.hostBuffer != null ==>
        fresh(r.value.hostBuffer) && r.value.hostBuffer.Handle == |old(core.api.log)| && r.value.hostBuffer.IsOnHost
      ensures r.Ok? && r.value.deviceBuffer != null ==>
        && fresh(r.value.deviceBuffer)
        && r.value.deviceBuffer.IsOnHost == (r.value.unified || IsOnHostFor(flags))
        && r.value.deviceBuffer.Handle == |old(core.api.log)| + (if r.value.unified || r.value.hostBuffer == null then 0 else 1)
    {
      if HasFlag(flags, AllocHostPtr) {
        return Throw(Exception(AllocHostUnsupported));
      }
      var unified := core.device.value.IsHostUnifiedMemory;
      var host: Buffer?<T>, device: Buffer?<T>;
      if unified {
        var h := CopyHostIf(core.api, true, flags | AllocHostPtr, span, t);
        if h.Throw? {
          return Throw(h.exn);
        }
        host, device := h.value, h.value;
      } else {
        var p := SeparateCopies(core.api, bufferFlags, flags, span, t);
        if p.Throw? {
          return Throw(p.exn);
        }
        host, device := p.value.0, p.value.1;
      }
      var b := new ComputeBuffer<T>.Make(host, device, |span|, bufferFlags, t, unified);
      r := Ok(b);
    }

    /** `new ComputeBuffer<T>(length, bufferFlags, flags)`: the same placement,
        with uninitialised memory objects of `(nuint)length` elements. */
    static method WithLength(core: Core, length: i32, bufferFlags: BufferFlags, flags: MemFlags, t: NumType)
      returns (r: Result<ComputeBuffer<T>>)
      requires core.Ready()
      modifies core.api
      ensures HasFlag(flags, AllocHostPtr) ==> r == Throw(Exception(AllocHostUnsupported)) && core.api.log == old(core.api.log)
      ensures !HasFlag(flags, AllocHostPtr) ==>
        FollowsPlan(core.api, old(core.api.log), core.api.log, LengthRequests(core.device.value.IsHostUnifiedMemory, bufferFlags, flags, ToU64(length), t), r)
      ensures r.Ok? ==> && fresh(r.value) && r.value.Valid() && r.value.Length == length
                        && r.value.bufferFlags == bufferFlags && r.value.Elem == t
                        && r.value.unified == core.device.value.IsHostUnifiedMemory
      ensures r.Ok? && r.value.hostBuffer != null ==>
        fresh(r.value.hostBuffer) && r.value.hostBuffer.Handle == |old(core.api.log)| && r.value.hostBuffer.IsOnHost
      ensures r.Ok? && r.value.deviceBuffer != null ==>
        && fresh(r.value.deviceBuffer)
        && r.value.deviceBuffer.IsOnHost == (r.value.unified || IsOnHostFor(flags))
        && r.value.deviceBuffer.Handle == |old(core.api.log)| + (if r.value.unified || r.value.hostBuffer == null then 0 else 1)
    {
      if HasFlag(flags, AllocHostPtr) {
        return Throw(Exception(AllocHostUnsupported));
      }
      var unified := core.device.value.IsHostUnifiedMemory;
      var host: Buffer?<T>, device: Buffer?<T>;
      if unified {
        var h := AllocHostIf(core.api, true, flags, ToU64(length), t);
        if h.Throw? {
          return Throw(h.exn);
        }
        host, device := h.value, h.value;
      } else {
        var p := SeparateAllocations(core.api, bufferFlags, flags, ToU64(length), t);
        if p.Throw? {
          return Throw(p.exn);
        }
        host, device := p.value.0, p.value.1;
      }
      var b := new ComputeBuffer<T>.Make(host, device, length, bufferFlags, t, unified);
      r := Ok(b);
    }

    /** `UnmapAccessor`: unmaps the host copy; a missing host copy is a null
        dereference. The mapped pointer itself is not recorded. */
    method UnmapAccessor(core: Core) returns (r: Outcome)
      requires Valid() && core.Ready()
      modifies core.api
      ensures hostBuffer == null ==> r == Fail(NullReferenceException) && core.api.log == old(core.api.log)
      ensures hostBuffer != null ==>
        var op := UnmapRequest(hostBuffer.Handle);
        var status := Answer(core.api, old(core.api.log), op);
        && core.api.log == old(core.api.log) + [Call(op, status)]
        && (r.Pass? <==> status == Success)
        && (r.Fail? ==> r.exn == Exception(AppendErrCode(UnmapFailure, status)))
    {
      if hostBuffer == null {
        return Fail(NullReferenceException);
      }
      var u := core.queue.EnqueueUnmapMemObject(hostBuffer.Handle);
      if u.Throw? {
        return Fail(u.exn);
      }
      r := Pass;
    }

    /** `MapHost(flags)`: maps the host copy (blocking), records the map in
        `IOEvents`, waits on it, and hands out an accessor of `Length`
        elements. Refused unless OnHost was requested, even when a unified
        device gave the buffer a host copy anyway. */
    method MapHost(core: Core, flags: MapFlags) returns (r: Result<Accessor<T>>)
      requires Valid() && core.Ready()
      modifies core, core.api
      ensures core.device == old(core.device) && core.context == old(core.context) && core.queue == old(core.queue)
      ensures core.KernEvents == old(core.KernEvents)
      ensures !HasPlacement(bufferFlags, OnHost) ==>
        r == Throw(Exception(NoHostCopy)) && core.api.log == old(core.api.log) && core.IOEvents == old(core.IOEvents)
      ensures HasPlacement(bufferFlags, OnHost) ==>
        var op := MapRequest(hostBuffer.Handle, true, flags, 0, ToU64(Length), Elem);
        var outcome := SubmitResult(core.api, old(core.api.log), op, true, MapFailure);
        && core.api.log == old(core.api.log) + SubmitCalls(core.api, old(core.api.log), op, true)
        && core.IOEvents == old(core.IOEvents) + SubmitRecorded(core.api, old(core.api.log), op)
        && (r.Ok? <==> outcome.Ok?)
        && (r.Throw? ==> r.exn == outcome.exn)
      ensures r.Ok? ==> && fresh(r.value) && fresh(r.value.ptr) && r.value.Valid()
                        && r.value.master == this && r.value.Length == Length && !r.value.disposedValue
    {
      if !HasPlacement(bufferFlags, OnHost) {
        return Throw(Exception(NoHostCopy));
      }
      var m := core.queue.EnqueueMapBuffer<T>(hostBuffer.Handle, true, flags, 0, ToU64(Length), Elem);
      if m.Throw? {
        return Throw(m.exn);
      }
      var s := core.Settle(m.value.ev, true, true);
      if s.Throw? {
        return Throw(s.exn);
      }
      var acc := new Accessor<T>.Make(this, m.value.ptr, Length);
      r := Ok(acc);
    }

    /** `HostReadTo(destination)`: a blocking read of the host copy into
        `count` elements of host memory; neither recorded nor waited on. */
    method HostReadTo(core: Core, count: nat) returns (r: Result<Event>)
      requires Valid() && core.Ready()
      modifies core.api
      ensures hostBuffer == null ==> r == Throw(NullReferenceException) && core.api.log == old(core.api.log)
      ensures hostBuffer != null ==>
        var op := ReadRequest(hostBuffer.Handle, true, 0, count, Elem, None);
        var status := Answer(core.api, old(core.api.log), op);
        && core.api.log == old(core.api.log) + [Call(op, status)]
        && (r.Ok? <==> status == Success)
        && (r.Ok? ==> r.value == EventFor(core.api, |old(core.api.log)|))
        && (r.Throw? ==> r.exn == Exception(AppendErrCode(ReadFailure, status)))
    {
      if hostBuffer == null {
        return Throw(NullReferenceException);
      }
      r := core.queue.EnqueueReadBuffer(hostBuffer.Handle, true, 0, count, Elem, None);
    }

    /** `DeviceReadTo(destination)`: the same from the device copy. */
    method DeviceReadTo(core: Core, count: nat) returns (r: Result<Event>)
      requires Valid() && core.Ready()
      modifies core.api
      ensures deviceBuffer == null ==> r == Throw(NullReferenceException) && core.api.log == old(core.api.log)
      ensures deviceBuffer != null ==>
        var op := ReadRequest(deviceBuffer.Handle, true, 0, count, Elem, None);
        var status := Answer(core.api, old(core.api.log), op);
        && core.api.log == old(core.api.log) + [Call(op, status)]
        && (r.Ok? <==> status == Success)
        && (r.Ok? ==> r.value == EventFor(core.api, |old(core.api.log)|))
        && (r.Throw? ==> r.exn == Exception(AppendErrCode(ReadFailure, status)))
    {
      if deviceBuffer == null {
        return Throw(NullReferenceException);
      }
      r := core.queue.EnqueueReadBuffer(deviceBuffer.Handle, true, 0, count, Elem, None);
    }

    /** `ToDevice(blocking, waitList)`: copies the host copy to the device copy,
        recorded in `KernEvents`; when both are one object there is nothing
        to copy and it returns null. */
    method ToDevice(core: Core, blocking: bool, waitList: WaitList) returns (r: Result<Option<Event>>)
      requires Valid() && core.Ready()
      modifies core, core.api
      ensures core.device == old(core.device) && core.context == old(core.context) && core.queue == old(core.queue)
      ensures core.IOEvents == old(core.IOEvents)
      ensures !HasPlacement(bufferFlags, OnHostAndDevice) ==>
        r == Throw(Exception(NeedsBoth)) && core.api.log == old(core.api.log) && core.KernEvents == old(core.KernEvents)
      ensures HasPlacement(bufferFlags, OnHostAndDevice) && hostBuffer == deviceBuffer ==>
        r == Ok(None) && core.api.log == old(core.api.log) && core.KernEvents == old(core.KernEvents)
      ensures HasPlacement(bufferFlags, OnHostAndDevice) && hostBuffer != deviceBuffer ==>
        var op := CopyRequest(hostBuffer.Handle, deviceBuffer.Handle, 0, 0, ToU64(Length), Elem, waitList);
        && core.api.log == old(core.api.log) + SubmitCalls(core.api, old(core.api.log), op, blocking)
        && core.KernEvents == old(core.KernEvents) + SubmitRecorded(core.api, old(core.api.log), op)
        && r == LiftSome(SubmitResult(core.api, old(core.api.log), op, blocking, UnmapFailure))
    {
      if !HasPlacement(bufferFlags, OnHostAndDevice) {
        return Throw(Exception(NeedsBoth));
      }
      FlagsGuardHandles();
      if hostBuffer == deviceBuffer {
        return Ok(None);
      }
      var c := core.queue.EnqueueCopyBuffer(hostBuffer.Handle, deviceBuffer.Handle, 0, 0, ToU64(Length), Elem, waitList);
      if c.Throw? {
        return Throw(c.exn);
      }
      var s := core.Settle(c.value, false, blocking);
      r := LiftSome(s);
    }

    /** `ToHost(blocking, waitList)`: the same in the other direction. */
    method ToHost(core: Core, blocking: bool, waitList: WaitList) returns (r: Result<Option<Event>>)
      requires Valid() && core.Ready()
      modifies core, core.api
      ensures core.device == old(core.device) && core.context == old(core.context) && core.queue == old(core.queue)
      ensures core.IOEvents == old(core.IOEvents)
      ensures !HasPlacement(bufferFlags, OnHostAndDevice) ==>
        r == Throw(Exception(NeedsBoth)) && core.api.log == old(core.api.log) && core.KernEvents == old(core.KernEvents)
      ensures HasPlacement(bufferFlags, OnHostAndDevice) && hostBuffer == deviceBuffer ==>
        r == Ok(None) && core.api.log == old(core.api.log) && core.KernEvents == old(core.KernEvents)
      ensures HasPlacement(bufferFlags, OnHostAndDevice) && hostBuffer != deviceBuffer ==>
        var op := CopyRequest(deviceBuffer.Handle, hostBuffer.Handle, 0, 0, ToU64(Length), Elem, waitList);
        && core.api.log == old(core.api.log) + SubmitCalls(core.api, old(core.api.log), op, blocking)
        && core.KernEvents == old(core.KernEvents) + SubmitRecorded(core.api, old(core.api.log), op)
        && r == LiftSome(SubmitResult(core.api, old(core.api.log), op, blocking, UnmapFailure))
    {
      if !HasPlacement(bufferFlags, OnHostAndDevice) {
        return Throw(Exception(NeedsBoth));
      }
      FlagsGuardHandles();
      if hostBuffer == deviceBuffer {
        return Ok(None);
      }
      var c := core.queue.EnqueueCopyBuffer(deviceBuffer.Handle, hostBuffer.Handle, 0, 0, ToU64(Length), Elem, waitList);
      if c.Throw? {
        return Throw(c.exn);
      }
      var s := core.Settle(c.value, false, blocking);
      r := LiftSome(s);
    }

    /** `CopyHostTo(destination, blocking, waitList)`: host copy to host copy,
        after checking placement on both sides and then the lengths. */
    method CopyHostTo(core: Core, destination: ComputeBuffer<T>, blocking: bool, waitList: WaitList) returns (r: Result<Event>)
      requires Valid() && destination.Valid() && core.Ready() && destination.Elem == Elem
      modifies core, core.api
      ensures core.device == old(core.device) && core.context == old(core.context) && core.queue == old(core.queue)
      ensures core.IOEvents == old(core.IOEvents)
      ensures !HasPlacement(bufferFlags, OnHost) || !HasPlacement(destination.bufferFlags, OnHost) ==>
        r == Throw(Exception(BothNeedHost)) && core.api.log == old(core.api.log) && core.KernEvents == old(core.KernEvents)
      ensures HasPlacement(bufferFlags, OnHost) && HasPlacement(destination.bufferFlags, OnHost) && Length != destination.Length ==>
        r == Throw(Exception(SizeMismatch)) && core.api.log == old(core.api.log) && core.KernEvents == old(core.KernEvents)
      ensures HasPlacement(bufferFlags, OnHost) && HasPlacement(destination.bufferFlags, OnHost) && Length == destination.Length ==>
        var op := CopyRequest(hostBuffer.Handle, destination.hostBuffer.Handle, 0, 0, ToU64(Length), Elem, waitList);
        && core.api.log == old(core.api.log) + SubmitCalls(core.api, old(core.api.log), op, blocking)
        && core.KernEvents == old(core.KernEvents) + SubmitRecorded(core.api, old(core.api.log), op)
        && r == SubmitResult(core.api, old(core.api.log), op, blocking, UnmapFailure)
    {
      if !HasPlacement(bufferFlags, OnHost) || !HasPlacement(destination.bufferFlags, OnHost) {
        return Throw(Exception(BothNeedHost));
      }
      if Length != destination.Length {
        return Throw(Exception(SizeMismatch));
      }
      var c := core.queue.EnqueueCopyBuffer(hostBuffer.Handle, destination.hostBuffer.Handle, 0, 0, ToU64(Length), Elem, waitList);
      if c.Throw? {
        return Throw(c.exn);
      }
      r := core.Settle(c.value, false, blocking);
    }

    /** `CopyDeviceTo(destination, blocking, waitList)`: device copy to device
        copy, with the same checks. */
    method CopyDeviceTo(core: Core, destination: ComputeBuffer<T>, blocking: bool, waitList: WaitList) returns (r: Result<Event>)
      requires Valid() && destination.Valid() && core.Ready() && destination.Elem == Elem
      modifies core, core.api
      ensures core.device == old(core.device) && core.context == old(core.context) && core.queue == old(core.queue)
      ensures core.IOEvents == old(core.IOEvents)
      ensures !HasPlacement(bufferFlags, OnDevice) || !HasPlacement(destination.bufferFlags, OnDevice) ==>
        r == Throw(Exception(BothNeedDevice)) && core.api.log == old(core.api.log) && core.KernEvents == old(core.KernEvents)
      ensures HasPlacement(bufferFlags, OnDevice) && HasPlacement(destination.bufferFlags, OnDevice) && Length != destination.Length ==>
        r == Throw(Exception(SizeMismatch)) && core.api.log == old(core.api.log) && core.KernEvents == old(core.KernEvents)
      ensures HasPlacement(bufferFlags, OnDevice) && HasPlacement(destination.bufferFlags, OnDevice) && Length == destination.Length ==>
        var op := CopyRequest(deviceBuffer.Handle, destination.deviceBuffer.Handle, 0, 0, ToU64(Length), Elem, waitList);
        && core.api.log == old(core.api.log) + SubmitCalls(core.api, old(core.api.log), op, blocking)
        && core.KernEvents == old(core.KernEvents) + SubmitRecorded(core.api, old(core.api.log), op)
        && r == SubmitResult(core.api, old(core.api.log), op, blocking, UnmapFailure)
    {
      if !HasPlacement(bufferFlags, OnDevice) || !HasPlacement(destination.bufferFlags, OnDevice) {
        return Throw(Exception(BothNeedDevice));
      }
      if Length != destination.Length {
        return Throw(Exception(SizeMismatch));
      }
      var c := core.queue.EnqueueCopyBuffer(deviceBuffer.Handle, destination.deviceBuffer.Handle, 0, 0, ToU64(Length), Elem, waitList);
      if c.Throw? {
        return Throw(c.exn);
      }
      r := core.Settle(c.value, false, blocking);
    }
  }

  // ---------------------------------------------------------------------------
  // Accessor<T>: a mapped view of a compute buffer's host copy

  class Accessor<T(0)> {
    const master: ComputeBuffer<T>
    /** The mapped host memory. */
    const ptr: array<T>
    const Length: i32
    var disposedValue: bool
    /** How many times this accessor has unmapped its buffer. */
    ghost var unmaps: nat

    ghost predicate Valid()
      reads this
    {
      Length <= ptr.Length && unmaps == (if disposedValue then 1 else 0)
    }

    constructor Make(master: ComputeBuffer<T>, ptr: array<T>, length: i32)
      requires length <= ptr.Length
      ensures Valid() && !disposedValue
      ensures this.master == master && this.ptr == ptr && Length == length
    {
      this.master := master;
      this.ptr := ptr;
      Length := length;
      disposedValue := false;
      unmaps := 0;
    }

    /** The indexer's getter: `ptr[i]`, unchecked, so callers stay in range. */
    function Get(i: int): T
      reads this, ptr
      requires Valid() && 0 <= i < Length
    {
      ptr[i]
    }

    /** The indexer's setter: changes element `i` and nothing else. */
    method Set(i: int, value: T)
      requires Valid() && 0 <= i < Length
      modifies ptr
      ensures ptr[..] == old(ptr[..])[i := value]
      ensures Get(i) == value
      ensures forall j :: 0 <= j < Length && j != i ==> Get(j) == old(Get(j))
    {
      ptr[i] := value;
    }

    /** `Dispose()`: unmaps through the buffer the first time; once that has
        succeeded, later calls do nothing. An unmap that throws leaves the
        accessor undisposed. */
    method Dispose(core: Core) returns (r: Outcome)
      requires Valid() && master.Valid() && core.Ready()
      modifies this, core.api
      ensures Valid() && unmaps <= 1
      ensures old(disposedValue) ==> r == Pass && disposedValue && unmaps == old(unmaps) && core.api.log == old(core.api.log)
      ensures !old(disposedValue) && master.hostBuffer == null ==>
        r == Fail(NullReferenceException) && !disposedValue && core.api.log == old(core.api.log)
      ensures !old(disposedValue) && master.hostBuffer != null ==>
        var op := UnmapRequest(master.hostBuffer.Handle);
        var status := Answer(core.api, old(core.api.log), op);
        && core.api.log == old(core.api.log) + [Call(op, status)]
        && (disposedValue <==> status == Success)
        && (r.Pass? <==> status == Success)
        && (r.Fail? ==> r.exn == Exception(AppendErrCode(UnmapFailure, status)))
    {
      if !disposedValue {
        var u := master.UnmapAccessor(core);
        if u.Fail? {
          return u;
        }
        unmaps := unmaps + 1;
        disposedValue := true;
      }
      r := Pass;
    }
  }
}
