/** The OpenCL host API as the runtime layer sees it through its binding:
    status codes, flag sets, and every native call as an abstract effect.
    A call is appended, with the status the driver answered, to the log of
    an `Api` object; what the driver answers, the profiling timestamps of an
    event and a compiled kernel's argument declarations are given functions
    fixed when the `Api` is created. Nothing else of the driver is modelled. */
module Native {
  import opened Common

  /** A native object handle (buffer, event, kernel, device ...). */
  type Handle = nat

  /** An OpenCL status code (the `ErrorCodes` enum), carried by its value. */
  datatype ErrorCode = ErrorCode(value: i32)

  const Success: ErrorCode := ErrorCode(0)

  /** Member names of the `ErrorCodes` enum: every status of the core OpenCL
      API (0, -1 .. -19 and -30 .. -72), named after its `CL_` constant. A
      value with no member (an extension's code) is rendered as its number. */
  const CodeNames: map<int, string> := map[
    0 := "Success",
    -1 := "DeviceNotFound",
    -2 := "DeviceNotAvailable",
    -3 := "CompilerNotAvailable",
    -4 := "MemObjectAllocationFailure",
    -5 := "OutOfResources",
    -6 := "OutOfHostMemory",
    -7 := "ProfilingInfoNotAvailable",
    -8 := "MemCopyOverlap",
    -9 := "ImageFormatMismatch",
    -10 := "ImageFormatNotSupported",
    -11 := "BuildProgramFailure",
    -12 := "MapFailure",
    -13 := "MisalignedSubBufferOffset",
    -14 := "ExecStatusErrorForEventsInWaitList",
    -15 := "CompileProgramFailure",
    -16 := "LinkerNotAvailable",
    -17 := "LinkProgramFailure",
    -18 := "DevicePartitionFailed",
    -19 := "KernelArgInfoNotAvailable",
    -30 := "InvalidValue",
    -31 := "InvalidDeviceType",
    -32 := "InvalidPlatform",
    -33 := "InvalidDevice",
    -34 := "InvalidContext",
    -35 := "InvalidQueueProperties",
    -36 := "InvalidCommandQueue",
    -37 := "InvalidHostPtr",
    -38 := "InvalidMemObject",
    -39 := "InvalidImageFormatDescriptor",
    -40 := "InvalidImageSize",
    -41 := "InvalidSampler",
    -42 := "InvalidBinary",
    -43 := "InvalidBuildOptions",
    -44 := "InvalidProgram",
    -45 := "InvalidProgramExecutable",
    -46 := "InvalidKernelName",
    -47 := "InvalidKernelDefinition",
    -48 := "InvalidKernel",
    -49 := "InvalidArgIndex",
    -50 := "InvalidArgValue",
    -51 := "InvalidArgSize",
    -52 := "InvalidKernelArgs",
    -53 := "InvalidWorkDimension",
    -54 := "InvalidWorkGroupSize",
    -55 := "InvalidWorkItemSize",
    -56 := "InvalidGlobalOffset",
    -57 := "InvalidEventWaitList",
    -58 := "InvalidEvent",
    -59 := "InvalidOperation",
    -60 := "InvalidGLObject",
    -61 := "InvalidBufferSize",
    -62 := "InvalidMipLevel",
    -63 := "InvalidGlobalWorkSize",
    -64 := "InvalidProperty",
    -65 := "InvalidImageDescriptor",
    -66 := "InvalidCompilerOptions",
    -67 := "InvalidLinkerOptions",
    -68 := "InvalidDevicePartitionCount",
    -69 := "InvalidPipeSize",
    -70 := "InvalidDeviceQueue",
    -71 := "InvalidSpecID",
    -72 := "MaxSizeRestrictionExceeded"
  ]

  /** How an `ErrorCodes` value prints in an interpolated string: its member
      name, or its number when the enum has no member for it. */
  function CodeText(c: ErrorCode): string
  {
    if c.value in CodeNames then CodeNames[c.value] else IntToString(c.value)
  }

  /** `MemFlags`, a bit set. */
  type MemFlags = bv64

  const ReadWrite: MemFlags := 1
  const WriteOnly: MemFlags := 2
  const ReadOnly: MemFlags := 4
  const UseHostPtr: MemFlags := 8
  const AllocHostPtr: MemFlags := 16
  const CopyHostPtr: MemFlags := 32

  /** `MapFlags`, a bit set. */
  type MapFlags = bv64

  const MapRead: MapFlags := 1
  const MapWrite: MapFlags := 2

  /** `Enum.HasFlag`: every bit of `flag` is set in `flags`. */
  predicate HasFlag(flags: bv64, flag: bv64)
  {
    flags & flag == flag
  }

  datatype ProfilingInfo = Queued | Submit | Start | End | Complete

  /** The device-clock timestamps the driver reports for one event. */
  datatype Profile = Profile(queued: u64, submit: u64, start: u64, end: u64, complete: u64)

  datatype AddressQualifier = Global | Local | Constant | Private

  datatype KernelArgInfo = AddressQualifierInfo | TypeNameInfo

  /** What a kernel-argument binding hands to the driver. */
  datatype ArgValue =
    | ScalarValue(t: NumType)   // a value of that type, its bits not modelled
    | MemObject(buffer: Handle) // a buffer handle
    | LocalMemory               // a null value: a local array of the given size

  /** A native call with the arguments that matter: flag sets, byte sizes,
      offsets, handles, and the (count, pointer) pair of an event wait list,
      the pointer being None when null. */
  datatype Op =
    | CreateBuffer(flags: MemFlags, size: u64, hostElements: Option<nat>)
    | CreateContext(device: Handle)
    | CreateCommandQueue(device: Handle, properties: seq<u64>)
    | EnqueueNDRangeKernel(kernel: Handle, workDim: u32, globalOffset: Option<seq<u64>>,
                           global: seq<u64>, local: seq<u64>, numEvents: u32, eventList: Option<seq<Handle>>)
    | EnqueueMapBuffer(buffer: Handle, blocking: bool, mapFlags: MapFlags, offset: u64, size: u64,
                       numEvents: u32, eventList: Option<seq<Handle>>)
    | EnqueueReadBuffer(buffer: Handle, blocking: bool, offset: u64, size: u64,
                        numEvents: u32, eventList: Option<seq<Handle>>)
    | EnqueueWriteBuffer(buffer: Handle, blocking: bool, offset: u64, size: u64,
                         numEvents: u32, eventList: Option<seq<Handle>>)
    | EnqueueUnmapMemObject(buffer: Handle, numEvents: u32, eventList: Option<seq<Handle>>)
    | EnqueueCopyBuffer(src: Handle, dst: Handle, srcOffset: u64, dstOffset: u64, size: u64,
                        numEvents: u32, eventList: Option<seq<Handle>>)
    | WaitForEvents(events: seq<Handle>)
    | SetKernelArg(kernel: Handle, index: u32, size: u64, value: ArgValue)
    | GetKernelArgInfo(kernel: Handle, index: u32, param: KernelArgInfo, valueSize: u64)

  /** One native call and the status the driver answered. */
  datatype Call = Call(op: Op, status: ErrorCode)

  /** All native calls after position `from` of the log succeeded. */
  predicate SucceededFrom(log: seq<Call>, from: nat)
  {
    forall k :: from <= k < |log| ==> log[k].status == Success
  }

  /** The status the driver gives `op` when it is made after the calls of `log`. */
  function Answer(api: Api, log: seq<Call>, op: Op): ErrorCode
  {
    api.reply(|log|, op)
  }

  /** The driver, as seen from the host: a log of the calls made so far, and
      the given answers. The handle a call creates is its position in the log. */
  class Api {
    var log: seq<Call>
    const reply: (nat, Op) -> ErrorCode
    const profile: Handle -> Profile
    const argTypeName: (Handle, u32) -> seq<byte>
    const argQualifier: (Handle, u32) -> AddressQualifier

    constructor (reply: (nat, Op) -> ErrorCode, profile: Handle -> Profile,
                 argTypeName: (Handle, u32) -> seq<byte>, argQualifier: (Handle, u32) -> AddressQualifier)
      ensures log == []
      ensures this.reply == reply && this.profile == profile
      ensures this.argTypeName == argTypeName && this.argQualifier == argQualifier
    {
      log := [];
      this.reply := reply;
      this.profile := profile;
      this.argTypeName := argTypeName;
      this.argQualifier := argQualifier;
    }

    /** Make one native call. */
    method Invoke(op: Op) returns (status: ErrorCode, h: Handle)
      modifies this
      ensures h == |old(log)| && status == reply(h, op)
      ensures log == old(log) + [Call(op, status)]
    {
      h := |log|;
      status := reply(h, op);
      log := log + [Call(op, status)];
    }

    /** Make a map call; the driver hands back `count` elements of mapped memory. */
    method InvokeMap<T(0)>(op: Op, count: nat) returns (status: ErrorCode, h: Handle, ptr: array<T>)
      requires op.EnqueueMapBuffer?
      modifies this
      ensures h == |old(log)| && status == reply(h, op)
      ensures log == old(log) + [Call(op, status)]
      ensures fresh(ptr) && ptr.Length == count
    {
      status, h := Invoke(op);
      ptr := new T[count];
    }
  }
}
