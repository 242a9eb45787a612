# SparkCL host runtime — a Dafny model

SparkCL is a C# layer over the OpenCL host API. This project models the
deterministic logic of its host side:

- **Compute buffers.** `ComputeBuffer<T>` keeps a host copy, a device copy,
  or (on a device that shares memory with the host) one memory object that
  serves as both. The placement chosen at construction guards every later
  map, transfer and copy. `Accessor<T>` is a mapped view that unmaps once.
- **Kernel arguments.** `ArgInfo` parses an OpenCL C type name (`float`,
  `uint*`, ...) into a pointer flag and an element type. `Kernel` binds
  arguments natively, then checks each binding against that descriptor.
  `PushArg` binds at an auto-advancing cursor.
- **Timing.** Two registries of events, transfers (`IOEvents`) and kernel
  work (`KernEvents`), are summed by `MeasureTime` and emptied by it and by
  `ResetTime`. The platform and device choice of `Init` is also modelled.
- **The binding layer.** This covers:
  - error-message formatting;
  - `NDRange`;
  - the event wait-list convention;
  - what each enqueue call hands to the driver, and when it produces an event;
  - the NUL truncation of queried type names;
  - memory-object factories;
  - page-aligned host arrays that copy on construction, update in place and
    free once.

Every native OpenCL call is an abstract effect. `Native.Api.Invoke` appends
the call, with the status the driver answered, to a log. The handle the call
creates is its position in that log. The driver's answers, the profiling
timestamps of events and a kernel's declared argument types are functions
fixed when the `Api` object is created. Unsigned 64-bit (`ulong`, `nuint`)
and 32-bit (`uint`) arithmetic wraps explicitly.

Module layout, one module per source area:

| module | file | models |
|---|---|---|
| `Common` | `common.dfy` | results and exceptions, integer widths, element types, decimal rendering |
| `Native` | `native.dfy` | status codes, flag sets, the call log |
| `OCLHelper` | `ocl_helper.dfy` | `OCLHelper/OCLHelper.cs`, `OCLHelper/Buffer.cs`, `OCLHelper/DeprecatedArray.cs` |
| `SparkOCL` | `spark_ocl.dfy` | `SparkOCL.cs` |
| `SparkCore` | `spark_core.dfy` | `SparkCL/Core.cs`, and the older `Core` of `SparkCL.cs` |
| `ComputeBuffers` | `compute_buffer.dfy` | `SparkCL/ComputeBuffer.cs` |
| `SparkCL` | `spark_cl.dfy` | `SparkCL.cs` (`ArgInfo`, `Kernel`, `Memory<T>`) |

## Model

| member | source | states |
|---|---|---|
| Common.ToU32 | SparkCL.cs:190-197 | The unchecked `uint` conversion of `lastPushed++` leaves in-range values unchanged. |
| Common.ToU64 | SparkCL/ComputeBuffer.cs:64-79 | The unchecked `(nuint)` conversion leaves in-range values unchanged. |
| Common.ConversionsWrap | SparkCL.cs:190-197 | Both conversions keep the value modulo 2^32 or 2^64: they wrap, they neither saturate nor throw. |
| Common.IntToString | OCLHelper/OCLHelper.cs:9-12 | The decimal rendering of the status in a failure message is non-empty, made of digits, with a leading '-' exactly for negative codes. |
| Common.ParseIntToString | OCLHelper/OCLHelper.cs:9-12 | Decimal rendering loses nothing: every integer reads back as itself. |
| Common.LastIndexOf | SparkCL.cs:124 | `String.LastIndexOf('*')` is -1 exactly when there is no '*'; otherwise it is a '*' that no later '*' follows. |
| Common.LastIndexOfSplit | SparkCL.cs:124 | The last '*' is found at the position no later '*' follows. |
| Common.IndexOf | SparkOCL.cs:574 | `Array.IndexOf(bytes, 0)` is -1 exactly when there is no NUL; otherwise it is a NUL with none before it. |
| Common.IndexOfSplit | SparkOCL.cs:574 | The first NUL is found at the position no earlier NUL precedes. |
| OCLHelper.AppendErrCodeReadsBack | OCLHelper/OCLHelper.cs:9-12 | Every failure message carries the integer status it was built from, whatever the description and the code's name. |
| OCLHelper.ParenthesisedReadsBack | OCLHelper/OCLHelper.cs:11 | A parenthesised decimal at the end of a message reads back, whatever precedes it. |
| OCLHelper.Empty | OCLHelper/OCLHelper.cs:25-31 | `new NDRange()` has 0 dimensions and three zero slots. |
| OCLHelper.NDRange1 | OCLHelper/OCLHelper.cs:32-38 | One dimension, the slots `[size0, 1, 1]`; a launch over it covers `size0` work-items. |
| OCLHelper.NDRange2 | OCLHelper/OCLHelper.cs:39-47 | Two dimensions, the slots `[size0, size1, 1]`; a launch covers `size0 * size1`. |
| OCLHelper.NDRange3AsWritten | OCLHelper/OCLHelper.cs:48-57 | As written: all three sizes are stored but the dimension count is 1. |
| OCLHelper.NDRange3AsWrittenDropsDimensions | OCLHelper/OCLHelper.cs:48-57 | A launch over the range as written covers only `size0` work-items: 2 x 2 x 2 runs 2, not 8. |
| OCLHelper.NDRange3 | OCLHelper/OCLHelper.cs:48-57 | Corrected: three dimensions, and a launch covers `size0 * size1 * size2`. |
| OCLHelper.SizeAt | OCLHelper/OCLHelper.cs:59-62 | The indexer returns `Sizes[i]` exactly for `0 <= i < 3`, else IndexOutOfRange. |
| OCLHelper.ByteSize | OCLHelper/Buffer.cs:23 | The requested byte size is `sizeof(T) * length` whenever that fits in 64 bits. |
| OCLHelper.NegativeSizeOverAllocates | OCLHelper/DeprecatedArray.cs:30-35 | For a negative `int` size, `(nuint)size * ElementSize` wraps to `2^64 + sizeof(T) * size`, within 2^34 bytes of 2^64. |
| OCLHelper.CopyHostRequestFlags | OCLHelper/Buffer.cs:20-26 | `NewCopyHost` asks for the data's byte size, hands the data over, and sets exactly the caller's flags plus CopyHostPtr. |
| OCLHelper.AllocHostRequestFlags | OCLHelper/Buffer.cs:41-47 | `NewAllocHost` adds AllocHostPtr to the caller's flags, hands over no data, and so lands in host memory. |
| OCLHelper.Buffer.Wrap | OCLHelper/Buffer.cs:74-78 | The private constructor stores the handle and the host flag. |
| OCLHelper.Buffer.NewCopyHost | OCLHelper/Buffer.cs:14-35 | One create call; on success a new buffer with that call's handle, on host iff the caller's flags hold AllocHostPtr or UseHostPtr; on failure the status is in the exception and no buffer exists. |
| OCLHelper.Buffer.NewAllocHost | OCLHelper/Buffer.cs:37-55 | One create call; on success a new buffer that is always on host; on failure the status is in the exception. |
| OCLHelper.Buffer.New | OCLHelper/Buffer.cs:57-72 | One create call with the caller's flags unchanged; on host iff AllocHostPtr or UseHostPtr. |
| OCLHelper.DeprecatedArray.FromSpan | OCLHelper/DeprecatedArray.cs:22-28 | A fresh allocation holding exactly the span's elements, not yet freed. |
| OCLHelper.DeprecatedArray.WithSize | OCLHelper/DeprecatedArray.cs:30-35 | Throws OutOfMemory exactly for a negative `int` size (the wrapped request no allocator meets); otherwise a fresh allocation of `size` elements, contents unspecified. |
| OCLHelper.DeprecatedArray.Set | OCLHelper/DeprecatedArray.cs:61-68 | Setting element `i` changes it alone, and a later get at `i` returns the value set. |
| OCLHelper.DeprecatedArray.AsSpan | OCLHelper/DeprecatedArray.cs:123-126 | Exactly elements `0 .. Count-1`, in order. |
| OCLHelper.DeprecatedArray.GetEnumerator | OCLHelper/DeprecatedArray.cs:103-109 | The loop yields exactly `AsSpan()`. |
| OCLHelper.DeprecatedArray.CopyTo | OCLHelper/DeprecatedArray.cs:116-121 | Succeeds iff the destination is at least as long; then its first `Count` slots are this array and the rest is unchanged; otherwise ArgumentException "Destination is too short. (Parameter 'destination')" and the destination is unchanged. |
| OCLHelper.DeprecatedArray.Dispose | OCLHelper/DeprecatedArray.cs:73-101 | The allocation is freed exactly once however often `Dispose` is called. |
| SparkOCL.Wait | SparkOCL.cs:45-55 | One wait on this event alone; it throws with the status iff the wait failed. |
| SparkOCL.Nintize | SparkOCL.cs:306-309 | Null stays null; otherwise the handles of the events, same length, in order. |
| SparkOCL.WaitListConsistent | SparkOCL.cs:311-344 | The (count, pointer) pair handed to the driver: the pointer is null exactly when the count is 0, and otherwise it lists `count` handles, those of the events in order. |
| SparkOCL.KernelLaunch | SparkOCL.cs:311-344 | The launch takes its work dimension from `global.Dimensions`, passes an offset only when `offset.Dimensions != 0`, and passes the caller's wait list. |
| SparkOCL.MapRequest | SparkOCL.cs:346-376 | A map of `count * sizeof(T)` bytes with no wait list. |
| SparkOCL.ReadRequest | SparkOCL.cs:378-408 | A read of `count * sizeof(T)` bytes with the caller's wait list. |
| SparkOCL.WriteRequest | SparkOCL.cs:410-436 | A write of `count * sizeof(T)` bytes, never with a wait list. |
| SparkOCL.UnmapRequest | SparkOCL.cs:438-459 | An unmap, never with a wait list. |
| SparkOCL.CopyRequest | SparkOCL.cs:461-492 | A copy of `count * sizeof(T)` bytes between the two handles, with the caller's wait list. |
| SparkOCL.CommandQueue.Wrap | SparkOCL.cs:494-497 | The private constructor stores the handle. |
| SparkOCL.CommandQueue.Create | SparkOCL.cs:277-294 | One create call with the profiling-enable property list; it throws with the status iff the call failed. |
| SparkOCL.CommandQueue.EnqueueNDRangeKernel | SparkOCL.cs:311-344 | One launch call; the event is produced whether or not the launch succeeded, and a failure is reported with its status. |
| SparkOCL.CommandQueue.EnqueueMapBuffer | SparkOCL.cs:346-376 | One map call; on success a mapped region of `count` elements and its event; on failure no event. |
| SparkOCL.CommandQueue.EnqueueReadBuffer | SparkOCL.cs:378-408 | One read call; an event exactly on success. |
| SparkOCL.CommandQueue.EnqueueWriteBuffer | SparkOCL.cs:410-436 | One write call; an event exactly on success; the failure message is the read one, as written. |
| SparkOCL.CommandQueue.EnqueueUnmapMemObject | SparkOCL.cs:438-459 | One unmap call; an event exactly on success. |
| SparkOCL.CommandQueue.EnqueueCopyBuffer | SparkOCL.cs:461-492 | One copy call; an event exactly on success; the failure message is the unmap one, as written. |
| SparkOCL.Decode | SparkOCL.cs:575 | Single-byte input decodes to one character per byte, with the same code. |
| SparkOCL.TypeNameFromBytes | SparkOCL.cs:574-575 | A name exactly when the bytes hold a NUL; with none, `GetString` throws ArgumentOutOfRange. |
| SparkOCL.TypeNameIsPrefix | SparkOCL.cs:574-575 | The name is the decoded bytes before the first NUL, and holds no NUL. |
| SparkOCL.NulTerminated | SparkOCL.cs:552-576 | What the driver writes for a name: its bytes and one terminating NUL. |
| SparkOCL.TypeNameRoundTrip | SparkOCL.cs:552-576 | Truncation recovers the driver's name, whatever follows the terminator. |
| SparkOCL.TypeNameStepShape | SparkOCL.cs:552-576 | The query asks for the size first and then for that many bytes; it yields a name only when both calls succeeded and the bytes hold a NUL. |
| SparkOCL.Kernel.Wrap | SparkOCL.cs:507 | A native kernel is known by its handle. |
| SparkOCL.Kernel.GetArgTypeName | SparkOCL.cs:552-576 | The calls made and the result are those of the type-name query. |
| SparkOCL.Kernel.GetArgAddressQualifier | SparkOCL.cs:578-591 | One query of `sizeof(enum)` bytes; on success the declared qualifier, else the status in the exception. |
| SparkOCL.Kernel.SetArgBuffer | SparkOCL.cs:593-605 | One bind of `sizeof(nint)` bytes holding the buffer handle; it throws with the literal `{arg_index}` message iff the bind failed. |
| SparkOCL.Kernel.SetArgScalar | SparkOCL.cs:607-617 | One bind of `sizeof(T)` bytes; it throws with the size and the status iff the bind failed. |
| SparkOCL.Kernel.SetSize | SparkOCL.cs:626-636 | One bind of `sizeof(T) * Length` bytes with a null value (local memory). |
| SparkOCL.NewBuffer | SparkOCL.cs:644-652 | One create call of the array's byte size over the array's memory with the caller's flags. |
| SparkCore.SubU64 | SparkCL/Core.cs:16 | `ulong` subtraction: exact when no borrow, else plus 2^64. |
| SparkCore.AddU64 | SparkCL/Core.cs:88 | `ulong` addition: exact below 2^64, else minus 2^64. |
| SparkCore.GetElapsed | SparkCL/Core.cs:11-17 | Complete minus Queued (Start to End for the older `Core`) modulo 2^64; exact when the clock did not go backwards. |
| SparkCore.TotalIsExactModulo | SparkCL/Core.cs:81-98 | The accumulated total is the true total time modulo 2^64, whatever the timestamps: wrap-around in the differences and in the sum cancels. |
| SparkCore.TotalExactWithoutWrap | SparkCL/Core.cs:81-98 | With a true total in `[0, 2^64)` the reported total is exact. |
| SparkCore.ExactTotalNonNegative | SparkCL/Core.cs:81-98 | Well-ordered timestamps give a non-negative true total. |
| SparkCore.SumElapsed | SparkCL/Core.cs:86-93 | The `foreach` loop computes the registry total, equal to the true total modulo 2^64. |
| SparkCore.ChoosePlatform | SparkCL/Core.cs:52-61 | Platform 1 iff platform 0 is "Clover" and there are at least two; otherwise platform 0; no platform at all throws IndexOutOfRange. |
| SparkCore.FirstGpu | SparkCL/Core.cs:66 | `First()` gives the first GPU, or throws InvalidOperation when there is none. |
| SparkCore.SubmissionWaitsOnItsOwnEvent | SparkCL/ComputeBuffer.cs:241-249 | A blocking submission waits on its own event and nothing else; a non-blocking one never waits; a failed enqueue records nothing and is not waited on. |
| SparkCore.Core.constructor | SparkCL/Core.cs:43-48 | Nothing chosen yet, and both registries start empty. |
| SparkCore.Core.Init | SparkCL/Core.cs:50-77 | Picks the platform by the Clover rule and its first GPU, then creates a context on that device. A failed context call throws its status and makes no further call; otherwise the profiling-enabled queue is requested, and `Init` passes exactly when that call succeeds, else throws its status. The registries are untouched. |
| SparkCore.Core.Settle | SparkCL/ComputeBuffer.cs:241-249 | The event is added to its registry; when blocking, one wait on that event follows. |
| SparkCore.Core.MeasureTime | SparkCL/Core.cs:81-98 | Returns each registry's total (true total modulo 2^64), then both are empty, so a following call reports (0, 0). |
| SparkCore.Core.ResetTime | SparkCL/Core.cs:99-103 | Both registries emptied, device, context and queue unchanged. |
| ComputeBuffers.SpanRequests | SparkCL/ComputeBuffer.cs:35-51 | A unified device gets one create call; otherwise one per requested side, at most two. |
| ComputeBuffers.LengthRequests | SparkCL/ComputeBuffer.cs:64-80 | The same for the length constructor. |
| ComputeBuffers.SpanRequestsPlaceMemory | SparkCL/ComputeBuffer.cs:35-51 | The host side is requested in host-accessible memory and the device side is not; every object is initialised from the span with its byte size; one call per requested side. |
| ComputeBuffers.LengthRequestsPlaceMemory | SparkCL/ComputeBuffer.cs:64-80 | The host side in host-accessible memory, the device side with the caller's flags exactly, nothing initialised. |
| ComputeBuffers.PlanCallsArePrefix | SparkCL/ComputeBuffer.cs:40-51 | A construction makes the planned create calls in order and stops at the first failure, which is its last call. |
| ComputeBuffers.PlanAppend | SparkCL/ComputeBuffer.cs:40-51 | The host step followed by the device step is the two-step plan, the second made only if the first succeeded. |
| ComputeBuffers.FollowsInSequence | SparkCL/ComputeBuffer.cs:40-51 | Two creations in sequence, the whole failing as the first failure, follow the concatenated plan. |
| ComputeBuffers.ComputeBuffer.FlagsGuardHandles | SparkCL/ComputeBuffer.cs:35-50 | The placement invariant makes every `!` safe: stored OnHost implies a host object, OnDevice a device object, and a shared object implies a unified device. |
| ComputeBuffers.ComputeBuffer.Make | SparkCL/ComputeBuffer.cs:32-33 | Stores the fields and establishes the placement invariant. |
| ComputeBuffers.ComputeBuffer.CopyHostIf | SparkCL/ComputeBuffer.cs:42-50 | When wanted one `NewCopy`, else nothing and null; a new object exactly when wanted, whose handle is that call's and which is on host by the flag rule. |
| ComputeBuffers.ComputeBuffer.AllocHostIf | SparkCL/ComputeBuffer.cs:71-74 | When wanted one `NewAllocHost`, else nothing and null; the new object has that call's handle and is on host. |
| ComputeBuffers.ComputeBuffer.PlainIf | SparkCL/ComputeBuffer.cs:76-79 | When wanted one plain `Buffer<T>` constructor, else nothing and null; the new object has that call's handle and is on host by the flag rule. |
| ComputeBuffers.ComputeBuffer.SeparateCopies | SparkCL/ComputeBuffer.cs:40-51 | On a non-unified device the host object exists iff OnHost and the device object iff OnDevice; two objects are distinct and new; the host object has the first call's handle and is on host, the device object the next call's handle; the calls follow the plan. |
| ComputeBuffers.ComputeBuffer.SeparateAllocations | SparkCL/ComputeBuffer.cs:69-80 | The same for the length constructor, with the handles of its AllocHost and plain calls. |
| ComputeBuffers.ComputeBuffer.FromSpan | SparkCL/ComputeBuffer.cs:25-52 | AllocHostPtr in the caller's flags throws before any call; otherwise the calls follow the plan, and a success is a valid buffer of the span's length (one shared object on a unified device) whose memory objects are new, the host one made by the first create call and in host memory, the device one by the call after it (the same call on a unified device). |
| ComputeBuffers.ComputeBuffer.WithLength | SparkCL/ComputeBuffer.cs:54-81 | The same for `(nuint)length` uninitialised elements, with the same handles, freshness and host placement. |
| ComputeBuffers.ComputeBuffer.UnmapAccessor | SparkCL/ComputeBuffer.cs:84-87 | One unmap of the host object; a missing host object is a null dereference. |
| ComputeBuffers.ComputeBuffer.MapHost | SparkCL/ComputeBuffer.cs:89-120 | Refused without a stored OnHost, even when a unified device made a host object; otherwise a blocking map of `Length` elements recorded in `IOEvents` and waited on, giving an accessor of `Length`. |
| ComputeBuffers.ComputeBuffer.HostReadTo | SparkCL/ComputeBuffer.cs:153-158 | One blocking read of the host object with no wait list, neither recorded nor waited on. |
| ComputeBuffers.ComputeBuffer.DeviceReadTo | SparkCL/ComputeBuffer.cs:160-165 | The same from the device object. |
| ComputeBuffers.ComputeBuffer.ToDevice | SparkCL/ComputeBuffer.cs:167-195 | Throws unless both OnHost and OnDevice; null with no call when the two are one object; otherwise exactly one host-to-device copy of `Length`, recorded in `KernEvents`, waited on only when blocking. |
| ComputeBuffers.ComputeBuffer.ToHost | SparkCL/ComputeBuffer.cs:197-225 | The same, device to host. |
| ComputeBuffers.ComputeBuffer.CopyHostTo | SparkCL/ComputeBuffer.cs:227-250 | Placement on both sides is checked, then equal lengths; either failure throws with no call; otherwise one host-to-host copy of `Length`. |
| ComputeBuffers.ComputeBuffer.CopyDeviceTo | SparkCL/ComputeBuffer.cs:252-275 | The same between device objects. |
| ComputeBuffers.Accessor.Make | SparkCL/ComputeBuffer.cs:312-317 | Stores master, pointer and length; not yet disposed. |
| ComputeBuffers.Accessor.Set | SparkCL/ComputeBuffer.cs:303-310 | Writing element `i` changes it alone. |
| ComputeBuffers.Accessor.Dispose | SparkCL/ComputeBuffer.cs:324-352 | Unmaps at most once: later calls are no-ops with no native call. |
| SparkCL.BaseName | SparkCL.cs:133-140 | The four accepted base names, none containing '*'. |
| SparkCL.CTypeName | SparkCL.cs:124-140 | An accepted spelling ends in '*' exactly for a pointer. |
| SparkCL.BaseType | SparkCL.cs:133-140 | Only the four names map to a type, each back to its own name; every other name throws NotImplemented. |
| SparkCL.Describe | SparkCL.cs:133-140 | A descriptor keeps name, qualifier and pointer-ness, and names a supported type spelled as given. |
| SparkCL.ParseArgInfo | SparkCL.cs:120-141 | The empty name throws ArgumentOutOfRange; any success is one of the eight accepted spellings, with the pointer flag set iff the name ends in '*'; every other failure is NotImplemented. |
| SparkCL.ParseCTypeName | SparkCL.cs:120-141 | Each of the eight spellings parses back to its type and pointer-ness. |
| SparkCL.DoublePointerRejected | SparkCL.cs:124-140 | `"float**"` leaves `"float*"` as base name and throws NotImplemented. |
| SparkCL.CTypeNameInjective | SparkCL.cs:133-140 | Different types or pointer-ness are spelled differently. |
| SparkCL.MatchesByName | SparkCL.cs:143-153 | A scalar of T matches a slot declared `T` or `T*` (pointer-ness ignored); a buffer of T matches `T*` only. |
| SparkCL.ArgInfoStepShape | SparkCL.cs:241-246 | The descriptor query starts with the type-name query and yields a descriptor only when that query and the qualifier query succeeded and the name parses. |
| SparkCL.ArgInfoStepOnlyQueries | SparkCL.cs:241-246 | Building the descriptor makes only argument-info queries. |
| SparkCL.CheckSlotPasses | SparkCL.cs:204-210 | The check after a bind passes exactly when both queries succeeded and the declared name is one the matcher accepts; it only queries. |
| SparkCL.BindsThenChecksPasses | SparkCL.cs:199-225 | The bind is the first call and is kept whatever the check says; the call passes iff the bind succeeded and the check passed. |
| SparkCL.ScalarBindPasses | SparkCL.cs:199-211 | `SetArg(idx, T)` passes iff the bind and both queries succeeded and the slot is declared `T` or `T*`. |
| SparkCL.BufferBindPasses | SparkCL.cs:213-225 | `SetArg(idx, Memory<T>)` passes iff the bind and both queries succeeded and the slot is declared `T*`. |
| SparkCL.SizeBindAsWrittenNeverPasses | SparkCL.cs:227-239 | As written, `SetSize` never passes: no declared name parses to `nuint`. |
| SparkCL.SizeBindPasses | SparkCL.cs:227-239 | Corrected: `SetSize` passes iff the bind and both queries succeeded and the slot is declared `T*`. |
| SparkCL.Kernel.constructor | SparkCL.cs:248-253 | Stores the native kernel and the work sizes; the cursor starts at 0. |
| SparkCL.Kernel.GetArgInfo | SparkCL.cs:241-246 | The calls and result are those of the descriptor query. |
| SparkCL.Kernel.Check | SparkCL.cs:206-210 | The calls and outcome are those of the slot check. |
| SparkCL.Kernel.SetArg | SparkCL.cs:199-211 | Bind first, then query and check; a mismatch throws `Expected "<TypeName>", got "<T>"`. |
| SparkCL.Kernel.SetArgMemory | SparkCL.cs:213-225 | Bind the buffer handle, then check for a pointer to T; a mismatch names `"<T>*"`. |
| SparkCL.Kernel.SetSizeAsWritten | SparkCL.cs:227-239 | As written: a local-memory bind of `sizeof(T) * sz` bytes, then a check against `nuint`, so the call always throws. |
| SparkCL.Kernel.SetSize | SparkCL.cs:227-239 | Corrected: the same bind, checked against a `T*` slot. |
| SparkCL.Kernel.PushArg | SparkCL.cs:190-197 | Binds at the cursor, then advances it by one (wrapping as `uint`) and returns the new value; a throwing bind leaves the cursor unchanged. |
| SparkCL.Kernel.PushArgMemory | SparkCL.cs:181-188 | The same for a memory argument. |
| SparkCL.Kernel.Execute | SparkCL.cs:165-179 | One launch with an empty offset over the work sizes; the event is recorded in `KernEvents` and waited on only when blocking. |
| SparkCL.Memory.Make | SparkCL.cs:302-305 | Stores the memory object and the array. |
| SparkCL.Memory.FromSpan | SparkCL.cs:264-268 | A copy of the span, and a memory object over it with UseHostPtr added to the caller's flags. |
| SparkCL.Memory.WithSize | SparkCL.cs:296-300 | A negative `int` size throws OutOfMemory before any native call; otherwise `size` elements, and a memory object over them with UseHostPtr added. |
| SparkCL.Memory.Over | SparkCL.cs:270-274 | A memory object over the given array with UseHostPtr added. |
| SparkCL.Memory.Read | SparkCL.cs:334-344 | One read of `Count` elements with the caller's `blocking` flag and no wait list, recorded in `IOEvents`, never waited on. |
| SparkCL.Memory.Write | SparkCL.cs:346-355 | One write of `Count` elements, recorded in `IOEvents`, never waited on. |
| SparkCL.Memory.CopyTo | SparkCL.cs:357-376 | A count mismatch throws before any call; otherwise one copy of `Count` elements, recorded in `KernEvents`, waited on only when blocking. |
| SparkCL.Memory.Dispose | SparkCL.cs:400-427 | The array is freed once, however often `Dispose` is called. |

## Left out

- Native OpenCL calls are abstract effects in a log. Their answers, the
  profiling timestamps and the declared argument types are given functions.
  Device-side execution and asynchrony are not modelled. `blocking` appears
  only as a logged wait on the event or as the flag handed to the driver.
- `SparkOCL.CommandQueue` stands in for the queue that `SparkCL/ComputeBuffer.cs`
  and `SparkCL/Core.cs` use. The OCLHelper command queue and event classes
  are not part of this model. Their wait-list, byte-count and failure
  conventions are taken to be those of `SparkOCL.cs`.
- `Buffer<T>.NewCopy`, called by the compute-buffer span constructor, is not
  part of this model. It is modelled as `NewCopyHost`.
- The timing registries are modelled as built with `COLLECT_TIME` (and
  `DEBUG_TIME` in `SparkCL.cs`, which defines it).
- A computation before `Init` (a null `Core.queue` or `Core.device`) is
  excluded by `requires core.Ready()`.
- The `StreamReader` constructors (`SparkCL.cs:276-294`,
  `OCLHelper/DeprecatedArray.cs:37-59`) read files and parse numbers.
  `Memory<T>.DotHost` calls an external BLAS routine on floats.
  `Program.FromFilename` prints the build log. These are file I/O, floating
  point or console output.
- Element values are opaque. A kernel's scalar argument is bound as
  "a value of type T".
- Type names are decoded byte by byte (ASCII). Multi-byte UTF-8 is not
  modelled.
- Finalizers and GC-driven releases are not modelled. They run
  non-deterministically. Only the explicit `Dispose` paths are.
- Platform and device enumeration (`Platform.Get`, `GetDevices`,
  `Context.FromType`), `Finish`/`WaitQueue`, `StarterKit`, and the console
  output of `Init` are thin wrappers or I/O. `Init` takes the discovered
  platforms as its input.
- Create calls do not record the context they are made on. `Init` passes
  its new context to the queue, and buffers are created on `Core.context`.
  The model does not state either, because it has only one context.
- Failure messages render the status's sign as `-`, as in the invariant
  culture. A current culture with another `NegativeSign` is not modelled.
- `SparkCore.FirstGpu`: `Init` models a platform without a GPU as an empty
  device list, so it throws InvalidOperationException from `First()`. The
  program never gets there: `GetDevicesOfType` (`OCLHelper/Platform.cs:30-37`)
  already throws `Exception("Couldn't get devices ID, code: DeviceNotFound(-1)")`,
  since the driver reports CL_DEVICE_NOT_FOUND when no device matches.
- `ErrorCodes` comes from the OpenCL binding library, which is not part of
  this model. `Native.CodeNames` names the core OpenCL statuses after their
  `CL_` constants in the binding's PascalCase style. Extension statuses
  (-1000 and below) print as their number.
- `OCLHelper.DeprecatedArray.WithSize` and `SparkCL.Memory.WithSize`: a
  non-negative size is taken to be allocatable. Running out of memory on a
  valid size is not modelled; neither is it for the span constructors.
- Kernel creation from a program (`SparkOCL.cs:509-520`) is a thin wrapper
  around one native call. A kernel is given by its handle.
- The older `Core.Init` of `SparkCL.cs` is a bootstrap wrapper and is left
  out. Its `Core` is `SparkCore.Core` with the Start-to-End interval.
- `SparkOCL.GetProfilingInfo`: a failing profiling query is not modelled.
  Events carry their timestamps.
- `ComputeBuffers.ComputeBuffer.UnmapAccessor`: the mapped pointer handed to
  the unmap call is not recorded in the log.
- `ComputeBuffers.ComputeBuffer.MapHost`: the mapped memory is a fresh array
  of `Length` elements. Its aliasing with the device memory is not modelled.
- `ComputeBuffers.PlanCallsArePrefix`: plans are limited to the at most two
  create calls a constructor makes.
- `SparkCL.Kernel.SetArg`: the native bind comes before the type check, as
  the code does. A mismatched argument therefore stays bound even though the
  call throws.
- Accessor `AsSpan` and Memory `AsSpan`/indexer/`GetEnumerator` delegate to
  `DeprecatedArray`, whose `AsSpan`, `Get` and `Set` model them.
- `SparkOCL.Array<T>` is the same class as `OCLHelper.DeprecatedArray<T>`.
  Its constructors, indexer and `Dispose` are those members.

## Findings

| source | as written | input that shows it | evidently intended | confidence | as-written member | corrected member |
|---|---|---|---|---|---|---|
| OCLHelper/OCLHelper.cs:48-57 | the three-size `NDRange` constructor sets `Dimensions = 1` (and so does `SparkOCL.cs:256-265`) | `new NDRange(2, 2, 2)`: a launch covers 2 work-items | `Dimensions = 3`, covering 8 | not executed | OCLHelper.NDRange3AsWrittenDropsDimensions | OCLHelper.NDRange3 |
| SparkCL.cs:227-239 | `SetSize` checks `info.IsEqualTo(sz)` with `sz` a `nuint`, i.e. whether the slot's type is `nuint` | `SetSize<float>(0, 16)` on a slot declared `float*`: the bind succeeds, then it throws `Expected "float*", got "System.Single"` | a local array of T goes to a `T*` slot, as `SetArg(idx, Memory<T>)` checks | not executed | SparkCL.SizeBindAsWrittenNeverPasses | SparkCL.SizeBindPasses |
