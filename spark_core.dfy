/** The runtime's global state: the chosen device, its context and queue, and
    the two registries of events (transfers and kernel work) whose profiled
    durations `MeasureTime` reports. `SparkCL/Core.cs` times an event from
    Queued to Complete; the older `Core` of `SparkCL.cs` times it from Start to
    End, and is the same class with the other interval. */
module SparkCore {
  import opened Common
  import opened Native
  import opened OCLHelper
  import opened SparkOCL

  const Modulus: int := 0x1_0000_0000_0000_0000

  // ---------------------------------------------------------------------------
  // Unsigned 64-bit arithmetic, unchecked as C# compiles it

  /** `a - b` on ulong. */
  function SubU64(a: u64, b: u64): (r: u64)
    ensures b <= a ==> r == a - b
    ensures a < b ==> r == a - b + Modulus
  {
    ToU64(a - b)
  }

  /** `a + b` on ulong. */
  function AddU64(a: u64, b: u64): (r: u64)
    ensures a + b < Modulus ==> r == a + b
    ensures a + b >= Modulus ==> r == a + b - Modulus
  {
    ToU64(a + b)
  }

  lemma ModShift(x: int, k: int)
    ensures (x + k * Modulus) % Modulus == x % Modulus
  {
  }

  lemma ModSum(a: int, b: int)
    ensures (a % Modulus + b % Modulus) % Modulus == (a + b) % Modulus
  {
    ModShift(a % Modulus + b % Modulus, a / Modulus + b / Modulus);
    assert a % Modulus + b % Modulus + (a / Modulus + b / Modulus) * Modulus == a + b;
  }

  // ---------------------------------------------------------------------------
  // Elapsed time

  /** Which two timestamps bound an event's duration. */
  datatype Interval = QueuedToComplete | StartToEnd

  function From(iv: Interval): ProfilingInfo
  {
    if iv == QueuedToComplete then Queued else Start
  }

  function To(iv: Interval): ProfilingInfo
  {
    if iv == QueuedToComplete then Complete else End
  }

  /** The true duration of an event, negative when the clock went backwards. */
  function Duration(ev: Event, iv: Interval): int
  {
    GetProfilingInfo(ev, To(iv)) - GetProfilingInfo(ev, From(iv))
  }

  /** `GetElapsed`: the later timestamp minus the earlier one, as ulong. */
  function GetElapsed(ev: Event, iv: Interval): (r: u64)
    ensures r == Duration(ev, iv) % Modulus
    ensures 0 <= Duration(ev, iv) ==> r == Duration(ev, iv)
  {
    SubU64(GetProfilingInfo(ev, To(iv)), GetProfilingInfo(ev, From(iv)))
  }

  /** What `MeasureTime`'s `foreach` accumulates over a registry, in order. */
  function TotalElapsed(evs: seq<Event>, iv: Interval): u64
  {
    if evs == [] then 0 else AddU64(TotalElapsed(evs[..|evs| - 1], iv), GetElapsed(evs[|evs| - 1], iv))
  }

  /** The sum of the true durations. */
  function ExactTotal(evs: seq<Event>, iv: Interval): int
  {
    if evs == [] then 0 else ExactTotal(evs[..|evs| - 1], iv) + Duration(evs[|evs| - 1], iv)
  }

  /** The reported total is the true total time modulo 2^64, whatever the
      timestamps: wrap-around in the elapsed times and in the sum cancels out. */
  lemma {:induction false} TotalIsExactModulo(evs: seq<Event>, iv: Interval)
    ensures TotalElapsed(evs, iv) == ExactTotal(evs, iv) % Modulus
  {
    if evs != [] {
      var prefix, last := evs[..|evs| - 1], evs[|evs| - 1];
      TotalIsExactModulo(prefix, iv);
      ModSum(ExactTotal(prefix, iv), Duration(last, iv));
    }
  }

  /** With well-ordered timestamps and a true total below 2^64, the reported
      total is exact. */
  lemma TotalExactWithoutWrap(evs: seq<Event>, iv: Interval)
    requires 0 <= ExactTotal(evs, iv) < Modulus
    ensures TotalElapsed(evs, iv) == ExactTotal(evs, iv)
  {
    TotalIsExactModulo(evs, iv);
  }

  /** Every event's duration is non-negative, hence so is the total. */
  lemma {:induction false} ExactTotalNonNegative(evs: seq<Event>, iv: Interval)
    requires forall k :: 0 <= k < |evs| ==> 0 <= Duration(evs[k], iv)
    ensures 0 <= ExactTotal(evs, iv)
  {
    if evs != [] {
      ExactTotalNonNegative(evs[..|evs| - 1], iv);
    }
  }

  /** The `foreach` loop of `MeasureTime` over one registry. */
  method SumElapsed(evs: seq<Event>, iv: Interval) returns (total: u64)
    ensures total == TotalElapsed(evs, iv)
    ensures total == ExactTotal(evs, iv) % Modulus
  {
    total := 0;
    for i := 0 to |evs|
      invariant total == TotalElapsed(evs[..i], iv)
    {
      assert evs[..i + 1][..i] == evs[..i];
      total := AddU64(total, GetElapsed(evs[i], iv));
    }
    assert evs[..|evs|] == evs;
    TotalIsExactModulo(evs, iv);
  }

  // ---------------------------------------------------------------------------
  // Platform and device choice

  /** A device and whether it shares memory with the host. */
  datatype Device = Device(Handle: Handle, IsHostUnifiedMemory: bool)

  /** A discovered platform: its name and its GPU devices. */
  datatype Platform = Platform(Name: string, Gpus: seq<Device>)

  /** The platform `Init` picks: the second one when the first is Mesa's
      "Clover" and there is a second, else the first; indexing an empty
      array throws. */
  function ChoosePlatform(names: seq<string>): (r: Result<nat>)
    ensures r.Throw? <==> |names| == 0
    ensures r.Throw? ==> r.exn == IndexOutOfRangeException
    ensures r.Ok? ==> r.value < |names|
    ensures r.Ok? ==> (r.value == 1 <==> names[0] == "Clover" && |names| > 1)
    ensures r.Ok? ==> (r.value == 0 <==> !(names[0] == "Clover" && |names| > 1))
    ensures r.Ok? && names[r.value] == "Clover" ==> |names| == 1 || names[1] == "Clover"
  {
    if |names| == 0 then Throw(IndexOutOfRangeException)
    else if names[0] == "Clover" && |names| > 1 then Ok(1)
    else Ok(0)
  }

  /** `Enumerable.First`: the first device, or InvalidOperationException. */
  function FirstGpu(gpus: seq<Device>): (r: Result<Device>)
    ensures r.Ok? <==> |gpus| > 0
    ensures r.Ok? ==> r.value == gpus[0]
    ensures r.Throw? ==> r.exn == InvalidOperationException
  {
    if |gpus| == 0 then Throw(InvalidOperationException) else Ok(gpus[0])
  }

  /** The platforms' names, in order. */
  function Names(platforms: seq<Platform>): seq<string>
  {
    seq(|platforms|, i requires 0 <= i < |platforms| => platforms[i].Name)
  }

  const ContextFailure := "Couldn't create context on requested device, code: "

  // ---------------------------------------------------------------------------
  // Timed submissions: enqueue, record the event, wait on it when blocking

  /** The native calls of a timed submission of `op`: the enqueue, then,
      when it succeeded and the caller blocks, a wait on its event. */
  function SubmitCalls(api: Api, before: seq<Call>, op: Op, blocking: bool): seq<Call>
  {
    var first := [Call(op, Answer(api, before, op))];
    if Answer(api, before, op) != Success || !blocking then first
    else first + [Call(WaitForEvents([|before|]), Answer(api, before + first, WaitForEvents([|before|])))]
  }

  /** What a timed submission returns, or the exception it throws. */
  function SubmitResult(api: Api, before: seq<Call>, op: Op, blocking: bool, failure: string): Result<Event>
  {
    var status := Answer(api, before, op);
    if status != Success then Throw(Exception(AppendErrCode(failure, status)))
    else if !blocking then Ok(EventFor(api, |before|))
    else
      var waited := Answer(api, before + [Call(op, status)], WaitForEvents([|before|]));
      if waited != Success then Throw(Exception(AppendErrCode(WaitFailure, waited)))
      else Ok(EventFor(api, |before|))
  }

  /** The events a timed submission adds to its registry: its own, once enqueued. */
  function SubmitRecorded(api: Api, before: seq<Call>, op: Op): seq<Event>
  {
    if Answer(api, before, op) == Success then [EventFor(api, |before|)] else []
  }

  /** A blocking submission waits on its own event and on nothing else; a
      non-blocking one never waits; the event returned and recorded is the
      enqueue's own; and a failed enqueue records nothing and is not waited on. */
  lemma SubmissionWaitsOnItsOwnEvent(api: Api, before: seq<Call>, op: Op, blocking: bool, failure: string)
    requires !op.WaitForEvents?
    ensures var calls := SubmitCalls(api, before, op, blocking);
      && 1 <= |calls| <= 2 && calls[0].op == op
      && (|calls| == 2 <==> blocking && Answer(api, before, op) == Success)
      && (|calls| == 2 ==> calls[1].op == WaitForEvents([EventFor(api, |before|).Handle]))
      && (forall k :: 0 <= k < |calls| && calls[k].op.WaitForEvents? ==> k == 1 && calls[k].op.events == [|before|])
    ensures SubmitResult(api, before, op, blocking, failure).Ok? ==>
      SubmitResult(api, before, op, blocking, failure).value == EventFor(api, |before|)
      && SubmitRecorded(api, before, op) == [EventFor(api, |before|)]
    ensures Answer(api, before, op) != Success ==>
      && SubmitRecorded(api, before, op) == []
      && SubmitResult(api, before, op, blocking, failure) == Throw(Exception(AppendErrCode(failure, Answer(api, before, op))))
  {
  }

  /** `ev == null ? null : ev` lifted to results: a submission that returns `Event?`. */
  function LiftSome(r: Result<Event>): Result<Option<Event>>
  {
    match r
    case Ok(ev) => Ok(Some(ev))
    case Throw(e) => Throw(e)
  }

  // ---------------------------------------------------------------------------
  // Core

  class Core {
    const api: Api
    /** The timestamps `MeasureTime` reports between. */
    const interval: Interval
    var device: Option<Device>
    var context: Option<Handle>
    var queue: CommandQueue?
    var IOEvents: seq<Event>
    var KernEvents: seq<Event>

    /** The static initial state: nothing chosen yet, both registries empty. */
    constructor (api: Api, interval: Interval)
      ensures this.api == api && this.interval == interval
      ensures device.None? && context.None? && queue == null
      ensures IOEvents == [] && KernEvents == []
    {
      this.api := api;
      this.interval := interval;
      device := None;
      context := None;
      queue := null;
      IOEvents := [];
      KernEvents := [];
    }

    /** Initialised: a device is chosen and its queue talks to this driver. */
    predicate Ready()
      reads this
    {
      device.Some? && queue != null && queue.api == api
    }

    /** `Init`: picks the platform and its first GPU, then creates a context
        on that device and a profiling-enabled queue. Each step that throws
        leaves the later fields as they were. */
    method Init(platforms: seq<Platform>) returns (r: Outcome)
      modifies this, api
      ensures IOEvents == old(IOEvents) && KernEvents == old(KernEvents)
      ensures |api.log| >= |old(api.log)| && api.log[..|old(api.log)|] == old(api.log)
      ensures ChoosePlatform(Names(platforms)).Throw? ==> r == Fail(IndexOutOfRangeException) && unchanged(this) && api.log == old(api.log)
      ensures ChoosePlatform(Names(platforms)).Ok? ==>
        var gpu := FirstGpu(platforms[ChoosePlatform(Names(platforms)).value].Gpus);
        && (gpu.Throw? ==> r == Fail(InvalidOperationException) && unchanged(this) && api.log == old(api.log))
        && (gpu.Ok? ==>
              var ctxOp := CreateContext(gpu.value.Handle);
              var ctx := Answer(api, old(api.log), ctxOp);
              var queueOp := CreateCommandQueue(gpu.value.Handle, ProfilingProperties);
              var made := Answer(api, old(api.log) + [Call(ctxOp, ctx)], queueOp);
              && device == Some(gpu.value)
              // the context call fails: that exception, and no queue call
              && (ctx != Success ==> && r == Fail(Exception(AppendErrCode(ContextFailure, ctx)))
                                     && api.log == old(api.log) + [Call(ctxOp, ctx)]
                                     && context == old(context) && queue == old(queue))
              // the context exists: the profiling queue is requested on it
              && (ctx == Success ==> && api.log == old(api.log) + [Call(ctxOp, ctx), Call(queueOp, made)]
                                     && context == Some(|old(api.log)|)
                                     && (r.Pass? <==> made == Success)
                                     && (made != Success ==> r == Fail(Exception(AppendErrCode(QueueFailure, made)))
                                                             && queue == old(queue))
                                     && (made == Success ==> Ready() && queue.Handle == |old(api.log)| + 1)))
      ensures r.Pass? ==> Ready() && context == Some(|old(api.log)|) && queue.Handle == |old(api.log)| + 1
                          && api.log == old(api.log) + [Call(CreateContext(device.value.Handle), Success),
                                                        Call(CreateCommandQueue(device.value.Handle, ProfilingProperties), Success)]
    {
      var choice := ChoosePlatform(Names(platforms));
      if choice.Throw? {
        return Fail(choice.exn);
      }
      var gpu := FirstGpu(platforms[choice.value].Gpus);
      if gpu.Throw? {
        return Fail(gpu.exn);
      }
      device := Some(gpu.value);
      var status, h := api.Invoke(CreateContext(gpu.value.Handle));
      if status != Success {
        return Fail(Exception(AppendErrCode(ContextFailure, status)));
      }
      context := Some(h);
      var q := CommandQueue.Create(api, gpu.value.Handle);
      if q.Throw? {
        return Fail(q.exn);
      }
      queue := q.value;
      r := Pass;
    }

    /** The tail every timed submission shares: `IOEvents.Add(ev)` (for a
        transfer to or from the host) or `KernEvents.Add(ev)`, then, when
        blocking, `ev.Wait()`. */
    method Settle(ev: Event, io: bool, blocking: bool) returns (r: Result<Event>)
      modifies this, api
      ensures io ==> IOEvents == old(IOEvents) + [ev] && KernEvents == old(KernEvents)
      ensures !io ==> KernEvents == old(KernEvents) + [ev] && IOEvents == old(IOEvents)
      ensures device == old(device) && context == old(context) && queue == old(queue)
      ensures !blocking ==> api.log == old(api.log) && r == Ok(ev)
      ensures blocking ==>
        var waited := Answer(api, old(api.log), WaitForEvents([ev.Handle]));
        && api.log == old(api.log) + [Call(WaitForEvents([ev.Handle]), waited)]
        && r == (if waited == Success then Ok(ev) else Throw(Exception(AppendErrCode(WaitFailure, waited))))
    {
      if io {
        IOEvents := IOEvents + [ev];
      } else {
        KernEvents := KernEvents + [ev];
      }
      if blocking {
        var w := Wait(api, ev);
        if w.Fail? {
          return Throw(w.exn);
        }
      }
      r := Ok(ev);
    }

    /** `MeasureTime`: the total time of each registry, then both emptied, so
        that an immediately following call reports (0, 0). */
    method MeasureTime() returns (io: u64, kern: u64)
      modifies this
      ensures io == TotalElapsed(old(IOEvents), interval) && kern == TotalElapsed(old(KernEvents), interval)
      ensures io == ExactTotal(old(IOEvents), interval) % Modulus
      ensures kern == ExactTotal(old(KernEvents), interval) % Modulus
      ensures IOEvents == [] && KernEvents == []
      ensures TotalElapsed(IOEvents, interval) == 0 && TotalElapsed(KernEvents, interval) == 0
      ensures device == old(device) && context == old(context) && queue == old(queue)
    {
      io := SumElapsed(IOEvents, interval);
      kern := SumElapsed(KernEvents, interval);
      KernEvents := [];
      IOEvents := [];
    }

    /** `ResetTime`: both registries emptied, nothing else changed. */
    method ResetTime()
      modifies this
      ensures IOEvents == [] && KernEvents == []
      ensures device == old(device) && context == old(context) && queue == old(queue)
    {
      KernEvents := [];
      IOEvents := [];
    }
  }
}
