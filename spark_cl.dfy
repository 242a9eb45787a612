/** The single-device layer of SparkCL.cs: the kernel-argument descriptor
    parsed from an OpenCL C type name, the kernel wrapper that binds
    arguments and checks them against that descriptor, and `Memory<T>`, a
    host array with a memory object created over it. Its static `Core` is
    `SparkCore.Core` with the Start-to-End interval. */
module SparkCL {
  import opened Common
  import opened Native
  import opened OCLHelper
  import opened SparkOCL
  import opened SparkCore

  // ---------------------------------------------------------------------------
  // ArgInfo

  /** What a kernel argument slot is declared as. */
  datatype ArgInfo = ArgInfo(IsPointer: bool, Qualifier: AddressQualifier, DataType: NumType, TypeName: string)

  /** The element types a kernel argument may be declared with. */
  predicate Supported(t: NumType)
  {
    t == Single || t == Double || t == Int32 || t == UInt32
  }

  /** The OpenCL C name of a supported element type. */
  function BaseName(t: NumType): (name: string)
    requires Supported(t)
    ensures '*' !in name
    ensures |name| == match t case Int32 => 3 case UInt32 => 4 case Single => 5 case _ => 6
  {
    match t
    case Single => "float"
    case Double => "double"
    case Int32 => "int"
    case _ => "uint"
  }

  /** The spelling of a supported type, with a trailing `*` for a pointer:
      the names `ParseArgInfo` accepts. */
  function CTypeName(t: NumType, pointer: bool): (name: string)
    requires Supported(t)
    ensures |name| > 0 && (name[|name| - 1] == '*' <==> pointer)
  {
    BaseName(t) + (if pointer then "*" else "")
  }

  /** The `switch` on the base name. */
  function BaseType(name: string): (r: Result<NumType>)
    ensures r.Ok? ==> Supported(r.value) && name == BaseName(r.value)
    ensures r.Throw? ==> r.exn == NotImplementedException
  {
    if name == "float" then Ok(Single)
    else if name == "double" then Ok(Double)
    else if name == "int" then Ok(Int32)
    else if name == "uint" then Ok(UInt32)
    else Throw(NotImplementedException)
  }

  /** The descriptor of a name already split into its base name and
      pointer-ness. */
  function Describe(typeName: string, qualifier: AddressQualifier, pointer: bool, base: string): (r: Result<ArgInfo>)
    requires typeName == base + (if pointer then "*" else "")
    ensures r.Ok? ==> && r.value.TypeName == typeName && r.value.Qualifier == qualifier && r.value.IsPointer == pointer
                      && Supported(r.value.DataType) && typeName == CTypeName(r.value.DataType, pointer)
    ensures r.Throw? ==> r.exn == NotImplementedException
  {
    match BaseType(base)
    case Ok(t) => Ok(ArgInfo(pointer, qualifier, t, typeName))
    case Throw(e) => Throw(e)
  }

  /** `new ArgInfo(typeName, qualifier)`. A name whose last character is `*`
      is a pointer to the type named by the rest. The empty name has its
      last `*` at -1 == Length - 1 too, and slicing to -1 throws. */
  function ParseArgInfo(typeName: string, qualifier: AddressQualifier): (r: Result<ArgInfo>)
    ensures typeName == [] ==> r == Throw(ArgumentOutOfRangeException)
    ensures r.Ok? ==> && r.value.TypeName == typeName && r.value.Qualifier == qualifier
                      && Supported(r.value.DataType)
                      && typeName == CTypeName(r.value.DataType, r.value.IsPointer)
    ensures typeName != [] && r.Throw? ==> r.exn == NotImplementedException
  {
    var baseEnd := LastIndexOf(typeName, '*');
    if baseEnd == |typeName| - 1 then
      if baseEnd < 0 then Throw(ArgumentOutOfRangeException)
      else
        Describe(typeName, qualifier, true, typeName[..baseEnd])
    else
      Describe(typeName, qualifier, false, typeName)
  }

  /** Every name `CTypeName` spells is parsed back to its type and pointer-ness:
      together with the contract of `ParseArgInfo`, the accepted names are
      exactly the eight spellings. */
  lemma ParseCTypeName(t: NumType, pointer: bool, qualifier: AddressQualifier)
    requires Supported(t)
    ensures ParseArgInfo(CTypeName(t, pointer), qualifier) == Ok(ArgInfo(pointer, qualifier, t, CTypeName(t, pointer)))
  {
    var name := CTypeName(t, pointer);
    var base := BaseName(t);
    assert BaseType(base) == Ok(t);
    if pointer {
      assert name == base + ['*'] + [];
      LastIndexOfSplit(base, '*', []);
      assert name[..|base|] == base;
      assert ParseArgInfo(name, qualifier) == Describe(name, qualifier, true, base);
    } else {
      assert name == base;
      assert LastIndexOf(name, '*') == -1;
      assert ParseArgInfo(name, qualifier) == Describe(name, qualifier, false, base);
    }
  }

  /** A pointer to a pointer is not a supported argument: the base name left
      after dropping one `*` still ends in `*`. */
  lemma DoublePointerRejected(qualifier: AddressQualifier)
    ensures ParseArgInfo("float**", qualifier) == Throw(NotImplementedException)
  {
    assert LastIndexOf("float**", '*') == 6;
    assert "float**"[..6] == "float*";
  }

  /** `IsEqualTo(T some)`: the element type only; pointer-ness is ignored. */
  predicate ScalarMatches(info: ArgInfo, t: NumType)
  {
    info.DataType == t
  }

  /** `IsEqualTo(Memory<T>)`: a pointer to T. */
  predicate BufferMatches(info: ArgInfo, t: NumType)
  {
    info.IsPointer && info.DataType == t
  }

  /** Against a parsed descriptor, a scalar of T matches both `"T"` and
      `"T*"`, while a buffer of T matches `"T*"` only. */
  lemma MatchesByName(typeName: string, qualifier: AddressQualifier, t: NumType)
    requires ParseArgInfo(typeName, qualifier).Ok? && Supported(t)
    ensures var info := ParseArgInfo(typeName, qualifier).value;
      && (ScalarMatches(info, t) <==> typeName == CTypeName(t, false) || typeName == CTypeName(t, true))
      && (BufferMatches(info, t) <==> typeName == CTypeName(t, true))
  {
    var info := ParseArgInfo(typeName, qualifier).value;
    CTypeNameInjective(info.DataType, info.IsPointer, t, false);
    CTypeNameInjective(info.DataType, info.IsPointer, t, true);
  }

  /** Different types or pointer-ness are spelled differently. */
  lemma CTypeNameInjective(t: NumType, p: bool, u: NumType, q: bool)
    requires Supported(t) && Supported(u)
    ensures CTypeName(t, p) == CTypeName(u, q) ==> t == u && p == q
  {
    var a, b := CTypeName(t, p), CTypeName(u, q);
    if a == b {
      assert p == q by {
        assert a[|a| - 1] == '*' <==> p;
        assert b[|b| - 1] == '*' <==> q;
      }
      assert |BaseName(t)| == |BaseName(u)|;
    }
  }

  /** The descriptor `GetArgInfo(index)` builds: the type-name query, then
      the address-qualifier query, then the parse. */
  function ArgInfoStep(api: Api, before: seq<Call>, k: Handle, index: u32): Step<ArgInfo>
  {
    var name := TypeNameStep(api, before, k, index);
    if name.result.Throw? then Step(name.calls, Throw(name.result.exn))
    else
      var query := GetKernelArgInfo(k, index, AddressQualifierInfo, QualifierSize);
      var status := Answer(api, before + name.calls, query);
      var calls := name.calls + [Call(query, status)];
      if status != Success then Step(calls, Throw(Exception(AppendErrCode(InfoFailure(index), status))))
      else Step(calls, ParseArgInfo(name.result.value, api.argQualifier(k, index)))
  }

  /** The descriptor query starts with the type-name query, and yields a
      descriptor only when that and the qualifier query succeeded and the
      name parses; the qualifier is the driver's. */
  lemma ArgInfoStepShape(api: Api, before: seq<Call>, k: Handle, index: u32)
    ensures var s := ArgInfoStep(api, before, k, index);
      var name := TypeNameStep(api, before, k, index);
      && |s.calls| >= |name.calls| && s.calls[..|name.calls|] == name.calls
      && (s.result.Ok? ==> && name.result.Ok? && |s.calls| == |name.calls| + 1 && s.calls[|name.calls|].status == Success
                           && s.result == ParseArgInfo(name.result.value, api.argQualifier(k, index)))
  {
  }

  /** The descriptor query only queries: every call it makes is a
      `clGetKernelArgInfo`. */
  lemma ArgInfoStepOnlyQueries(api: Api, before: seq<Call>, k: Handle, index: u32)
    ensures forall c :: c in ArgInfoStep(api, before, k, index).calls ==> c.op.GetKernelArgInfo?
  {
    var s := ArgInfoStep(api, before, k, index);
    var name := TypeNameStep(api, before, k, index);
    TypeNameStepShape(api, before, k, index);
    assert forall c :: c in name.calls ==> c.op.GetKernelArgInfo?;
    if name.result.Ok? {
      var query := GetKernelArgInfo(k, index, AddressQualifierInfo, QualifierSize);
      assert s.calls == name.calls + [Call(query, Answer(api, before + name.calls, query))];
    } else {
      assert s.calls == name.calls;
    }
  }

  // ---------------------------------------------------------------------------
  // Binding an argument, then checking it

  /** The native calls of a bind-and-check, and how it ends. */
  datatype Effect = Effect(calls: seq<Call>, outcome: Outcome)

  /** `$"Expected \"{expected}\", got \"{got}\""` */
  function Mismatch(expected: string, got: string): string
  {
    "Expected \"" + expected + "\", got \"" + got + "\""
  }

  /** The descriptor check that follows a bind: `matches` applied to the
      slot's descriptor, with the mismatch naming `got`. */
  function CheckSlot(api: Api, before: seq<Call>, k: Handle, index: u32, t: NumType, pointer: bool, got: string): Effect
  {
    var info := ArgInfoStep(api, before, k, index);
    match info.result
    case Throw(e) => Effect(info.calls, Fail(e))
    case Ok(a) =>
      var matches := if pointer then BufferMatches(a, t) else ScalarMatches(a, t);
      Effect(info.calls, if matches then Pass else Fail(ArgumentException(Mismatch(a.TypeName, got))))
  }

  /** A bind-and-check that started from log `before` left `log` and ended
      with `r`: the bind `bind` is made first; when it fails the call throws
      with `failure` and its status, and only when it succeeded is the slot
      queried and checked. */
  predicate BindsThenChecks(api: Api, before: seq<Call>, log: seq<Call>, r: Outcome, k: Handle, index: u32,
                            bind: Op, failure: string, t: NumType, pointer: bool, got: string)
  {
    var status := Answer(api, before, bind);
    var after := before + [Call(bind, status)];
    && (status != Success ==> log == after && r == Fail(Exception(AppendErrCode(failure, status))))
    && (status == Success ==> var e := CheckSlot(api, after, k, index, t, pointer, got);
                              log == after + e.calls && r == e.outcome)
  }

  /** `SetArg(idx, T arg)`. */
  predicate ScalarBind(api: Api, before: seq<Call>, log: seq<Call>, r: Outcome, k: Handle, index: u32, t: NumType)
  {
    BindsThenChecks(api, before, log, r, k, index, SetKernelArg(k, index, SizeOf(t), ScalarValue(t)), ScalarBindFailure(t),
                    t, false, FullName(t))
  }

  /** `SetArg(idx, Memory<T> mem)`. */
  predicate BufferBind(api: Api, before: seq<Call>, log: seq<Call>, r: Outcome, k: Handle, index: u32, buffer: Handle, t: NumType)
  {
    BindsThenChecks(api, before, log, r, k, index, SetKernelArg(k, index, HandleSize, MemObject(buffer)), BufferBindFailure,
                    t, true, FullName(t) + "*")
  }

  /** `SetSize<T>(idx, sz)` as written: the check is `IsEqualTo(sz)` on the
      `nuint` length, i.e. it asks whether the slot holds `nuint` values. */
  predicate SizeBindAsWritten(api: Api, before: seq<Call>, log: seq<Call>, r: Outcome, k: Handle, index: u32, t: NumType, length: u64)
  {
    BindsThenChecks(api, before, log, r, k, index, SetKernelArg(k, index, ByteSize(length, t), LocalMemory), SizeBindFailure,
                    UIntPtr, false, FullName(t))
  }

  /** `SetSize<T>(idx, sz)` as evidently intended: a local array of T must go
      to a `T*` slot, as a buffer of T must. */
  predicate SizeBind(api: Api, before: seq<Call>, log: seq<Call>, r: Outcome, k: Handle, index: u32, t: NumType, length: u64)
  {
    BindsThenChecks(api, before, log, r, k, index, SetKernelArg(k, index, ByteSize(length, t), LocalMemory), SizeBindFailure,
                    t, true, FullName(t) + "*")
  }

  /** The slot check passes exactly when both queries succeeded and the
      declared name is one `matches` accepts; it never changes the binding,
      which has already been made. */
  lemma {:induction false} CheckSlotPasses(api: Api, before: seq<Call>, k: Handle, index: u32, t: NumType, pointer: bool, got: string)
    requires Supported(t)
    ensures var e := CheckSlot(api, before, k, index, t, pointer, got);
      var name := TypeNameStep(api, before, k, index);
      && (e.outcome.Pass? <==>
            && name.result.Ok?
            && ArgInfoStep(api, before, k, index).result.Ok?
            && (name.result.value == CTypeName(t, true) || (!pointer && name.result.value == CTypeName(t, false))))
      && (forall c :: c in e.calls ==> c.op.GetKernelArgInfo?)
  {
    var e := CheckSlot(api, before, k, index, t, pointer, got);
    var name := TypeNameStep(api, before, k, index);
    var info := ArgInfoStep(api, before, k, index);
    ArgInfoStepShape(api, before, k, index);
    ArgInfoStepOnlyQueries(api, before, k, index);
    if info.result.Ok? {
      MatchesByName(name.result.value, api.argQualifier(k, index), t);
    }
    if e.outcome.Pass? {
      assert info.result.Ok?;
    }
    assert e.calls == info.calls;
    if name.result.Ok? && info.result.Ok? && (name.result.value == CTypeName(t, true) || (!pointer && name.result.value == CTypeName(t, false))) {
      assert e.outcome.Pass?;
    }
  }

  /** A bind-and-check records the bind first and passes exactly when the
      bind succeeded and the check after it passed. */
  lemma BindsThenChecksPasses(api: Api, before: seq<Call>, log: seq<Call>, r: Outcome, k: Handle, index: u32,
                              bind: Op, failure: string, t: NumType, pointer: bool, got: string)
    requires BindsThenChecks(api, before, log, r, k, index, bind, failure, t, pointer, got)
    ensures var status := Answer(api, before, bind);
      && |log| > |before| && log[..|before|] == before && log[|before|].op == bind
      && (r.Pass? <==> status == Success && CheckSlot(api, before + [Call(bind, status)], k, index, t, pointer, got).outcome.Pass?)
  {
    var status := Answer(api, before, bind);
    var after := before + [Call(bind, status)];
    if status == Success {
      var e := CheckSlot(api, after, k, index, t, pointer, got);
      assert log == after + e.calls;
      assert log[..|after|] == after;
    } else {
      assert log == after;
    }
    assert log[..|before|] == after[..|before|] == before;
  }

  /** A scalar bind passes only when the native bind and both queries
      succeeded and the slot is declared `T` or `T*` (the pointer-ness is not
      checked); the bind is always the first call, and is kept whatever the
      check says. */
  lemma ScalarBindPasses(api: Api, before: seq<Call>, log: seq<Call>, r: Outcome, k: Handle, index: u32, t: NumType)
    requires Supported(t)
    requires ScalarBind(api, before, log, r, k, index, t)
    ensures var bind := SetKernelArg(k, index, SizeOf(t), ScalarValue(t));
      var after := before + [Call(bind, Answer(api, before, bind))];
      var name := TypeNameStep(api, after, k, index);
      && |log| > |before| && log[..|before|] == before && log[|before|].op == bind
      && (r.Pass? <==>
            && Answer(api, before, bind) == Success && name.result.Ok?
            && ArgInfoStep(api, after, k, index).result.Ok?
            && (name.result.value == CTypeName(t, false) || name.result.value == CTypeName(t, true)))
  {
    var bind := SetKernelArg(k, index, SizeOf(t), ScalarValue(t));
    var after := before + [Call(bind, Answer(api, before, bind))];
    BindsThenChecksPasses(api, before, log, r, k, index, bind, ScalarBindFailure(t), t, false, FullName(t));
    CheckSlotPasses(api, after, k, index, t, false, FullName(t));
  }

  /** A buffer bind passes only when the native bind and both queries
      succeeded and the slot is declared `T*`. */
  lemma BufferBindPasses(api: Api, before: seq<Call>, log: seq<Call>, r: Outcome, k: Handle, index: u32, buffer: Handle, t: NumType)
    requires Supported(t)
    requires BufferBind(api, before, log, r, k, index, buffer, t)
    ensures var bind := SetKernelArg(k, index, HandleSize, MemObject(buffer));
      var after := before + [Call(bind, Answer(api, before, bind))];
      var name := TypeNameStep(api, after, k, index);
      && |log| > |before| && log[..|before|] == before && log[|before|].op == bind
      && (r.Pass? <==>
            && Answer(api, before, bind) == Success && name.result.Ok?
            && ArgInfoStep(api, after, k, index).result.Ok?
            && name.result.value == CTypeName(t, true))
  {
    var bind := SetKernelArg(k, index, HandleSize, MemObject(buffer));
    var after := before + [Call(bind, Answer(api, before, bind))];
    BindsThenChecksPasses(api, before, log, r, k, index, bind, BufferBindFailure, t, true, FullName(t) + "*");
    CheckSlotPasses(api, after, k, index, t, true, FullName(t) + "*");
  }

  /** As written, `SetSize` can never pass: no declared name parses to
      `nuint`, so whenever the local-memory bind succeeds the check throws. */
  lemma SizeBindAsWrittenNeverPasses(api: Api, before: seq<Call>, log: seq<Call>, r: Outcome, k: Handle, index: u32, t: NumType, length: u64)
    requires SizeBindAsWritten(api, before, log, r, k, index, t, length)
    ensures r.Fail?
  {
    var bind := SetKernelArg(k, index, ByteSize(length, t), LocalMemory);
    var after := before + [Call(bind, Answer(api, before, bind))];
    var info := ArgInfoStep(api, after, k, index);
    ArgInfoStepShape(api, after, k, index);
    if Answer(api, before, bind) == Success && info.result.Ok? {
      assert Supported(info.result.value.DataType);
      assert !ScalarMatches(info.result.value, UIntPtr);
    }
  }

  /** The corrected `SetSize` passes exactly for a slot declared `T*`. */
  lemma SizeBindPasses(api: Api, before: seq<Call>, log: seq<Call>, r: Outcome, k: Handle, index: u32, t: NumType, length: u64)
    requires Supported(t)
    requires SizeBind(api, before, log, r, k, index, t, length)
    ensures var bind := SetKernelArg(k, index, ByteSize(length, t), LocalMemory);
      var after := before + [Call(bind, Answer(api, before, bind))];
      var name := TypeNameStep(api, after, k, index);
      && |log| > |before| && log[..|before|] == before && log[|before|].op == bind
      && (r.Pass? <==>
            && Answer(api, before, bind) == Success && name.result.Ok?
            && ArgInfoStep(api, after, k, index).result.Ok?
            && name.result.value == CTypeName(t, true))
  {
    var bind := SetKernelArg(k, index, ByteSize(length, t), LocalMemory);
    var after := before + [Call(bind, Answer(api, before, bind))];
    BindsThenChecksPasses(api, before, log, r, k, index, bind, SizeBindFailure, t, true, FullName(t) + "*");
    CheckSlotPasses(api, after, k, index, t, true, FullName(t) + "*");
  }

  // ---------------------------------------------------------------------------
  // Kernel

  class Kernel {
    const Inner: SparkOCL.Kernel
    var GlobalWork: NDRange
    var LocalWork: NDRange
    /** The next argument index `PushArg` binds. */
    var lastPushed: u32

    constructor (inner: SparkOCL.Kernel, globalWork: NDRange, localWork: NDRange)
      ensures Inner == inner && GlobalWork == globalWork && LocalWork == localWork && lastPushed == 0
    {
      Inner := inner;
      GlobalWork := globalWork;
      LocalWork := localWork;
      lastPushed := 0;
    }

    /** `GetArgInfo(index)`. */
    method GetArgInfo(index: u32) returns (r: Result<ArgInfo>)
      modifies Inner.api
      ensures Inner.api.log == old(Inner.api.log) + ArgInfoStep(Inner.api, old(Inner.api.log), Inner.Handle, index).calls
      ensures r == ArgInfoStep(Inner.api, old(Inner.api.log), Inner.Handle, index).result
    {
      var name := Inner.GetArgTypeName(index);
      if name.Throw? {
        return Throw(name.exn);
      }
      var qualifier := Inner.GetArgAddressQualifier(index);
      if qualifier.Throw? {
        return Throw(qualifier.exn);
      }
      r := ParseArgInfo(name.value, qualifier.value);
    }

    /** The check half of every `SetArg`. */
    method Check(index: u32, t: NumType, pointer: bool, got: string) returns (r: Outcome)
      modifies Inner.api
      ensures var e := CheckSlot(Inner.api, old(Inner.api.log), Inner.Handle, index, t, pointer, got);
        Inner.api.log == old(Inner.api.log) + e.calls && r == e.outcome
    {
      var info := GetArgInfo(index);
      if info.Throw? {
        return Fail(info.exn);
      }
      var matches := if pointer then BufferMatches(info.value, t) else ScalarMatches(info.value, t);
      if !matches {
        return Fail(ArgumentException(Mismatch(info.value.TypeName, got)));
      }
      r := Pass;
    }

    /** `SetArg(idx, T arg)`: binds first, then checks the slot. */
    method SetArg(index: u32, t: NumType) returns (r: Outcome)
      modifies Inner.api
      ensures ScalarBind(Inner.api, old(Inner.api.log), Inner.api.log, r, Inner.Handle, index, t)
    {
      r := Inner.SetArgScalar(index, t);
      if r.Pass? {
        r := Check(index, t, false, FullName(t));
      }
    }

    /** `SetArg(idx, Memory<T> mem)`: binds the memory object, then checks
        that the slot is a pointer to T. */
    method SetArgMemory<T(0)>(index: u32, mem: Memory<T>) returns (r: Outcome)
      modifies Inner.api
      ensures BufferBind(Inner.api, old(Inner.api.log), Inner.api.log, r, Inner.Handle, index, mem.buffer.Handle, mem.Elem)
    {
      r := Inner.SetArgBuffer(index, mem.buffer.Handle);
      if r.Pass? {
        r := Check(index, mem.Elem, true, FullName(mem.Elem) + "*");
      }
    }

    /** `SetSize<T>(idx, sz)` as written: the local-memory bind is checked
        as a `nuint` scalar, so the call never passes. */
    method SetSizeAsWritten(index: u32, t: NumType, length: u64) returns (r: Outcome)
      modifies Inner.api
      ensures SizeBindAsWritten(Inner.api, old(Inner.api.log), Inner.api.log, r, Inner.Handle, index, t, length)
      ensures r.Fail?
    {
      ghost var before := Inner.api.log;
      r := Inner.SetSize(index, t, length);
      if r.Pass? {
        r := Check(index, UIntPtr, false, FullName(t));
      }
      SizeBindAsWrittenNeverPasses(Inner.api, before, Inner.api.log, r, Inner.Handle, index, t, length);
    }

    /** `SetSize<T>(idx, sz)`, with the pointer check that the local-memory
        binding calls for. */
    method SetSize(index: u32, t: NumType, length: u64) returns (r: Outcome)
      modifies Inner.api
      ensures SizeBind(Inner.api, old(Inner.api.log), Inner.api.log, r, Inner.Handle, index, t, length)
    {
      r := Inner.SetSize(index, t, length);
      if r.Pass? {
        r := Check(index, t, true, FullName(t) + "*");
      }
    }

    /** `PushArg(T arg)`: binds at the cursor and advances it (uint
        arithmetic), returning the new cursor; a throwing bind leaves the
        cursor where it was. */
    method PushArg(t: NumType) returns (r: Result<u32>)
      modifies this, Inner.api
      ensures GlobalWork == old(GlobalWork) && LocalWork == old(LocalWork)
      ensures ScalarBind(Inner.api, old(Inner.api.log), Inner.api.log, if r.Ok? then Pass else Fail(r.exn),
                         Inner.Handle, old(lastPushed), t)
      ensures r.Throw? ==> lastPushed == old(lastPushed)
      ensures r.Ok? ==> lastPushed == ToU32(old(lastPushed) + 1) && r.value == lastPushed
    {
      var bound := SetArg(lastPushed, t);
      if bound.Fail? {
        return Throw(bound.exn);
      }
      lastPushed := ToU32(lastPushed + 1);
      r := Ok(lastPushed);
    }

    /** `PushArg(Memory<T> mem)`. */
    method PushArgMemory<T(0)>(mem: Memory<T>) returns (r: Result<u32>)
      modifies this, Inner.api
      ensures GlobalWork == old(GlobalWork) && LocalWork == old(LocalWork)
      ensures BufferBind(Inner.api, old(Inner.api.log), Inner.api.log, if r.Ok? then Pass else Fail(r.exn),
                         Inner.Handle, old(lastPushed), mem.buffer.Handle, mem.Elem)
      ensures r.Throw? ==> lastPushed == old(lastPushed)
      ensures r.Ok? ==> lastPushed == ToU32(old(lastPushed) + 1) && r.value == lastPushed
    {
      var bound := SetArgMemory(lastPushed, mem);
      if bound.Fail? {
        return Throw(bound.exn);
      }
      lastPushed := ToU32(lastPushed + 1);
      r := Ok(lastPushed);
    }

    /** `Execute(blocking, waitList)`: launches over `GlobalWork`/`LocalWork`
        with no offset, records the event in `KernEvents` and, when blocking,
        waits on it. */
    method Execute(core: Core, blocking: bool, waitList: WaitList) returns (r: Result<Event>)
      requires core.Ready()
      modifies core, core.api
      ensures core.device == old(core.device) && core.context == old(core.context) && core.queue == old(core.queue)
      ensures core.IOEvents == old(core.IOEvents)
      ensures var op := KernelLaunch(Inner.Handle, Empty(), GlobalWork, LocalWork, waitList);
        && core.api.log == old(core.api.log) + SubmitCalls(core.api, old(core.api.log), op, blocking)
        && core.KernEvents == old(core.KernEvents) + SubmitRecorded(core.api, old(core.api.log), op)
        && r == SubmitResult(core.api, old(core.api.log), op, blocking, KernelFailure)
    {
      var ev, launched := core.queue.EnqueueNDRangeKernel(Inner.Handle, Empty(), GlobalWork, LocalWork, waitList);
      if launched.Fail? {
        return Throw(launched.exn);
      }
      r := core.Settle(ev, false, blocking);
    }
  }

  // ---------------------------------------------------------------------------
  // Memory<T>

  const CountMismatch := "Source and destination sizes doesn't match"

  /** A host array with a memory object created over its memory. */
  class Memory<T(0)> {
    const buffer: Buffer<T>
    const Array: DeprecatedArray<T>
    /** `typeof(T)`. */
    const Elem: NumType
    var disposedValue: bool

    constructor Make(buffer: Buffer<T>, host: DeprecatedArray<T>, t: NumType)
      ensures this.buffer == buffer && Array == host && Elem == t && !disposedValue
    {
      this.buffer := buffer;
      Array := host;
      Elem := t;
      disposedValue := false;
    }

    /** `Count`. */
    function Count(): nat
    {
      Array.Count
    }

    /** `new Memory<T>(span, flags)`: a copy of the span, and a memory object
        over it created with `UseHostPtr` added to the caller's flags. */
    static method FromSpan(core: Core, span: seq<T>, flags: MemFlags, t: NumType) returns (r: Result<Memory<T>>)
      requires core.Ready()
      modifies core.api
      ensures var op := CreateBuffer(flags | UseHostPtr, ByteSize(|span|, t), Some(|span|));
        var status := Answer(core.api, old(core.api.log), op);
        && HasFlag(op.flags, UseHostPtr)
        && core.api.log == old(core.api.log) + [Call(op, status)]
        && (r.Ok? <==> status == Success)
        && (r.Throw? ==> r.exn == Exception(AppendErrCode(CreateFailure, status)))
      ensures r.Ok? ==> && fresh(r.value) && fresh(r.value.Array) && r.value.Array.Valid()
                        && r.value.Array.Buf[..] == span && r.value.Count() == |span| && r.value.Elem == t
                        && r.value.buffer.IsOnHost && r.value.buffer.Handle == |old(core.api.log)|
    {
      var host := new DeprecatedArray<T>.FromSpan(span, t);
      r := Over(core, host, flags, t);
    }

    /** `new Memory<T>(size, flags)`: `size` elements, contents unspecified.
        A negative size throws in the array's allocation, before any call. */
    static method WithSize(core: Core, size: i32, flags: MemFlags, t: NumType) returns (r: Result<Memory<T>>)
      requires core.Ready()
      modifies core.api
      ensures size < 0 ==> r == Throw(OutOfMemoryException) && core.api.log == old(core.api.log)
      ensures 0 <= size ==>
        var op := CreateBuffer(flags | UseHostPtr, ByteSize(size, t), Some(size));
        var status := Answer(core.api, old(core.api.log), op);
        && HasFlag(op.flags, UseHostPtr)
        && core.api.log == old(core.api.log) + [Call(op, status)]
        && (r.Ok? <==> status == Success)
        && (r.Throw? ==> r.exn == Exception(AppendErrCode(CreateFailure, status)))
      ensures r.Ok? ==> && fresh(r.value) && fresh(r.value.Array) && r.value.Array.Valid()
                        && r.value.Count() == size && r.value.Elem == t
                        && r.value.buffer.IsOnHost && r.value.buffer.Handle == |old(core.api.log)|
    {
      var host := DeprecatedArray<T>.WithSize(size, t);
      if host.Throw? {
        return Throw(host.exn);
      }
      r := Over(core, host.value, flags, t);
    }

    /** `Memory<T>.ForArray(array, flags)`: a memory object over an existing
        array, again with `UseHostPtr` added. */
    static method Over(core: Core, host: DeprecatedArray<T>, flags: MemFlags, t: NumType) returns (r: Result<Memory<T>>)
      requires core.Ready()
      modifies core.api
      ensures var op := CreateBuffer(flags | UseHostPtr, ByteSize(host.Count, t), Some(host.Count));
        var status := Answer(core.api, old(core.api.log), op);
        && HasFlag(op.flags, UseHostPtr)
        && core.api.log == old(core.api.log) + [Call(op, status)]
        && (r.Ok? <==> status == Success)
        && (r.Throw? ==> r.exn == Exception(AppendErrCode(CreateFailure, status)))
      ensures r.Ok? ==> && fresh(r.value) && r.value.Array == host && r.value.Elem == t
                        && r.value.buffer.IsOnHost && r.value.buffer.Handle == |old(core.api.log)|
    {
      var b := NewBuffer(core.api, flags | UseHostPtr, host, t);
      if b.Throw? {
        return Throw(b.exn);
      }
      var m := new Memory<T>.Make(b.value, host, t);
      r := Ok(m);
    }

    /** `Read(blocking, wait_list)`: reads the whole memory object back into
        the array; the wait list is not passed on, and the read is recorded
        in `IOEvents` but never waited on here. */
    method Read(core: Core, blocking: bool, waitList: WaitList) returns (r: Result<Event>)
      requires core.Ready()
      modifies core, core.api
      ensures core.device == old(core.device) && core.context == old(core.context) && core.queue == old(core.queue)
      ensures core.KernEvents == old(core.KernEvents)
      ensures var op := ReadRequest(buffer.Handle, blocking, 0, Count(), Elem, None);
        && core.api.log == old(core.api.log) + SubmitCalls(core.api, old(core.api.log), op, false)
        && core.IOEvents == old(core.IOEvents) + SubmitRecorded(core.api, old(core.api.log), op)
        && r == SubmitResult(core.api, old(core.api.log), op, false, ReadFailure)
    {
      var ev := core.queue.EnqueueReadBuffer(buffer.Handle, blocking, 0, Count(), Elem, None);
      if ev.Throw? {
        return ev;
      }
      r := core.Settle(ev.value, true, false);
    }

    /** `Write(blocking)`: writes the whole array to the memory object,
        recorded in `IOEvents`, never waited on here. */
    method Write(core: Core, blocking: bool) returns (r: Result<Event>)
      requires core.Ready()
      modifies core, core.api
      ensures core.device == old(core.device) && core.context == old(core.context) && core.queue == old(core.queue)
      ensures core.KernEvents == old(core.KernEvents)
      ensures var op := WriteRequest(buffer.Handle, blocking, 0, Count(), Elem);
        && core.api.log == old(core.api.log) + SubmitCalls(core.api, old(core.api.log), op, false)
        && core.IOEvents == old(core.IOEvents) + SubmitRecorded(core.api, old(core.api.log), op)
        && r == SubmitResult(core.api, old(core.api.log), op, false, ReadFailure)
    {
      var ev := core.queue.EnqueueWriteBuffer(buffer.Handle, blocking, 0, Count(), Elem);
      if ev.Throw? {
        return ev;
      }
      r := core.Settle(ev.value, true, false);
    }

    /** `CopyTo(destination, blocking, waitList)`: refuses arrays of different
        counts before enqueueing; otherwise copies `Count` elements, recorded
        in `KernEvents`, waiting on the copy when blocking. */
    method CopyTo(core: Core, destination: Memory<T>, blocking: bool, waitList: WaitList) returns (r: Result<Event>)
      requires core.Ready() && destination.Elem == Elem
      modifies core, core.api
      ensures core.device == old(core.device) && core.context == old(core.context) && core.queue == old(core.queue)
      ensures core.IOEvents == old(core.IOEvents)
      ensures Count() != destination.Count() ==>
        r == Throw(Exception(CountMismatch)) && core.api.log == old(core.api.log) && core.KernEvents == old(core.KernEvents)
      ensures Count() == destination.Count() ==>
        var op := CopyRequest(buffer.Handle, destination.buffer.Handle, 0, 0, ToU64(Count()), Elem, waitList);
        && core.api.log == old(core.api.log) + SubmitCalls(core.api, old(core.api.log), op, blocking)
        && core.KernEvents == old(core.KernEvents) + SubmitRecorded(core.api, old(core.api.log), op)
        && r == SubmitResult(core.api, old(core.api.log), op, blocking, UnmapFailure)
    {
      if Count() != destination.Count() {
        return Throw(Exception(CountMismatch));
      }
      var ev := core.queue.EnqueueCopyBuffer(buffer.Handle, destination.buffer.Handle, 0, 0, ToU64(Count()), Elem, waitList);
      if ev.Throw? {
        return ev;
      }
      r := core.Settle(ev.value, false, blocking);
    }

    /** `Dispose()`: frees the array the first time only. */
    method Dispose()
      requires Array.Valid()
      modifies this, Array
      ensures disposedValue && Array.Valid()
      ensures old(disposedValue) ==> Array.frees == old(Array.frees)
      ensures !old(disposedValue) ==> Array.disposedValue && Array.frees == 1
    {
      if !disposedValue {
        Array.Dispose();
        disposedValue := true;
      }
    }
  }
}
