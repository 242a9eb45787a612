/** Vocabulary shared by every module of the model: optional values, the .NET
    exceptions the runtime layer throws, fixed-width integers, the element types
    a buffer or kernel argument may hold, and decimal rendering of integers. */
module Common {

  datatype Option<T> = None | Some(value: T)

  /** The exceptions the modelled code raises, by .NET type and, where the code
      builds one, by message. */
  datatype Exception =
    | Exception(message: string)          // System.Exception
    | ArgumentException(message: string)  // thrown by the kernel binder, and by Span.CopyTo
    | NotImplementedException             // unsupported kernel argument type name
    | ArgumentOutOfRangeException         // string slicing or decoding with a bad bound
    | IndexOutOfRangeException            // array indexing out of bounds
    | NullReferenceException              // a member access through a null handle
    | InvalidOperationException           // Enumerable.First on an empty sequence
    | OutOfMemoryException                // NativeMemory.AlignedAlloc refusing a request

  /** The value a .NET method returns, or the exception it throws. */
  datatype Result<T> = Ok(value: T) | Throw(exn: Exception)

  /** The outcome of a .NET method that returns nothing. */
  datatype Outcome = Pass | Fail(exn: Exception)

  type u32 = x: int | 0 <= x < 0x1_0000_0000
  type u64 = x: int | 0 <= x < 0x1_0000_0000_0000_0000
  type i32 = x: int | -0x8000_0000 <= x < 0x8000_0000
  type byte = x: int | 0 <= x < 0x100

  /** Unchecked conversion to uint (C#'s default wrap-around). */
  function ToU32(x: int): (r: u32)
    ensures 0 <= x < 0x1_0000_0000 ==> r == x
  {
    x % 0x1_0000_0000
  }

  /** Unchecked conversion to ulong / nuint on a 64-bit process. */
  function ToU64(x: int): (r: u64)
    ensures 0 <= x < 0x1_0000_0000_0000_0000 ==> r == x
  {
    x % 0x1_0000_0000_0000_0000
  }

  /** Both conversions keep the value modulo their width: they wrap, they do
      not saturate or throw. */
  lemma ConversionsWrap(x: int)
    ensures (ToU32(x) - x) % 0x1_0000_0000 == 0
    ensures (ToU64(x) - x) % 0x1_0000_0000_0000_0000 == 0
    ensures ToU32(x + 0x1_0000_0000) == ToU32(x)
  {
  }

  /** The unmanaged numeric types a buffer or a kernel argument can carry;
      `typeof(T)` of the source becomes a value of this type. */
  datatype NumType = Single | Double | Int32 | UInt32 | Int64 | UInt64 | Int16 | UInt16 | Byte | SByte | UIntPtr

  /** `sizeof(T)` */
  function SizeOf(t: NumType): nat
  {
    match t
    case Single => 4
    case Double => 8
    case Int32 => 4
    case UInt32 => 4
    case Int64 => 8
    case UInt64 => 8
    case Int16 => 2
    case UInt16 => 2
    case Byte => 1
    case SByte => 1
    case UIntPtr => 8
  }

  /** What `typeof(T)` prints as in an interpolated string. */
  function FullName(t: NumType): string
  {
    match t
    case Single => "System.Single"
    case Double => "System.Double"
    case Int32 => "System.Int32"
    case UInt32 => "System.UInt32"
    case Int64 => "System.Int64"
    case UInt64 => "System.UInt64"
    case Int16 => "System.Int16"
    case UInt16 => "System.UInt16"
    case Byte => "System.Byte"
    case SByte => "System.SByte"
    case UIntPtr => "System.UIntPtr"
  }

  // Decimal rendering, as string interpolation renders an integer.

  predicate IsDigit(c: char) { '0' <= c <= '9' }

  predicate AllDigits(s: string) { forall i :: 0 <= i < |s| ==> IsDigit(s[i]) }

  function DigitChar(d: nat): (c: char)
    requires d < 10
    ensures IsDigit(c)
  {
    "0123456789"[d]
  }

  function DigitValue(c: char): (d: nat)
    requires IsDigit(c)
    ensures d < 10 && DigitChar(d) == c
  {
    (c as int) - ('0' as int)
  }

  function NatToString(n: nat): (s: string)
    ensures |s| > 0 && AllDigits(s)
    decreases n
  {
    if n < 10 then [DigitChar(n)] else NatToString(n / 10) + [DigitChar(n % 10)]
  }

  function IntToString(i: int): (s: string)
    ensures |s| > 0
    ensures i >= 0 ==> AllDigits(s)
    ensures i < 0 ==> s[0] == '-' && AllDigits(s[1..])
  {
    if i < 0 then "-" + NatToString(-i) else NatToString(i)
  }

  function ParseNat(s: string): nat
    requires |s| > 0 && AllDigits(s)
  {
    if |s| == 1 then DigitValue(s[0])
    else ParseNat(s[..|s| - 1]) * 10 + DigitValue(s[|s| - 1])
  }

  /** The inverse of IntToString on the strings it produces. */
  function ParseInt(s: string): Option<int>
  {
    if |s| > 1 && s[0] == '-' then
      if AllDigits(s[1..]) then Some(0 - ParseNat(s[1..]) as int) else None
    else if |s| > 0 && AllDigits(s) then Some(ParseNat(s))
    else None
  }

  lemma {:induction false} ParseNatToString(n: nat)
    ensures ParseNat(NatToString(n)) == n
    decreases n
  {
    if n >= 10 {
      var s := NatToString(n);
      assert s[..|s| - 1] == NatToString(n / 10);
      ParseNatToString(n / 10);
    }
  }

  /** Decimal rendering loses nothing: every integer reads back as itself. */
  lemma {:induction false} ParseIntToString(i: int)
    ensures ParseInt(IntToString(i)) == Some(i)
  {
    var s := IntToString(i);
    if i < 0 {
      assert s == "-" + NatToString(-i);
      assert s[1..] == NatToString(-i);
      ParseNatToString(-i);
    } else {
      assert s == NatToString(i);
      assert s[0] != '-';
      ParseNatToString(i);
    }
  }

  /** `String.LastIndexOf(char)`: the last position of `c` in `s`, or -1. */
  function LastIndexOf(s: string, c: char): (r: int)
    ensures -1 <= r < |s|
    ensures r == -1 <==> c !in s
    ensures r >= 0 ==> s[r] == c && c !in s[r + 1..]
  {
    if s == [] then -1
    else if s[|s| - 1] == c then |s| - 1
    else
      var init := s[..|s| - 1];
      assert s == init + [s[|s| - 1]];
      var r := LastIndexOf(init, c);
      assert r >= 0 ==> s[r + 1..] == init[r + 1..] + [s[|s| - 1]];
      r
  }

  /** The last occurrence is the one no later occurrence follows. */
  lemma LastIndexOfSplit(p: string, c: char, q: string)
    requires c !in q
    ensures LastIndexOf(p + [c] + q, c) == |p|
  {
    var s := p + [c] + q;
    assert s[|p|] == c;
    assert s[|p| + 1..] == q;
  }

  /** `Array.IndexOf`: the first position of `x` in `s`, or -1. */
  function IndexOf<T(==)>(s: seq<T>, x: T): (r: int)
    ensures -1 <= r < |s|
    ensures r == -1 <==> x !in s
    ensures r >= 0 ==> s[r] == x && x !in s[..r]
  {
    if s == [] then -1
    else if s[0] == x then 0
    else var k := IndexOf(s[1..], x); if k < 0 then -1 else k + 1
  }

  /** The first occurrence is the one no earlier occurrence precedes. */
  lemma IndexOfSplit<T>(p: seq<T>, x: T, q: seq<T>)
    requires x !in p
    ensures IndexOf(p + [x] + q, x) == |p|
  {
    var s := p + [x] + q;
    assert s[|p|] == x;
    assert s[..|p|] == p;
  }
}
