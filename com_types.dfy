/** Value types shared by the server, the class factory and the ClassId lookup:
    machine integers, GUIDs, the HRESULTs the factory raises and the exceptions
    the library throws. */
module ComTypes {

  datatype Option<+T> = None | Some(value: T)

  /** A call either returns a value or throws an exception. */
  datatype Result<+T, +E> = Ok(value: T) | Err(error: E)

  /** C# `uint`: registration cookies and thread ids. */
  type UInt32 = x: int | 0 <= x < 0x1_0000_0000

  const MinInt32: int := -0x8000_0000
  const MaxInt32: int := 0x7FFF_FFFF

  /** C# `int`: the lock count and HRESULT values. */
  type Int32 = x: int | -0x8000_0000 <= x <= 0x7FFF_FFFF

  /** Two's-complement truncation of an unbounded integer to 32 bits. */
  function Wrap32(x: int): (r: Int32)
    ensures (r - x) % 0x1_0000_0000 == 0
    ensures MinInt32 <= x <= MaxInt32 ==> r == x
  {
    (x + 0x8000_0000) % 0x1_0000_0000 - 0x8000_0000
  }

  /** Truncation only depends on the value modulo 2^32. */
  lemma WrapShift(x: int, d: int)
    ensures Wrap32(Wrap32(x) + d) == Wrap32(x + d)
  {
  }

  /** A GUID, as the 128-bit number its canonical text spells; only equality is used. */
  type Guid = x: int | 0 <= x < 0x1_0000_0000_0000_0000_0000_0000_0000_0000

  /** {00000000-0000-0000-C000-000000000046} */
  const IID_IUnknown: Guid := 0x0000_0000_0000_0000_C000_0000_0000_0046
  /** {00020400-0000-0000-C000-000000000046} */
  const IID_IDispatch: Guid := 0x0002_0400_0000_0000_C000_0000_0000_0046

  /** The failure HRESULTs the class factory raises. */
  datatype HResult = CLASS_E_NOAGGREGATION | E_NOINTERFACE

  /** The native calls whose failure the server reports. */
  datatype NativeCall = CoRegisterClassObject | CoResumeClassObjects

  /** The exceptions the core throws. */
  datatype Exception =
    | ComException(hr: HResult)                       // Marshal.ThrowExceptionForHR
    | NotImplemented(typeName: string)                // no ClassId member on the type
    | ApplicationException(call: NativeCall, errorCode: Int32) // "<call> failed w/err 0x<code>"
}
