/**
 * The declarations of the driver's header: the controller model
 * enumeration and its name table, the exception type, and the asyn
 * status codes the driver compares against.
 */
module ArcusTypes {
  import opened CText

  /** `arcusController::ControllerType_t`, in declaration order. */
  datatype ControllerType = Unknown | DmxEth | Pmx4etSa | DmxKSa

  /** The enumerator's value in C. */
  function Ordinal(t: ControllerType): nat {
    match t
    case Unknown => 0
    case DmxEth => 1
    case Pmx4etSa => 2
    case DmxKSa => 3
  }

  /** `arcusController::ControllerTypeStrings`, indexed by `Ordinal`. */
  const ControllerTypeStrings: seq<string> :=
    ["UNKNOWN", "DMX-SERIES-ETH", "Performax-4ET-SA", "DriveMax-K-SA"]

  /** The identifier a controller of this type puts in its `ID` reply (for `Unknown`, the printed name). */
  function TypeName(t: ControllerType): (s: string)
    ensures s == ControllerTypeStrings[Ordinal(t)]
  {
    match t
    case Unknown => "UNKNOWN"
    case DmxEth => "DMX-SERIES-ETH"
    case Pmx4etSa => "Performax-4ET-SA"
    case DmxKSa => "DriveMax-K-SA"
  }

  /** The table gives each type its own entry. */
  lemma TypeNamesDistinct(t: ControllerType, u: ControllerType)
    ensures TypeName(t) == TypeName(u) <==> t == u
  {
  }

  /** `n` is not found in `h` because its first two characters never line up. */
  lemma {:induction false} MismatchAtStart(h: string, n: string)
    requires |n| >= 2
    requires forall i :: 0 <= i <= |h| - |n| ==> h[i] != n[0] || h[i + 1] != n[1]
    ensures !Contains(h, n)
  {
    forall i | 0 <= i <= |h| - |n|
      ensures !OccursAt(h, n, i)
    {
      assert h[i..i + |n|][0] == h[i] && h[i..i + |n|][1] == h[i + 1];
    }
    ContainsAtOffset(h, n);
  }

  /**
   * No identifier occurs inside another one, so a reply that contains
   * exactly one identifier names that model whatever the order of the checks.
   */
  lemma IdentifiersDoNotOverlap(t: ControllerType, u: ControllerType)
    requires t != Unknown && u != Unknown && t != u
    ensures !Contains(TypeName(t), TypeName(u))
  {
    // the other three pairs fail on length alone
    if (t, u) == (DmxEth, DmxKSa) || (t, u) == (Pmx4etSa, DmxEth) || (t, u) == (Pmx4etSa, DmxKSa) {
      MismatchAtStart(TypeName(t), TypeName(u));
    }
  }

  // ---------------------------------------------------------------- asyn status

  /** `asynStatus` values; the driver only distinguishes success and timeout. */
  const Success := 0
  const Timeout := 1
  const AsynOverflow := 2
  const AsynError := 3
  const AsynDisconnected := 4
  const AsynDisabled := 5

  // ---------------------------------------------------------------- exception

  /** `arcusExceptionType`. */
  datatype ExceptionType = MCSUnknownError | MCSConnectionError | MCSCommunicationError

  /** `arcusException`: a type and a message (the 100-byte buffer's bound is not modelled). */
  datatype ArcusException = ArcusException(kind: ExceptionType, message: string) {
    function GetType(): ExceptionType { kind }
    function What(): string { message }
  }

  /** `arcusException()`. */
  function DefaultException(): (e: ArcusException)
    ensures e.GetType() == MCSUnknownError && e.What() == ""
  {
    ArcusException(MCSUnknownError, "")
  }

  /** `arcusException(t)`. */
  function ExceptionOfType(t: ExceptionType): (e: ArcusException)
    ensures e.GetType() == t && e.What() == ""
  {
    ArcusException(t, "")
  }
}
