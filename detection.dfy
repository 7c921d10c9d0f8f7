/**
 * Which controller model the driver is talking to: the `ID` probe, the
 * `@01ID` fallback when nothing came back, and the classification of the
 * reply by the identifier strings it contains.
 */
module Detection {
  import opened CText
  import opened ArcusTypes
  import opened AsynTransport

  /** The known models in the order the constructor searches for them. */
  const SearchOrder: seq<ControllerType> := [DmxEth, Pmx4etSa, DmxKSa]

  /** The first model in `order` whose identifier occurs in `text`; UNKNOWN when none does. */
  function FirstMatch(text: string, order: seq<ControllerType>): (t: ControllerType)
    ensures t == Unknown || t in order
    decreases |order|
  {
    if order == [] then Unknown
    else if Contains(text, TypeName(order[0])) then order[0]
    else FirstMatch(text, order[1..])
  }

  /**
   * The `strstr` chain on the reply buffer: the first of DMX_ETH,
   * PMX_4ET_SA, DMX_K_SA whose identifier occurs before the first NUL.
   */
  function Classify(reply: string): (t: ControllerType)
    ensures t != Unknown ==> Contains(CString(reply), TypeName(t))
    ensures forall u :: u != Unknown && (t == Unknown || Ordinal(u) < Ordinal(t))
              ==> !Contains(CString(reply), TypeName(u))
  {
    assert SearchOrder[1..] == [Pmx4etSa, DmxKSa] && SearchOrder[1..][1..] == [DmxKSa] && SearchOrder[1..][1..][1..] == [];
    FirstMatch(CString(reply), SearchOrder)
  }

  /** A text holding exactly one identifier of `order` is that model, whatever the order. */
  lemma {:induction false} OnlyMatchWins(text: string, order: seq<ControllerType>, t: ControllerType)
    requires t in order && Contains(text, TypeName(t))
    requires forall u :: u in order && u != t ==> !Contains(text, TypeName(u))
    ensures FirstMatch(text, order) == t
    decreases |order|
  {
    if order[0] != t {
      assert t in order[1..];
      OnlyMatchWins(text, order[1..], t);
    }
  }

  lemma NoTypeNameHasNul(t: ControllerType)
    ensures CString(TypeName(t)) == TypeName(t)
  {
    var s := TypeName(t);
    assert forall i :: 0 <= i < |s| ==> s[i] != '\0' by {
      match t
      case Unknown => assert s == "UNKNOWN";
      case DmxEth => assert s == "DMX-SERIES-ETH";
      case Pmx4etSa => assert s == "Performax-4ET-SA";
      case DmxKSa => assert s == "DriveMax-K-SA";
    }
    CStringOfNulFree(s);
  }

  /** A controller's identifier contains its own and no other known one. */
  lemma OwnIdentifierOnly(t: ControllerType)
    requires t != Unknown
    ensures Contains(TypeName(t), TypeName(t))
    ensures forall u :: u != Unknown && u != t ==> !Contains(TypeName(t), TypeName(u))
  {
    ContainsItself(TypeName(t));
    forall u | u != Unknown && u != t
      ensures !Contains(TypeName(t), TypeName(u))
    {
      IdentifiersDoNotOverlap(t, u);
    }
  }

  /**
   * Because no identifier contains another, each controller's own
   * identifier classifies as that controller in any search order of the
   * known models.
   */
  lemma IdentifierClassifiesInAnyOrder(t: ControllerType, order: seq<ControllerType>)
    requires t != Unknown && t in order && Unknown !in order
    ensures FirstMatch(TypeName(t), order) == t
  {
    OwnIdentifierOnly(t);
    OnlyMatchWins(TypeName(t), order, t);
  }

  /** Each identifier classifies as its own model, and "UNKNOWN" as UNKNOWN. */
  lemma ClassifiesOwnIdentifier(t: ControllerType)
    ensures Classify(TypeName(t)) == t
  {
    if t != Unknown {
      KnownClassifies(t);
    } else {
      UnknownClassifies();
    }
  }

  lemma KnownClassifies(t: ControllerType)
    requires t != Unknown
    ensures Classify(TypeName(t)) == t
  {
    var s := TypeName(t);
    assert CString(s) == s by {
      NoTypeNameHasNul(t);
    }
    assert FirstMatch(s, SearchOrder) == t by {
      KnownAreSearched(t);
      IdentifierClassifiesInAnyOrder(t, SearchOrder);
    }
  }

  lemma KnownAreSearched(t: ControllerType)
    requires t != Unknown
    ensures t in SearchOrder && Unknown !in SearchOrder
  {
  }

  lemma UnknownClassifies()
    ensures Classify(TypeName(Unknown)) == Unknown
  {
    NoTypeNameHasNul(Unknown);
    assert forall u :: u != Unknown ==> |TypeName(u)| > |TypeName(Unknown)|;
  }

  // ---------------------------------------------------------------- the probe

  const IdProbe := "ID"
  const AddressedIdProbe := "@01ID"

  /** The model detected, what was sent, and the script left. */
  datatype Detection = Detection(model: ControllerType, events: seq<Event>, rest: seq<Reply>)

  /**
   * The constructor's probe: `ID`, and `@01ID` only if the first
   * exchange read no bytes; the status of either exchange is not looked
   * at, and the model is classified from the last reply read.
   */
  function DetectRun(script: seq<Reply>): (d: Detection)
    ensures d.events == if Next(script).data == [] then [Sent(IdProbe), Sent(AddressedIdProbe)] else [Sent(IdProbe)]
    ensures Next(script).data != [] ==> d.model == Classify(Next(script).data) && d.rest == Rest(script)
    ensures Next(script).data == [] ==> d.model == Classify(Next(Rest(script)).data) && d.rest == Rest(Rest(script))
  {
    var first := Next(script);
    if first.data == [] then
      var second := Next(Rest(script));
      Detection(Classify(second.data), [Sent(IdProbe), Sent(AddressedIdProbe)], Rest(Rest(script)))
    else
      Detection(Classify(first.data), [Sent(IdProbe)], Rest(script))
  }

  /** A controller that answers `ID` with its identifier is recognised after one probe, whatever the status. */
  lemma DetectsDirectAnswer(t: ControllerType, status: int, written: Written, script: seq<Reply>)
    requires t != Unknown
    ensures var d := DetectRun([Reply(status, written, TypeName(t))] + script);
      d.model == t && d.events == [Sent(IdProbe)] && d.rest == script
  {
    ClassifiesOwnIdentifier(t);
    NextOfCons(Reply(status, written, TypeName(t)), script);
  }

  /** A controller that answers only the addressed probe is recognised after the fallback, whatever the statuses. */
  lemma DetectsAddressedAnswer(t: ControllerType, script: seq<Reply>)
    requires t != Unknown && Next(script).data == [] && Next(Rest(script)).data == TypeName(t)
    ensures var d := DetectRun(script);
      d.model == t && d.events == [Sent(IdProbe), Sent(AddressedIdProbe)] && d.rest == Rest(Rest(script))
  {
    ClassifiesOwnIdentifier(t);
  }
}
