/** The `Props` enumeration: the closed set of device properties and their wire codes. */
module Props {

  datatype Prop = Power | Mode | FanSpeed | SwingHoriz | SwingVert

  /** The short wire code the device protocol uses for a property (`Props.X.value`). */
  function Code(p: Prop): string
  {
    match p
    case Power => "Pow"
    case Mode => "Mod"
    case FanSpeed => "WdSpd"
    case SwingHoriz => "SwingLfRig"
    case SwingVert => "SwUpDn"
  }

  /** The members of `Props` in declaration order, as iterating the enumeration yields them. */
  const AllProps: seq<Prop> := [Power, Mode, FanSpeed, SwingHoriz, SwingVert]

  /** `[x.value for x in Props]`: the codes `update_state` asks the device for. */
  function AllCodes(): (codes: seq<string>)
    ensures codes == ["Pow", "Mod", "WdSpd", "SwingLfRig", "SwUpDn"]
  {
    seq(|AllProps|, i requires 0 <= i < |AllProps| => Code(AllProps[i]))
  }

  /** Distinct properties have distinct wire codes, so a code names one property. */
  lemma CodeInjective(p: Prop, q: Prop)
    ensures Code(p) == Code(q) <==> p == q
  {
  }

  /** Every property is asked for, and no code is asked for twice. */
  lemma AllCodesExact()
    ensures forall p: Prop :: Code(p) in AllCodes()
    ensures forall i, j :: 0 <= i < j < |AllCodes()| ==> AllCodes()[i] != AllCodes()[j]
  {
  }
}
