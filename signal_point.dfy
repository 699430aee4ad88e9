/** A marker on the photo (components/SignalPoint.tsx): how one signal is
    drawn, given whether it is the selected one. The markup is reduced to the
    decisions it encodes. */
module SignalPoint {

  import opened Types

  /** Every severity other than `none` counts as critical; `alert` and
      `critical` are drawn the same way. */
  predicate IsCritical(sig: Signal) {
    sig.riskLevel != none
  }

  /** The icon at the marker's centre. */
  datatype Shape = WarningTriangle | Circle

  /** What one marker shows:
      - `shape`: the icon;
      - `enlarged`: the scaled-up look of the selected marker;
      - `pulsingRing`: the animated ring around the icon;
      - `tooltip`: the hover text, when there is a tooltip;
      - `left`, `top`: the position, in percent of the photo;
      - `clickArgument`: what a click hands to the click handler. */
  datatype Marker = Marker(
    shape: Shape,
    enlarged: bool,
    pulsingRing: bool,
    tooltip: Option<string>,
    left: real,
    top: real,
    clickArgument: Signal)

  /** The marker for `sig`. */
  function Render(sig: Signal, isActive: bool): (m: Marker)
    ensures m.shape == WarningTriangle <==> sig.riskLevel != none
    ensures m.pulsingRing <==> m.shape == WarningTriangle
    ensures m.enlarged == isActive
    ensures m.tooltip.Some? <==> !isActive
    ensures m.tooltip.Some? ==>
      m.tooltip.value == (if sig.riskLevel == none then "View Signal" else "Critical Warning")
    ensures m.left == sig.x && m.top == sig.y
    ensures m.clickArgument == sig
  {
    var critical := IsCritical(sig);
    Marker(
      if critical then WarningTriangle else Circle,
      isActive,
      critical,
      if isActive then None else Some(if critical then "Critical Warning" else "View Signal"),
      sig.x,
      sig.y,
      sig)
  }

  /** Only whether the risk is `none` matters, so `alert` and `critical` look
      alike; the texts and the identifier play no part in how a marker looks. */
  lemma LookDependsOnlyOnRiskAndPosition(a: Signal, b: Signal, isActive: bool)
    requires (a.riskLevel == none) == (b.riskLevel == none) && a.x == b.x && a.y == b.y
    ensures Render(a, isActive).(clickArgument := a) == Render(b, isActive).(clickArgument := a)
  {
  }
}
