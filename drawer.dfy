/** The detail panel (components/Drawer.tsx): what it shows for the selected
    signal in the current mode. Only the decisions are modelled; the markup
    and its styling are not. */
module Drawer {

  import opened Types
  import opened Labels

  /** Labels the panel strips from the start of an observation. */
  const ObservationLabels: seq<string> := ["The Visual Sign", "Observation"]

  /** Labels the panel strips from the start of an interpretation. */
  const InterpretationLabels: seq<string> := ["What It Means", "Interpretation", "The Meaning"]

  /** The panel's header text for a mode. */
  function HeaderText(mode: AppMode): (h: string)
    ensures h == "Shopping Insight" <==> mode == shopping
    ensures h == "Cooking Insight" <==> mode != shopping
  {
    if mode == shopping then "Shopping Insight" else "Cooking Insight"
  }

  /** Whether the "Critical" badge is shown next to the observation. */
  predicate ShowsCriticalBadge(risk: RiskLevel) {
    risk != none
  }

  /** The observation as displayed: one leading "The Visual Sign" or
      "Observation" label, ignoring case, with an optional colon and the
      whitespace after it, is removed. */
  function DisplayedObservation(s: string): (r: string)
    ensures |r| <= |s| && r == s[|s| - |r|..]
  {
    StripLabel(ObservationLabels, s)
  }

  /** The interpretation as displayed: one leading "What It Means",
      "Interpretation" or "The Meaning" label is removed the same way. */
  function DisplayedInterpretation(s: string): (r: string)
    ensures |r| <= |s| && r == s[|s| - |r|..]
  {
    StripLabel(InterpretationLabels, s)
  }

  /** The two observation labels begin with different letters, so at most
      one of them matches; whichever matches is removed as RemovesLabel
      describes. The text is displayed unchanged exactly when neither
      matches. */
  lemma DisplayedObservationSpec(s: string)
    ensures forall k :: 0 <= k < |ObservationLabels| && StartsWithCi(s, ObservationLabels[k]) ==>
      RemovesLabel(ObservationLabels[k], s, DisplayedObservation(s))
    ensures DisplayedObservation(s) == s <==>
      forall k :: 0 <= k < |ObservationLabels| ==> !StartsWithCi(s, ObservationLabels[k])
  {
    var ls := ObservationLabels;
    if StartsWithCi(s, ls[0]) {
      StripLabelRemovesFirstMatch(ls, s, 0);
      assert Lower(s[0]) == 't';
    } else if StartsWithCi(s, ls[1]) {
      StripLabelRemovesFirstMatch(ls, s, 1);
    } else {
      StripLabelNoMatch(ls, s);
    }
  }

  /** The same for the three interpretation labels, which also begin with
      three different letters. */
  lemma DisplayedInterpretationSpec(s: string)
    ensures forall k :: 0 <= k < |InterpretationLabels| && StartsWithCi(s, InterpretationLabels[k]) ==>
      RemovesLabel(InterpretationLabels[k], s, DisplayedInterpretation(s))
    ensures DisplayedInterpretation(s) == s <==>
      forall k :: 0 <= k < |InterpretationLabels| ==> !StartsWithCi(s, InterpretationLabels[k])
  {
    var ls := InterpretationLabels;
    if StartsWithCi(s, ls[0]) {
      StripLabelRemovesFirstMatch(ls, s, 0);
      assert Lower(s[0]) == 'w';
      assert !StartsWithCi(s, ls[1]) && !StartsWithCi(s, ls[2]);
    } else if StartsWithCi(s, ls[1]) {
      StripLabelRemovesFirstMatch(ls, s, 1);
      assert Lower(s[0]) == 'i';
      assert !StartsWithCi(s, ls[2]);
    } else if StartsWithCi(s, ls[2]) {
      StripLabelRemovesFirstMatch(ls, s, 2);
    } else {
      StripLabelNoMatch(ls, s);
    }
  }

  /** "Observation: " in front of text that does not itself begin with
      whitespace is removed and nothing more. */
  lemma DisplayedAfterObservationLabel(t: string)
    requires t == [] || !IsJsSpace(t[0])
    ensures DisplayedObservation("Observation: " + t) == t
  {
    var s := "Observation: " + t;
    assert StartsWithCi(s, ObservationLabels[1]);
    assert s[13..] == t;
    assert s[11..13] == ": ";
    assert RemovesLabel(ObservationLabels[1], s, t);
    DisplayedObservationSpec(s);
    RemovesLabelUnique(ObservationLabels[1], s, t, DisplayedObservation(s));
  }

  /** Only one label is removed: a doubled label leaves the second in place,
      so displaying is not idempotent. */
  lemma StripsOnlyOnce()
    ensures DisplayedObservation("Observation: Observation: x") == "Observation: x"
    ensures DisplayedObservation(DisplayedObservation("Observation: Observation: x"))
         != DisplayedObservation("Observation: Observation: x")
  {
    assert "Observation: Observation: x" == "Observation: " + "Observation: x";
    DisplayedAfterObservationLabel("Observation: x");
    assert "Observation: x" == "Observation: " + "x";
    DisplayedAfterObservationLabel("x");
  }

  /** No word boundary is required after a label: "Observational" keeps
      only its last two letters. */
  lemma NoWordBoundary()
    ensures DisplayedObservation("Observational") == "al"
  {
    var s := "Observational";
    assert StartsWithCi(s, ObservationLabels[1]);
    assert s[11..] == "al" && s[11..11] == [];
    assert RemovesLabel(ObservationLabels[1], s, "al");
    DisplayedObservationSpec(s);
    RemovesLabelUnique(ObservationLabels[1], s, "al", DisplayedObservation(s));
  }

  /** Upper case, and a no-break space after the colon, are consumed too. */
  lemma CaseAndNoBreakSpace()
    ensures DisplayedInterpretation("WHAT IT MEANS:\U{A0} Fresh") == "Fresh"
  {
    var s := "WHAT IT MEANS:\U{A0} Fresh";
    assert StartsWithCi(s, InterpretationLabels[0]);
    assert s[16..] == "Fresh";
    assert s[13..16] == ":\U{A0} " && s[14..16] == "\U{A0} ";
    assert RemovesLabel(InterpretationLabels[0], s, "Fresh");
    DisplayedInterpretationSpec(s);
    RemovesLabelUnique(InterpretationLabels[0], s, "Fresh", DisplayedInterpretation(s));
  }

  /** The body of an open panel. */
  datatype Detail = Detail(criticalBadge: bool, observation: string, interpretation: string)

  /** The panel: its header and, when a signal is selected, its body. */
  datatype Panel = Panel(header: string, detail: Option<Detail>)

  /** The panel as rendered for the selected signal (or none) in a mode. */
  function Render(signal: Option<Signal>, mode: AppMode): (p: Panel)
    ensures p.header == HeaderText(mode)
    ensures p.detail.Some? <==> signal.Some?
    ensures signal.Some? ==>
      var d, sig := p.detail.value, signal.value;
      && (d.criticalBadge <==> sig.riskLevel != none)
      && d.observation == DisplayedObservation(sig.observation)
      && d.interpretation == DisplayedInterpretation(sig.interpretation)
  {
    Panel(HeaderText(mode),
      match signal
      case None => None
      case Some(sig) => Some(Detail(ShowsCriticalBadge(sig.riskLevel),
                                    DisplayedObservation(sig.observation),
                                    DisplayedInterpretation(sig.interpretation))))
  }
}
