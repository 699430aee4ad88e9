/** The screen's view state (App.tsx) and the handlers that move it: picking
    a photo, switching mode, the end of an analysis, selecting a marker,
    closing the detail panel, and agreeing to the safety notice.

    Each analysis is split in two: a handler starts it (and returns the
    request it sends), and a separate step completes it with the service's
    outcome. The transitions are pure functions on `View`; the class
    `AppState` holds the same fields and its methods are proved to follow
    those functions. */
module App {

  import opened Types
  import Drawer
  import SignalPoint

  /** How an analysis ended: the parsed response, or the thrown error's
      `message` property (None when the thrown value had none). */
  datatype Outcome = Succeeded(response: AnalysisResponse) | Failed(message: Option<string>)

  /** What an analysis is asked to look at. */
  datatype Request = Request(image: string, mode: AppMode)

  /** The state fields the handlers update. */
  datatype View = View(
    image: Option<string>,
    signals: seq<Signal>,
    activeSignal: Option<Signal>,
    isAnalyzing: bool,
    mode: AppMode,
    error: Option<string>,
    isSafetyOpen: bool)

  /** The state the screen starts in. */
  const Initial := View(None, [], None, false, shopping, None, false)

  const UploadFallbackError := "Something went wrong reading the image."

  /** JavaScript truthiness of a nullable string: present and not empty. */
  predicate Truthy(s: Option<string>) {
    s.Some? && s.value != ""
  }

  // ---------------------------------------------------------------------
  // Transitions

  /** A photo has been read: it replaces the old one, the old results, the
      selection and the error go, and an analysis starts. */
  function UploadStarted(v: View, data: string): View {
    v.(image := Some(data), signals := [], activeSignal := None, isAnalyzing := true, error := None)
  }

  /** The message shown when an upload's analysis fails: the error's own
      message, unless it has none or it is empty. */
  function UploadErrorText(message: Option<string>): (t: string)
    ensures t != ""
    ensures Truthy(message) ==> t == message.value
    ensures !Truthy(message) ==> t == UploadFallbackError
  {
    if Truthy(message) then message.value else UploadFallbackError
  }

  /** An upload's analysis has ended. */
  function UploadFinished(v: View, o: Outcome): View {
    match o
    case Succeeded(response) => v.(signals := response.signals, isAnalyzing := false)
    case Failed(message) => v.(error := Some(UploadErrorText(message)), isAnalyzing := false)
  }

  /** Whether switching to `m` starts a new analysis of the current photo. */
  predicate ToggleReanalyzes(v: View, m: AppMode) {
    m != v.mode && Truthy(v.image)
  }

  /** The mode switch. Choosing the current mode does nothing; otherwise the
      mode changes, and if there is a photo its markers and selection go and
      a new analysis starts. An earlier error is left as it is. */
  function ModeToggled(v: View, m: AppMode): View {
    if m == v.mode then v
    else if Truthy(v.image) then v.(mode := m, isAnalyzing := true, signals := [], activeSignal := None)
    else v.(mode := m)
  }

  /** A re-analysis after a mode switch has ended. On failure the error is
      set to the message as it is, with no fallback text. */
  function ToggleFinished(v: View, o: Outcome): View {
    match o
    case Succeeded(response) => v.(signals := response.signals, isAnalyzing := false)
    case Failed(message) => v.(error := message, isAnalyzing := false)
  }

  function SignalSelected(v: View, sig: Signal): View {
    v.(activeSignal := Some(sig))
  }

  function DrawerClosed(v: View): View {
    v.(activeSignal := None)
  }

  function Agreed(v: View): View {
    v.(isSafetyOpen := false)
  }

  // ---------------------------------------------------------------------
  // What the state shows

  /** A marker is drawn as the selected one when its id is the selected
      signal's id. */
  predicate IsActive(active: Option<Signal>, sig: Signal) {
    active.Some? && active.value.id == sig.id
  }

  /** One marker per signal, in list order. */
  function MarkersOf(signals: seq<Signal>, active: Option<Signal>): (ms: seq<SignalPoint.Marker>)
    ensures |ms| == |signals|
    ensures forall i :: 0 <= i < |ms| ==> ms[i] == SignalPoint.Render(signals[i], IsActive(active, signals[i]))
  {
    if signals == [] then []
    else [SignalPoint.Render(signals[0], IsActive(active, signals[0]))] + MarkersOf(signals[1..], active)
  }

  /** The markers on screen: none without a photo or while an analysis
      runs, otherwise one per signal. */
  function Markers(v: View): (ms: seq<SignalPoint.Marker>)
    ensures |ms| == if Truthy(v.image) && !v.isAnalyzing then |v.signals| else 0
    ensures forall i :: 0 <= i < |ms| ==> i < |v.signals| && (ms[i].enlarged <==> IsActive(v.activeSignal, v.signals[i]))
    ensures forall i :: 0 <= i < |ms| ==> i < |v.signals| && ms[i] == SignalPoint.Render(v.signals[i], IsActive(v.activeSignal, v.signals[i]))
  {
    if Truthy(v.image) && !v.isAnalyzing then MarkersOf(v.signals, v.activeSignal) else []
  }

  /** The error banner, shown with the photo when the error is not empty. */
  function ErrorBanner(v: View): (b: Option<string>)
    ensures b.Some? ==> b == v.error && b.value != ""
    ensures Truthy(v.image) ==> (b.Some? <==> v.error.Some? && v.error.value != "")
    ensures !Truthy(v.image) ==> b.None?
  {
    if Truthy(v.image) && Truthy(v.error) then v.error else None
  }

  /** The detail panel for the selected signal. */
  function DetailPanel(v: View): Drawer.Panel {
    Drawer.Render(v.activeSignal, v.mode)
  }

  // ---------------------------------------------------------------------
  // Properties of the transitions

  /** Choosing the mode already in force changes nothing; with no photo a
      new mode changes only the mode. */
  lemma ToggleWithoutReanalysis(v: View, m: AppMode)
    requires !ToggleReanalyzes(v, m)
    ensures ModeToggled(v, m) == v.(mode := m)
  {
  }

  /** While an analysis runs no marker is drawn and the panel is closed,
      whichever handler started it. */
  lemma StartingHidesResults(v: View, data: string, m: AppMode)
    ensures Markers(UploadStarted(v, data)) == [] && DetailPanel(UploadStarted(v, data)).detail.None?
    ensures Markers(ModeToggled(v, m)) == [] || !ToggleReanalyzes(v, m)
    ensures ToggleReanalyzes(v, m) ==> DetailPanel(ModeToggled(v, m)).detail.None?
  {
  }

  /** After a successful upload the markers are exactly the response's
      signals, in response order, none selected, and no error is shown. */
  lemma UploadSuccessShowsResponse(v: View, data: string, response: AnalysisResponse)
    requires data != ""
    ensures var w := UploadFinished(UploadStarted(v, data), Succeeded(response));
      && !w.isAnalyzing && w.signals == response.signals
      && Markers(w) == MarkersOf(response.signals, None)
      && (forall i :: 0 <= i < |Markers(w)| ==> !Markers(w)[i].enlarged)
      && ErrorBanner(w) == None
  {
  }

  /** A failed upload always shows a non-empty message: the error's own
      message when it has one, the fallback text otherwise. */
  lemma UploadFailureIsReported(v: View, data: string, message: Option<string>)
    requires data != ""
    ensures var w := UploadFinished(UploadStarted(v, data), Failed(message));
      && !w.isAnalyzing && w.signals == []
      && ErrorBanner(w) == Some(if Truthy(message) then message.value else UploadFallbackError)
  {
  }

  /** A successful re-analysis after a mode switch replaces the signals but
      leaves any earlier error in place: a stale error stays on screen. */
  lemma ToggleSuccessKeepsError(v: View, m: AppMode, response: AnalysisResponse)
    requires ToggleReanalyzes(v, m)
    ensures var w := ToggleFinished(ModeToggled(v, m), Succeeded(response));
      && !w.isAnalyzing && w.mode == m && w.signals == response.signals
      && w.error == v.error && ErrorBanner(w) == ErrorBanner(v)
  {
  }

  /** A failed re-analysis whose error has no message shows no banner at
      all, and removes the one an earlier error showed. */
  lemma ToggleFailureMayShowNothing(v: View, m: AppMode, message: Option<string>)
    requires ToggleReanalyzes(v, m) && !Truthy(message)
    ensures var w := ToggleFinished(ModeToggled(v, m), Failed(message));
      !w.isAnalyzing && w.signals == [] && ErrorBanner(w) == None
  {
  }

  /** Selecting a listed signal opens the panel on it and draws exactly the
      markers sharing its id as selected; closing the panel unselects every
      marker. */
  lemma SelectThenClose(v: View, k: nat)
    requires k < |v.signals| && Truthy(v.image) && !v.isAnalyzing
    ensures var w := SignalSelected(v, v.signals[k]);
      && Markers(w)[k].enlarged
      && (forall i :: 0 <= i < |v.signals| ==> (Markers(w)[i].enlarged <==> v.signals[i].id == v.signals[k].id))
      && DetailPanel(w).detail.Some?
      && DetailPanel(w).detail.value.observation == Drawer.DisplayedObservation(v.signals[k].observation)
    ensures var u := DrawerClosed(SignalSelected(v, v.signals[k]));
      && DetailPanel(u).detail.None?
      && (forall i :: 0 <= i < |Markers(u)| ==> !Markers(u)[i].enlarged)
  {
  }

  /** When the signals' ids are distinct, at most one marker is drawn as
      selected. */
  lemma DistinctIdsOneActive(v: View, i: nat, j: nat)
    requires i < |Markers(v)| && j < |Markers(v)|
    requires forall a, b :: 0 <= a < b < |v.signals| ==> v.signals[a].id != v.signals[b].id
    requires Markers(v)[i].enlarged && Markers(v)[j].enlarged
    ensures i == j
  {
  }

  /** The panel's "Critical" badge and the marker's warning triangle are
      decided by the same test, so they always agree for the selected
      signal. */
  lemma BadgeMatchesMarker(v: View, k: nat)
    requires k < |Markers(v)| && v.activeSignal == Some(v.signals[k])
    ensures DetailPanel(v).detail.value.criticalBadge <==> Markers(v)[k].shape == SignalPoint.WarningTriangle
  {
  }

  // ---------------------------------------------------------------------
  // The component's state

  /** The state variables of the screen, updated in place by its handlers. */
  class AppState {
    var image: Option<string>
    var signals: seq<Signal>
    var activeSignal: Option<Signal>
    var isAnalyzing: bool
    var mode: AppMode
    var error: Option<string>
    var isSafetyOpen: bool

    /** The current values of the state fields. */
    function State(): View
      reads this
    {
      View(image, signals, activeSignal, isAnalyzing, mode, error, isSafetyOpen)
    }

    constructor ()
      ensures State() == Initial
    {
      image := None;
      signals := [];
      activeSignal := None;
      isAnalyzing := false;
      mode := shopping;
      error := None;
      isSafetyOpen := false;
    }

    /** A photo was picked (`file` is its contents, read as a data URL) or
        the picker was dismissed (`file` is None). A photo starts an
        analysis in the current mode, whose request is returned. */
    method HandleFileUpload(file: Option<string>) returns (request: Option<Request>)
      modifies this
      ensures file.None? ==> State() == old(State()) && request.None?
      ensures file.Some? ==>
        State() == UploadStarted(old(State()), file.value) && request == Some(Request(file.value, old(mode)))
    {
      if file.None? {
        return None;
      }
      var data := file.value;
      image := Some(data);
      signals := [];
      activeSignal := None;
      isAnalyzing := true;
      error := None;
      request := Some(Request(data, mode));
    }

    /** The analysis started by an upload has ended. */
    method FinishUploadAnalysis(outcome: Outcome)
      modifies this
      ensures State() == UploadFinished(old(State()), outcome)
    {
      match outcome {
        case Succeeded(response) =>
          signals := response.signals;
        case Failed(message) =>
          error := Some(UploadErrorText(message));
      }
      isAnalyzing := false;
    }

    /** The mode switch; returns the request of the re-analysis it starts,
        if it starts one. */
    method ToggleMode(newMode: AppMode) returns (request: Option<Request>)
      modifies this
      ensures State() == ModeToggled(old(State()), newMode)
      ensures request.Some? <==> ToggleReanalyzes(old(State()), newMode)
      ensures request.Some? ==> request.value == Request(old(image).value, newMode)
    {
      if newMode == mode {
        return None;
      }
      mode := newMode;
      request := None;
      if Truthy(image) {
        isAnalyzing := true;
        signals := [];
        activeSignal := None;
        request := Some(Request(image.value, newMode));
      }
    }

    /** The re-analysis started by a mode switch has ended. */
    method FinishToggleAnalysis(outcome: Outcome)
      modifies this
      ensures State() == ToggleFinished(old(State()), outcome)
    {
      match outcome {
        case Succeeded(response) =>
          signals := response.signals;
        case Failed(message) =>
          error := message;
      }
      isAnalyzing := false;
    }

    /** A marker was clicked. */
    method SelectSignal(sig: Signal)
      modifies this
      ensures State() == SignalSelected(old(State()), sig)
    {
      activeSignal := Some(sig);
    }

    /** The detail panel's close button or backdrop was clicked. */
    method CloseDrawer()
      modifies this
      ensures State() == DrawerClosed(old(State()))
    {
      activeSignal := None;
    }

    /** The agreement handler: closes the safety notice. */
    method HandleAgree()
      modifies this
      ensures State() == Agreed(old(State()))
    {
      isSafetyOpen := false;
    }
  }
}
