/**
 The recorder button: three flags of its own (`permissionDenied`,
 `isSecureContext`, `showPermissionHint`), the effect that runs whenever the
 recording status changes, the start handler that probes the microphone
 before calling the caller's `startRecording`, and the rules that decide
 whether the button is disabled, what a click does and what it shows.

 The browser's secure-context flag and the outcome of the microphone probe
 are inputs; the caller's `startRecording` and `stopRecording` callbacks are
 counted rather than run.
 */
module Recorder {

  const Idle := "idle"
  const Recording := "recording"

  /** The component's flags, and how often it has called each of the caller's callbacks. */
  datatype RecorderState = RecorderState(
    permissionDenied: bool,
    isSecureContext: bool,
    showPermissionHint: bool,
    startRecordingCalls: nat,
    stopRecordingCalls: nat)

  /** The flags as the component is first rendered. */
  const Initial := RecorderState(false, true, false, 0, 0)

  /** What can happen to the component. */
  datatype Event =
    | StatusChanged(status: string, secure: bool)    // the effect runs for a new status
    | Clicked(status: string, isTranscribing: bool)  // the user clicks the button
    | ProbeGranted                                   // the microphone probe succeeds
    | ProbeDenied                                    // the microphone probe fails

  /** The button's `disabled` attribute. */
  predicate ButtonDisabled(s: RecorderState, isTranscribing: bool)
    ensures isTranscribing ==> ButtonDisabled(s, isTranscribing)
    ensures s.permissionDenied ==> ButtonDisabled(s, isTranscribing)
    ensures !s.isSecureContext ==> ButtonDisabled(s, isTranscribing)
  {
    isTranscribing || s.permissionDenied || !s.isSecureContext
  }

  /** The two handlers a click can reach. */
  datatype Handler = StopRecording | HandleStartRecording

  /** The callback wired to `onClick` for a status. */
  function ClickHandler(status: string): (h: Handler)
    ensures h == StopRecording <==> status == Recording
  {
    if status == Recording then StopRecording else HandleStartRecording
  }

  datatype Icon = Square | Mic

  /** The icon inside the button. */
  function ButtonIcon(status: string): (icon: Icon)
    ensures icon == Square <==> status == Recording
  {
    if status == Recording then Square else Mic
  }

  /** The caption under the button. */
  function ButtonLabel(status: string): (caption: string)
    ensures caption in {"Stop", "Enregistrer"}
    ensures caption == "Stop" <==> status == Recording
  {
    if status == Recording then "Stop" else "Enregistrer"
  }

  /** The status effect: record the secure flag; a return to idle forgets a denial. */
  function AfterStatusChange(s: RecorderState, status: string, secure: bool): (r: RecorderState)
    ensures r.isSecureContext == secure
    ensures status == Idle ==> !r.permissionDenied
    ensures status != Idle ==> r.permissionDenied == s.permissionDenied
    ensures r.showPermissionHint == s.showPermissionHint
    ensures r.startRecordingCalls == s.startRecordingCalls && r.stopRecordingCalls == s.stopRecordingCalls
  {
    s.(isSecureContext := secure,
       permissionDenied := if status == Idle then false else s.permissionDenied)
  }

  /** The start handler up to the probe: the permission hint is shown. */
  function AfterStartBegun(s: RecorderState): (r: RecorderState)
    ensures r.showPermissionHint
    ensures r.permissionDenied == s.permissionDenied && r.isSecureContext == s.isSecureContext
    ensures r.startRecordingCalls == s.startRecordingCalls && r.stopRecordingCalls == s.stopRecordingCalls
  {
    s.(showPermissionHint := true)
  }

  /** The probe was granted: the hint goes away and `startRecording` is called. */
  function AfterGrant(s: RecorderState): (r: RecorderState)
    ensures !r.showPermissionHint
    ensures r.startRecordingCalls == s.startRecordingCalls + 1
    ensures r.permissionDenied == s.permissionDenied && r.isSecureContext == s.isSecureContext
    ensures r.stopRecordingCalls == s.stopRecordingCalls
  {
    s.(showPermissionHint := false, startRecordingCalls := s.startRecordingCalls + 1)
  }

  /** The probe was denied: the denial is recorded and the hint goes away. */
  function AfterDenial(s: RecorderState): (r: RecorderState)
    ensures r.permissionDenied && !r.showPermissionHint
    ensures r.isSecureContext == s.isSecureContext
    ensures r.startRecordingCalls == s.startRecordingCalls && r.stopRecordingCalls == s.stopRecordingCalls
  {
    s.(permissionDenied := true, showPermissionHint := false)
  }

  /** A click on a disabled button does nothing; otherwise it reaches the status's handler. */
  function AfterClick(s: RecorderState, status: string, isTranscribing: bool): (r: RecorderState)
    ensures ButtonDisabled(s, isTranscribing) ==> r == s
    ensures !ButtonDisabled(s, isTranscribing) && status == Recording ==>
              r.stopRecordingCalls == s.stopRecordingCalls + 1 && r.showPermissionHint == s.showPermissionHint
    ensures !ButtonDisabled(s, isTranscribing) && status != Recording ==>
              r.showPermissionHint && r.stopRecordingCalls == s.stopRecordingCalls
    ensures r.permissionDenied == s.permissionDenied && r.isSecureContext == s.isSecureContext
    ensures r.startRecordingCalls == s.startRecordingCalls
  {
    if ButtonDisabled(s, isTranscribing) then s
    else match ClickHandler(status)
      case StopRecording => s.(stopRecordingCalls := s.stopRecordingCalls + 1)
      case HandleStartRecording => AfterStartBegun(s)
  }

  function Step(s: RecorderState, e: Event): RecorderState {
    match e
    case StatusChanged(status, secure) => AfterStatusChange(s, status, secure)
    case Clicked(status, isTranscribing) => AfterClick(s, status, isTranscribing)
    case ProbeGranted => AfterGrant(s)
    case ProbeDenied => AfterDenial(s)
  }

  /** The state after the events of `trace`, in order. */
  function Run(s: RecorderState, trace: seq<Event>): RecorderState
    decreases |trace|
  {
    if trace == [] then s else Step(Run(s, trace[..|trace| - 1]), trace[|trace| - 1])
  }

  /** The number of granted probes in a trace. */
  function Grants(trace: seq<Event>): nat
    decreases |trace|
  {
    if trace == [] then 0
    else Grants(trace[..|trace| - 1]) + (if trace[|trace| - 1].ProbeGranted? then 1 else 0)
  }

  predicate IsIdleChange(e: Event) {
    e.StatusChanged? && e.status == Idle
  }

  // ---------------------------------------------------------------------------
  // Rules of the rendered button

  /** In an insecure context the button is disabled whatever the other flags are. */
  lemma InsecureDisables(s: RecorderState, isTranscribing: bool)
    requires !s.isSecureContext
    ensures ButtonDisabled(s, isTranscribing)
  {
  }

  /** The button is enabled exactly when nothing is transcribing, no denial is pending and the context is secure. */
  lemma EnabledIff(s: RecorderState, isTranscribing: bool)
    ensures !ButtonDisabled(s, isTranscribing)
            <==> !isTranscribing && !s.permissionDenied && s.isSecureContext
  {
  }

  /** The caption, the icon and the click handler all agree on whether a click stops the recording. */
  lemma StopShownIffStopDispatched(status: string)
    ensures ButtonLabel(status) == "Stop" <==> status == Recording
    ensures ButtonIcon(status) == Square <==> status == Recording
    ensures ClickHandler(status) == StopRecording <==> status == Recording
    ensures status != Recording ==>
              ButtonLabel(status) == "Enregistrer" && ButtonIcon(status) == Mic
              && ClickHandler(status) == HandleStartRecording
  {
  }

  // ---------------------------------------------------------------------------
  // Properties of event traces

  /** Returning to idle in a secure context re-enables the button unless a transcription runs. */
  lemma IdleReenables(s: RecorderState, isTranscribing: bool)
    ensures ButtonDisabled(Step(s, StatusChanged(Idle, true)), isTranscribing) <==> isTranscribing
  {
  }

  /**
   After a denial the button stays disabled until the status returns to idle:
   no click gets through, so `stopRecording` is not called and no new start is
   begun.
   */
  lemma {:induction false} DeniedUntilIdle(s: RecorderState, trace: seq<Event>)
    requires s.permissionDenied
    requires forall k :: 0 <= k < |trace| ==> !IsIdleChange(trace[k])
    ensures Run(s, trace).permissionDenied
    ensures forall t: bool :: ButtonDisabled(Run(s, trace), t)
    ensures Run(s, trace).stopRecordingCalls == s.stopRecordingCalls
    ensures Run(s, trace).showPermissionHint ==> s.showPermissionHint
    decreases |trace|
  {
    if trace != [] {
      DeniedUntilIdle(s, trace[..|trace| - 1]);
    }
  }

  /** `startRecording` is called once per granted probe and at no other time. */
  lemma {:induction false} StartCallsAreGrants(s: RecorderState, trace: seq<Event>)
    ensures Run(s, trace).startRecordingCalls == s.startRecordingCalls + Grants(trace)
    decreases |trace|
  {
    if trace != [] {
      StartCallsAreGrants(s, trace[..|trace| - 1]);
    }
  }

  /** The secure flag is the one read by the most recent status effect, or the initial one if none ran. */
  lemma {:induction false} SecureFromLastStatusChange(s: RecorderState, trace: seq<Event>)
    ensures (forall k :: 0 <= k < |trace| ==> !trace[k].StatusChanged?)
            ==> Run(s, trace).isSecureContext == s.isSecureContext
    ensures forall k :: 0 <= k < |trace| && trace[k].StatusChanged?
              && (forall j :: k < j < |trace| ==> !trace[j].StatusChanged?)
              ==> Run(s, trace).isSecureContext == trace[k].secure
    decreases |trace|
  {
    if trace != [] {
      var prefix := trace[..|trace| - 1];
      SecureFromLastStatusChange(s, prefix);
      assert forall k :: 0 <= k < |prefix| ==> prefix[k] == trace[k];
    }
  }

  /** Once a probe has resolved, the hint stays hidden until the next click. */
  lemma {:induction false} HintClearedAfterResolution(s: RecorderState, trace: seq<Event>, k: nat)
    requires k < |trace| && (trace[k].ProbeGranted? || trace[k].ProbeDenied?)
    requires forall j :: k < j < |trace| ==> !trace[j].Clicked?
    ensures !Run(s, trace).showPermissionHint
    decreases |trace|
  {
    if k < |trace| - 1 {
      HintClearedAfterResolution(s, trace[..|trace| - 1], k);
    }
  }

  /** Running two traces one after the other is running their concatenation. */
  lemma {:induction false} RunAppend(s: RecorderState, first: seq<Event>, second: seq<Event>)
    ensures Run(s, first + second) == Run(Run(s, first), second)
    decreases |second|
  {
    if second == [] {
      assert first + second == first;
    } else {
      var n := |second| - 1;
      assert (first + second)[..|first + second| - 1] == first + second[..n];
      assert (first + second)[|first + second| - 1] == second[n];
      RunAppend(s, first, second[..n]);
    }
  }

  /**
   A denial while the status is already "idle" is never cleared by the status
   effect, which only runs when the status changes: after mounting at idle, a
   click and a denied probe, the button stays disabled through any events that
   do not change the status to idle, whatever `isTranscribing` is.
   */
  lemma DenialAtIdleSticks(rest: seq<Event>)
    requires forall k :: 0 <= k < |rest| ==> !IsIdleChange(rest[k])
    ensures forall t: bool ::
      ButtonDisabled(Run(Initial, [StatusChanged(Idle, true), Clicked(Idle, false), ProbeDenied] + rest), t)
  {
    var start := [StatusChanged(Idle, true), Clicked(Idle, false), ProbeDenied];
    assert start[..2][..1] == [StatusChanged(Idle, true)];
    assert Run(Initial, start).permissionDenied;
    RunAppend(Initial, start, rest);
    DeniedUntilIdle(Run(Initial, start), rest);
  }

  /** The component, with one method per event. */
  class AudioRecorder {
    var permissionDenied: bool
    var isSecureContext: bool
    var showPermissionHint: bool
    /** How often the caller's `startRecording` has been called. */
    var startRecordingCalls: nat
    /** How often the caller's `stopRecording` has been called. */
    var stopRecordingCalls: nat

    function View(): RecorderState
      reads this
    {
      RecorderState(permissionDenied, isSecureContext, showPermissionHint,
                    startRecordingCalls, stopRecordingCalls)
    }

    constructor ()
      ensures View() == Initial
    {
      permissionDenied, isSecureContext, showPermissionHint := false, true, false;
      startRecordingCalls, stopRecordingCalls := 0, 0;
    }

    /** The effect on `[status]`, run with the browser's `window.isSecureContext`. */
    method OnStatusChange(status: string, secure: bool)
      modifies this
      ensures isSecureContext == secure
      ensures permissionDenied == (status != Idle && old(permissionDenied))
      ensures showPermissionHint == old(showPermissionHint)
      ensures startRecordingCalls == old(startRecordingCalls)
      ensures stopRecordingCalls == old(stopRecordingCalls)
      ensures View() == Step(old(View()), StatusChanged(status, secure))
    {
      isSecureContext := secure;
      if status == Idle {
        permissionDenied := false;
      }
    }

    /** `handleStartRecording` up to the microphone probe: the hint is shown. */
    method BeginStart()
      modifies this
      ensures showPermissionHint
      ensures permissionDenied == old(permissionDenied) && isSecureContext == old(isSecureContext)
      ensures startRecordingCalls == old(startRecordingCalls)
      ensures stopRecordingCalls == old(stopRecordingCalls)
      ensures View() == AfterStartBegun(old(View()))
    {
      showPermissionHint := true;
    }

    /** The probe succeeded: hide the hint and call `startRecording` once. */
    method OnProbeGranted()
      modifies this
      ensures !showPermissionHint
      ensures startRecordingCalls == old(startRecordingCalls) + 1
      ensures permissionDenied == old(permissionDenied) && isSecureContext == old(isSecureContext)
      ensures stopRecordingCalls == old(stopRecordingCalls)
      ensures View() == Step(old(View()), ProbeGranted)
    {
      showPermissionHint := false;
      startRecordingCalls := startRecordingCalls + 1;
    }

    /** The probe failed: remember the denial and hide the hint; `startRecording` is not called. */
    method OnProbeDenied()
      modifies this
      ensures permissionDenied && !showPermissionHint
      ensures isSecureContext == old(isSecureContext)
      ensures startRecordingCalls == old(startRecordingCalls)
      ensures stopRecordingCalls == old(stopRecordingCalls)
      ensures View() == Step(old(View()), ProbeDenied)
    {
      permissionDenied := true;
      showPermissionHint := false;
    }

    /** A click: ignored while disabled, else `stopRecording` while recording, else the start handler. */
    method Click(status: string, isTranscribing: bool)
      modifies this
      ensures ButtonDisabled(old(View()), isTranscribing) ==> View() == old(View())
      ensures !ButtonDisabled(old(View()), isTranscribing) && status == Recording ==>
                View() == old(View()).(stopRecordingCalls := old(stopRecordingCalls) + 1)
      ensures !ButtonDisabled(old(View()), isTranscribing) && status != Recording ==>
                View() == old(View()).(showPermissionHint := true)
      ensures View() == Step(old(View()), Clicked(status, isTranscribing))
    {
      if !ButtonDisabled(View(), isTranscribing) {
        match ClickHandler(status) {
          case StopRecording =>
            stopRecordingCalls := stopRecordingCalls + 1;
          case HandleStartRecording =>
            BeginStart();
        }
      }
    }

    /** A whole start attempt: the hint shows, then the probe resolves one way or the other. */
    method HandleStartRecording(granted: bool)
      modifies this
      ensures !showPermissionHint
      ensures isSecureContext == old(isSecureContext)
      ensures stopRecordingCalls == old(stopRecordingCalls)
      ensures granted ==> permissionDenied == old(permissionDenied)
                          && startRecordingCalls == old(startRecordingCalls) + 1
      ensures !granted ==> permissionDenied && startRecordingCalls == old(startRecordingCalls)
    {
      BeginStart();
      if granted {
        OnProbeGranted();
      } else {
        OnProbeDenied();
      }
    }
  }
}
