/**
  The Canvas course page's view-model (pages/canvas_course/viewmodel.py):
  one immutable UI state that each method replaces, and the signals it
  emits, kept as an append-only log.
*/
module CanvasCourseViewModels {
  import opened Wrappers
  import opened Text
  import opened PyValues
  import opened StatusStyles
  import opened DownloadCourse

  datatype CanvasCourseUiState = CanvasCourseUiState(
    course_id: string,
    is_busy: bool,
    status: Status,
    message: string,
    last_saved_path: Option<string>
  )

  datatype CanvasEvent = ShowError(message: string) | ShowInfo(message: string)

  /** One emission of `state_changed` or `event_raised`. */
  datatype Signal = StateChanged(state: CanvasCourseUiState) | Raised(event: CanvasEvent)

  const Prompt := "Enter a Canvas course ID to download."
  const NotConfigured := "Canvas not configured"
  const IdRequired := "Course ID is required."
  const IdNotANumber := "Course ID must be a number."
  const Downloading := "Downloading course data..."

  class CanvasCourseViewModel {
    /** The use case's `execute`, as the outcome it gives for each request. */
    const useCase: DownloadRequest -> Result<DownloadResult, PyError>
    const outputDir: string
    const canvasConfigured: bool

    var state: CanvasCourseUiState
    /** Every signal emitted so far, in order. */
    ghost var signals: seq<Signal>
    /** Every request handed to the use case so far, in order. */
    ghost var requests: seq<DownloadRequest>

    /**
      `__init__`: no course id, idle, nothing saved; the prompt, or a
      critical "Canvas not configured" when Canvas is not configured.
    */
    constructor(useCase: DownloadRequest -> Result<DownloadResult, PyError>, outputDir: string, canvasConfigured: bool)
      ensures this.useCase == useCase && this.outputDir == outputDir && this.canvasConfigured == canvasConfigured
      ensures state.course_id == "" && !state.is_busy && state.last_saved_path == None
      ensures canvasConfigured ==> state.status == Unknown && state.message == Prompt
      ensures !canvasConfigured ==> state.status == Critical && state.message == NotConfigured
      ensures signals == [] && requests == []
    {
      this.useCase := useCase;
      this.outputDir := outputDir;
      this.canvasConfigured := canvasConfigured;
      var message, status := Prompt, Unknown;
      if !canvasConfigured {
        message, status := NotConfigured, Critical;
      }
      state := CanvasCourseUiState("", false, status, message, None);
      signals := [];
      requests := [];
    }

    /** `set_course_id`: stores the stripped text; the same id as before changes and emits nothing. */
    method SetCourseId(value: string)
      modifies this
      ensures requests == old(requests)
      ensures Strip(value) == old(state.course_id) ==> state == old(state) && signals == old(signals)
      ensures Strip(value) != old(state.course_id) ==>
                state == old(state).(course_id := Strip(value)) && signals == old(signals) + [StateChanged(state)]
    {
      var text := Strip(value);
      if text == state.course_id {
        return;
      }
      state := state.(course_id := text);
      signals := signals + [StateChanged(state)];
    }

    /** `_set_busy`. */
    method SetBusy(status: Status, message: string)
      modifies this
      ensures state == old(state).(is_busy := true, status := status, message := message)
      ensures signals == old(signals) + [StateChanged(state)] && requests == old(requests)
    {
      state := state.(is_busy := true, status := status, message := message);
      signals := signals + [StateChanged(state)];
    }

    /** `_set_idle`. */
    method SetIdle(status: Status, message: string, savedPath: Option<string>)
      modifies this
      ensures state == old(state).(is_busy := false, status := status, message := message, last_saved_path := savedPath)
      ensures signals == old(signals) + [StateChanged(state)] && requests == old(requests)
    {
      state := state.(is_busy := false, status := status, message := message, last_saved_path := savedPath);
      signals := signals + [StateChanged(state)];
    }

    /** `_emit_error`: idle and critical with the message, the saved path kept, then a `ShowError`. */
    method EmitError(message: string)
      modifies this
      ensures state == old(state).(is_busy := false, status := Critical, message := message)
      ensures signals == old(signals) + [StateChanged(state), Raised(ShowError(message))]
      ensures requests == old(requests)
    {
      SetIdle(Critical, message, state.last_saved_path);
      signals := signals + [Raised(ShowError(message))];
    }

    /**
      `download_course`. Busy: nothing happens. Not configured, no id, or an
      id that is not an integer: an error without calling the use case.
      Otherwise busy while the use case runs once, then idle: nominal with
      its message and path and a `ShowInfo`, or critical with the exception
      text, no saved path and a `ShowError`. The course id never changes.
    */
    method DownloadCourse()
      modifies this
      ensures state.course_id == old(state.course_id)
      ensures !old(state.is_busy) ==> !state.is_busy
      ensures old(state.is_busy) ==> state == old(state) && signals == old(signals) && requests == old(requests)
      ensures !old(state.is_busy) && !canvasConfigured ==>
                && state == old(state).(status := Critical, message := NotConfigured)
                && signals == old(signals) + [StateChanged(state), Raised(ShowError(NotConfigured))]
                && requests == old(requests)
      ensures !old(state.is_busy) && canvasConfigured && old(state.course_id) == "" ==>
                && state == old(state).(status := Critical, message := IdRequired)
                && signals == old(signals) + [StateChanged(state), Raised(ShowError(IdRequired))]
                && requests == old(requests)
      ensures !old(state.is_busy) && canvasConfigured && old(state.course_id) != ""
              && ParseInt(old(state.course_id)).None? ==>
                && state == old(state).(status := Critical, message := IdNotANumber)
                && signals == old(signals) + [StateChanged(state), Raised(ShowError(IdNotANumber))]
                && requests == old(requests)
      ensures !old(state.is_busy) && canvasConfigured && old(state.course_id) != ""
              && ParseInt(old(state.course_id)).Some? ==>
                var request := DownloadRequest(ParseInt(old(state.course_id)).value, outputDir);
                var busy := old(state).(is_busy := true, status := Warning, message := Downloading);
                && requests == old(requests) + [request]
                && match useCase(request)
                   case Err(e) =>
                     && state == busy.(is_busy := false, status := Critical, message := e.text, last_saved_path := None)
                     && signals == old(signals) + [StateChanged(busy), StateChanged(state), Raised(ShowError(e.text))]
                   case Ok(result) =>
                     && state == busy.(is_busy := false, status := Nominal, message := result.message,
                                       last_saved_path := Some(result.saved_path))
                     && signals == old(signals) + [StateChanged(busy), StateChanged(state), Raised(ShowInfo(result.message))]
    {
      if state.is_busy {
        return;
      }
      if !canvasConfigured {
        EmitError(NotConfigured);
        return;
      }
      if state.course_id == "" {
        EmitError(IdRequired);
        return;
      }
      var parsed := ParseInt(state.course_id);
      if parsed.None? {
        EmitError(IdNotANumber);
        return;
      }
      SetBusy(Warning, Downloading);
      var request := DownloadRequest(parsed.value, outputDir);
      requests := requests + [request];
      var outcome := useCase(request);
      if outcome.Err? {
        SetIdle(Critical, outcome.error.text, None);
        signals := signals + [Raised(ShowError(outcome.error.text))];
        return;
      }
      SetIdle(Nominal, outcome.value.message, Some(outcome.value.saved_path));
      signals := signals + [Raised(ShowInfo(outcome.value.message))];
    }
  }
}
