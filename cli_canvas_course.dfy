/**
  The `canvas-course download` command handler
  (cli/commands/canvas_course.py): parse the id, call the download use case
  and turn its outcome into an exit code and the lines printed.
*/
module CanvasCourseCli {
  import opened Wrappers
  import opened Text
  import opened PyValues
  import opened DownloadCourse

  /** What the handler did: its exit code, the lines it printed and logged, and the request it made, if any. */
  datatype Handled = Handled(code: int, printed: seq<string>, logged: seq<string>, request: Option<DownloadRequest>)

  /**
    `handle_canvas_course_download`, with the `--course-id` and
    `--output-dir` argument strings and the use case's `execute`.
  */
  function HandleDownload(courseIdArg: string, outputDir: string, execute: DownloadRequest -> Result<DownloadResult, PyError>)
    : (h: Handled)
    ensures h.code in {0, 1, 2}
    ensures h.request.Some? <==> ParseInt(courseIdArg).Some? && ParseInt(courseIdArg).value > 0
    ensures h.request.Some? ==> h.request.value == DownloadRequest(ParseInt(courseIdArg).value, outputDir)
    ensures h.code == 0 <==> h.request.Some? && execute(h.request.value).Ok?
    ensures h.code == 1 <==> h.request.Some? && execute(h.request.value).Err?
                             && execute(h.request.value).error.kind != ValueError
    ensures h.code == 0 ==> h.printed == [execute(h.request.value).value.message]
    ensures |h.printed| == 1
    ensures h.logged != [] <==> h.code == 1
  {
    match ParseInt(courseIdArg)
    case None => Handled(2, ["course_id must be a valid integer."], [], None)
    case Some(courseId) =>
      if courseId <= 0 then Handled(2, ["course_id must be greater than zero."], [], None)
      else
        var request := DownloadRequest(courseId, outputDir);
        match execute(request)
        case Err(e) =>
          if e.kind == ValueError then Handled(2, ["Invalid request: " + e.text], [], Some(request))
          else Handled(1, ["Failed to download course: " + e.text],
                       ["Canvas course download failed: " + e.text], Some(request))
        case Ok(result) => Handled(0, [result.message], [], Some(request))
  }
}
