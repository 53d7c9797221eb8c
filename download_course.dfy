/**
  The download use case (app/usecases/canvas_download_course.py): check the
  course id, create the output directory, fetch the course through the
  client, write its JSON payload and report where it went.
*/
module DownloadCourse {
  import opened Wrappers
  import opened Text
  import opened PyValues
  import opened CanvasClient

  /** `DownloadCourseDataRequest`; the output directory is a path string. */
  datatype DownloadRequest = DownloadRequest(course_id: int, output_dir: string)

  /** `DownloadCourseDataResult`. */
  datatype DownloadResult = DownloadResult(saved_path: string, message: string)

  const GuardMessage := "course_id must be greater than zero"

  // ---------------------------------------------------------------------
  // Paths

  /** The saved file's name for a course id. */
  function FileName(courseId: int): string {
    "canvas_course_" + IntToString(courseId) + ".json"
  }

  /** The course id a saved file's name encodes, if it has that form. */
  function CourseIdOfFileName(name: string): Option<int> {
    if |name| >= 19 && name[..14] == "canvas_course_" && name[|name| - 5..] == ".json"
    then ParseInt(name[14..|name| - 5])
    else None
  }

  /** The file name gives back the course id it was built from, so distinct courses go to distinct files. */
  lemma FileNameRoundTrip(courseId: int)
    ensures CourseIdOfFileName(FileName(courseId)) == Some(courseId)
  {
    var digits := IntToString(courseId);
    var name := FileName(courseId);
    assert |digits| >= 1 by {
      if courseId < 0 { assert digits == "-" + NatToString(-courseId); }
    }
    assert name[..14] == "canvas_course_";
    assert name[|name| - 5..] == ".json";
    assert name[14..|name| - 5] == digits;
    IntRoundTrip(courseId);
  }

  /**
    `output_dir / name` on a POSIX path: "" and "." contribute nothing, the
    root stays "/", and trailing slashes of the directory are dropped.
  */
  function JoinPath(dir: string, name: string): (r: string)
    ensures |name| <= |r| && r[|r| - |name|..] == name
    ensures dir == "" || dir == "." ==> r == name
    ensures dir != "" && TrimRightChar(dir, '/') == "" ==> r == "/" + name
    ensures TrimRightChar(dir, '/') == "." ==> r == name
    ensures TrimRightChar(dir, '/') != "" && TrimRightChar(dir, '/') != "." ==>
              r == TrimRightChar(dir, '/') + "/" + name
  {
    var d := TrimRightChar(dir, '/');
    if d == "" && dir != "" then "/" + name
    else if d == "" || d == "." then name
    else d + "/" + name
  }

  /**
    A directory other than "", "." and the root, written without a trailing
    slash, is the path's prefix: the file lies directly inside it.
  */
  lemma JoinPathPlain(dir: string, name: string)
    requires dir != "" && dir != "." && dir[|dir| - 1] != '/'
    ensures JoinPath(dir, name) == dir + "/" + name
  {
    assert TrimRightChar(dir, '/') == dir;
  }

  /** All-slash directories are the root. */
  lemma JoinPathRoot(n: nat, name: string)
    requires n > 0
    ensures JoinPath(Repeat('/', n), name) == "/" + name
  {
    TrimRightCharPadding([], '/', n);
    assert [] + Repeat('/', n) == Repeat('/', n);
  }

  /** A directory written with a trailing slash names the same directory. */
  lemma JoinPathTrailingSlash(dir: string, name: string, n: nat)
    requires dir != []
    ensures JoinPath(dir + Repeat('/', n), name) == JoinPath(dir, name)
  {
    TrimRightCharPadding(dir, '/', n);
  }

  // ---------------------------------------------------------------------
  // The payload

  /** `asdict(course)`. */
  function CourseJson(c: CanvasCourse): Json {
    JObject(map["id" := JInt(c.id), "name" := JStr(c.name), "course_code" := c.course_code])
  }

  /** `asdict(module)`. */
  function ModuleJson(m: CanvasModule): Json {
    JObject(map["id" := JInt(m.id), "name" := JStr(m.name)])
  }

  function ModulesJson(ms: seq<CanvasModule>): (r: seq<Json>)
    ensures |r| == |ms| && forall i :: 0 <= i < |ms| ==> r[i] == ModuleJson(ms[i])
  {
    if ms == [] then [] else [ModuleJson(ms[0])] + ModulesJson(ms[1..])
  }

  /**
    `_serialize_course_data`: exactly the keys "course" and "modules", the
    modules in their order.
  */
  function Serialize(d: CanvasCourseData): (r: Json)
    ensures r.JObject? && r.fields.Keys == {"course", "modules"}
    ensures r.fields["modules"].JArray? && |r.fields["modules"].items| == |d.modules|
  {
    JObject(map["course" := CourseJson(d.course), "modules" := JArray(ModulesJson(d.modules))])
  }

  /** Reads a course back from its `asdict` form. */
  function DecodeCourse(j: Json): Option<CanvasCourse> {
    if j.JObject? && "id" in j.fields && "name" in j.fields && "course_code" in j.fields
       && j.fields["id"].JInt? && j.fields["name"].JStr?
    then Some(CanvasCourse(j.fields["id"].i, j.fields["name"].s, j.fields["course_code"]))
    else None
  }

  /** Reads a module back from its `asdict` form. */
  function DecodeModule(j: Json): Option<CanvasModule> {
    if j.JObject? && "id" in j.fields && "name" in j.fields && j.fields["id"].JInt? && j.fields["name"].JStr?
    then Some(CanvasModule(j.fields["id"].i, j.fields["name"].s))
    else None
  }

  function DecodeModules(items: seq<Json>): Option<seq<CanvasModule>> {
    if items == [] then Some([])
    else
      match DecodeModule(items[0])
      case None => None
      case Some(m) =>
        match DecodeModules(items[1..])
        case None => None
        case Some(ms) => Some([m] + ms)
  }

  /** Reads the course data back from a payload. */
  function Deserialize(j: Json): Option<CanvasCourseData> {
    if j.JObject? && "course" in j.fields && "modules" in j.fields && j.fields["modules"].JArray? then
      match DecodeCourse(j.fields["course"])
      case None => None
      case Some(c) =>
        match DecodeModules(j.fields["modules"].items)
        case None => None
        case Some(ms) => Some(CanvasCourseData(c, ms))
    else None
  }

  lemma {:induction false} ModulesRoundTrip(ms: seq<CanvasModule>)
    ensures DecodeModules(ModulesJson(ms)) == Some(ms)
  {
    if ms != [] {
      ModulesRoundTrip(ms[1..]);
      assert ModulesJson(ms)[1..] == ModulesJson(ms[1..]);
      assert ms == [ms[0]] + ms[1..];
    }
  }

  /** The payload holds the whole course data: reading it back gives what was fetched. */
  lemma SerializeRoundTrip(d: CanvasCourseData)
    ensures Deserialize(Serialize(d)) == Some(d)
  {
    ModulesRoundTrip(d.modules);
  }

  // ---------------------------------------------------------------------
  // The use case

  /** The directories and files the use case creates, as far as this model sees them. */
  class FileSystem {
    var dirs: set<string>
    var files: map<string, Json>

    constructor(dirs: set<string>, files: map<string, Json>)
      ensures this.dirs == dirs && this.files == files
    {
      this.dirs := dirs;
      this.files := files;
    }
  }

  /** The path the course data is written to. */
  function SavedPath(req: DownloadRequest, d: CanvasCourseData): string {
    JoinPath(req.output_dir, FileName(d.course.id))
  }

  function SavedMessage(d: CanvasCourseData, path: string): string {
    "Canvas course '" + d.course.name + "' saved to " + path
  }

  class DownloadCourseDataUseCase {
    /** The injected client's `fetch_course_data`. */
    const client: int -> Result<CanvasCourseData, PyError>
    /** The course ids the client has been asked for so far, in call order. */
    ghost var fetched: seq<int>

    constructor(client: int -> Result<CanvasCourseData, PyError>)
      ensures this.client == client && fetched == []
    {
      this.client := client;
      fetched := [];
    }

    /**
      `execute`: a non-positive id is a ValueError before anything happens;
      otherwise the directory is created, the client is called once with the
      requested id, and on success the payload is written under the fetched
      course's id. A client failure is passed on and writes nothing.
    */
    method Execute(req: DownloadRequest, fs: FileSystem) returns (r: Result<DownloadResult, PyError>)
      modifies this, fs
      ensures req.course_id <= 0 ==>
                && r == Err(PyError(ValueError, GuardMessage)) && fetched == old(fetched)
                && fs.dirs == old(fs.dirs) && fs.files == old(fs.files)
      ensures req.course_id > 0 ==>
                fetched == old(fetched) + [req.course_id] && fs.dirs == old(fs.dirs) + {req.output_dir}
      ensures req.course_id > 0 && client(req.course_id).Err? ==>
                r == Err(client(req.course_id).error) && fs.files == old(fs.files)
      ensures req.course_id > 0 && client(req.course_id).Ok? ==>
                var d := client(req.course_id).value;
                var path := SavedPath(req, d);
                && r == Ok(DownloadResult(path, SavedMessage(d, path)))
                && fs.files == old(fs.files)[path := Serialize(d)]
    {
      if req.course_id <= 0 {
        return Err(PyError(ValueError, GuardMessage));
      }
      fs.dirs := fs.dirs + {req.output_dir};
      var data := client(req.course_id);
      fetched := fetched + [req.course_id];
      if data.Err? {
        return Err(data.error);
      }
      var d := data.value;
      var payload := Serialize(d);
      var path := JoinPath(req.output_dir, FileName(d.course.id));
      fs.files := fs.files[path := payload];
      r := Ok(DownloadResult(path, "Canvas course '" + d.course.name + "' saved to " + path));
    }
  }

  /** The file written is named after the fetched course's id, which may differ from the requested one. */
  lemma SavedUnderFetchedId(req: DownloadRequest, d: CanvasCourseData)
    ensures var p := SavedPath(req, d);
            |FileName(d.course.id)| <= |p| && CourseIdOfFileName(p[|p| - |FileName(d.course.id)|..]) == Some(d.course.id)
  {
    FileNameRoundTrip(d.course.id);
  }
}
