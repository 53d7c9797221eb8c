/**
  The HTTP Canvas client (infra/canvas/http_canvas_client.py): URL joining,
  the request headers, and the mapping of the decoded course and module
  JSON to the course DTOs (app/dtos/canvas_course.py). The transport itself
  (a GET that yields decoded JSON or raises) is a function parameter.
*/
module CanvasClient {
  import opened Wrappers
  import opened Text
  import opened PyValues

  /** `CanvasCourse`; `course_code` is whatever the JSON held under that key (`None` when absent). */
  datatype CanvasCourse = CanvasCourse(id: int, name: string, course_code: Json)

  datatype CanvasModule = CanvasModule(id: int, name: string)

  datatype CanvasCourseData = CanvasCourseData(course: CanvasCourse, modules: seq<CanvasModule>)

  datatype CanvasApiConfig = CanvasApiConfig(base_url: string, token: string)

  /** A GET request as `_get` issues it. */
  datatype HttpRequest = HttpRequest(url: string, headers: map<string, string>)

  // ---------------------------------------------------------------------
  // URLs and headers

  predicate IsAbsolute(path: string) {
    StartsWith(path, "http://") || StartsWith(path, "https://")
  }

  /** `_build_url`. */
  function BuildUrl(base: string, path: string): string {
    if IsAbsolute(path) then path
    else TrimRightChar(base, '/') + "/" + TrimLeftChar(path, '/')
  }

  /**
    `url` is `base` cut at `i`, one slash, and `path` from `j`, where only
    slashes are cut off at the end of the base and at the start of the path,
    and no slash is left next to the inserted one.
  */
  predicate JoinedAt(base: string, path: string, url: string, i: int, j: int) {
    && 0 <= i <= |base| && 0 <= j <= |path|
    && url == base[..i] + "/" + path[j..]
    && (forall k :: i <= k < |base| ==> base[k] == '/')
    && (i > 0 ==> base[i - 1] != '/')
    && (forall k :: 0 <= k < j ==> path[k] == '/')
    && (j < |path| ==> path[j] != '/')
  }

  /** An absolute URL is used as is; any other path is joined to the base with exactly one slash. */
  lemma BuildUrlSpec(base: string, path: string)
    ensures IsAbsolute(path) ==> BuildUrl(base, path) == path
    ensures !IsAbsolute(path) ==> exists i, j :: JoinedAt(base, path, BuildUrl(base, path), i, j)
  {
    if !IsAbsolute(path) {
      TrimRightCharSpec(base, '/');
      TrimLeftCharSpec(path, '/');
      var i, j := |TrimRightChar(base, '/')|, |path| - |TrimLeftChar(path, '/')|;
      assert JoinedAt(base, path, BuildUrl(base, path), i, j);
    }
  }

  /** Any number of trailing slashes on the base and leading slashes on the path give the same URL. */
  lemma BuildUrlSlashInsensitive(base: string, path: string, m: nat, n: nat)
    requires !IsAbsolute(path)
    ensures BuildUrl(base + Repeat('/', m), Repeat('/', n) + path) == BuildUrl(base, path)
  {
    var p := Repeat('/', n) + path;
    if n > 0 {
      assert p[0] == '/';
      assert !StartsWith(p, "http://") && !StartsWith(p, "https://");
    } else {
      assert p == path;
    }
    TrimRightCharPadding(base, '/', m);
    TrimLeftCharPadding(path, '/', n);
  }

  /** The headers of every request: the bearer token (section 2.1 of RFC 6750) and JSON accept. */
  function Headers(token: string): map<string, string> {
    map["Authorization" := "Bearer " + token, "Accept" := "application/json"]
  }

  /** The token of a `Bearer` credential, if `h` is one. */
  function BearerToken(h: string): Option<string> {
    if StartsWith(h, "Bearer ") then Some(h[7..]) else None
  }

  /** The Authorization header carries exactly the configured token. */
  lemma HeadersCarryToken(token: string)
    ensures "Authorization" in Headers(token) && BearerToken(Headers(token)["Authorization"]) == Some(token)
    ensures "Accept" in Headers(token) && Headers(token)["Accept"] == "application/json"
  {
    var h := "Bearer " + token;
    assert h[..7] == "Bearer " && h[7..] == token;
  }

  function CoursePath(courseId: int): string {
    "/api/v1/courses/" + IntToString(courseId)
  }

  function ModulesPath(courseId: int): string {
    CoursePath(courseId) + "/modules"
  }

  /** `_get(path)`'s request: the joined URL and the headers. */
  function Get(config: CanvasApiConfig, path: string): HttpRequest {
    HttpRequest(BuildUrl(config.base_url, path), Headers(config.token))
  }

  /** A path that starts with a slash is not an absolute URL. */
  lemma SlashedNotAbsolute(path: string)
    requires path != [] && path[0] == '/'
    ensures !IsAbsolute(path)
  {
    if |path| >= 7 {
      assert path[..7][0] == '/';
    }
  }

  /** A base without a trailing slash and a path with exactly one leading slash are joined as they are. */
  lemma JoinPlain(base: string, path: string)
    requires base != [] ==> base[|base| - 1] != '/'
    requires |path| >= 2 && path[0] == '/' && path[1] != '/'
    ensures BuildUrl(base, path) == base + path
  {
    SlashedNotAbsolute(path);
    var rest := path[1..];
    assert TrimLeftChar(rest, '/') == rest;
    assert TrimLeftChar(path, '/') == rest;
    assert TrimRightChar(base, '/') == base;
    assert path == "/" + rest;
  }

  /** Both API paths start with "/a". */
  lemma ApiPathsShape(courseId: int)
    ensures |CoursePath(courseId)| >= 2 && CoursePath(courseId)[0] == '/' && CoursePath(courseId)[1] == 'a'
    ensures |ModulesPath(courseId)| >= 2 && ModulesPath(courseId)[0] == '/' && ModulesPath(courseId)[1] == 'a'
  {
    var c := CoursePath(courseId);
    assert c[..16] == "/api/v1/courses/";
    assert ModulesPath(courseId)[..2] == c[..2];
  }

  /**
    With a base URL without a trailing slash, the course is fetched from the
    base followed by `/api/v1/courses/<id>`.
  */
  lemma CourseUrl(config: CanvasApiConfig, courseId: int)
    requires config.base_url != [] ==> config.base_url[|config.base_url| - 1] != '/'
    ensures Get(config, CoursePath(courseId)).url == config.base_url + CoursePath(courseId)
  {
    ApiPathsShape(courseId);
    JoinPlain(config.base_url, CoursePath(courseId));
  }

  /** ... and its modules from the base followed by `/api/v1/courses/<id>/modules`. */
  lemma ModulesUrl(config: CanvasApiConfig, courseId: int)
    requires config.base_url != [] ==> config.base_url[|config.base_url| - 1] != '/'
    ensures Get(config, ModulesPath(courseId)).url == config.base_url + CoursePath(courseId) + "/modules"
  {
    ApiPathsShape(courseId);
    JoinPlain(config.base_url, ModulesPath(courseId));
  }

  // ---------------------------------------------------------------------
  // JSON to DTOs

  /** `str(v)` for a value chosen as a name; a list or dict is outside this model. */
  function NameText(v: Json): (r: Result<string, PyError>)
    ensures r.Ok? <==> !v.JArray? && !v.JObject?
    ensures r.Ok? ==> Some(r.value) == PyStr(v)
  {
    match PyStr(v)
    case Some(s) => Ok(s)
    case None => Err(PyError(OtherError, "unsupported name value"))
  }

  /**
    The `CanvasCourse` built from the course JSON: `int` of its `id`, the
    first truthy of `name` and `course_code` (else ""), and `course_code`.
  */
  function CourseOf(j: Json): (r: Result<CanvasCourse, PyError>)
    ensures !j.JObject? ==> r == Err(PyError(TypeError, ""))
    ensures j.JObject? && "id" !in j.fields ==> r == Err(MissingKey("id"))
    ensures j.JObject? && "id" in j.fields && PyInt(j.fields["id"]).Err? ==>
              r == Err(PyInt(j.fields["id"]).error)
    ensures r.Ok? ==> j.JObject? && "id" in j.fields && Ok(r.value.id) == PyInt(j.fields["id"])
                      && r.value.course_code == GetOrNull(j.fields, "course_code")
  {
    match j
    case JObject(m) =>
      if "id" !in m then Err(MissingKey("id"))
      else
        var id :- PyInt(m["id"]);
        var name, code := GetOrNull(m, "name"), GetOrNull(m, "course_code");
        var nameText :- NameText(if Truthy(name) then name else if Truthy(code) then code else JStr(""));
        Ok(CanvasCourse(id, nameText, code))
    case _ => Err(PyError(TypeError, ""))
  }

  /**
    One `CanvasModule`: `int` of its `id`, and its `name` when truthy,
    else "Module " followed by the raw `id` value.
  */
  function ModuleOf(j: Json): (r: Result<CanvasModule, PyError>)
    ensures !j.JObject? ==> r == Err(PyError(TypeError, ""))
    ensures j.JObject? && "id" !in j.fields ==> r == Err(MissingKey("id"))
    ensures j.JObject? && "id" in j.fields && PyInt(j.fields["id"]).Err? ==>
              r == Err(PyInt(j.fields["id"]).error)
    ensures r.Ok? ==> j.JObject? && "id" in j.fields && Ok(r.value.id) == PyInt(j.fields["id"])
  {
    match j
    case JObject(m) =>
      if "id" !in m then Err(MissingKey("id"))
      else
        var id :- PyInt(m["id"]);
        var name := GetOrNull(m, "name");
        if Truthy(name) then
          var nameText :- NameText(name);
          Ok(CanvasModule(id, nameText))
        else
          Ok(CanvasModule(id, "Module " + PyStr(m["id"]).value))
    case _ => Err(PyError(TypeError, ""))
  }

  /**
    The list comprehension over the modules array: one module per element,
    in order, or the error of the first element that fails.
  */
  function MapModules(items: seq<Json>): (r: Result<seq<CanvasModule>, PyError>)
    ensures r.Ok? <==> forall i :: 0 <= i < |items| ==> ModuleOf(items[i]).Ok?
    ensures r.Ok? ==> |r.value| == |items|
                      && forall i :: 0 <= i < |items| ==> ModuleOf(items[i]) == Ok(r.value[i])
    ensures r.Err? ==> exists i :: && 0 <= i < |items| && ModuleOf(items[i]) == Err(r.error)
                                   && forall k :: 0 <= k < i ==> ModuleOf(items[k]).Ok?
  {
    if items == [] then Ok([])
    else
      var first := ModuleOf(items[0]);
      if first.Err? then Err(first.error)
      else
        var rest := MapModules(items[1..]);
        if rest.Err? then
          ghost var i :| && 0 <= i < |items[1..]| && ModuleOf(items[1..][i]) == Err(rest.error)
                         && forall k :: 0 <= k < i ==> ModuleOf(items[1..][k]).Ok?;
          assert ModuleOf(items[i + 1]) == Err(rest.error);
          Err(rest.error)
        else
          assert forall i :: 1 <= i < |items| ==> items[i] == items[1..][i - 1];
          Ok([first.value] + rest.value)
  }

  /**
    Iterating the decoded modules value: an array maps element by element;
    an empty string or dict iterates nothing; a non-empty one yields strings,
    whose `["id"]` is a TypeError, as is iterating `None`, a bool or an int.
  */
  function ModulesOf(j: Json): (r: Result<seq<CanvasModule>, PyError>)
    ensures j.JArray? ==> r == MapModules(j.items)
    ensures !j.JArray? ==> r == if j == JStr("") || j == JObject(map[]) then Ok([]) else Err(PyError(TypeError, ""))
  {
    match j
    case JArray(items) => MapModules(items)
    case JStr(s) => if s == [] then Ok([]) else Err(PyError(TypeError, ""))
    case JObject(m) => if m == map[] then Ok([]) else Err(PyError(TypeError, ""))
    case _ => Err(PyError(TypeError, ""))
  }

  /** The DTOs built from the two decoded responses: the course first, then the modules. */
  function ShapeCourseData(courseJson: Json, modulesJson: Json): Result<CanvasCourseData, PyError> {
    var course :- CourseOf(courseJson);
    var modules :- ModulesOf(modulesJson);
    Ok(CanvasCourseData(course, modules))
  }

  /**
    `fetch_course_data`: GET the course, GET its modules, then shape both;
    a transport failure is passed on before any shaping.
  */
  function FetchCourseData(config: CanvasApiConfig, courseId: int, transport: HttpRequest -> Result<Json, PyError>)
    : (r: Result<CanvasCourseData, PyError>)
    ensures var course := transport(Get(config, CoursePath(courseId)));
            course.Err? ==> r == Err(course.error)
    ensures var course, modules := transport(Get(config, CoursePath(courseId))), transport(Get(config, ModulesPath(courseId)));
            course.Ok? && modules.Err? ==> r == Err(modules.error)
    ensures var course, modules := transport(Get(config, CoursePath(courseId))), transport(Get(config, ModulesPath(courseId)));
            course.Ok? && modules.Ok? ==> r == ShapeCourseData(course.value, modules.value)
  {
    var courseJson :- transport(Get(config, CoursePath(courseId)));
    var modulesJson :- transport(Get(config, ModulesPath(courseId)));
    ShapeCourseData(courseJson, modulesJson)
  }

  /**
    When the course request fails, the modules request plays no part: any
    two transports that answer the course request alike give the same result.
  */
  lemma CourseFailureShortCircuits(config: CanvasApiConfig, courseId: int,
                                   t1: HttpRequest -> Result<Json, PyError>, t2: HttpRequest -> Result<Json, PyError>)
    requires t1(Get(config, CoursePath(courseId))) == t2(Get(config, CoursePath(courseId)))
    requires t1(Get(config, CoursePath(courseId))).Err?
    ensures FetchCourseData(config, courseId, t1) == FetchCourseData(config, courseId, t2)
    ensures FetchCourseData(config, courseId, t1) == Err(t1(Get(config, CoursePath(courseId))).error)
  {
  }

  // ---------------------------------------------------------------------
  // Properties of the mapping

  /** `k` is absent, `None` or a string: a field a name can be taken from. */
  predicate TextOrAbsent(m: map<string, Json>, k: string) {
    k !in m || m[k].JNull? || m[k].JStr?
  }

  /** The string under `k`, "" when absent or `None`. */
  function TextField(m: map<string, Json>, k: string): string {
    if k in m && m[k].JStr? then m[k].s else ""
  }

  /** The course name is `name` if non-empty, else `course_code` if non-empty, else "". */
  lemma CourseNameFallback(m: map<string, Json>)
    requires "id" in m && PyInt(m["id"]).Ok?
    requires TextOrAbsent(m, "name") && TextOrAbsent(m, "course_code")
    ensures CourseOf(JObject(m)).Ok?
    ensures CourseOf(JObject(m)).value.name ==
              if TextField(m, "name") != "" then TextField(m, "name")
              else if TextField(m, "course_code") != "" then TextField(m, "course_code")
              else ""
  {
  }

  /** A module whose name is missing, `None` or empty is called "Module <id>". */
  lemma ModuleNameFallback(m: map<string, Json>, id: int)
    requires "id" in m && m["id"] == JInt(id)
    requires TextOrAbsent(m, "name")
    ensures ModuleOf(JObject(m)).Ok? && ModuleOf(JObject(m)).value.id == id
    ensures ModuleOf(JObject(m)).value.name ==
              if TextField(m, "name") != "" then TextField(m, "name") else "Module " + IntToString(id)
  {
  }

  /** A successful fetch has one module per element of the modules array, in the same order. */
  lemma ModulesKeepOrder(courseJson: Json, items: seq<Json>)
    requires ShapeCourseData(courseJson, JArray(items)).Ok?
    ensures var d := ShapeCourseData(courseJson, JArray(items)).value;
            && |d.modules| == |items|
            && forall i :: 0 <= i < |items| ==> ModuleOf(items[i]) == Ok(d.modules[i])
  {
  }
}
