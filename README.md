# GAVEL core, modelled in Dafny

GAVEL is a PyQt desktop shell for course administration. It has a navigation drawer over stacked pages, page view-models, a Canvas LMS client, a "download course" use case with a CLI front end, and a reader for Canvas consent-form CSV exports. This project models the parts of it that hold logic and proves what they promise. To check it, verify every `.dfy` file in one `dafny verify` call; the modules refer to each other by `import`, without `include`.

- **Consent-form reader** (`consent_forms.dfy`, module `ConsentForms`). Resolves the two quiz columns by substring. Maps each CSV row to a `ConsentFormEntry`. The row loop is a method with loop invariants, specified by a per-row function.
- **Page registry** (`pages.dfy`, `Pages`). A class whose `pages` sequence is the insertion-ordered dict. `list_pages` is a stable sort by `(group, order)`, proved sorted, a permutation and stable. The `PageRegistry.get` singleton is modelled as a slot object.
- **Main window page cache** (`shell.dfy`, `Shell`). Pages are built lazily, at most once each, appended to the stacked widget and memoised.
- **Theme tokens and status styles** (`theme.dfy`, `status.dfy`). Token validation in check order, integer coercion, `sp(n)`, and the total map from `Status` to style.
- **Canvas client** (`canvas_client.dfy`, with `py_values.dfy` for Python's `int`, `str` and truthiness on JSON values). URL joining, the bearer header, and the JSON-to-DTO mapping with its name fallbacks.
- **Download use case and CLI** (`download_course.dfy`, `cli_canvas_course.dfy`).
  - The id guard, the directory and file effects on a small file-system object, the payload shape with a round trip, and the saved path and message.
  - The CLI's exit-code decision.
- **View-models** (`canvas_course_viewmodel.dfy`, `home_viewmodel.dfy`, `settings_viewmodel.dfy`). Classes whose `state` field each method replaces. The Qt signals they emit are an append-only ghost log.
- **Shared helpers.** `text.dfy` holds Python string behaviour:
  - `strip` over the exact `str.isspace` set;
  - `in`, `rstrip(c)` and `lstrip(c)`;
  - `int(text)` and `str(n)`;
  - `str` ordering.

  `wrappers.dfy` holds `Option` and `Result`.

How the code behaves in four places the model keeps:
- **Bad integer cells.** A bad `sis_id` or `attempt` cell fails with the builtin `ValueError` from `int()`; there is no dedicated parse-error type. The model's `ReadError` carries the row index and column only to say where the load stopped.
- **Missing columns.** The `sis_id`, `name` and `attempt` columns are looked up per row, so a file without them fails only at its first data row. A file whose header has exactly one column for each quiz question and no data rows loads as an empty list, even without `sis_id`, `name` or `attempt`.
- **No header.** A file with no header row leaves `reader.fieldnames` as None, and iterating it in `_find_column`'s comprehension is a `TypeError` (`NoHeader` in the model).
- **Saved file name.** The file is named after the id of the course the client *returned*, not the requested id (`SavedUnderFetchedId`).

## Model

| member | source | states |
|---|---|---|
| Text.StripSpec | IVE/GAVEL/infra/csv/canvas_consent_form_reader.py:41 | `str.strip`: the result has no whitespace at either end, and it is the input minus an all-whitespace prefix and suffix |
| Text.StripIdempotent | IVE/GAVEL/pages/canvas_course/viewmodel.py:71-72 | stripping an already stripped text changes nothing |
| Text.StripAbsorbsPadding | IVE/GAVEL/pages/home/viewmodel.py:63-64 | whitespace added around a text is removed along with its own, so the stripped value is unchanged |
| Text.StripEmptyIff | IVE/GAVEL/pages/home/viewmodel.py:63-65 | a stripped name is empty exactly when the name is all whitespace |
| Text.ContainsIff | IVE/GAVEL/infra/csv/canvas_consent_form_reader.py:13 | `substring in f` holds exactly when the substring occurs at some position of `f` |
| Text.IntRoundTrip | IVE/GAVEL/theme/tokens.py:16-20 | `int(str(n)) == n` for every integer |
| Text.IntToStringInjective | IVE/GAVEL/theme/tokens.py:16-17 | distinct integers have distinct decimal keys |
| Text.TrimRightCharSpec | IVE/GAVEL/infra/canvas/http_canvas_client.py:58 | `rstrip("/")` leaves a prefix that does not end in the character; everything dropped is that character |
| Text.TrimLeftCharSpec | IVE/GAVEL/infra/canvas/http_canvas_client.py:59 | `lstrip("/")` leaves a suffix that does not start with the character; everything dropped is that character |
| Text.TrimRightCharPadding | IVE/GAVEL/infra/canvas/http_canvas_client.py:58 | extra trailing copies of the character make no difference to `rstrip` |
| Text.TrimLeftCharPadding | IVE/GAVEL/infra/canvas/http_canvas_client.py:59 | extra leading copies of the character make no difference to `lstrip` |
| Text.StrLessTrichotomy | IVE/GAVEL/core/page_registry.py:39 | `str` order is total: of two different strings one is less |
| Text.StrLessTransitive | IVE/GAVEL/core/page_registry.py:39 | `str` order is transitive |
| Text.StrLessIrreflexive | IVE/GAVEL/core/page_registry.py:39 | no string is less than itself |
| ConsentForms.Matches | IVE/GAVEL/infra/csv/canvas_consent_form_reader.py:13 | the matches are exactly the headers that contain the substring |
| ConsentForms.MatchesInOrder | IVE/GAVEL/infra/csv/canvas_consent_form_reader.py:13 | the matches are the containing headers in header order, one per matching position, so a repeated header is listed as often as it occurs |
| ConsentForms.OneMatchIffUnique | IVE/GAVEL/infra/csv/canvas_consent_form_reader.py:13-14 | there is one match iff exactly one header position contains the substring |
| ConsentForms.FindColumn | IVE/GAVEL/infra/csv/canvas_consent_form_reader.py:8-19 | success iff exactly one header contains the substring, and the result is that header. Otherwise the error carries the substring, a count other than 1, and the list `Matches` of matching headers in header order |
| ConsentForms.OneMatchIsTheUniqueOne | IVE/GAVEL/infra/csv/canvas_consent_form_reader.py:19 | the single match returned is the header at the unique matching position |
| ConsentForms.ResolveColumns | IVE/GAVEL/infra/csv/canvas_consent_form_reader.py:35-36 | both columns are resolved from the header row before any row is read. Success iff there is a header row and both lookups succeed, with the two found columns. No header row is `NoHeader`; a failing name lookup is its error; a name found and a failing consent lookup is the consent lookup's error |
| ConsentForms.Cell | IVE/GAVEL/infra/csv/canvas_consent_form_reader.py:40-44 | `row[column]` is the cell when present, else a missing-cell error for that row and column |
| ConsentForms.IntCell | IVE/GAVEL/infra/csv/canvas_consent_form_reader.py:40-42 | an integer cell succeeds iff present and parsable, and its value is the parsed one |
| ConsentForms.EntryFields | IVE/GAVEL/infra/csv/canvas_consent_form_reader.py:39-45 | a row maps iff its five cells are present and both integer cells parse. The ids are the parsed integers, both names are stripped cells, and consent holds iff the cell is exactly "True" |
| ConsentForms.ConsentIsLiteralTrue | IVE/GAVEL/infra/csv/canvas_consent_form_reader.py:44 | "", "False", "TRUE", "true" and " True" all give no consent |
| ConsentForms.MapRows | IVE/GAVEL/infra/csv/canvas_consent_form_reader.py:38-45 | one entry per row in file order, with no deduplication, each the row's mapping. Otherwise the error of the first row that fails |
| ConsentForms.Load | IVE/GAVEL/infra/csv/canvas_consent_form_reader.py:29-47 | a column-resolution failure returns no entries. Otherwise the rows are mapped as `MapRows` states |
| Pages.InsertPermutes | IVE/GAVEL/core/page_registry.py:39 | inserting adds exactly the one spec |
| Pages.InsertSorted | IVE/GAVEL/core/page_registry.py:39 | inserting into a sorted list keeps it sorted by `(group, order)` |
| Pages.InsertStable | IVE/GAVEL/core/page_registry.py:39 | an inserted spec goes after every spec with the same key |
| Pages.SortPagesCorrect | IVE/GAVEL/core/page_registry.py:38-39 | the sort is non-decreasing in `(group, order)`, a permutation, and keeps equal keys in registration order |
| Pages.Lookup | IVE/GAVEL/core/page_registry.py:41-42 | a lookup finds a spec iff the id is registered, and the spec found carries that id |
| Pages.LookupRegistered | IVE/GAVEL/core/page_registry.py:33-36 | after adding a fresh id, looking it up gives exactly the added spec |
| Pages.LookupOthers | IVE/GAVEL/core/page_registry.py:33-36 | adding a spec leaves the lookup of every other id unchanged |
| Pages.PageRegistry.constructor | IVE/GAVEL/core/page_registry.py:24-25 | a new registry is empty |
| Pages.PageRegistry.Register | IVE/GAVEL/core/page_registry.py:33-36 | a duplicate id is an error with the source's message and leaves the table unchanged. A fresh id appends exactly that spec, after which `get_page` returns it. Every other id's lookup is unchanged, and ids stay distinct |
| Pages.PageRegistry.ListPages | IVE/GAVEL/core/page_registry.py:38-39 | sorted by `(group, order)`, a permutation of the registered specs, stable |
| Pages.PageRegistry.GetPage | IVE/GAVEL/core/page_registry.py:41-42 | the registered spec for the id, or a KeyError for an unknown id |
| Pages.RegistrySlot.Get | IVE/GAVEL/core/page_registry.py:27-31 | the first call creates an empty registry. Later calls return that same one |
| Pages.DistinctIdsCount | IVE/GAVEL/core/page_registry.py:33-36 | with the distinct ids that registration keeps, there are as many ids as registered specs |
| Shell.SpecTable | IVE/GAVEL/core/main_window.py:24-25 | the spec table has exactly the listed ids, each mapped to a listed spec with that id |
| Shell.SpecTableComplete | IVE/GAVEL/core/main_window.py:24-25 | built from `list_pages` over a registry with distinct ids, the spec table has exactly the registered ids, one entry per registered spec, so no page is lost |
| Shell.ConsistentBuild | IVE/GAVEL/core/main_window.py:50-55 | building a page that has a spec and no widget keeps the cache invariant: stack length equals cached ids, and each page is built at most once, in build order |
| Shell.MainWindow.EnsurePage | IVE/GAVEL/core/main_window.py:46-55 | a cached page returns its widget with no factory call and no stack growth. An unknown id is a KeyError with nothing changed. Otherwise one fresh widget from the spec's factory is cached and appended |
| Shell.MainWindow.BuildPage | IVE/GAVEL/core/main_window.py:50-55 | the spec's factory is called once. Its fresh widget is cached under the id and appended to the stack, and nothing else changes |
| Shell.MainWindow.NavigateTo | IVE/GAVEL/core/main_window.py:41-44 | succeeds iff the page is cached or has a spec. The current widget is then the page's cached widget, and the drawer selects the id when it has a button for it |
| Shell.MainWindow.constructor | IVE/GAVEL/core/main_window.py:24-39 | with pages, exactly the first page in `list_pages` order is built, made current and selected. With none, nothing is built |
| Theme.FirstMissing | IVE/GAVEL/theme/tokens.py:47-65 | none is missing iff every key is present. Otherwise the first absent key in list order |
| Theme.IntBlock | IVE/GAVEL/theme/tokens.py:68-69 | coercion succeeds iff every value is an integer, keeps the key set, and maps each key to `int` of its value |
| Theme.BlocksPresent | IVE/GAVEL/theme/tokens.py:47-49 | the block check passes iff all four blocks are present |
| Theme.LoadTokensSucceeds | IVE/GAVEL/theme/tokens.py:44-72 | a load succeeds iff every block and required key is present and spacing and shape coerce. Color and typography then pass through unchanged, and spacing and shape keep their keys with integer values |
| Theme.MissingBlockFirst | IVE/GAVEL/theme/tokens.py:47-49 | any absent block is reported before any key, and the report names the first absent block |
| Theme.MissingKeyOrder | IVE/GAVEL/theme/tokens.py:51-65 | a missing key is reported for the first block in the order color, spacing, shape, typography, naming that block's first absent key |
| Theme.Sp | IVE/GAVEL/theme/tokens.py:16-20 | `sp(n)` succeeds iff `str(n)` is a spacing key, and then is the value under that key. Otherwise a missing-spacing error naming `str(n)` |
| Theme.SpDefinedAfterLoad | IVE/GAVEL/theme/tokens.py:55-57 | after a successful load, `sp(n)` succeeds for n in 0, 4, 8, 12, 16, 24, 32 |
| StatusStyles.GetStatusStyle | IVE/GAVEL/core/status.py:24-34 | succeeds iff the status's color token exists. The style is the status's label, the "●" icon and that token's color. Otherwise a KeyError for the token |
| StatusStyles.ColorKeyIsPrefixedValue | IVE/GAVEL/core/status.py:24-34 | the color token is `"status_" + status.value` |
| StatusStyles.LabelIsCapitalizedValue | IVE/GAVEL/core/status.py:24-34 | each label is the status's value with its first letter capitalised |
| StatusStyles.StyleInjective | IVE/GAVEL/core/status.py:24-34 | distinct statuses have distinct labels and distinct color tokens |
| StatusStyles.StyleTotalAfterLoad | IVE/GAVEL/core/status.py:24-34 | with tokens from a successful load, every status has a style |
| PyValues.PyInt | IVE/GAVEL/infra/canvas/http_canvas_client.py:28 | `int(v)` succeeds iff `v` is an int, a bool, or a string that parses. An int is itself, a bool 1 or 0, and a string its parsed value. Otherwise a ValueError for strings and a TypeError for the rest |
| PyValues.PyStr | IVE/GAVEL/infra/canvas/http_canvas_client.py:29 | `str(v)` of a scalar is defined: a string is its own text, an integer its decimal text, a bool "True" or "False", and null "None" |
| PyValues.PyStrOfInt | IVE/GAVEL/infra/canvas/http_canvas_client.py:36 | `int(str(n))` gives back an integer id |
| CanvasClient.BuildUrlSpec | IVE/GAVEL/infra/canvas/http_canvas_client.py:55-60 | an absolute `http://` or `https://` path is returned unchanged. Otherwise: the base up to its trailing slashes, one "/", then the path after its leading slashes |
| CanvasClient.BuildUrlSlashInsensitive | IVE/GAVEL/infra/canvas/http_canvas_client.py:58-59 | any number of trailing slashes on the base and leading slashes on the path give the same URL |
| CanvasClient.HeadersCarryToken | IVE/GAVEL/infra/canvas/http_canvas_client.py:47-50 | the Authorization header is a bearer credential whose token is exactly the configured one, and Accept is JSON |
| CanvasClient.JoinPlain | IVE/GAVEL/infra/canvas/http_canvas_client.py:58-60 | a base with no trailing slash and a path with exactly one leading slash are simply concatenated |
| CanvasClient.CourseUrl | IVE/GAVEL/infra/canvas/http_canvas_client.py:24 | with a base URL that has no trailing slash, the course is requested from the base followed by `/api/v1/courses/<id>` |
| CanvasClient.ModulesUrl | IVE/GAVEL/infra/canvas/http_canvas_client.py:25 | with such a base, the modules are requested from the base followed by `/api/v1/courses/<id>/modules` |
| CanvasClient.NameText | IVE/GAVEL/infra/canvas/http_canvas_client.py:29 | the name text is `str` of a scalar value |
| CanvasClient.CourseOf | IVE/GAVEL/infra/canvas/http_canvas_client.py:27-31 | a non-object is a TypeError, a missing "id" a KeyError, and a bad id `int()`'s error. On success the id is `int(id)` and `course_code` the raw value, or None |
| CanvasClient.CourseNameFallback | IVE/GAVEL/infra/canvas/http_canvas_client.py:29 | the course name is `name` if non-empty, else `course_code` if non-empty, else "" |
| CanvasClient.ModuleOf | IVE/GAVEL/infra/canvas/http_canvas_client.py:34-37 | the same error cases as a course. On success the id is `int(id)` |
| CanvasClient.ModuleNameFallback | IVE/GAVEL/infra/canvas/http_canvas_client.py:36 | a module with a missing, None or empty name is called "Module <id>" |
| CanvasClient.MapModules | IVE/GAVEL/infra/canvas/http_canvas_client.py:33-39 | succeeds iff every element maps. Then one module per element, in order. Otherwise the first failing element's error |
| CanvasClient.ModulesOf | IVE/GAVEL/infra/canvas/http_canvas_client.py:33-39 | an array maps element-wise. An empty string or dict iterates nothing. Any other value is a TypeError |
| CanvasClient.FetchCourseData | IVE/GAVEL/infra/canvas/http_canvas_client.py:23-41 | the course is requested first and its failure is the result. Otherwise a failed modules request is the result. With both responses the result is the course and modules mapped from them |
| CanvasClient.CourseFailureShortCircuits | IVE/GAVEL/infra/canvas/http_canvas_client.py:23-25 | when the course request fails, the modules response makes no difference and the course request's error is the result |
| CanvasClient.ModulesKeepOrder | IVE/GAVEL/infra/canvas/http_canvas_client.py:33-41 | fetched course data has the same number of modules as the JSON array, in the same order |
| DownloadCourse.FileNameRoundTrip | IVE/GAVEL/app/usecases/canvas_download_course.py:37 | the file name `canvas_course_<id>.json` gives back its id, so distinct courses get distinct files |
| DownloadCourse.JoinPath | IVE/GAVEL/app/usecases/canvas_download_course.py:37 | the joined path ends with the file name. "" or "." (after trailing slashes) as the directory gives just the name, a directory of slashes only gives "/" and the name, and any other directory gives the directory without trailing slashes, "/" and the name |
| DownloadCourse.JoinPathPlain | IVE/GAVEL/app/usecases/canvas_download_course.py:37 | a directory with no trailing slash, other than ".", is joined to the name by exactly one "/" |
| DownloadCourse.JoinPathRoot | IVE/GAVEL/app/usecases/canvas_download_course.py:37 | a directory made only of slashes joins as the root, "/" followed by the name |
| DownloadCourse.JoinPathTrailingSlash | IVE/GAVEL/app/usecases/canvas_download_course.py:37 | trailing slashes on the directory do not change the path |
| DownloadCourse.ModulesJson | IVE/GAVEL/app/usecases/canvas_download_course.py:47 | one `asdict` object per module, in order |
| DownloadCourse.Serialize | IVE/GAVEL/app/usecases/canvas_download_course.py:44-48 | the payload has exactly the keys "course" and "modules", with one module entry per module |
| DownloadCourse.ModulesRoundTrip | IVE/GAVEL/app/usecases/canvas_download_course.py:47 | the module list reads back from its serialised form |
| DownloadCourse.SerializeRoundTrip | IVE/GAVEL/app/usecases/canvas_download_course.py:44-48 | reading the payload back gives exactly the course data that was fetched |
| DownloadCourse.SavedUnderFetchedId | IVE/GAVEL/app/usecases/canvas_download_course.py:37 | the saved path's file name encodes the fetched course's id |
| DownloadCourse.DownloadCourseDataUseCase.constructor | IVE/GAVEL/app/usecases/canvas_download_course.py:24-25 | the use case keeps the injected client |
| DownloadCourse.DownloadCourseDataUseCase.Execute | IVE/GAVEL/app/usecases/canvas_download_course.py:27-42 | `course_id <= 0` is a ValueError with no effects and no client call. Otherwise the directory is created and the client called once with the requested id, which the fetch log records. A client error is passed on and no file is written. On success the payload is written to the saved path, and the result's path is that path with the "Canvas course '<name>' saved to <path>" message |
| CanvasCourseCli.HandleDownload | IVE/GAVEL/cli/commands/canvas_course.py:10-36 | the exit code is 0, 1 or 2. A request is made iff the id parses and is positive, and it carries that id and the output dir. The code is 0 iff the use case returned, and then the message is printed. It is 1 iff the use case failed with a non-ValueError, which is also logged |
| CanvasCourseViewModels.CanvasCourseViewModel.constructor | IVE/GAVEL/pages/canvas_course/viewmodel.py:40-65 | no course id, idle, no saved path. UNKNOWN with the prompt, or CRITICAL "Canvas not configured" when unconfigured |
| CanvasCourseViewModels.CanvasCourseViewModel.SetCourseId | IVE/GAVEL/pages/canvas_course/viewmodel.py:70-75 | stores the stripped text and emits the new state. An unchanged id changes and emits nothing |
| CanvasCourseViewModels.CanvasCourseViewModel.SetBusy | IVE/GAVEL/pages/canvas_course/viewmodel.py:106-113 | busy with the status and message, the rest kept, one state emission |
| CanvasCourseViewModels.CanvasCourseViewModel.SetIdle | IVE/GAVEL/pages/canvas_course/viewmodel.py:115-123 | idle with the status, message and saved path, the course id kept, one state emission |
| CanvasCourseViewModels.CanvasCourseViewModel.EmitError | IVE/GAVEL/pages/canvas_course/viewmodel.py:125-127 | idle and CRITICAL with the message and the saved path kept, then a ShowError |
| CanvasCourseViewModels.CanvasCourseViewModel.DownloadCourse | IVE/GAVEL/pages/canvas_course/viewmodel.py:77-104 | busy is a no-op. Unconfigured, empty id and non-integer id each give their error with no use-case call. Otherwise one request with the parsed id; busy, then idle NOMINAL with the result and a ShowInfo, or CRITICAL with the exception text, no saved path and a ShowError. The course id never changes, and a call that starts idle ends idle |
| HomeViewModels.HomeViewModel.constructor | IVE/GAVEL/pages/home/viewmodel.py:36-47 | UNKNOWN, "Idle", and the configured environment and version |
| HomeViewModels.HomeViewModel.SetStatus | IVE/GAVEL/pages/home/viewmodel.py:73-75 | replaces only status and message, keeps environment and version, and emits the state |
| HomeViewModels.HomeViewModel.Run | IVE/GAVEL/pages/home/viewmodel.py:52-55 | WARNING "Run started...", then info targeted at "overview" |
| HomeViewModels.HomeViewModel.Validate | IVE/GAVEL/pages/home/viewmodel.py:57-60 | NOMINAL with the success message, then info targeted at "overview" |
| HomeViewModels.HomeViewModel.SubmitEntry | IVE/GAVEL/pages/home/viewmodel.py:62-71 | a blank name raises the error for "data_entry" first, then CRITICAL "Missing name for submission.". Otherwise CAUTION with the stripped name and tag in the message, then info for "data_entry" |
| HomeViewModels.SubmissionIgnoresPadding | IVE/GAVEL/pages/home/viewmodel.py:63-70 | whitespace around the name does not change the submitted message |
| SettingsViewModels.SetFeatureX | IVE/GAVEL/pages/settings/viewmodel.py:38-43 | sets only `enable_feature_x`. It emits nothing iff the value is unchanged, else exactly the new state |
| SettingsViewModels.SetLogging | IVE/GAVEL/pages/settings/viewmodel.py:45-50 | sets only `enable_logging`. It emits nothing iff the value is unchanged, else exactly the new state |
| SettingsViewModels.SettersIdempotent | IVE/GAVEL/pages/settings/viewmodel.py:38-50 | setting a flag twice to one value gives the same state and emissions as setting it once |
| SettingsViewModels.SettingsViewModel.constructor | IVE/GAVEL/pages/settings/viewmodel.py:22-33 | feature X off, logging on, environment and version from the configuration |
| SettingsViewModels.SettingsViewModel.SetEnableFeatureX | IVE/GAVEL/pages/settings/viewmodel.py:38-43 | the new state and emissions are those of `SetFeatureX` |
| SettingsViewModels.SettingsViewModel.SetEnableLogging | IVE/GAVEL/pages/settings/viewmodel.py:45-50 | the new state and emissions are those of `SetLogging` |

## Left out

- File and network I/O.
  - The model starts from values: `open` and `csv.DictReader`, the token file read and `json.loads`, and the HTTP transport (`requests` session, `raise_for_status`, `.json()`).
  - The Canvas transport is a function parameter from request to decoded JSON or error.
  - The use case's client is a function from course id to course data or error.
- CSV quoting and tokenising; a row is a map from header to cell text.
- EntryOf: a cell that a short row leaves as None is treated as missing, which is an error. Python instead compares None with "True" (giving no consent) for the consent column, and fails on the other columns.
- Python `int()` leniency is not modelled: surrounding whitespace, `_` separators and non-ASCII digits. Integer text is an optional sign followed by ASCII digits.
- Floats: JSON numbers and token values are integers here, so float truncation by `int()` is absent.
- CanvasClient.NameText: a JSON list or dict chosen as a name is an error here, where Python would use its repr.
- Exception texts that Python's builtins produce for `int()` and subscript failures are not reproduced; only `KeyError`'s quoted key is.
- Theme.LoadTokens: a non-integer spacing or shape value is reported by block, not by key.
- DownloadCourse.JoinPath: only "", "." and trailing slashes of the directory are normalised. pathlib's other rules (repeated inner slashes, "./" segments, a leading "//") and the CLI's `expanduser` are not modelled.
- DownloadCourse.DownloadCourseDataUseCase.Execute:
  - `mkdir(parents=True)` records only the output directory, not its ancestors;
  - a failure to open or write the file is not modelled;
  - the JSON text layout (`indent=2`) is not modelled, only the payload value.
- Logging calls in the view-models, and the `get_state` getters. The CLI's one logged line is kept.
- Qt specifics:
  - widget layout, styling and animation;
  - the drawer's button rendering and `toggle`;
  - a page factory raising is not modelled: each factory call yields a fresh widget;
  - signals are modelled as ghost logs.
- `PageRegistry._instance` is a class attribute; here it is a slot object passed explicitly.
- The roster reader and the pandas roster use case, wiring (`bootstrap.py`, `app_services.py`, `app/main.py`, `cli/main.py`'s argparse), the configuration and logger services, and the stylesheet builder are not part of this model.
