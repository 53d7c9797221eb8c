/** The status enum and its display style (core/status.py). */
module StatusStyles {
  import opened Wrappers
  import opened Theme

  datatype Status = Nominal | Caution | Warning | Critical | Unknown

  /** The enum member's `.value`. */
  function Value(s: Status): string {
    match s
    case Nominal => "nominal"
    case Caution => "caution"
    case Warning => "warning"
    case Critical => "critical"
    case Unknown => "unknown"
  }

  /** `StatusStyle`; `label` is a reserved word in Dafny, hence `labelText`. */
  datatype StatusStyle = StatusStyle(labelText: string, icon: string, color: TokenValue)

  const Icon := "\U{25cf}"

  function Label(s: Status): string {
    match s
    case Nominal => "Nominal"
    case Caution => "Caution"
    case Warning => "Warning"
    case Critical => "Critical"
    case Unknown => "Unknown"
  }

  /** The color token a status is drawn with. */
  function ColorKey(s: Status): string {
    match s
    case Nominal => "status_nominal"
    case Caution => "status_caution"
    case Warning => "status_warning"
    case Critical => "status_critical"
    case Unknown => "status_unknown"
  }

  /** The color token is `"status_" + status.value`. */
  lemma ColorKeyIsPrefixedValue(s: Status)
    ensures ColorKey(s) == "status_" + Value(s)
  {
    match s
    case Nominal => assert "status_" + "nominal" == "status_nominal";
    case Caution => assert "status_" + "caution" == "status_caution";
    case Warning => assert "status_" + "warning" == "status_warning";
    case Critical => assert "status_" + "critical" == "status_critical";
    case Unknown => assert "status_" + "unknown" == "status_unknown";
  }

  /**
    `get_status_style`: the status's label, the filled-circle icon and the
    color token `status_<value>`; a KeyError (here the missing key) when the
    theme lacks that token.
  */
  function GetStatusStyle(tokens: ThemeTokens, status: Status): (r: Result<StatusStyle, string>)
    ensures r.Ok? <==> ColorKey(status) in tokens.color
    ensures r.Ok? ==> r.value.icon == Icon && r.value.labelText == Label(status)
                      && r.value.color == tokens.color[ColorKey(status)]
    ensures r.Err? ==> r.error == ColorKey(status)
  {
    var c := tokens.color;
    match status
    case Nominal => if "status_nominal" in c then Ok(StatusStyle("Nominal", Icon, c["status_nominal"])) else Err("status_nominal")
    case Caution => if "status_caution" in c then Ok(StatusStyle("Caution", Icon, c["status_caution"])) else Err("status_caution")
    case Warning => if "status_warning" in c then Ok(StatusStyle("Warning", Icon, c["status_warning"])) else Err("status_warning")
    case Critical => if "status_critical" in c then Ok(StatusStyle("Critical", Icon, c["status_critical"])) else Err("status_critical")
    case Unknown => if "status_unknown" in c then Ok(StatusStyle("Unknown", Icon, c["status_unknown"])) else Err("status_unknown")
  }

  function Capitalize(s: string): string {
    if s == [] then s
    else if 'a' <= s[0] <= 'z' then [(s[0] as int - 32) as char] + s[1..]
    else s
  }

  /** Each label is its status's value with the first letter capitalised. */
  lemma LabelIsCapitalizedValue(s: Status)
    ensures Label(s) == Capitalize(Value(s))
  {
    match s
    case Nominal => CapitalizeWord("nominal", 'N', "Nominal");
    case Caution => CapitalizeWord("caution", 'C', "Caution");
    case Warning => CapitalizeWord("warning", 'W', "Warning");
    case Critical => CapitalizeWord("critical", 'C', "Critical");
    case Unknown => CapitalizeWord("unknown", 'U', "Unknown");
  }

  lemma CapitalizeWord(v: string, upper: char, l: string)
    requires |v| > 0 && 'a' <= v[0] <= 'z' && upper as int == v[0] as int - 32
    requires l == [upper] + v[1..]
    ensures Capitalize(v) == l
  {
  }

  /** Distinct statuses have distinct labels and distinct color tokens. */
  lemma StyleInjective(a: Status, b: Status)
    requires a != b
    ensures Label(a) != Label(b)
    ensures ColorKey(a) != ColorKey(b)
  {
  }

  /** With tokens that passed `load_tokens`, every status has a style: all five colors are required. */
  lemma StyleTotalAfterLoad(data: TokenFile, s: Status)
    requires LoadTokens(data).Ok?
    ensures GetStatusStyle(LoadTokens(data).value, s).Ok?
  {
    LoadTokensSucceeds(data);
    var keys := ColorKeys;
    match s
    case Nominal => assert keys[8] == ColorKey(s);
    case Caution => assert keys[9] == ColorKey(s);
    case Warning => assert keys[10] == ColorKey(s);
    case Critical => assert keys[11] == ColorKey(s);
    case Unknown => assert keys[12] == ColorKey(s);
  }
}
