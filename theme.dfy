/**
  Design tokens (theme/tokens.py): validation of an already-parsed token
  file and the spacing lookup `ThemeTokens.sp`.
*/
module Theme {
  import opened Wrappers
  import opened Text

  /** A scalar of the token file as JSON decodes it. */
  datatype TokenValue = Str(s: string) | Num(n: int)

  type Block = map<string, TokenValue>

  /** The decoded token file: top-level block name to block. */
  type TokenFile = map<string, Block>

  datatype ThemeTokens = ThemeTokens(
    color: Block,
    spacing: map<string, int>,
    shape: map<string, int>,
    typography: Block
  )

  datatype TokenError =
    | MissingBlock(block: string)               // "Missing token block: …"
    | MissingToken(block: string, key: string)  // "Missing <block> token: …"
    | NotAnInteger(block: string)               // ValueError from `int(v)` in the coercion

  const Blocks: seq<string> := ["color", "spacing", "shape", "typography"]

  const ColorKeys: seq<string> := [
    "bg", "surface", "surface_alt", "border", "text", "text_muted", "focus", "selection",
    "status_nominal", "status_caution", "status_warning", "status_critical", "status_unknown"
  ]
  const SpacingKeys: seq<string> := ["0", "4", "8", "12", "16", "24", "32"]
  const ShapeKeys: seq<string> := ["radius_sm", "radius_md", "radius_lg", "border_width"]
  const TypographyKeys: seq<string> :=
    ["font_family", "font_size_base", "font_size_h1", "font_size_h2", "font_size_h3"]

  /** The spacing sizes `sp` is guaranteed to answer after a successful load. */
  const SpacingSizes: seq<int> := [0, 4, 8, 12, 16, 24, 32]

  /** The first of `keys`, in list order, that is not in `present` (one `for … if k not in …` loop). */
  function FirstMissing<V>(keys: seq<string>, present: map<string, V>): (r: Option<string>)
    ensures r.None? <==> forall i :: 0 <= i < |keys| ==> keys[i] in present
    ensures r.Some? ==> exists i :: && 0 <= i < |keys| && keys[i] == r.value && r.value !in present
                                    && forall j :: 0 <= j < i ==> keys[j] in present
  {
    if keys == [] then None
    else if keys[0] !in present then Some(keys[0])
    else
      var r := FirstMissing(keys[1..], present);
      if r.Some? then
        ghost var i :| 0 <= i < |keys[1..]| && keys[1..][i] == r.value && r.value !in present
                       && forall j :: 0 <= j < i ==> keys[1..][j] in present;
        assert keys[i + 1] == r.value;
        r
      else r
  }

  /** Python's `int(v)` on a token value. */
  function IntOf(v: TokenValue): Option<int> {
    match v
    case Num(n) => Some(n)
    case Str(s) => ParseInt(s)
  }

  /** `{k: int(v) for k, v in block.items()}`, or None when some value is not an integer. */
  function IntBlock(b: Block): (r: Option<map<string, int>>)
    ensures r.Some? <==> forall k :: k in b ==> IntOf(b[k]).Some?
    ensures r.Some? ==> r.value.Keys == b.Keys
    ensures r.Some? ==> forall k :: k in b ==> Some(r.value[k]) == IntOf(b[k])
  {
    if forall k :: k in b ==> IntOf(b[k]).Some? then
      Some(map k | k in b :: IntOf(b[k]).value)
    else None
  }

  /** Checks every required key of one block, in the order of its key list. */
  function CheckKeys(block: string, keys: seq<string>, b: Block): Result<(), TokenError> {
    match FirstMissing(keys, b)
    case Some(k) => Err(MissingToken(block, k))
    case None => Ok(())
  }

  /**
    `load_tokens` after the file is read and decoded: blocks first, then the
    color, spacing, shape and typography keys, then the integer coercion of
    spacing and shape.
  */
  function LoadTokens(data: TokenFile): Result<ThemeTokens, TokenError> {
    match FirstMissing(Blocks, data)
    case Some(b) => Err(MissingBlock(b))
    case None =>
      BlocksPresent(data);
      var _ :- CheckKeys("color", ColorKeys, data["color"]);
      var _ :- CheckKeys("spacing", SpacingKeys, data["spacing"]);
      var _ :- CheckKeys("shape", ShapeKeys, data["shape"]);
      var _ :- CheckKeys("typography", TypographyKeys, data["typography"]);
      match IntBlock(data["spacing"])
      case None => Err(NotAnInteger("spacing"))
      case Some(spacing) =>
        match IntBlock(data["shape"])
        case None => Err(NotAnInteger("shape"))
        case Some(shape) =>
          Ok(ThemeTokens(data["color"], spacing, shape, data["typography"]))
  }

  predicate HasBlocks(data: TokenFile) {
    "color" in data && "spacing" in data && "shape" in data && "typography" in data
  }

  lemma BlocksPresent(data: TokenFile)
    ensures FirstMissing(Blocks, data).None? <==> HasBlocks(data)
  {
    if FirstMissing(Blocks, data).None? {
      assert Blocks[0] in data && Blocks[1] in data && Blocks[2] in data && Blocks[3] in data;
    }
    if HasBlocks(data) {
      forall i | 0 <= i < |Blocks| ensures Blocks[i] in data {
        assert i == 0 || i == 1 || i == 2 || i == 3;
      }
    }
  }

  /** Every block is present and every required key of each block is present. */
  ghost predicate HasRequiredTokens(data: TokenFile) {
    && HasBlocks(data)
    && (forall i :: 0 <= i < |ColorKeys| ==> ColorKeys[i] in data["color"])
    && (forall i :: 0 <= i < |SpacingKeys| ==> SpacingKeys[i] in data["spacing"])
    && (forall i :: 0 <= i < |ShapeKeys| ==> ShapeKeys[i] in data["shape"])
    && (forall i :: 0 <= i < |TypographyKeys| ==> TypographyKeys[i] in data["typography"])
  }

  /**
    A load succeeds exactly when every block and key is present and the
    spacing and shape values are integers; it then keeps the key sets of all
    four blocks, passes color and typography through and coerces the rest.
  */
  lemma LoadTokensSucceeds(data: TokenFile)
    ensures LoadTokens(data).Ok? <==>
              && HasRequiredTokens(data)
              && IntBlock(data["spacing"]).Some? && IntBlock(data["shape"]).Some?
    ensures LoadTokens(data).Ok? ==>
              var t := LoadTokens(data).value;
              && t.color == data["color"] && t.typography == data["typography"]
              && t.spacing.Keys == data["spacing"].Keys && t.shape.Keys == data["shape"].Keys
              && (forall k :: k in t.spacing ==> Some(t.spacing[k]) == IntOf(data["spacing"][k]))
              && (forall k :: k in t.shape ==> Some(t.shape[k]) == IntOf(data["shape"][k]))
  {
    BlocksPresent(data);
  }

  /** A missing block is reported before any key: the first absent one in block order. */
  lemma MissingBlockFirst(data: TokenFile)
    requires exists i :: 0 <= i < |Blocks| && Blocks[i] !in data
    ensures LoadTokens(data).Err? && LoadTokens(data).error.MissingBlock?
    ensures exists i :: && 0 <= i < |Blocks| && Blocks[i] == LoadTokens(data).error.block
                        && Blocks[i] !in data && forall j :: 0 <= j < i ==> Blocks[j] in data
  {
  }

  /**
    With every block present, a missing key is reported for the earliest
    block in check order (color, spacing, shape, typography) that lacks one,
    naming that block's first absent key.
  */
  lemma MissingKeyOrder(data: TokenFile)
    requires HasBlocks(data)
    ensures FirstMissing(ColorKeys, data["color"]).Some? ==>
              LoadTokens(data) == Err(MissingToken("color", FirstMissing(ColorKeys, data["color"]).value))
    ensures FirstMissing(ColorKeys, data["color"]).None?
            && FirstMissing(SpacingKeys, data["spacing"]).Some? ==>
              LoadTokens(data) == Err(MissingToken("spacing", FirstMissing(SpacingKeys, data["spacing"]).value))
    ensures FirstMissing(ColorKeys, data["color"]).None?
            && FirstMissing(SpacingKeys, data["spacing"]).None?
            && FirstMissing(ShapeKeys, data["shape"]).Some? ==>
              LoadTokens(data) == Err(MissingToken("shape", FirstMissing(ShapeKeys, data["shape"]).value))
    ensures FirstMissing(ColorKeys, data["color"]).None?
            && FirstMissing(SpacingKeys, data["spacing"]).None?
            && FirstMissing(ShapeKeys, data["shape"]).None?
            && FirstMissing(TypographyKeys, data["typography"]).Some? ==>
              LoadTokens(data) == Err(MissingToken("typography", FirstMissing(TypographyKeys, data["typography"]).value))
  {
    assert FirstMissing(Blocks, data).None?;
  }

  /** `ThemeTokens.sp(n)`: the spacing stored under the decimal text of `n`, or a KeyError. */
  function Sp(t: ThemeTokens, n: int): (r: Result<int, TokenError>)
    ensures r.Ok? <==> IntToString(n) in t.spacing
    ensures r.Ok? ==> r.value == t.spacing[IntToString(n)]
    ensures r.Ok? ==> exists k :: k in t.spacing && ParseInt(k) == Some(n) && r.value == t.spacing[k]
    ensures r.Err? ==> r.error == MissingToken("spacing", IntToString(n))
                       && forall k :: k in t.spacing ==> k != IntToString(n)
  {
    var key := IntToString(n);
    if key !in t.spacing then Err(MissingToken("spacing", key))
    else
      IntRoundTrip(n);
      Ok(t.spacing[key])
  }

  /** After a successful load, `sp` answers for every required spacing size. */
  lemma SpDefinedAfterLoad(data: TokenFile, n: int)
    requires LoadTokens(data).Ok?
    requires n in SpacingSizes
    ensures Sp(LoadTokens(data).value, n).Ok?
  {
    LoadTokensSucceeds(data);
    var i :| 0 <= i < |SpacingSizes| && SpacingSizes[i] == n;
    SpacingKeyOf(i);
  }

  /** The required spacing keys are the decimal texts of the spacing sizes. */
  lemma SpacingKeyOf(i: int)
    requires 0 <= i < |SpacingSizes|
    ensures IntToString(SpacingSizes[i]) == SpacingKeys[i]
  {
    if i == 0 {
      assert DigitChar(0) == '0';
    } else if i == 1 {
      assert DigitChar(4) == '4';
    } else if i == 2 {
      assert DigitChar(8) == '8';
    } else if i == 3 {
      TwoDigits(12);
      assert DigitChar(1) == '1' && DigitChar(2) == '2';
    } else if i == 4 {
      TwoDigits(16);
      assert DigitChar(1) == '1' && DigitChar(6) == '6';
    } else if i == 5 {
      TwoDigits(24);
      assert DigitChar(2) == '2' && DigitChar(4) == '4';
    } else {
      TwoDigits(32);
      assert DigitChar(3) == '3' && DigitChar(2) == '2';
    }
  }

  lemma TwoDigits(n: nat)
    requires 10 <= n < 100
    ensures IntToString(n) == [DigitChar(n / 10), DigitChar(n % 10)]
  {
    assert NatToString(n / 10) == [DigitChar(n / 10)];
    assert NatToString(n) == NatToString(n / 10) + [DigitChar(n % 10)];
  }
}
