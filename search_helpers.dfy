/**
 * The filter expression compiler's per-value part: the year-to-date helper,
 * the walk along a `__`-separated relation path, and the table-driven wire
 * grammar that turns `(field type, field key, raw value)` into a lookup leaf.
 */
module SearchHelpers {
  import opened Wrappers
  import opened Strings
  import opened Predicates

  const CharField := "CharField"
  const TextField := "TextField"
  const JSONField := "JSONField"
  const IntegerField := "IntegerField"
  const DateField := "DateField"
  const ArrayField := "ArrayField"
  const BooleanField := "BooleanField"
  const NullBooleanField := "NullBooleanField"
  const ForeignKey := "ForeignKey"
  const ManyToManyField := "ManyToManyField"
  const AutoField := "AutoField"

  predicate IsTextType(t: string) { t == CharField || t == TextField || t == JSONField }

  predicate IsRelationType(t: string) { t == ForeignKey || t == ManyToManyField }

  /**
   * A model as the API sees it: `get_fields()` (field name to type name) and,
   * for each relation field, the name of the model it points to.
   */
  datatype ModelInfo = ModelInfo(fields: map<string, string>, relations: map<string, string>)

  /** The models of the application, by class name. */
  type Registry = map<string, ModelInfo>

  // ---------------------------------------------------------------------------
  // Years as dates

  /** `strptime(s, '%Y')`: exactly four digits naming a year in 1..9999. */
  function ParseYear(s: string): (y: Option<nat>)
    ensures y.Some? <==> |s| == 4 && AllDigits(s) && DigitsValue(s) >= 1
    ensures y.Some? ==> y.value == DigitsValue(s) && 1 <= y.value <= 9999
  {
    if |s| == 4 && AllDigits(s) && DigitsValue(s) >= 1 then
      assert DigitsValue(s) <= 9999 by { FourDigitsBound(s); }
      Some(DigitsValue(s))
    else None
  }

  function Pow10(n: nat): nat { if n == 0 then 1 else 10 * Pow10(n - 1) }

  lemma {:induction false} DigitsBound(s: string)
    requires AllDigits(s)
    ensures DigitsValue(s) < Pow10(|s|)
    decreases |s|
  {
    if s != [] {
      DigitsBound(s[..|s| - 1]);
    }
  }

  lemma FourDigitsBound(s: string)
    requires |s| == 4 && AllDigits(s)
    ensures DigitsValue(s) <= 9999
  {
    DigitsBound(s);
    assert Pow10(4) == 10000;
  }

  /**
   * `_get_date_field(operator, value)`: the operator is removed from the value;
   * a valid year becomes 1 January of that year, or 31 December for `<` and
   * `<=`; anything else stays the stripped string.
   */
  function GetDateField(op: string, value: string): Value
    requires |op| > 0
  {
    var stripped := RemoveAll(value, op);
    match ParseYear(stripped)
    case None => Str(stripped)
    case Some(y) => if op == "<" || op == "<=" then Date(y, 12, 31) else Date(y, 1, 1)
  }

  /** Removing an operator from `op + digits` leaves the digits. */
  lemma {:induction false} RemoveOperator(op: string, digits: string)
    requires op in [">", ">=", "<", "<="] && AllDigits(digits)
    ensures RemoveAll(op + digits, op) == digits
  {
    var s := op + digits;
    assert s[..|op|] == op;
    assert s[|op|..] == digits;
    RemoveFromDigits(digits, op);
  }

  lemma {:induction false} RemoveFromDigits(digits: string, op: string)
    requires op in [">", ">=", "<", "<="] && AllDigits(digits)
    ensures RemoveAll(digits, op) == digits
    decreases |digits|
  {
    if |digits| >= |op| {
      assert digits[..|op|] != op by { assert IsDigit(digits[0]) && !IsDigit(op[0]); }
      RemoveFromDigits(digits[1..], op);
      assert [digits[0]] + digits[1..] == digits;
    }
  }

  // ---------------------------------------------------------------------------
  // Relation paths

  /** `get_related_model`: the model that the path's first segment points to, if it is a relation. */
  function GetRelatedModel(info: ModelInfo, field: string): (target: Option<string>)
    ensures target.Some? <==> Split(field, "__")[0] in info.relations
    ensures target.Some? ==> target.value == info.relations[Split(field, "__")[0]]
    ensures IndexOf(field, "__").None? ==> target == (if field in info.relations then Some(info.relations[field]) else None)
  {
    var name := Split(field, "__")[0];
    if name in info.relations then Some(info.relations[name]) else None
  }

  /** The fields searchable through a relation: only `id` through `User`. */
  function RelatedFields(reg: Registry, target: string): map<string, string>
  {
    if target == "User" then map["id" := AutoField]
    else if target in reg then reg[target].fields
    else map[]
  }

  /**
   * `get_related_field_type(model, field)`: follows the path's relation hops
   * until a segment names a non-relation field, and returns that field's type.
   */
  function GetRelatedFieldType(reg: Registry, info: ModelInfo, field: string): (r: Option<string>)
    ensures |Split(field, "__")| < 2 ==> r.None?
    ensures r.Some? ==> !IsRelationType(r.value)
    ensures GetRelatedModel(info, field) == Some("User") ==>
      r == (if |Split(field, "__")| >= 2 && Split(field, "__")[1] == "id" then Some(AutoField) else None)
    decreases |field|
  {
    var parts := Split(field, "__");
    if |parts| < 2 then None
    else
      match GetRelatedModel(info, field)
      case None => None
      case Some(target) =>
        var related := RelatedFields(reg, target);
        if parts[1] in related then
          var t := related[parts[1]];
          if !IsRelationType(t) then Some(t)
          else if target in reg then
            var rest := Join(parts[1..], "__");
            TailAfterFirst(field, "__");
            GetRelatedFieldType(reg, reg[target], rest)
          else None
        else None
  }

  /**
   * The same walk stated over the list of path segments: the first segment
   * names a relation, the second a field of its target, and a relation there
   * continues the walk from the target model.
   */
  function ResolvePath(reg: Registry, info: ModelInfo, segs: seq<string>): Option<string>
    decreases |segs|
  {
    if |segs| < 2 || segs[0] !in info.relations then None
    else
      var target := info.relations[segs[0]];
      var related := RelatedFields(reg, target);
      if segs[1] !in related then None
      else if !IsRelationType(related[segs[1]]) then Some(related[segs[1]])
      else if target in reg then ResolvePath(reg, reg[target], segs[1..])
      else None
  }

  /** The string recursion of `get_related_field_type` is the segment walk. */
  lemma {:induction false} RelatedFieldTypeWalksPath(reg: Registry, info: ModelInfo, field: string)
    ensures GetRelatedFieldType(reg, info, field) == ResolvePath(reg, info, Split(field, "__"))
    decreases |field|
  {
    var parts := Split(field, "__");
    if |parts| >= 2 && parts[0] in info.relations {
      var target := info.relations[parts[0]];
      var related := RelatedFields(reg, target);
      if parts[1] in related && IsRelationType(related[parts[1]]) && target in reg {
        var rest := Join(parts[1..], "__");
        TailAfterFirst(field, "__");
        RelatedFieldTypeWalksPath(reg, reg[target], rest);
      }
    }
  }

  // ---------------------------------------------------------------------------
  // The wire grammar

  /** The character classes the grammar's captured runs are made of. */
  datatype CharClass = NoStarOrBar | Digit | NotNewline

  predicate InClass(c: char, cls: CharClass)
  {
    match cls
    case NoStarOrBar => c != '*' && c != '|'
    case Digit => IsDigit(c)
    case NotNewline => c != '\n'
  }

  predicate AllIn(s: string, cls: CharClass) { forall i :: 0 <= i < |s| ==> InClass(s[i], cls) }

  /**
   * The regular expressions of the grammar. `Run(p, c, s)` is `^p(c+)s$`;
   * `OneOf(words)` is `^(w1|w2|...)$`. Group 1 is what a match captures.
   */
  datatype Pattern =
    | Run(prefix: string, cls: CharClass, suffix: string)
    | OneOf(words: seq<string>)

  /** Group 1 of `pattern` matched against the whole of `s`, if it matches. */
  function Match(p: Pattern, s: string): (g: Option<string>)
    ensures g.Some? && p.Run? ==> s == p.prefix + g.value + p.suffix && |g.value| > 0 && AllIn(g.value, p.cls)
    ensures g.Some? && p.OneOf? ==> s in p.words && g.value == s
  {
    match p
    case Run(pre, cls, suf) =>
      if |s| > |pre| + |suf| && s[..|pre|] == pre && s[|s| - |suf|..] == suf && AllIn(s[|pre|..|s| - |suf|], cls)
      then
        assert s == s[..|pre|] + s[|pre|..|s| - |suf|] + s[|s| - |suf|..];
        Some(s[|pre|..|s| - |suf|])
      else None
    case OneOf(words) => if s in words then Some(s) else None
  }

  /** A run pattern matches exactly the strings built from its prefix, a non-empty run of its class and its suffix. */
  lemma MatchRun(pre: string, cls: CharClass, suf: string, v: string)
    requires |v| > 0 && AllIn(v, cls)
    ensures Match(Run(pre, cls, suf), pre + v + suf) == Some(v)
  {
    var s := pre + v + suf;
    assert s[..|pre|] == pre && s[|s| - |suf|..] == suf && s[|pre|..|s| - |suf|] == v;
  }

  /** What an entry of the operator table does once its pattern matched. */
  datatype Action =
    | Capture                 // the captured group (or `[value]` for an array containment)
    | Constant(v: Value)      // a fixed value
    | DateOf(op: string)      // `_get_date_field(op, value)`

  /** One entry of the operator table: pattern, lookup suffix, action. */
  datatype Rule = Rule(pattern: Pattern, lookup: string, action: Action)

  const TextRules: seq<Rule> := [
    Rule(Run("", NoStarOrBar, "*"), "__startswith", Capture),
    Rule(Run("", NoStarOrBar, "*|i"), "__istartswith", Capture),
    Rule(Run("*", NoStarOrBar, ""), "__endswith", Capture),
    Rule(Run("*", NoStarOrBar, "|i"), "__iendswith", Capture),
    Rule(Run("*", NoStarOrBar, "*"), "__contains", Capture),
    Rule(Run("*", NoStarOrBar, "*|i"), "__icontains", Capture),
    Rule(Run("", NoStarOrBar, "|i"), "__iexact", Capture)
  ]

  const IntegerRules: seq<Rule> := [
    Rule(Run(">", Digit, ""), "__gt", Capture),
    Rule(Run(">=", Digit, ""), "__gte", Capture),
    Rule(Run("<", Digit, ""), "__lt", Capture),
    Rule(Run("<=", Digit, ""), "__lte", Capture)
  ]

  const DateRules: seq<Rule> := [
    Rule(Run(">", Digit, ""), "__gt", DateOf(">")),
    Rule(Run(">=", Digit, ""), "__gte", DateOf(">=")),
    Rule(Run("<", Digit, ""), "__lt", DateOf("<")),
    Rule(Run("<=", Digit, ""), "__lte", DateOf("<="))
  ]

  const ArrayRules: seq<Rule> := [
    Rule(Run("_eq", Digit, ""), "__len", Capture),
    Rule(Run("_gt", Digit, ""), "__len__gt", Capture),
    Rule(Run("", NotNewline, ""), "__contains", Capture)
  ]

  const NullBooleanRules: seq<Rule> := [
    Rule(OneOf(["true", "True"]), "", Constant(Bool(true))),
    Rule(OneOf(["false", "False"]), "", Constant(Null))
  ]

  const BooleanRules: seq<Rule> := [
    Rule(OneOf(["true", "True"]), "", Constant(Bool(true))),
    Rule(OneOf(["false", "False"]), "", Constant(Bool(false)))
  ]

  /** `operator_lookup[field_type]`, or no entries for a type the table does not list. */
  function OperatorLookup(fieldType: Option<string>): seq<Rule>
  {
    match fieldType
    case None => []
    case Some(t) =>
      if IsTextType(t) then TextRules
      else if t == IntegerField then IntegerRules
      else if t == DateField then DateRules
      else if t == ArrayField then ArrayRules
      else if t == NullBooleanField then NullBooleanRules
      else if t == BooleanField then BooleanRules
      else []
  }

  /** Index of the first entry of `rules` whose pattern matches `value`. */
  function FirstMatch(rules: seq<Rule>, value: string): (k: Option<nat>)
    ensures k.Some? ==> k.value < |rules| && Match(rules[k.value].pattern, value).Some?
    ensures k.Some? ==> forall j :: 0 <= j < k.value ==> Match(rules[j].pattern, value).None?
    ensures k.None? ==> forall j :: 0 <= j < |rules| ==> Match(rules[j].pattern, value).None?
  {
    if |rules| == 0 then None
    else if Match(rules[0].pattern, value).Some? then Some(0)
    else
      match FirstMatch(rules[1..], value)
      case None => None
      case Some(k) => Some(k + 1)
  }

  /** Python truthiness of the field type: set and non-empty. */
  predicate Truthy(fieldType: Option<string>) { fieldType.Some? && fieldType.value != "" }

  /**
   * `get_query_tuple(field_type, field, value)`: the first entry of the
   * field type's table whose pattern matches decides the lookup; with no
   * match, a non-empty value on a non-empty field of a known type is an
   * exact lookup; otherwise there is no leaf.
   */
  function GetQueryTuple(fieldType: Option<string>, field: string, value: string): (r: Option<Lookup>)
    ensures fieldType.None? ==> r.None?
    ensures r.Some? ==> |r.value.0| >= |field| && r.value.0[..|field|] == field
  {
    var rules := OperatorLookup(fieldType);
    match FirstMatch(rules, value)
    case Some(k) =>
      DateRulesNamed(fieldType, k);
      Some(Apply(fieldType, field, rules[k], value))
    case None =>
      if value != "" && field != "" && Truthy(fieldType) then Some((field, Str(value))) else None
  }

  /** Every date entry of the tables names a non-empty operator. */
  lemma DateRulesNamed(fieldType: Option<string>, k: nat)
    requires k < |OperatorLookup(fieldType)|
    ensures OperatorLookup(fieldType)[k].action.DateOf? ==> |OperatorLookup(fieldType)[k].action.op| > 0
  {
  }

  /** The leaf built by a table entry whose pattern matched `value`. */
  function Apply(fieldType: Option<string>, field: string, rule: Rule, value: string): (r: Lookup)
    requires Match(rule.pattern, value).Some?
    requires rule.action.DateOf? ==> |rule.action.op| > 0
    ensures r.0 == field + rule.lookup
  {
    var key := field + rule.lookup;
    match rule.action
    case DateOf(op) => (key, GetDateField(op, value))
    case Constant(v) => (key, v)
    case Capture =>
      if fieldType == Some(ArrayField) && !Contains(rule.lookup, "__len") then (key, StrList([value]))
      else (key, Str(Match(rule.pattern, value).value))
  }

  /**
   * When no entry of the type's table matches, the value is an exact lookup
   * on the field itself, provided the value, the field and the type are all
   * non-empty; otherwise there is no leaf.
   */
  lemma Fallback(fieldType: Option<string>, field: string, value: string)
    requires forall j :: 0 <= j < |OperatorLookup(fieldType)| ==> Match(OperatorLookup(fieldType)[j].pattern, value).None?
    ensures GetQueryTuple(fieldType, field, value) ==
      if value != "" && field != "" && Truthy(fieldType) then Some((field, Str(value))) else None
  {
    assert FirstMatch(OperatorLookup(fieldType), value).None?;
  }

  predicate IsBooleanType(t: string) { t == BooleanField || t == NullBooleanField }

  // ---------------------------------------------------------------------------
  // The grammar of text-like fields (CharField, TextField, JSONField)

  /** The seven marked forms of a text filter value. */
  datatype TextShape = Prefix | IPrefix | Suffix | ISuffix | Infix | IInfix | IExact

  function TextMarkBefore(shape: TextShape): string
  {
    match shape
    case Suffix | ISuffix | Infix | IInfix => "*"
    case Prefix | IPrefix | IExact => ""
  }

  function TextMarkAfter(shape: TextShape): string
  {
    match shape
    case Prefix | Infix => "*"
    case IPrefix | IInfix => "*|i"
    case Suffix => ""
    case ISuffix | IExact => "|i"
  }

  /** How a client writes the value `v` in form `shape`: `v*`, `v*|i`, `*v`, `*v|i`, `*v*`, `*v*|i`, `v|i`. */
  function TextWire(shape: TextShape, v: string): string
  {
    TextMarkBefore(shape) + v + TextMarkAfter(shape)
  }

  /** The lookup each form compiles to. */
  function TextLookup(shape: TextShape): string
  {
    match shape
    case Prefix => "__startswith"
    case IPrefix => "__istartswith"
    case Suffix => "__endswith"
    case ISuffix => "__iendswith"
    case Infix => "__contains"
    case IInfix => "__icontains"
    case IExact => "__iexact"
  }

  /** The form that entry `j` of the text table recognises. */
  function TextShapeAt(j: nat): TextShape
    requires j < 7
  {
    [Prefix, IPrefix, Suffix, ISuffix, Infix, IInfix, IExact][j]
  }

  lemma TextRulesTable(j: nat)
    requires j < 7
    ensures |TextRules| == 7
    ensures TextRules[j] == Rule(Run(TextMarkBefore(TextShapeAt(j)), NoStarOrBar, TextMarkAfter(TextShapeAt(j))),
                                 TextLookup(TextShapeAt(j)), Capture)
  {
  }

  /** Where a text value starts with `*` and which marker it ends with. */
  function LeadingMark(s: string): string { if |s| > 0 && s[0] == '*' then "*" else "" }

  function TrailingMark(s: string): string
  {
    if |s| > 0 && s[|s| - 1] == '*' then "*"
    else if |s| >= 2 && s[|s| - 2] == '|' then (if |s| >= 3 && s[|s| - 3] == '*' then "*|i" else "|i")
    else ""
  }

  /** The marks around an unmarked run can be read back off the value. */
  lemma MarksDetermined(shape: TextShape, v: string)
    requires |v| > 0 && AllIn(v, NoStarOrBar)
    ensures LeadingMark(TextWire(shape, v)) == TextMarkBefore(shape)
    ensures TrailingMark(TextWire(shape, v)) == TextMarkAfter(shape)
  {
    var pre, post := TextMarkBefore(shape), TextMarkAfter(shape);
    var s := pre + v + post;
    var n := |s|;
    assert InClass(v[0], NoStarOrBar) && InClass(v[|v| - 1], NoStarOrBar);
    assert s[0] == if pre == "" then v[0] else '*';
    if post == "" {
      assert s[n - 1] == v[|v| - 1];
      if |v| >= 2 {
        assert s[n - 2] == v[|v| - 2] && InClass(v[|v| - 2], NoStarOrBar);
      } else if n >= 2 {
        assert s[n - 2] == '*';
      }
    } else if post == "*" {
      assert s[n - 1] == '*';
    } else if post == "|i" {
      assert s[n - 1] == 'i' && s[n - 2] == '|';
      assert n >= 3 ==> s[n - 3] == v[|v| - 1];
    } else {
      assert post == "*|i";
      assert s[n - 1] == 'i' && s[n - 2] == '|' && s[n - 3] == '*';
    }
  }

  lemma MarksInjective(a: TextShape, b: TextShape)
    requires TextMarkBefore(a) == TextMarkBefore(b) && TextMarkAfter(a) == TextMarkAfter(b)
    ensures a == b
  {
  }

  /** A text value in form `shape` is matched by that form's table entry and by no other. */
  lemma TextOnlyOwnRuleMatches(shape: TextShape, v: string, j: nat)
    requires |v| > 0 && AllIn(v, NoStarOrBar) && j < 7
    ensures Match(TextRules[j].pattern, TextWire(shape, v)) == (if TextShapeAt(j) == shape then Some(v) else None)
  {
    TextRulesTable(j);
    var other := TextShapeAt(j);
    var s := TextWire(shape, v);
    if other == shape {
      MatchRun(TextMarkBefore(shape), NoStarOrBar, TextMarkAfter(shape), v);
    } else if Match(TextRules[j].pattern, s).Some? {
      var g := Match(TextRules[j].pattern, s).value;
      assert s == TextWire(other, g);
      MarksDetermined(other, g);
      MarksDetermined(shape, v);
      MarksInjective(other, shape);
    }
  }

  /** Index of the table entry for a form. */
  function TextIndex(shape: TextShape): (j: nat)
    ensures j < 7 && TextShapeAt(j) == shape
  {
    match shape
    case Prefix => 0
    case IPrefix => 1
    case Suffix => 2
    case ISuffix => 3
    case Infix => 4
    case IInfix => 5
    case IExact => 6
  }

  /**
   * Encoding direction: a text value written in any of the seven forms around
   * a non-empty run without `*` or `|` compiles to that form's lookup with the
   * run as its value.
   */
  lemma TextGrammar(t: string, field: string, shape: TextShape, v: string)
    requires IsTextType(t) && |v| > 0 && AllIn(v, NoStarOrBar)
    ensures GetQueryTuple(Some(t), field, TextWire(shape, v)) == Some((field + TextLookup(shape), Str(v)))
  {
    var s := TextWire(shape, v);
    var k := TextIndex(shape);
    forall j | 0 <= j < 7 ensures Match(TextRules[j].pattern, s) == (if j == k then Some(v) else None) {
      TextOnlyOwnRuleMatches(shape, v, j);
      TextRulesTable(j);
      if TextShapeAt(j) == shape { assert j == k by { TextIndexInverse(j); } }
    }
    FirstMatchIsUnique(TextRules, s, k);
    TextRulesTable(k);
  }

  lemma TextIndexInverse(j: nat)
    requires j < 7
    ensures TextIndex(TextShapeAt(j)) == j
  {
  }

  /** When entry `k` matches and none before it does, the search stops at `k`. */
  lemma FirstMatchIsUnique(rules: seq<Rule>, value: string, k: nat)
    requires k < |rules| && Match(rules[k].pattern, value).Some?
    requires forall j :: 0 <= j < k ==> Match(rules[j].pattern, value).None?
    ensures FirstMatch(rules, value) == Some(k)
  {
    var f := FirstMatch(rules, value);
    if f.None? || f.value < k {
    } else if f.value > k {
    }
  }

  /**
   * Decoding direction: whatever a text field compiles to is either the plain
   * exact lookup of the whole value or one of the seven forms, whose captured
   * value never contains `*` or `|`.
   */
  lemma TextGrammarOnly(t: string, field: string, s: string)
    requires IsTextType(t)
    ensures var r := GetQueryTuple(Some(t), field, s);
      && (s == "" ==> r.None?)
      && (r.None? ==> s == "" || field == "")
      && (r.Some? ==>
            r.value == (field, Str(s)) ||
            exists shape: TextShape, v: string ::
              |v| > 0 && AllIn(v, NoStarOrBar) && s == TextWire(shape, v) && r.value == (field + TextLookup(shape), Str(v)))
  {
    match FirstMatch(TextRules, s)
    case None =>
    case Some(k) =>
      TextRulesTable(k);
      var shape := TextShapeAt(k);
      var v := Match(TextRules[k].pattern, s).value;
      assert s == TextWire(shape, v);
  }

  /** A value with no `*` or `|` on a text field is an exact lookup of the whole value. */
  lemma TextUnmarked(t: string, field: string, s: string)
    requires IsTextType(t) && s != "" && field != "" && AllIn(s, NoStarOrBar)
    ensures GetQueryTuple(Some(t), field, s) == Some((field, Str(s)))
  {
    assert LeadingMark(s) == "" && TrailingMark(s) == "" by {
      assert InClass(s[0], NoStarOrBar) && InClass(s[|s| - 1], NoStarOrBar);
      if |s| >= 2 { assert InClass(s[|s| - 2], NoStarOrBar); }
    }
    forall j | 0 <= j < 7 ensures Match(TextRules[j].pattern, s).None? {
      TextRulesTable(j);
      var shape := TextShapeAt(j);
      if Match(TextRules[j].pattern, s).Some? {
        var g := Match(TextRules[j].pattern, s).value;
        assert s == TextWire(shape, g);
        MarksDetermined(shape, g);
        assert false;
      }
    }
  }

  // ---------------------------------------------------------------------------
  // The grammar of numeric and date fields

  datatype Comparison = Gt | Gte | Lt | Lte

  /** The operator a client writes before the digits. */
  function OpText(c: Comparison): string
  {
    match c
    case Gt => ">"
    case Gte => ">="
    case Lt => "<"
    case Lte => "<="
  }

  function OpLookup(c: Comparison): string
  {
    match c
    case Gt => "__gt"
    case Gte => "__gte"
    case Lt => "__lt"
    case Lte => "__lte"
  }

  function ComparisonAt(j: nat): Comparison
    requires j < 4
  {
    [Gt, Gte, Lt, Lte][j]
  }

  function ComparisonIndex(c: Comparison): (j: nat)
    ensures j < 4 && ComparisonAt(j) == c
  {
    match c
    case Gt => 0
    case Gte => 1
    case Lt => 2
    case Lte => 3
  }

  lemma ComparisonRulesTable(j: nat)
    requires j < 4
    ensures |IntegerRules| == 4 && |DateRules| == 4
    ensures IntegerRules[j] == Rule(Run(OpText(ComparisonAt(j)), Digit, ""), OpLookup(ComparisonAt(j)), Capture)
    ensures DateRules[j] == Rule(Run(OpText(ComparisonAt(j)), Digit, ""), OpLookup(ComparisonAt(j)), DateOf(OpText(ComparisonAt(j))))
    ensures ComparisonIndex(ComparisonAt(j)) == j
  {
  }

  /** `op + digits` is matched by the entry for `op` and by no other comparison entry. */
  lemma ComparisonOnlyOwnRuleMatches(c: Comparison, d: string, j: nat)
    requires |d| > 0 && AllDigits(d) && j < 4
    ensures Match(Run(OpText(ComparisonAt(j)), Digit, ""), OpText(c) + d) == (if ComparisonAt(j) == c then Some(d) else None)
  {
    var other := ComparisonAt(j);
    var op, op' := OpText(c), OpText(other);
    var s := op + d;
    if other == c {
      MatchRun(op, Digit, "", d);
      assert op + d + "" == s;
    } else {
      assert IsDigit(d[0]) && s[0] == op[0];
      assert |op| == 1 ==> s[1] == d[0];
      assert |op| == 2 ==> s[1] == '=';
      assert |op'| == 2 ==> op'[1] == '=';
    }
  }

  /** The first comparison entry that matches `op + digits` is the one for `op`. */
  lemma ComparisonFirstMatch(rules: seq<Rule>, c: Comparison, d: string)
    requires |d| > 0 && AllDigits(d)
    requires rules == IntegerRules || rules == DateRules
    ensures FirstMatch(rules, OpText(c) + d) == Some(ComparisonIndex(c))
    ensures Match(rules[ComparisonIndex(c)].pattern, OpText(c) + d) == Some(d)
  {
    var k := ComparisonIndex(c);
    forall j | 0 <= j < 4 ensures Match(rules[j].pattern, OpText(c) + d) == (if j == k then Some(d) else None) {
      ComparisonRulesTable(j);
      ComparisonOnlyOwnRuleMatches(c, d, j);
    }
    ComparisonRulesTable(k);
    FirstMatchIsUnique(rules, OpText(c) + d, k);
  }

  /** `>n`, `>=n`, `<n`, `<=n` on an integer field compare with the digit string `n`. */
  lemma IntegerGrammar(field: string, c: Comparison, d: string)
    requires |d| > 0 && AllDigits(d)
    ensures GetQueryTuple(Some(IntegerField), field, OpText(c) + d) == Some((field + OpLookup(c), Str(d)))
  {
    var k, s, op := ComparisonIndex(c), OpText(c) + d, OpText(c);
    ComparisonFirstMatch(IntegerRules, c, d);
    ComparisonRulesTable(k);
    assert OperatorLookup(Some(IntegerField)) == IntegerRules;
    assert IntegerRules[k] == Rule(Run(op, Digit, ""), OpLookup(c), Capture);
  }

  /**
   * The same operators on a date field compare with 1 January of year `n`,
   * or 31 December for `<` and `<=`; a value that is not a valid four-digit
   * year is passed on as the digit string.
   */
  lemma DateGrammar(field: string, c: Comparison, d: string)
    requires |d| > 0 && AllDigits(d)
    ensures GetQueryTuple(Some(DateField), field, OpText(c) + d) ==
      Some((field + OpLookup(c),
            match ParseYear(d)
            case None => Str(d)
            case Some(y) => if c == Lt || c == Lte then Date(y, 12, 31) else Date(y, 1, 1)))
  {
    var k, s, op := ComparisonIndex(c), OpText(c) + d, OpText(c);
    ComparisonFirstMatch(DateRules, c, d);
    ComparisonRulesTable(k);
    assert OperatorLookup(Some(DateField)) == DateRules;
    assert DateRules[k] == Rule(Run(op, Digit, ""), OpLookup(c), DateOf(op));
    DateValue(c, d);
    assert GetQueryTuple(Some(DateField), field, s) == Some((field + OpLookup(c), GetDateField(op, s)));
  }

  lemma DateValue(c: Comparison, d: string)
    requires AllDigits(d)
    ensures GetDateField(OpText(c), OpText(c) + d) ==
      match ParseYear(d)
      case None => Str(d)
      case Some(y) => if c == Lt || c == Lte then Date(y, 12, 31) else Date(y, 1, 1)
  {
    var op := OpText(c);
    RemoveOperator(op, d);
    assert (op == "<" || op == "<=") <==> (c == Lt || c == Lte);
  }

  // ---------------------------------------------------------------------------
  // The grammar of boolean and array fields

  /**
   * `true`/`True` compare with true; `false`/`False` with false, or with null
   * on a nullable boolean; the key is the field itself. Any other non-empty
   * value is an exact lookup of the string.
   */
  lemma BooleanGrammar(t: string, field: string, s: string)
    requires t == BooleanField || t == NullBooleanField
    ensures s == "true" || s == "True" ==> GetQueryTuple(Some(t), field, s) == Some((field, Bool(true)))
    ensures s == "false" || s == "False" ==>
      GetQueryTuple(Some(t), field, s) == Some((field, if t == BooleanField then Bool(false) else Null))
    ensures s !in ["true", "True", "false", "False"] ==>
      GetQueryTuple(Some(t), field, s) == (if s != "" && field != "" then Some((field, Str(s))) else None)
  {
    var rules := OperatorLookup(Some(t));
    BooleanTables(t);
    assert field + "" == field;
    if s in ["true", "True"] {
      FirstMatchIsUnique(rules, s, 0);
    } else if s in ["false", "False"] {
      FirstMatchIsUnique(rules, s, 1);
    } else {
      assert Match(rules[0].pattern, s).None? && Match(rules[1].pattern, s).None?;
    }
  }

  /** The two boolean tables share their `true` entry and differ in the value of `false`. */
  lemma BooleanTables(t: string)
    requires t == BooleanField || t == NullBooleanField
    ensures var rules := OperatorLookup(Some(t));
      && |rules| == 2
      && rules[0] == Rule(OneOf(["true", "True"]), "", Constant(Bool(true)))
      && rules[1] == Rule(OneOf(["false", "False"]), "", Constant(if t == BooleanField then Bool(false) else Null))
  {
  }

  /** A value of the form `_eq<digits>` or `_gt<digits>`. */
  predicate IsLengthQuery(s: string)
  {
    |s| > 3 && (s[..3] == "_eq" || s[..3] == "_gt") && AllDigits(s[3..])
  }

  /** On an array field `_eq<digits>` compares the length with the digits. */
  lemma ArrayLengthGrammar(field: string, d: string)
    requires |d| > 0 && AllDigits(d)
    ensures GetQueryTuple(Some(ArrayField), field, "_eq" + d) == Some((field + "__len", Str(d)))
  {
    assert Contains("__len", "__len");
    MatchRun("_eq", Digit, "", d);
    assert "_eq" + d + "" == "_eq" + d;
  }

  /** `_gt<digits>` requires a length greater than the digits. */
  lemma ArrayLongerGrammar(field: string, d: string)
    requires |d| > 0 && AllDigits(d)
    ensures GetQueryTuple(Some(ArrayField), field, "_gt" + d) == Some((field + "__len__gt", Str(d)))
  {
    var s := "_gt" + d;
    assert Contains("__len__gt", "__len");
    assert s[..3] == "_gt" != "_eq";
    assert Match(ArrayRules[0].pattern, s).None?;
    MatchRun("_gt", Digit, "", d);
    assert "_gt" + d + "" == s;
    FirstMatchIsUnique(ArrayRules, s, 1);
  }

  /**
   * Any other non-empty value (on one line) asks for containment of the
   * one-element list `[value]`.
   */
  lemma ArrayContainsGrammar(field: string, s: string)
    requires s != "" && AllIn(s, NotNewline) && !IsLengthQuery(s)
    ensures GetQueryTuple(Some(ArrayField), field, s) == Some((field + "__contains", StrList([s])))
  {
    assert FirstMatch(ArrayRules, s) == Some(2) by {
      LengthRuleOnly("_eq", s);
      LengthRuleOnly("_gt", s);
      MatchRun("", NotNewline, "", s);
      assert "" + s + "" == s;
      FirstMatchIsUnique(ArrayRules, s, 2);
    }
    NoLengthInContains();
    CaptureLookup(Some(ArrayField), field, s, 2);
  }

  /** Once entry `k` is the first match and captures, the lookup is the field plus its suffix. */
  lemma CaptureLookup(fieldType: Option<string>, field: string, value: string, k: nat)
    requires FirstMatch(OperatorLookup(fieldType), value) == Some(k)
    requires OperatorLookup(fieldType)[k].action == Capture
    ensures var rule := OperatorLookup(fieldType)[k];
      GetQueryTuple(fieldType, field, value) ==
        Some((field + rule.lookup,
              if fieldType == Some(ArrayField) && !Contains(rule.lookup, "__len") then StrList([value])
              else Str(Match(rule.pattern, value).value)))
  {
  }

  lemma LengthRuleOnly(pre: string, s: string)
    requires pre == "_eq" || pre == "_gt"
    requires !IsLengthQuery(s)
    ensures Match(Run(pre, Digit, ""), s).None?
  {
    if |s| > 3 && s[..3] == pre {
      assert s[3..|s| - 0] == s[3..];
    }
  }

  lemma NoLengthInContains()
    ensures !Contains("__contains", "__len")
  {
    var s := "__contains";
    assert forall i :: 0 <= i < |s| ==> s[i] != 'l';
    MissingCharNotFound(s, "__len", 2);
  }

  /** A string lacking one of the characters of `sub` does not contain `sub`. */
  lemma {:induction false} MissingCharNotFound(s: string, sub: string, k: nat)
    requires k < |sub| && forall i :: 0 <= i < |s| ==> s[i] != sub[k]
    ensures IndexOf(s, sub) == None
    decreases |s|
  {
    if |s| >= |sub| {
      assert s[..|sub|][k] != sub[k];
      MissingCharNotFound(s[1..], sub, k);
    }
  }
}
