/** The impact of a configuration change: which rules its fields match, the level they add
    up to and the validations they demand (app/modules/change_impact/analyzer.py, rules.py). */
module ChangeImpact {
  import opened Common

  // ----- the rules table -----

  datatype Level = LOW | MEDIUM | HIGH | CRITICAL

  function Rank(l: Level): nat {
    match l
    case LOW => 0
    case MEDIUM => 1
    case HIGH => 2
    case CRITICAL => 3
  }

  function Higher(a: Level, b: Level): Level {
    if Rank(a) >= Rank(b) then a else b
  }

  datatype Validation =
    | PROMPT_EVALUATION | GUARDRAIL_TESTS | MODEL_EVALUATION | SAFETY_TESTS | FULL_SECURITY
    | RAG_EVALUATION | FULL_GUARDRAIL_REGRESSION | TOOL_SECURITY | INTEGRATION_TESTS | IAC_SCAN
    | SAST | DEPENDENCY_SCAN | POLICY_VALIDATION | SECURITY_SCAN | CONTAINER_SCAN | FULL_REGRESSION

  /** The keys of the rules table. */
  datatype Rule =
    | SystemPrompt | ModelId | ModelProvider | Temperature | MaxTokens
    | KnowledgeBase | Guardrails | ToolAdded | ToolRemoved | ToolEndpoint | HumanReview
    | TokenBudgetDaily | RateLimitRpm
    | LambdaCode | IamPolicy | NetworkConfig | ContainerImage | RuntimeUpgrade

  function Key(r: Rule): string {
    match r
    case SystemPrompt => "system_prompt"
    case ModelId => "model_id"
    case ModelProvider => "model_provider"
    case Temperature => "temperature"
    case MaxTokens => "max_tokens"
    case KnowledgeBase => "knowledge_base.*"
    case Guardrails => "guardrails.*"
    case ToolAdded => "tools[*].add"
    case ToolRemoved => "tools[*].remove"
    case ToolEndpoint => "tools[*].endpoint"
    case HumanReview => "human_review.*"
    case TokenBudgetDaily => "token_budget_daily"
    case RateLimitRpm => "rate_limit_rpm"
    case LambdaCode => "lambda_code"
    case IamPolicy => "iam_policy"
    case NetworkConfig => "network_config"
    case ContainerImage => "container_image"
    case RuntimeUpgrade => "runtime_upgrade"
  }

  const RULES: seq<Rule> := [
    SystemPrompt, ModelId, ModelProvider, Temperature, MaxTokens, KnowledgeBase, Guardrails, ToolAdded, ToolRemoved,
    ToolEndpoint, HumanReview, TokenBudgetDaily, RateLimitRpm, LambdaCode, IamPolicy, NetworkConfig, ContainerImage,
    RuntimeUpgrade]

  function LevelOf(r: Rule): Level {
    match r
    case SystemPrompt | KnowledgeBase | ToolRemoved | HumanReview => MEDIUM
    case ModelId | ModelProvider | Guardrails | ToolAdded | ToolEndpoint | LambdaCode | IamPolicy | NetworkConfig => HIGH
    case Temperature | MaxTokens | TokenBudgetDaily | RateLimitRpm => LOW
    case ContainerImage | RuntimeUpgrade => CRITICAL
  }

  function Demands(r: Rule): seq<Validation> {
    match r
    case SystemPrompt => [PROMPT_EVALUATION, GUARDRAIL_TESTS]
    case ModelId => [MODEL_EVALUATION, SAFETY_TESTS]
    case ModelProvider => [MODEL_EVALUATION, SAFETY_TESTS, FULL_SECURITY]
    case Temperature => [PROMPT_EVALUATION]
    case MaxTokens => [PROMPT_EVALUATION]
    case KnowledgeBase => [RAG_EVALUATION]
    case Guardrails => [FULL_GUARDRAIL_REGRESSION]
    case ToolAdded => [TOOL_SECURITY, INTEGRATION_TESTS, IAC_SCAN]
    case ToolRemoved => [INTEGRATION_TESTS]
    case ToolEndpoint => [TOOL_SECURITY, INTEGRATION_TESTS]
    case HumanReview => [INTEGRATION_TESTS]
    case TokenBudgetDaily => []
    case RateLimitRpm => []
    case LambdaCode => [SAST, DEPENDENCY_SCAN, INTEGRATION_TESTS]
    case IamPolicy => [IAC_SCAN, POLICY_VALIDATION]
    case NetworkConfig => [IAC_SCAN, SECURITY_SCAN]
    case ContainerImage => [FULL_SECURITY, CONTAINER_SCAN, FULL_REGRESSION]
    case RuntimeUpgrade => [FULL_SECURITY, FULL_REGRESSION]
  }

  // ----- which rules a field matches -----

  datatype Kind = Changed | Added | Removed

  /** One entry of a diff; of its value only whether it is null matters. */
  datatype Entry = Entry(kind: Kind, field: string, isNull: bool)

  /** The rule whose key the field is, looked up from some position of the table on. */
  function Named(field: string, rules: seq<Rule>): seq<Rule>
    decreases |rules|
  {
    if rules == [] then [] else if Key(rules[0]) == field then [rules[0]] else Named(field, rules[1..])
  }

  datatype Wildcard = Wildcard(rule: Rule, prefix: string)

  const WILDCARDS: seq<Wildcard> := [
    Wildcard(KnowledgeBase, "knowledge_base"), Wildcard(Guardrails, "guardrails"), Wildcard(HumanReview, "human_review")]

  /** The field is the block or lies in it, and is not an optional block that stays unset. */
  predicate Hits(w: Wildcard, e: Entry) {
    && (e.field == w.prefix || w.prefix + "." <= e.field)
    && !(e.field == w.prefix && !e.kind.Changed? && e.isNull)
  }

  function WildcardRules(e: Entry, ws: seq<Wildcard>): seq<Rule>
    decreases |ws|
  {
    if ws == [] then []
    else WildcardRules(e, ws[..|ws| - 1]) + if Hits(ws[|ws| - 1], e) then [ws[|ws| - 1].rule] else []
  }

  /** `tools[` digits `]`, the ending, and a newline the pattern's end tolerates. */
  predicate ToolPath(digit: char -> bool, field: string, ending: string) {
    exists n :: 0 < n <= |field| && ToolPathAt(digit, field, ending, n)
  }

  predicate ToolPathAt(digit: char -> bool, field: string, ending: string, n: nat) {
    && |field| >= 6 + n && field[..6] == "tools["
    && (forall k :: 6 <= k < 6 + n ==> digit(field[k]))
    && (field[6 + n..] == "]" + ending || field[6 + n..] == "]" + ending + "\n")
  }

  function ToolRules(digit: char -> bool, e: Entry): seq<Rule> {
    if ToolPath(digit, e.field, "") then
      match e.kind
      case Added => [ToolAdded]
      case Removed => [ToolRemoved]
      case Changed => []
    else if e.kind.Changed? && ToolPath(digit, e.field, ".endpoint") then [ToolEndpoint]
    else []
  }

  /** The tables a field is looked up in, and what the patterns take for a digit. */
  datatype Tables = Tables(rules: seq<Rule>, wildcards: seq<Wildcard>, digit: char -> bool)

  function Shipped(digit: char -> bool): Tables {
    Tables(RULES, WILDCARDS, digit)
  }

  function FieldRules(t: Tables, e: Entry): seq<Rule> {
    Named(e.field, t.rules) + WildcardRules(e, t.wildcards) + ToolRules(t.digit, e)
  }

  lemma {:induction false} NamedIs(field: string, rules: seq<Rule>)
    ensures forall r :: r in Named(field, rules) ==> r in rules && Key(r) == field
    ensures Named(field, rules) == [] <==> forall k :: 0 <= k < |rules| ==> Key(rules[k]) != field
    decreases |rules|
  {
    if rules != [] && Key(rules[0]) != field {
      NamedIs(field, rules[1..]);
      assert forall k :: 1 <= k < |rules| ==> rules[k] == rules[1..][k - 1];
    }
  }

  lemma {:induction false} WildcardsAre(e: Entry, ws: seq<Wildcard>, r: Rule)
    ensures r in WildcardRules(e, ws) <==> exists k :: 0 <= k < |ws| && Hits(ws[k], e) && ws[k].rule == r
    decreases |ws|
  {
    if ws != [] {
      var rest := ws[..|ws| - 1];
      WildcardsAre(e, rest, r);
      assert forall k :: 0 <= k < |rest| ==> rest[k] == ws[k];
    }
  }

  /** Nothing but a rule of the table is ever matched. */
  lemma {:induction false} OnlyTableRules(digit: char -> bool, e: Entry, r: Rule)
    requires r in FieldRules(Shipped(digit), e)
    ensures r in RULES
  {
    NamedIs(e.field, RULES);
    WildcardsAre(e, WILDCARDS, r);
  }

  /** The table by its keys: which of them have which level, and which demand what. */
  lemma {:induction false} TableIs(r: Rule)
    ensures r in RULES && (forall q :: Key(q) == Key(r) ==> q == r)
    ensures var key := Key(r);
            && (LevelOf(r) == CRITICAL <==> key in {"container_image", "runtime_upgrade"})
            && (LevelOf(r) == HIGH <==> key in {"model_id", "model_provider", "guardrails.*", "tools[*].add", "tools[*].endpoint",
                                                "lambda_code", "iam_policy", "network_config"})
            && (LevelOf(r) == MEDIUM <==> key in {"system_prompt", "knowledge_base.*", "tools[*].remove", "human_review.*"})
            && (LevelOf(r) == LOW <==> key in {"temperature", "max_tokens", "token_budget_daily", "rate_limit_rpm"})
  {
    InTable(r);
    forall q | Key(q) == Key(r)
      ensures q == r
    {
      KeysDiffer(q, r);
    }
  }

  /** The keys that demand a validation. */
  function KeysDemanding(v: Validation): set<string> {
    match v
    case PROMPT_EVALUATION => {"system_prompt", "temperature", "max_tokens"}
    case GUARDRAIL_TESTS => {"system_prompt"}
    case MODEL_EVALUATION => {"model_id", "model_provider"}
    case SAFETY_TESTS => {"model_id", "model_provider"}
    case FULL_SECURITY => {"model_provider", "container_image", "runtime_upgrade"}
    case RAG_EVALUATION => {"knowledge_base.*"}
    case FULL_GUARDRAIL_REGRESSION => {"guardrails.*"}
    case TOOL_SECURITY => {"tools[*].add", "tools[*].endpoint"}
    case INTEGRATION_TESTS => {"tools[*].add", "tools[*].remove", "tools[*].endpoint", "human_review.*", "lambda_code"}
    case IAC_SCAN => {"tools[*].add", "iam_policy", "network_config"}
    case SAST => {"lambda_code"}
    case DEPENDENCY_SCAN => {"lambda_code"}
    case POLICY_VALIDATION => {"iam_policy"}
    case SECURITY_SCAN => {"network_config"}
    case CONTAINER_SCAN => {"container_image"}
    case FULL_REGRESSION => {"container_image", "runtime_upgrade"}
  }

  /** The table the other way round. */
  lemma {:induction false} DemandedBy(r: Rule, v: Validation)
    ensures v in Demands(r) <==> Key(r) in KeysDemanding(v)
  {
    if LevelOf(r) == HIGH {
      HighDemandedBy(r, v);
    } else {
      OtherDemandedBy(r, v);
    }
  }

  lemma {:induction false} HighDemandedBy(r: Rule, v: Validation)
    requires LevelOf(r) == HIGH
    ensures v in Demands(r) <==> Key(r) in KeysDemanding(v)
  {}

  lemma {:induction false} OtherDemandedBy(r: Rule, v: Validation)
    requires LevelOf(r) != HIGH
    ensures v in Demands(r) <==> Key(r) in KeysDemanding(v)
  {}

  lemma {:induction false} InTable(r: Rule)
    ensures r in RULES
  {
    assert RULES[0] == SystemPrompt && RULES[1] == ModelId && RULES[2] == ModelProvider && RULES[3] == Temperature;
    assert RULES[4] == MaxTokens && RULES[5] == KnowledgeBase && RULES[6] == Guardrails && RULES[7] == ToolAdded;
    assert RULES[8] == ToolRemoved && RULES[9] == ToolEndpoint && RULES[10] == HumanReview && RULES[11] == TokenBudgetDaily;
    assert RULES[12] == RateLimitRpm && RULES[13] == LambdaCode && RULES[14] == IamPolicy && RULES[15] == NetworkConfig;
    assert RULES[16] == ContainerImage && RULES[17] == RuntimeUpgrade;
  }

  lemma {:induction false} KeysDiffer(q: Rule, r: Rule)
    requires Key(q) == Key(r)
    ensures q == r
  {
  }

  /** `field` is the path of the tool with this number, with the ending given. */
  predicate IsToolPath(digit: char -> bool, field: string, number: string, ending: string) {
    && number != "" && (forall k :: 0 <= k < |number| ==> digit(number[k]))
    && (field == "tools[" + number + ("]" + ending) || field == "tools[" + number + ("]" + ending + "\n"))
  }

  /** A tool path names one numbered tool, with the ending given, and may end in a newline. */
  lemma {:induction false} ToolPathIs(digit: char -> bool, field: string, ending: string)
    ensures ToolPath(digit, field, ending) <==> exists number :: IsToolPath(digit, field, number, ending)
  {
    if ToolPath(digit, field, ending) {
      var n :| 0 < n <= |field| && ToolPathAt(digit, field, ending, n);
      assert field == field[..6] + field[6..6 + n] + field[6 + n..];
      assert IsToolPath(digit, field, field[6..6 + n], ending);
    }
    if number :| IsToolPath(digit, field, number, ending) {
      PathHasNumber(digit, field, number, ending);
    }
  }

  lemma {:induction false} PathHasNumber(digit: char -> bool, field: string, number: string, ending: string)
    requires IsToolPath(digit, field, number, ending)
    ensures ToolPath(digit, field, ending)
  {
    var n, rest := |number|, if field == "tools[" + number + ("]" + ending) then "]" + ending else "]" + ending + "\n";
    assert field == "tools[" + number + rest;
    assert field[..6] == "tools[" && field[6 + n..] == rest;
    assert forall k :: 6 <= k < 6 + n ==> field[k] == number[k - 6];
    assert ToolPathAt(digit, field, ending, n);
  }

  /** A block that is set, or anything in it. */
  predicate InBlock(e: Entry, block: string) {
    (e.field == block && (e.kind == Changed || !e.isNull)) || block + "." <= e.field
  }

  predicate ByTool(digit: char -> bool, e: Entry, r: Rule) {
    || (r == ToolAdded && e.kind == Added && ToolPath(digit, e.field, ""))
    || (r == ToolRemoved && e.kind == Removed && ToolPath(digit, e.field, ""))
    || (r == ToolEndpoint && e.kind == Changed && ToolPath(digit, e.field, ".endpoint") && !ToolPath(digit, e.field, ""))
  }

  predicate ByBlock(e: Entry, r: Rule) {
    || (r == KnowledgeBase && InBlock(e, "knowledge_base"))
    || (r == Guardrails && InBlock(e, "guardrails"))
    || (r == HumanReview && InBlock(e, "human_review"))
  }

  /** Which rules of the shipped table an entry matches, outright. */
  lemma {:induction false} FieldRulesAre(digit: char -> bool, e: Entry, r: Rule)
    ensures r in FieldRules(Shipped(digit), e) <==> e.field == Key(r) || ByBlock(e, r) || ByTool(digit, e, r)
  {
    NamedAre(e.field, RULES, r);
    InTable(r);
    BlocksAre(e, r);
    ToolsAre(digit, e, r);
  }

  lemma {:induction false} ToolsAre(digit: char -> bool, e: Entry, r: Rule)
    ensures r in ToolRules(digit, e) <==> ByTool(digit, e, r)
  {
  }

  lemma {:induction false} BlocksAre(e: Entry, r: Rule)
    ensures r in WildcardRules(e, WILDCARDS) <==> ByBlock(e, r)
  {
    WildcardsAre(e, WILDCARDS, r);
    HitsIs(WILDCARDS[0], e);
    HitsIs(WILDCARDS[1], e);
    HitsIs(WILDCARDS[2], e);
  }

  lemma {:induction false} HitsIs(w: Wildcard, e: Entry)
    ensures Hits(w, e) <==> InBlock(e, w.prefix)
  {
  }

  lemma {:induction false} NamedAre(field: string, rules: seq<Rule>, r: Rule)
    ensures r in Named(field, rules) <==> r in rules && Key(r) == field
    decreases |rules|
  {
    if rules != [] {
      assert rules == [rules[0]] + rules[1..];
      if Key(rules[0]) == field {
        if Key(r) == field {
          KeysDiffer(r, rules[0]);
        }
      } else {
        NamedAre(field, rules[1..], r);
      }
    }
  }

  // ----- keeping first occurrences -----

  function Dedupe<T(==)>(items: seq<T>): seq<T>
    decreases |items|
  {
    if items == [] then []
    else
      var rest, last := Dedupe(items[..|items| - 1]), items[|items| - 1];
      if last in rest then rest else rest + [last]
  }

  /** Nothing twice, and nothing gained or lost. */
  lemma {:induction false} DedupeIsASet<T>(items: seq<T>)
    ensures Distinct(Dedupe(items))
    ensures forall x :: x in Dedupe(items) <==> x in items
    decreases |items|
  {
    if items != [] {
      var rest := items[..|items| - 1];
      DedupeIsASet(rest);
      assert items == rest + [items[|items| - 1]];
    }
  }

  lemma {:induction false} InDedupe<T>(items: seq<T>, x: T)
    ensures x in Dedupe(items) <==> x in items
  {
    DedupeIsASet(items);
  }

  /** The position of the first occurrence. */
  function First<T(==)>(x: T, items: seq<T>): (i: nat)
    requires x in items
    ensures i < |items| && items[i] == x && x !in items[..i]
    decreases |items|
  {
    if items[0] == x then 0 else 1 + First(x, items[1..])
  }

  /** What comes first in the list comes first in the result. */
  lemma {:induction false} DedupeKeepsOrder<T>(items: seq<T>, i: nat, j: nat)
    requires i < j < |Dedupe(items)|
    ensures Dedupe(items)[i] in items && Dedupe(items)[j] in items
    ensures First(Dedupe(items)[i], items) < First(Dedupe(items)[j], items)
    decreases |items|
  {
    DedupeIsASet(items);
    var rest, last := items[..|items| - 1], items[|items| - 1];
    DedupeIsASet(rest);
    var x, y := Dedupe(items)[i], Dedupe(items)[j];
    assert items == rest + [last] && rest <= items;
    if j < |Dedupe(rest)| {
      assert x == Dedupe(rest)[i] && y == Dedupe(rest)[j];
      DedupeKeepsOrder(rest, i, j);
      FirstInPrefix(x, rest, items);
      FirstInPrefix(y, rest, items);
    } else {
      assert Dedupe(items) == Dedupe(rest) + [last];
      assert x == Dedupe(rest)[i];
      assert x in Dedupe(rest) && last !in Dedupe(rest);
      InDedupe(rest, x);
      InDedupe(rest, last);
      FirstInPrefix(x, rest, items);
      FirstUnique(y, items, |rest|);
    }
  }

  lemma {:induction false} FirstUnique<T>(x: T, items: seq<T>, i: nat)
    requires i < |items| && items[i] == x && x !in items[..i]
    ensures First(x, items) == i
    decreases |items|
  {
    if i > 0 {
      assert items[0] in items[..i] && items[1..][..i - 1] == items[..i][1..];
      FirstUnique(x, items[1..], i - 1);
    }
  }

  lemma {:induction false} FirstInPrefix<T>(x: T, rest: seq<T>, items: seq<T>)
    requires rest <= items && x in rest
    ensures x in items && First(x, items) == First(x, rest)
  {
    var i := First(x, rest);
    assert items[i] == x && items[..i] == rest[..i];
    FirstUnique(x, items, i);
  }

  /** Deduplicating a prefix first makes no difference; in particular twice is once. */
  lemma {:induction false} DedupeAbsorbs<T>(a: seq<T>, b: seq<T>)
    ensures Dedupe(Dedupe(a) + b) == Dedupe(a + b)
    decreases |b|
  {
    if b == [] {
      assert Dedupe(a) + b == Dedupe(a) && a + b == a;
      DedupeIsASet(a);
      DistinctIsItself(Dedupe(a));
    } else {
      var rest, last := b[..|b| - 1], b[|b| - 1];
      DedupeAbsorbs(a, rest);
      assert (Dedupe(a) + b)[..|Dedupe(a) + b| - 1] == Dedupe(a) + rest;
      assert (a + b)[..|a + b| - 1] == a + rest;
    }
  }

  lemma {:induction false} DistinctIsItself<T>(items: seq<T>)
    requires Distinct(items)
    ensures Dedupe(items) == items
    decreases |items|
  {
    if items != [] {
      var rest := items[..|items| - 1];
      DistinctIsItself(rest);
      assert items == rest + [items[|items| - 1]];
    }
  }

  // ----- the analysis -----

  /** The rules each entry matches. */
  type Matcher = Entry -> seq<Rule>

  function MatcherOf(t: Tables): Matcher {
    e => FieldRules(t, e)
  }

  datatype Analysis = Analysis(level: Level, validations: seq<Validation>, matched: seq<Rule>)

  function Matches(f: Matcher, es: seq<Entry>): seq<Rule>
    decreases |es|
  {
    if es == [] then [] else Matches(f, es[..|es| - 1]) + f(es[|es| - 1])
  }

  function Highest(rules: seq<Rule>): Level
    decreases |rules|
  {
    if rules == [] then LOW else Higher(Highest(rules[..|rules| - 1]), LevelOf(rules[|rules| - 1]))
  }

  function AllDemands(rules: seq<Rule>): seq<Validation>
    decreases |rules|
  {
    if rules == [] then [] else AllDemands(rules[..|rules| - 1]) + Demands(rules[|rules| - 1])
  }

  function Summary(matched: seq<Rule>): Analysis {
    Analysis(Highest(matched), Dedupe(AllDemands(matched)), matched)
  }

  function Analysed(f: Matcher, es: seq<Entry>): Analysis {
    Summary(Dedupe(Matches(f, es)))
  }

  /** A field of a diff, and whether its value is null. */
  datatype Field = Field(name: string, isNull: bool)

  /** A diff lists what changed, then what was added, then what was removed. */
  datatype Diff = Diff(changed: seq<Field>, added: seq<Field>, removed: seq<Field>)

  function Tagged(fields: seq<Field>, kind: Kind): (es: seq<Entry>)
    ensures |es| == |fields|
    ensures forall k :: 0 <= k < |fields| ==> es[k] == Entry(kind, fields[k].name, fields[k].isNull)
  {
    seq(|fields|, k requires 0 <= k < |fields| => Entry(kind, fields[k].name, fields[k].isNull))
  }

  function Entries(d: Diff): seq<Entry> {
    Tagged(d.changed, Changed) + Tagged(d.added, Added) + Tagged(d.removed, Removed)
  }

  /** The entries, list by list. */
  lemma {:induction false} EntriesAre(d: Diff)
    ensures |Entries(d)| == |d.changed| + |d.added| + |d.removed|
    ensures forall k :: 0 <= k < |d.changed| ==> Entries(d)[k] == Entry(Changed, d.changed[k].name, d.changed[k].isNull)
    ensures forall k :: 0 <= k < |d.added| ==>
              Entries(d)[|d.changed| + k] == Entry(Added, d.added[k].name, d.added[k].isNull)
    ensures forall k :: 0 <= k < |d.removed| ==>
              Entries(d)[|d.changed| + |d.added| + k] == Entry(Removed, d.removed[k].name, d.removed[k].isNull)
  {}

  class ChangeImpactAnalyzer {
    const tables: Tables

    constructor (digit: char -> bool)
      ensures tables == Shipped(digit)
    {
      this.tables := Shipped(digit);
    }

    method DedupeList<T(==)>(items: seq<T>) returns (ordered: seq<T>)
      ensures ordered == Dedupe(items)
    {
      ordered := [];
      var seen: set<T> := {};
      for i := 0 to |items|
        invariant ordered == Dedupe(items[..i])
        invariant forall x :: x in seen <==> x in ordered
      {
        assert items[..i + 1][..i] == items[..i];
        if items[i] !in seen {
          seen := seen + {items[i]};
          ordered := ordered + [items[i]];
        }
      }
      assert items[..|items|] == items;
    }

    method MatchField(e: Entry) returns (rules: seq<Rule>)
      ensures rules == MatcherOf(tables)(e)
    {
      rules := Named(e.field, tables.rules);
      ghost var named := rules;
      for i := 0 to |tables.wildcards|
        invariant rules == named + WildcardRules(e, tables.wildcards[..i])
      {
        var w := tables.wildcards[i];
        assert tables.wildcards[..i + 1][..i] == tables.wildcards[..i];
        if e.field != w.prefix && !(w.prefix + "." <= e.field) {
          continue;
        }
        if e.field == w.prefix && (e.kind.Added? || e.kind.Removed?) && e.isNull {
          continue;
        }
        rules := rules + [w.rule];
      }
      assert tables.wildcards[..|tables.wildcards|] == tables.wildcards;
      if ToolPath(tables.digit, e.field, "") {
        if e.kind.Added? {
          rules := rules + [ToolAdded];
        } else if e.kind.Removed? {
          rules := rules + [ToolRemoved];
        }
      } else if e.kind.Changed? && ToolPath(tables.digit, e.field, ".endpoint") {
        rules := rules + [ToolEndpoint];
      }
    }

    method MatchEntries(fields: seq<Field>, kind: Kind, before: seq<Rule>) returns (rules: seq<Rule>)
      ensures rules == before + Matches(MatcherOf(tables), Tagged(fields, kind))
    {
      rules := before;
      ghost var es := Tagged(fields, kind);
      for i := 0 to |fields|
        invariant rules == before + Matches(MatcherOf(tables), es[..i])
      {
        MatchesStep(MatcherOf(tables), es, i, before);
        var more := MatchField(Entry(kind, fields[i].name, fields[i].isNull));
        rules := rules + more;
      }
      assert es[..|es|] == es;
    }

    method Summarise(matched: seq<Rule>) returns (a: Analysis)
      ensures a == Summary(matched)
    {
      if matched == [] {
        return Analysis(LOW, [], []);
      }
      var level, demanded := LOW, [];
      for i := 0 to |matched|
        invariant level == Highest(matched[..i]) && demanded == AllDemands(matched[..i])
      {
        assert matched[..i + 1][..i] == matched[..i];
        level := Higher(level, LevelOf(matched[i]));
        demanded := demanded + Demands(matched[i]);
      }
      assert matched[..|matched|] == matched;
      var validations := DedupeList(demanded);
      return Analysis(level, validations, matched);
    }

    method AnalyzeDiff(d: Diff) returns (a: Analysis)
      ensures a == Analysed(MatcherOf(tables), Entries(d))
    {
      var all := MatchEntries(d.changed, Changed, []);
      all := MatchEntries(d.added, Added, all);
      all := MatchEntries(d.removed, Removed, all);
      MatchesOfDiff(MatcherOf(tables), d);
      var matched := DedupeList(all);
      a := Summarise(matched);
    }
  }

  /** One more entry's rules at the end of the list. */
  lemma {:induction false} MatchesStep(f: Matcher, es: seq<Entry>, i: nat, before: seq<Rule>)
    requires i < |es|
    ensures before + Matches(f, es[..i + 1]) == before + Matches(f, es[..i]) + f(es[i])
  {
    assert es[..i + 1][..i] == es[..i];
  }

  lemma {:induction false} MatchesConcat(f: Matcher, a: seq<Entry>, b: seq<Entry>)
    ensures Matches(f, a + b) == Matches(f, a) + Matches(f, b)
    decreases |b|
  {
    if b == [] {
      assert a + b == a;
    } else {
      assert (a + b)[..|a + b| - 1] == a + b[..|b| - 1];
      MatchesConcat(f, a, b[..|b| - 1]);
    }
  }

  /** The three loops run over the entries in order. */
  lemma {:induction false} MatchesOfDiff(f: Matcher, d: Diff)
    ensures [] + Matches(f, Tagged(d.changed, Changed)) + Matches(f, Tagged(d.added, Added)) + Matches(f, Tagged(d.removed, Removed))
            == Matches(f, Entries(d))
  {
    MatchesConcat(f, Tagged(d.changed, Changed), Tagged(d.added, Added));
    MatchesConcat(f, Tagged(d.changed, Changed) + Tagged(d.added, Added), Tagged(d.removed, Removed));
  }

  // ----- what an analysis means -----

  predicate Touches(f: Matcher, es: seq<Entry>, r: Rule) {
    exists k :: 0 <= k < |es| && r in f(es[k])
  }

  lemma {:induction false} MatchesAre(f: Matcher, es: seq<Entry>, r: Rule)
    ensures r in Matches(f, es) <==> Touches(f, es, r)
    decreases |es|
  {
    if es != [] {
      var rest, last := es[..|es| - 1], es[|es| - 1];
      MatchesAre(f, rest, r);
      assert es == rest + [last];
      assert Touches(f, es, r) <==> Touches(f, rest, r) || r in f(last);
    }
  }

  lemma {:induction false} HighestIs(rules: seq<Rule>)
    ensures forall k :: 0 <= k < |rules| ==> Rank(LevelOf(rules[k])) <= Rank(Highest(rules))
    ensures Highest(rules) == LOW || exists k :: 0 <= k < |rules| && LevelOf(rules[k]) == Highest(rules)
    decreases |rules|
  {
    if rules != [] {
      HighestIs(rules[..|rules| - 1]);
    }
  }

  lemma {:induction false} DemandsAre(rules: seq<Rule>, v: Validation)
    ensures v in AllDemands(rules) <==> exists k :: 0 <= k < |rules| && v in Demands(rules[k])
    decreases |rules|
  {
    if rules != [] {
      var rest := rules[..|rules| - 1];
      DemandsAre(rest, v);
      assert rules == rest + [rules[|rules| - 1]];
      assert forall k :: 0 <= k < |rest| ==> rest[k] == rules[k];
    }
  }

  /** The analysis, outright: a rule is reported when some entry matches it; the level is
      the highest of theirs, or LOW; a validation is required when one of them demands it;
      nothing is listed twice. */
  lemma {:induction false} AnalysisIs(f: Matcher, es: seq<Entry>)
    ensures var a := Analysed(f, es);
            && Distinct(a.matched) && Distinct(a.validations)
            && (forall r :: r in a.matched <==> Touches(f, es, r))
            && (forall r :: Touches(f, es, r) ==> Rank(LevelOf(r)) <= Rank(a.level))
            && (a.level == LOW || exists r :: Touches(f, es, r) && LevelOf(r) == a.level)
            && (forall v :: v in a.validations <==> exists r :: Touches(f, es, r) && v in Demands(r))
  {
    var a := Analysed(f, es);
    DedupeIsASet(Matches(f, es));
    DedupeIsASet(AllDemands(a.matched));
    forall r
      ensures r in a.matched <==> Touches(f, es, r)
    {
      MatchesAre(f, es, r);
    }
    HighestIs(a.matched);
    forall v
      ensures v in a.validations <==> exists r :: Touches(f, es, r) && v in Demands(r)
    {
      DemandsAre(a.matched, v);
    }
  }

  /** More entries never mean less impact, and only which entries there are matters: if
      every entry of one list is in the other, its level is no higher and its validations
      and rules are among the other's. Two orders of the same entries thus agree. */
  lemma {:induction false} ImpactIsMonotone(f: Matcher, few: seq<Entry>, many: seq<Entry>)
    requires forall e :: e in few ==> e in many
    ensures Rank(Analysed(f, few).level) <= Rank(Analysed(f, many).level)
    ensures forall v :: v in Analysed(f, few).validations ==> v in Analysed(f, many).validations
    ensures forall r :: r in Analysed(f, few).matched ==> r in Analysed(f, many).matched
  {
    AnalysisIs(f, few);
    AnalysisIs(f, many);
    forall r | Touches(f, few, r)
      ensures Touches(f, many, r)
    {
      var k :| 0 <= k < |few| && r in f(few[k]);
      assert few[k] in many;
    }
  }

  function Joined(a: Diff, b: Diff): Diff {
    Diff(a.changed + b.changed, a.added + b.added, a.removed + b.removed)
  }

  /** Two diffs together have the higher of their levels and the union of their rules and
      validations. */
  lemma {:induction false} ImpactIsAJoin(f: Matcher, a: Diff, b: Diff)
    ensures var x, y, z := Analysed(f, Entries(a)), Analysed(f, Entries(b)), Analysed(f, Entries(Joined(a, b)));
            && z.level == Higher(x.level, y.level)
            && (forall v :: v in z.validations <==> v in x.validations || v in y.validations)
            && (forall r :: r in z.matched <==> r in x.matched || r in y.matched)
  {
    forall r
      ensures Touches(f, Entries(Joined(a, b)), r) <==> Touches(f, Entries(a), r) || Touches(f, Entries(b), r)
    {
      TouchesJoined(f, a, b, r);
    }
    JoinedLevel(f, Entries(a), Entries(b), Entries(Joined(a, b)));
    JoinedLists(f, Entries(a), Entries(b), Entries(Joined(a, b)));
  }

  lemma {:induction false} JoinedLevel(f: Matcher, a: seq<Entry>, b: seq<Entry>, both: seq<Entry>)
    requires forall r :: Touches(f, both, r) <==> Touches(f, a, r) || Touches(f, b, r)
    ensures Analysed(f, both).level == Higher(Analysed(f, a).level, Analysed(f, b).level)
  {
    AnalysisIs(f, a);
    AnalysisIs(f, b);
    AnalysisIs(f, both);
  }

  lemma {:induction false} JoinedLists(f: Matcher, a: seq<Entry>, b: seq<Entry>, both: seq<Entry>)
    requires forall r :: Touches(f, both, r) <==> Touches(f, a, r) || Touches(f, b, r)
    ensures var x, y, z := Analysed(f, a), Analysed(f, b), Analysed(f, both);
            && (forall v :: v in z.validations <==> v in x.validations || v in y.validations)
            && (forall r :: r in z.matched <==> r in x.matched || r in y.matched)
  {
    AnalysisIs(f, a);
    AnalysisIs(f, b);
    AnalysisIs(f, both);
  }

  lemma {:induction false} TouchesJoined(f: Matcher, a: Diff, b: Diff, r: Rule)
    ensures Touches(f, Entries(Joined(a, b)), r) <==> Touches(f, Entries(a), r) || Touches(f, Entries(b), r)
  {
    TouchesBoth(f, a.changed, b.changed, Changed, r);
    TouchesBoth(f, a.added, b.added, Added, r);
    TouchesBoth(f, a.removed, b.removed, Removed, r);
    TouchesThree(f, a, r);
    TouchesThree(f, b, r);
    TouchesThree(f, Joined(a, b), r);
  }

  lemma {:induction false} TouchesBoth(f: Matcher, a: seq<Field>, b: seq<Field>, kind: Kind, r: Rule)
    ensures Touches(f, Tagged(a + b, kind), r) <==> Touches(f, Tagged(a, kind), r) || Touches(f, Tagged(b, kind), r)
  {
    assert Tagged(a + b, kind) == Tagged(a, kind) + Tagged(b, kind);
    TouchesConcat(f, Tagged(a, kind), Tagged(b, kind), r);
  }

  lemma {:induction false} TouchesThree(f: Matcher, d: Diff, r: Rule)
    ensures Touches(f, Entries(d), r) <==>
            || Touches(f, Tagged(d.changed, Changed), r) || Touches(f, Tagged(d.added, Added), r) || Touches(f, Tagged(d.removed, Removed), r)
  {
    TouchesConcat(f, Tagged(d.changed, Changed), Tagged(d.added, Added), r);
    TouchesConcat(f, Tagged(d.changed, Changed) + Tagged(d.added, Added), Tagged(d.removed, Removed), r);
  }

  lemma {:induction false} TouchesConcat(f: Matcher, a: seq<Entry>, b: seq<Entry>, r: Rule)
    ensures Touches(f, a + b, r) <==> Touches(f, a, r) || Touches(f, b, r)
  {
    MatchesConcat(f, a, b);
    MatchesAre(f, a, r);
    MatchesAre(f, b, r);
    MatchesAre(f, a + b, r);
  }
}
