/** The two-layer guardrail decision over one input or output
    (app/modules/guardrails/engine.py). */
module Guardrails {
  import opened Common

  datatype Validation = Sentence | FullText

  /** Layer 1: which local classifiers run, and where each one blocks. */
  datatype Bert = Bert(
    enabled: bool,
    blockAt: real,
    escalateAt: real,
    checkToxicity: bool,
    checkNsfw: bool,
    nsfwAt: real,
    nsfwValidation: Validation,
    checkInjection: bool,
    injectionAt: real,
    checkGibberish: bool,
    gibberishAt: real,
    gibberishValidation: Validation)

  datatype Policy = Policy(bert: Bert, bedrockEnabled: bool, guardrailId: Option<string>)

  datatype Source = OnBert | OnBedrock
  datatype Action = Block | Pass | Escalate
  datatype Reason =
    | Toxicity | Safe | Unsure | Nsfw | PromptInjection | Gibberish
    | Unavailable | Intervened | Passed | MockedPass | NotConfigured

  datatype Layer = Layer(source: Source, action: Action, confidence: Option<real>, reason: Reason)

  datatype Decision = Decision(blocked: bool, layers: seq<Layer>, sanitised: Option<string>)

  /** What Bedrock does when it is called. */
  datatype Answer = CallFails | Answered(intervened: bool, output: Option<string>)

  // ----- classifiers -----

  type Classifier = string -> real

  datatype ModelKey = ModelKey(model: string, keyword: string)

  /** The classifier factory and the sentence splitter, as the engine finds them. */
  datatype Models = Models(factory: ModelKey -> Classifier, pieces: string -> seq<string>)

  const TOXICITY := ModelKey("unitary/toxic-bert", "toxic")
  const NSFW := ModelKey("eliasalbouzidi/distilbert-nsfw-text-classifier", "nsfw")
  const INJECTION := ModelKey("protectai/deberta-v3-base-prompt-injection-v2", "injection")
  const GIBBERISH := ModelKey("madhurjindal/autonlp-Gibberish-Detector", "gibberish")

  function Sentences(m: Models, text: string): (r: seq<string>)
    ensures r != []
  {
    if m.pieces(text) == [] then [text] else m.pieces(text)
  }

  /** The largest score of any sentence. */
  function Highest(c: Classifier, sentences: seq<string>): (r: real)
    requires sentences != []
    ensures exists k :: 0 <= k < |sentences| && r == c(sentences[k])
    ensures forall k :: 0 <= k < |sentences| ==> c(sentences[k]) <= r
  {
    var last := c(sentences[|sentences| - 1]);
    if |sentences| == 1 then last
    else
      var rest := Highest(c, sentences[..|sentences| - 1]);
      if last > rest then last else rest
  }

  function Score(m: Models, key: ModelKey, text: string, v: Validation): real {
    if v.FullText? then m.factory(key)(text) else Highest(m.factory(key), Sentences(m, text))
  }

  // ----- the decision -----

  /** One single-threshold check that is switched on. */
  datatype Check = Check(score: real, threshold: real, reason: Reason)

  function Fires(c: Check): bool {
    c.score > c.threshold
  }

  function NsfwCheck(m: Models, b: Bert, text: string): seq<Check> {
    if b.checkNsfw then [Check(Score(m, NSFW, text, b.nsfwValidation), b.nsfwAt, Nsfw)] else []
  }

  function InjectionCheck(m: Models, b: Bert, text: string): seq<Check> {
    if b.checkInjection then [Check(Score(m, INJECTION, text, FullText), b.injectionAt, PromptInjection)] else []
  }

  function GibberishCheck(m: Models, b: Bert, text: string): seq<Check> {
    if b.checkGibberish then [Check(Score(m, GIBBERISH, text, b.gibberishValidation), b.gibberishAt, Gibberish)] else []
  }

  function Checks(m: Models, b: Bert, text: string): seq<Check> {
    NsfwCheck(m, b, text) + InjectionCheck(m, b, text) + GibberishCheck(m, b, text)
  }

  function CheckLayer(c: Check): Layer {
    Layer(OnBert, if Fires(c) then Block else Pass, Some(c.score), c.reason)
  }

  /** The layers of the checks that run: all of them, or up to the first that fires. */
  function Ran(checks: seq<Check>): seq<Layer>
    decreases |checks|
  {
    if checks == [] then []
    else if Fires(checks[0]) then [CheckLayer(checks[0])]
    else [CheckLayer(checks[0])] + Ran(checks[1..])
  }

  lemma {:induction false} RanConcat(a: seq<Check>, b: seq<Check>)
    ensures Ran(a + b) == if AnyFires(a) then Ran(a) else Ran(a) + Ran(b)
    ensures AnyFires(a + b) <==> AnyFires(a) || AnyFires(b)
  {
    FiresConcat(a, b);
    RanOnward(a, b);
  }

  lemma {:induction false} RanOnward(a: seq<Check>, b: seq<Check>)
    ensures Ran(a + b) == if AnyFires(a) then Ran(a) else Ran(a) + Ran(b)
    decreases |a|
  {
    if a == [] {
      assert a + b == b;
    } else {
      var rest, layer := a[1..], [CheckLayer(a[0])];
      assert (a + b)[0] == a[0] && (a + b)[1..] == rest + b;
      FiresHead(a);
      if !Fires(a[0]) {
        RanOnward(rest, b);
        assert Ran(a + b) == layer + Ran(rest + b) && Ran(a) == layer + Ran(rest);
        assert layer + (Ran(rest) + Ran(b)) == layer + Ran(rest) + Ran(b);
      }
    }
  }

  lemma {:induction false} FiresHead(a: seq<Check>)
    requires a != []
    ensures AnyFires(a) <==> Fires(a[0]) || AnyFires(a[1..])
  {
    FiresConcat([a[0]], a[1..]);
    assert a == [a[0]] + a[1..];
  }

  lemma {:induction false} FiresConcat(a: seq<Check>, b: seq<Check>)
    ensures AnyFires(a + b) <==> AnyFires(a) || AnyFires(b)
  {
    assert forall k :: 0 <= k < |a| ==> (a + b)[k] == a[k];
    assert forall k :: 0 <= k < |b| ==> (a + b)[|a| + k] == b[k];
  }

  /** One more stage, when nothing fired so far: at most one check is appended. */
  lemma {:induction false} RanNext(before: seq<Layer>, done: seq<Check>, next: seq<Check>, layers: seq<Layer>, blocks: bool)
    requires !AnyFires(done) && |next| <= 1
    requires layers == before + Ran(done) + (if next == [] then [] else [CheckLayer(next[0])])
    requires blocks == (next != [] && Fires(next[0]))
    ensures layers == before + Ran(done + next) && blocks == AnyFires(done + next)
  {
    RanConcat(done, next);
    if next != [] {
      assert next[1..] == [];
      assert Ran(next) == [CheckLayer(next[0])];
    }
  }

  predicate AnyFires(checks: seq<Check>) {
    exists k :: 0 <= k < |checks| && Fires(checks[k])
  }

  function ToxicityLayer(b: Bert, score: real): Layer {
    if score > b.blockAt then Layer(OnBert, Block, Some(score), Toxicity)
    else if score < b.escalateAt then Layer(OnBert, Pass, Some(score), Safe)
    else Layer(OnBert, Escalate, Some(score), Unsure)
  }

  predicate Configured(p: Policy) {
    p.bedrockEnabled && p.guardrailId.Some? && p.guardrailId.value != ""
  }

  function BedrockLayer(mock: bool, answer: Answer): Layer {
    if mock then Layer(OnBedrock, Pass, None, MockedPass)
    else if answer.CallFails? then Layer(OnBedrock, Block, None, Unavailable)
    else if answer.intervened then Layer(OnBedrock, Block, None, Intervened)
    else Layer(OnBedrock, Pass, None, Passed)
  }

  const UNCONFIGURED := Layer(OnBedrock, Pass, None, NotConfigured)

  /** Layer 1's toxicity verdict, if that check runs. */
  function Toxic(m: Models, b: Bert, text: string): seq<Layer> {
    if b.enabled && b.checkToxicity then [ToxicityLayer(b, m.factory(TOXICITY)(text))] else []
  }

  function Binary(m: Models, b: Bert, text: string): seq<Check> {
    if b.enabled then Checks(m, b, text) else []
  }

  /** Layer 2 is asked unless layer 1 blocked or found the text clearly safe. */
  predicate Consults(m: Models, p: Policy, text: string) {
    && Configured(p)
    && !AnyFires(Binary(m, p.bert, text))
    && (p.bert.enabled && p.bert.checkToxicity ==> ToxicityLayer(p.bert, m.factory(TOXICITY)(text)).action == Escalate)
  }

  /** The decision once layer 1 has not blocked. */
  function Concluded(mock: bool, p: Policy, layers: seq<Layer>, safe: bool, answer: Answer): Decision {
    if safe then Decision(false, layers, None)
    else if Configured(p) then
      Decision(BedrockLayer(mock, answer).action == Block, layers + [BedrockLayer(mock, answer)], None)
    else if layers != [] && layers[|layers| - 1].action == Escalate then Decision(false, layers + [UNCONFIGURED], None)
    else Decision(false, layers, None)
  }

  function Decide(m: Models, mock: bool, p: Policy, text: string, answer: Answer): Decision {
    var toxic := Toxic(m, p.bert, text);
    if toxic != [] && toxic[0].action == Block then Decision(true, toxic, None)
    else
      var layers := toxic + Ran(Binary(m, p.bert, text));
      if AnyFires(Binary(m, p.bert, text)) then Decision(true, layers, None)
      else Concluded(mock, p, layers, toxic != [] && toxic[0].action == Pass, answer)
  }

  function Sanitised(text: string, mock: bool, answer: Answer): string {
    if mock || answer.CallFails? || answer.output.None? then text else answer.output.value
  }

  function DecideOutput(mock: bool, p: Policy, text: string, answer: Answer): Decision {
    if !Configured(p) then Decision(false, [UNCONFIGURED], None)
    else
      var layer := BedrockLayer(mock, answer);
      if layer.action == Block then Decision(true, [layer], None)
      else Decision(false, [layer], if Sanitised(text, mock, answer) == text then None else Some(Sanitised(text, mock, answer)))
  }

  // ----- the engine -----

  class GuardrailEngine {
    const models: Models
    const mock: bool
    var classifiers: map<ModelKey, Classifier>

    /** The cache holds only what the factory makes. */
    ghost predicate Valid()
      reads this
    {
      forall k :: k in classifiers ==> classifiers[k] == models.factory(k)
    }

    constructor (models: Models, mock: bool)
      ensures Valid() && this.models == models && this.mock == mock
    {
      this.models := models;
      this.mock := mock;
      this.classifiers := map[];
    }

    method ClassifierFor(key: ModelKey) returns (c: Classifier)
      requires Valid()
      modifies this
      ensures Valid() && c == models.factory(key)
      ensures classifiers.Keys == old(classifiers.Keys) + {key}
    {
      if key !in classifiers {
        classifiers := classifiers[key := models.factory(key)];
      }
      return classifiers[key];
    }

    method ScoreWithValidation(c: Classifier, text: string, v: Validation) returns (score: real)
      ensures score == if v.FullText? then c(text) else Highest(c, Sentences(models, text))
    {
      if v.FullText? {
        return c(text);
      }
      var sentences := Sentences(models, text);
      score := c(sentences[0]);
      assert sentences[..1] == [sentences[0]];
      for k := 1 to |sentences|
        invariant score == Highest(c, sentences[..k])
      {
        var next := c(sentences[k]);
        assert sentences[..k + 1][..k] == sentences[..k];
        if next > score {
          score := next;
        }
      }
      assert sentences[..|sentences|] == sentences;
    }

    /** One single-threshold check, appended to the layers; whether it blocks. */
    method RunBinaryCheck(text: string, key: ModelKey, threshold: real, v: Validation, reason: Reason, layers: seq<Layer>)
      returns (now: seq<Layer>, blocks: bool)
      requires Valid()
      modifies this
      ensures Valid()
      ensures var check := Check(Score(models, key, text, v), threshold, reason);
              now == layers + [CheckLayer(check)] && blocks == Fires(check)
    {
      var classifier := ClassifierFor(key);
      var score := ScoreWithValidation(classifier, text, v);
      if score > threshold {
        return layers + [Layer(OnBert, Block, Some(score), reason)], true;
      }
      return layers + [Layer(OnBert, Pass, Some(score), reason)], false;
    }

    method CallBedrock(text: string, answer: Answer) returns (layer: Layer, sanitised: string)
      ensures layer == BedrockLayer(mock, answer) && sanitised == Sanitised(text, mock, answer)
    {
      if mock {
        return Layer(OnBedrock, Pass, None, MockedPass), text;
      }
      if answer.CallFails? {
        return Layer(OnBedrock, Block, None, Unavailable), text;
      }
      sanitised := if answer.output.Some? then answer.output.value else text;
      layer := if answer.intervened then Layer(OnBedrock, Block, None, Intervened)
               else Layer(OnBedrock, Pass, None, Passed);
    }

    /** The three single-threshold checks in order, stopping at the first that fires. */
    method RunChecks(text: string, b: Bert, before: seq<Layer>) returns (layers: seq<Layer>, blocks: bool)
      requires Valid()
      modifies this
      ensures Valid()
      ensures layers == before + Ran(Checks(models, b, text)) && blocks == AnyFires(Checks(models, b, text))
    {
      layers, blocks := before, false;
      ghost var done: seq<Check> := [];
      if b.checkNsfw {
        layers, blocks := RunBinaryCheck(text, NSFW, b.nsfwAt, b.nsfwValidation, Nsfw, layers);
      }
      RanNext(before, done, NsfwCheck(models, b, text), layers, blocks);
      done := NsfwCheck(models, b, text);
      if !blocks && b.checkInjection {
        layers, blocks := RunBinaryCheck(text, INJECTION, b.injectionAt, FullText, PromptInjection, layers);
      }
      if !AnyFires(done) {
        RanNext(before, done, InjectionCheck(models, b, text), layers, blocks);
      }
      RanConcat(done, InjectionCheck(models, b, text));
      done := done + InjectionCheck(models, b, text);
      if !blocks && b.checkGibberish {
        layers, blocks := RunBinaryCheck(text, GIBBERISH, b.gibberishAt, b.gibberishValidation, Gibberish, layers);
      }
      if !AnyFires(done) {
        RanNext(before, done, GibberishCheck(models, b, text), layers, blocks);
      }
      RanConcat(done, GibberishCheck(models, b, text));
    }

    /** Layer 2, unless toxicity was clearly safe. */
    method Conclude(text: string, p: Policy, before: seq<Layer>, safe: bool, answer: Answer) returns (d: Decision)
      ensures d == Concluded(mock, p, before, safe, answer)
    {
      var layers := before;
      if safe {
        return Decision(false, layers, None);
      }
      if Configured(p) {
        var layer, _ := CallBedrock(text, answer);
        layers := layers + [layer];
        if layer.action == Block {
          return Decision(true, layers, None);
        }
      } else if layers != [] && layers[|layers| - 1].action == Escalate {
        layers := layers + [UNCONFIGURED];
      }
      return Decision(false, layers, None);
    }

    method CheckInput(text: string, p: Policy, answer: Answer) returns (d: Decision)
      requires Valid()
      modifies this
      ensures Valid()
      ensures d == Decide(models, mock, p, text, answer)
    {
      var layers: seq<Layer> := [];
      var resolvedSafe := false;
      if p.bert.enabled {
        if p.bert.checkToxicity {
          var classifier := ClassifierFor(TOXICITY);
          var score := classifier(text);
          if score > p.bert.blockAt {
            return Decision(true, [Layer(OnBert, Block, Some(score), Toxicity)], None);
          }
          if score < p.bert.escalateAt {
            layers := [Layer(OnBert, Pass, Some(score), Safe)];
            resolvedSafe := true;
          } else {
            layers := [Layer(OnBert, Escalate, Some(score), Unsure)];
          }
        }
        assert layers == Toxic(models, p.bert, text);
        var blocks;
        layers, blocks := RunChecks(text, p.bert, layers);
        if blocks {
          return Decision(true, layers, None);
        }
      }
      assert layers == Toxic(models, p.bert, text) + Ran(Binary(models, p.bert, text));
      d := Conclude(text, p, layers, resolvedSafe, answer);
    }

    method CheckOutput(text: string, p: Policy, answer: Answer) returns (d: Decision)
      ensures d == DecideOutput(mock, p, text, answer)
    {
      if !Configured(p) {
        return Decision(false, [UNCONFIGURED], None);
      }
      var layer, sanitised := CallBedrock(text, answer);
      if layer.action == Block {
        return Decision(true, [layer], None);
      }
      return Decision(false, [layer], if sanitised != text then Some(sanitised) else None);
    }
  }

  // ----- what the decisions guarantee -----

  /** Exactly one layer blocks, and it is the last one. */
  predicate LastAloneBlocks(layers: seq<Layer>) {
    && layers != [] && layers[|layers| - 1].action == Block
    && forall k :: 0 <= k < |layers| - 1 ==> layers[k].action != Block
  }

  predicate NoneBlocks(layers: seq<Layer>) {
    forall k :: 0 <= k < |layers| ==> layers[k].action != Block
  }

  lemma {:induction false} BlocksConcat(a: seq<Layer>, b: seq<Layer>)
    ensures NoneBlocks(a + b) <==> NoneBlocks(a) && NoneBlocks(b)
    ensures b != [] ==> (LastAloneBlocks(a + b) <==> NoneBlocks(a) && LastAloneBlocks(b))
    ensures b == [] ==> a + b == a
  {
    forall k | 0 <= k < |a|
      ensures a[k] == (a + b)[k]
    {
    }
    forall k | 0 <= k < |b|
      ensures b[k] == (a + b)[|a| + k]
    {
    }
  }

  lemma {:induction false} RanShape(checks: seq<Check>)
    ensures if AnyFires(checks) then LastAloneBlocks(Ran(checks))
            else |Ran(checks)| == |checks| && forall k :: 0 <= k < |checks| ==> Ran(checks)[k] == CheckLayer(checks[k])
    decreases |checks|
  {
    if checks != [] {
      RanShape(checks[1..]);
      assert checks == [checks[0]] + checks[1..];
      assert AnyFires(checks) <==> Fires(checks[0]) || AnyFires(checks[1..]);
    }
  }

  /** An input is blocked exactly when one layer blocks it, and then nothing ran after it;
      an input that is not blocked carries no blocking layer. */
  lemma {:induction false} InputBlockedIffLastBlocks(m: Models, mock: bool, p: Policy, text: string, answer: Answer)
    ensures var d := Decide(m, mock, p, text, answer);
            && (d.blocked <==> LastAloneBlocks(d.layers)) && (!d.blocked <==> NoneBlocks(d.layers))
            && d.sanitised == None
  {
    var toxic, ran := Toxic(m, p.bert, text), Ran(Binary(m, p.bert, text));
    RanShape(Binary(m, p.bert, text));
    BlocksConcat(toxic, ran);
    if !(toxic != [] && toxic[0].action == Block) && !AnyFires(Binary(m, p.bert, text)) {
      ConcludedShape(mock, p, toxic + ran, toxic != [] && toxic[0].action == Pass, answer);
    }
  }

  lemma {:induction false} ConcludedShape(mock: bool, p: Policy, layers: seq<Layer>, safe: bool, answer: Answer)
    requires NoneBlocks(layers)
    ensures var d := Concluded(mock, p, layers, safe, answer);
            && (d.blocked <==> LastAloneBlocks(d.layers)) && (!d.blocked <==> NoneBlocks(d.layers)) && d.sanitised == None
  {
    BlocksConcat(layers, [BedrockLayer(mock, answer)]);
    BlocksConcat(layers, [UNCONFIGURED]);
  }

  lemma {:induction false} OutputBlockedIffLastBlocks(mock: bool, p: Policy, text: string, answer: Answer)
    ensures var d := DecideOutput(mock, p, text, answer);
            && |d.layers| == 1 && (d.blocked <==> LastAloneBlocks(d.layers)) && (!d.blocked <==> NoneBlocks(d.layers))
            && d.sanitised == (if p.bedrockEnabled && p.guardrailId != None && p.guardrailId != Some("") && !mock && answer.Answered?
                                  && !answer.intervened && answer.output != Some(text) then answer.output else None)
  {
  }

  /** What blocks an input, outright: toxicity, a single-threshold check, or the answer of
      a consulted layer 2; and what blocks an output. A layer 2 call that raises counts as
      a refusal in both. */
  lemma {:induction false} BlockedIff(m: Models, mock: bool, p: Policy, text: string, answer: Answer)
    ensures Decide(m, mock, p, text, answer).blocked <==>
            || (p.bert.enabled && p.bert.checkToxicity && m.factory(TOXICITY)(text) > p.bert.blockAt)
            || AnyFires(Binary(m, p.bert, text))
            || (Consults(m, p, text) && !mock && (answer.CallFails? || answer.intervened))
    ensures DecideOutput(mock, p, text, answer).blocked <==>
              Configured(p) && !mock && (answer.CallFails? || answer.intervened)
  {
  }

  /** A score over a threshold: the whole text's, or that of some sentence, which is the
      whole text when there are none. */
  predicate Over(m: Models, key: ModelKey, text: string, v: Validation, threshold: real) {
    if v == FullText || m.pieces(text) == [] then m.factory(key)(text) > threshold
    else exists k :: 0 <= k < |m.pieces(text)| && m.factory(key)(m.pieces(text)[k]) > threshold
  }

  lemma {:induction false} OverIff(m: Models, key: ModelKey, text: string, v: Validation, threshold: real)
    ensures Over(m, key, text, v, threshold) <==> Score(m, key, text, v) > threshold
  {
  }

  /** The same from the settings alone. */
  lemma {:induction false} DecidedBy(m: Models, mock: bool, p: Policy, text: string, answer: Answer)
    ensures var b, toxicity := p.bert, m.factory(ModelKey("unitary/toxic-bert", "toxic"))(text);
            var local := b.enabled && ((b.checkToxicity && toxicity > b.blockAt) || SomeCheckIsOver(m, b, text));
            var asked := p.bedrockEnabled && p.guardrailId != None && p.guardrailId != Some("")
                         && !local && (b.enabled && b.checkToxicity ==> b.escalateAt <= toxicity);
            Decide(m, mock, p, text, answer).blocked <==> local || (asked && !mock && (answer == CallFails || answer.intervened))
  {
    BlockedIff(m, mock, p, text, answer);
    FiresIff(m, p.bert, text);
    OverIff(m, NSFW, text, p.bert.nsfwValidation, p.bert.nsfwAt);
    OverIff(m, INJECTION, text, FullText, p.bert.injectionAt);
    OverIff(m, GIBBERISH, text, p.bert.gibberishValidation, p.bert.gibberishAt);
  }

  predicate SomeCheckIsOver(m: Models, b: Bert, text: string) {
    || (b.checkNsfw
        && Over(m, ModelKey("eliasalbouzidi/distilbert-nsfw-text-classifier", "nsfw"), text, b.nsfwValidation, b.nsfwAt))
    || (b.checkInjection
        && Over(m, ModelKey("protectai/deberta-v3-base-prompt-injection-v2", "injection"), text, FullText, b.injectionAt))
    || (b.checkGibberish
        && Over(m, ModelKey("madhurjindal/autonlp-Gibberish-Detector", "gibberish"), text, b.gibberishValidation, b.gibberishAt))
  }

  /** Where toxicity is checked its verdict is the first layer. */
  lemma {:induction false} ToxicityLeads(m: Models, mock: bool, p: Policy, text: string, answer: Answer)
    requires p.bert.enabled && p.bert.checkToxicity
    ensures var d, score := Decide(m, mock, p, text, answer), m.factory(TOXICITY)(text);
            && d.layers != []
            && d.layers[0] == (if score > p.bert.blockAt then Layer(OnBert, Block, Some(score), Toxicity)
                               else if score < p.bert.escalateAt then Layer(OnBert, Pass, Some(score), Safe)
                               else Layer(OnBert, Escalate, Some(score), Unsure))
  {}

  /** The last layer of an input blocked by a check: the first check in order whose score is
      over its threshold, with that score. */
  lemma {:induction false} BlockedByCheck(m: Models, mock: bool, p: Policy, text: string, answer: Answer)
    requires AnyFires(Binary(m, p.bert, text)) && (p.bert.checkToxicity ==> m.factory(TOXICITY)(text) <= p.bert.blockAt)
    ensures var d, b := Decide(m, mock, p, text, answer), p.bert;
            var nsfw := Score(m, NSFW, text, b.nsfwValidation);
            var injection, gibberish := Score(m, INJECTION, text, FullText), Score(m, GIBBERISH, text, b.gibberishValidation);
            && d.blocked && d.layers != []
            && d.layers[|d.layers| - 1] ==
               if b.checkNsfw && nsfw > b.nsfwAt then Layer(OnBert, Block, Some(nsfw), Nsfw)
               else if b.checkInjection && injection > b.injectionAt then Layer(OnBert, Block, Some(injection), PromptInjection)
               else Layer(OnBert, Block, Some(gibberish), Gibberish)
  {
    FiresIff(m, p.bert, text);
    RanEnds(m, p.bert, text);
    var toxic, ran := Toxic(m, p.bert, text), Ran(Checks(m, p.bert, text));
    assert Decide(m, mock, p, text, answer).layers == toxic + ran;
    assert (toxic + ran)[|toxic + ran| - 1] == ran[|ran| - 1];
  }

  /** The last layer of one blocked by neither toxicity nor a check: layer 2's answer. */
  lemma {:induction false} BlockedByBedrock(m: Models, mock: bool, p: Policy, text: string, answer: Answer)
    requires Decide(m, mock, p, text, answer).blocked && !AnyFires(Binary(m, p.bert, text))
    requires p.bert.enabled && p.bert.checkToxicity ==> m.factory(TOXICITY)(text) <= p.bert.blockAt
    ensures var layers := Decide(m, mock, p, text, answer).layers;
            && layers != []
            && layers[|layers| - 1] == Layer(OnBedrock, Block, None, if answer == CallFails then Unavailable else Intervened)
  {}

  /** The checks that run end with the first that fires. */
  lemma {:induction false} RanEnds(m: Models, b: Bert, text: string)
    requires AnyFires(Checks(m, b, text))
    ensures var ran := Ran(Checks(m, b, text));
            var nsfw, injection := NsfwCheck(m, b, text), InjectionCheck(m, b, text);
            && ran != []
            && ran[|ran| - 1] == CheckLayer(if nsfw != [] && Fires(nsfw[0]) then nsfw[0]
                                            else if injection != [] && Fires(injection[0]) then injection[0]
                                            else if b.checkGibberish then GibberishCheck(m, b, text)[0] else Check(0.0, 0.0, Gibberish))
  {
    var nsfw, injection, gibberish := NsfwCheck(m, b, text), InjectionCheck(m, b, text), GibberishCheck(m, b, text);
    RanConcat(nsfw, injection);
    RanConcat(nsfw + injection, gibberish);
    RanOne(nsfw);
    RanOne(injection);
    RanOne(gibberish);
  }

  lemma {:induction false} RanOne(checks: seq<Check>)
    requires |checks| <= 1
    ensures checks != [] ==> Ran(checks) == [CheckLayer(checks[0])]
    ensures AnyFires(checks) <==> checks != [] && Fires(checks[0])
  {
    if checks != [] {
      assert checks[1..] == [];
    }
  }

  /** The same switches, with no threshold higher. */
  predicate Stricter(b: Bert, than: Bert) {
    && b.enabled == than.enabled && b.checkToxicity == than.checkToxicity && b.checkNsfw == than.checkNsfw
    && b.checkInjection == than.checkInjection && b.checkGibberish == than.checkGibberish
    && b.nsfwValidation == than.nsfwValidation && b.gibberishValidation == than.gibberishValidation
    && b.blockAt <= than.blockAt && b.escalateAt <= than.escalateAt && b.nsfwAt <= than.nsfwAt
    && b.injectionAt <= than.injectionAt && b.gibberishAt <= than.gibberishAt
  }

  /** Lowering thresholds never lets a blocked input through. */
  lemma {:induction false} LoweringIsSafe(m: Models, mock: bool, p: Policy, b: Bert, text: string, answer: Answer)
    requires Stricter(b, p.bert)
    ensures Decide(m, mock, p, text, answer).blocked ==> Decide(m, mock, p.(bert := b), text, answer).blocked
  {
    BlockedIff(m, mock, p, text, answer);
    BlockedIff(m, mock, p.(bert := b), text, answer);
    StricterFires(m, p.bert, b, text);
  }

  lemma {:induction false} StricterFires(m: Models, b: Bert, strict: Bert, text: string)
    requires Stricter(strict, b)
    ensures AnyFires(Binary(m, b, text)) ==> AnyFires(Binary(m, strict, text))
  {
    FiresIff(m, b, text);
    FiresIff(m, strict, text);
  }

  /** Which of the checks can fire, one by one. */
  lemma {:induction false} FiresIff(m: Models, b: Bert, text: string)
    ensures AnyFires(Binary(m, b, text)) <==>
            b.enabled && (|| (b.checkNsfw && Score(m, NSFW, text, b.nsfwValidation) > b.nsfwAt)
                          || (b.checkInjection && Score(m, INJECTION, text, FullText) > b.injectionAt)
                          || (b.checkGibberish && Score(m, GIBBERISH, text, b.gibberishValidation) > b.gibberishAt))
  {
    var nsfw, injection, gibberish := NsfwCheck(m, b, text), InjectionCheck(m, b, text), GibberishCheck(m, b, text);
    RanConcat(nsfw, injection);
    RanConcat(nsfw + injection, gibberish);
    assert AnyFires(nsfw) <==> nsfw != [] && Fires(nsfw[0]);
    assert AnyFires(injection) <==> injection != [] && Fires(injection[0]);
    assert AnyFires(gibberish) <==> gibberish != [] && Fires(gibberish[0]);
  }

  /** Switching the toxicity check on is not lowering a threshold: it lets a blocked input
      through exactly when only layer 2 blocked it and the score is clearly safe. */
  lemma {:induction false} ToxicityCheckCanAllow(m: Models, mock: bool, p: Policy, text: string, answer: Answer)
    requires p.bert.enabled && !p.bert.checkToxicity
    ensures var on, score := p.(bert := p.bert.(checkToxicity := true)), m.factory(TOXICITY)(text);
            Decide(m, mock, p, text, answer).blocked && !Decide(m, mock, on, text, answer).blocked <==>
              && !AnyFires(Binary(m, p.bert, text)) && Configured(p) && !mock && (answer.CallFails? || answer.intervened)
              && score <= p.bert.blockAt && score < p.bert.escalateAt
  {
    var on := p.(bert := p.bert.(checkToxicity := true));
    BlockedIff(m, mock, p, text, answer);
    BlockedIff(m, mock, on, text, answer);
    assert Binary(m, on.bert, text) == Binary(m, p.bert, text);
  }

  /** An unsure toxicity score with no layer 2 to ask is let through; the layer noting that
      is there exactly when no other check is switched on. */
  lemma {:induction false} NotedIffAlone(m: Models, mock: bool, p: Policy, text: string, answer: Answer)
    requires p.bert.enabled && p.bert.checkToxicity && !Configured(p)
    requires ToxicityLayer(p.bert, m.factory(TOXICITY)(text)).action == Escalate && !AnyFires(Binary(m, p.bert, text))
    ensures var d := Decide(m, mock, p, text, answer);
            && !d.blocked
            && (UNCONFIGURED in d.layers <==> !p.bert.checkNsfw && !p.bert.checkInjection && !p.bert.checkGibberish)
  {
    RanShape(Binary(m, p.bert, text));
  }

  // ----- the policy of the document scan -----

  /** Only the prompt-injection classifier, at its default threshold. */
  const INJECTION_ONLY := Policy(
    Bert(true, 0.85, 0.40, false, false, 0.80, Sentence, true, 0.30, false, 0.50, Sentence), false, None)

  lemma {:induction false} InjectionOnlyBlocksIff(m: Models, mock: bool, text: string, answer: Answer)
    ensures Decide(m, mock, INJECTION_ONLY, text, answer).blocked <==> m.factory(INJECTION)(text) > 0.30
  {
    BlockedIff(m, mock, INJECTION_ONLY, text, answer);
    assert Binary(m, INJECTION_ONLY.bert, text) == [Check(m.factory(INJECTION)(text), 0.30, PromptInjection)];
  }
}
