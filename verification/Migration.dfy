/** Migration recommendations, and the guard around a language model's choice among them. */
module Migration {
  import opened Basics
  import opened Json
  import opened Rounding

  // ----- The policy's recommendation -----

  datatype Kind = Pqc | SafeClassical | Hash | Symmetric | Signature | UnknownKind | OtherKind(name: string)

  datatype Strategy = Hybrid | Replace | NoChange

  datatype Phase = HybridFirst | ReplaceNow | Monitor

  datatype Candidate = Candidate(kind: Kind, purpose: string, hybridSet: seq<string>, replaceSet: seq<string>,
                                 weak: bool, longTermHybrid: seq<string>, longTermReplace: seq<string>)

  datatype Asset = Asset(algorithm: string, family: string, assetType: string)

  datatype Context = Context(lifespan: real, public: bool, critical: bool, sensitiveRole: bool, longTerm: bool)

  datatype Capability = RuntimePqc | ConfigPolicy | RescanValidation | RollbackSupported | OtherCapability(name: string)

  datatype Blocker = RuntimeUnknown | PolicyMissing | ProbeMissing | RollbackUndefined | ClassificationUnknown

  datatype Recommendation = Recommendation(
    strategy: Strategy, target: string, targetSet: seq<string>, finalSet: seq<string>, phase: Phase,
    blockers: seq<Blocker>, rollback: string, validation: seq<string>, rationale: string, confidence: real)

  datatype Alternative = Alternative(strategy: Strategy, target: string, tradeOff: string)

  datatype Item = Item(asset: Asset, purpose: string, recommendation: Recommendation, alternatives: seq<Alternative>)

  /** An arbitrary rule table: which rules match, the candidate a rule gives, and the wording. */
  datatype Policy<!R> = Policy(
    rules: seq<R>, matches: (R, Asset) -> bool, candidate: (R, Asset) -> Candidate,
    rollback: (Strategy, string) -> string, validation: (Strategy, string) -> seq<string>,
    rationale: (Strategy, string, string, Context, Candidate) -> string, tradeOff: string)

  function FirstRule<R>(p: Policy<R>, a: Asset, rules: seq<R>): Option<R> {
    if rules == [] then None else if p.matches(rules[0], a) then Some(rules[0]) else FirstRule(p, a, rules[1..])
  }

  function CandidateFor<R>(p: Policy<R>, a: Asset): Candidate {
    match FirstRule(p, a, p.rules)
    case Some(rule) => p.candidate(rule, a)
    case None => Candidate(UnknownKind, "unknown", [a.algorithm], [a.algorithm], false, [], [])
  }

  function Specialized(c: Candidate, ctx: Context): Candidate {
    if c.kind == Signature && c.longTermReplace != [] && ctx.longTerm then
      c.(purpose := "long_term_signature",
         hybridSet := if c.longTermHybrid != [] then c.longTermHybrid else c.hybridSet,
         replaceSet := c.longTermReplace)
    else c
  }

  function ChooseStrategy(c: Candidate, ctx: Context): Strategy {
    if c.kind == Pqc || c.kind == SafeClassical then NoChange
    else if c.kind == Hash || c.kind == Symmetric || c.weak then Replace
    else if c.kind == UnknownKind then Hybrid
    else if ctx.lifespan >= 10.0 then Hybrid
    else if ctx.public && ctx.critical then Hybrid
    else if ctx.sensitiveRole then Hybrid
    else Hybrid
  }

  function When(b: bool, x: Blocker): seq<Blocker> {
    if b then [x] else []
  }

  function Blockers(s: Strategy, capabilities: set<Capability>, c: Candidate): seq<Blocker> {
    When(s != NoChange && RuntimePqc !in capabilities, RuntimeUnknown)
    + When(s != NoChange && ConfigPolicy !in capabilities, PolicyMissing)
    + When(s != NoChange && RescanValidation !in capabilities, ProbeMissing)
    + When(s != NoChange && RollbackSupported !in capabilities, RollbackUndefined)
    + When(c.kind == UnknownKind, ClassificationUnknown)
  }

  function ConfidenceFor(s: Strategy, blockers: nat): real {
    var base := if s == NoChange then 0.9 else 0.82;
    var reduced := base - blockers as real * 0.05;
    Round(if reduced > 0.45 then reduced else 0.45, Two)
  }

  function OrElse(a: seq<string>, b: seq<string>): seq<string> {
    if a != [] then a else b
  }

  function Join(parts: seq<string>): string {
    if parts == [] then "" else if |parts| == 1 then parts[0] else parts[0] + " + " + Join(parts[1..])
  }

  function BuildRecommendation<R>(p: Policy<R>, a: Asset, ctx: Context, capabilities: set<Capability>,
      c: Candidate): Recommendation {
    var strategy := ChooseStrategy(c, ctx);
    var final := OrElse(c.replaceSet, c.hybridSet);
    var target := if strategy == Hybrid then final else c.replaceSet;
    var blockers := Blockers(strategy, capabilities, c);
    var algorithm := if target != [] then Join(target) else a.algorithm;
    Recommendation(
      strategy, algorithm, OrElse(target, [a.algorithm]), OrElse(OrElse(final, target), [a.algorithm]),
      match strategy { case Hybrid => HybridFirst case Replace => ReplaceNow case NoChange => Monitor },
      blockers, p.rollback(strategy, a.algorithm), p.validation(strategy, a.assetType),
      p.rationale(strategy, a.algorithm, algorithm, ctx, c), ConfidenceFor(strategy, |blockers|))
  }

  function BuildAlternatives<R>(p: Policy<R>, r: Recommendation): seq<Alternative> {
    if r.strategy != Hybrid || Join(r.finalSet) == r.target then []
        else [Alternative(Replace, Join(r.finalSet), p.tradeOff)]
  }

  function Recommend<R>(p: Policy<R>, a: Asset, ctx: Context, capabilities: set<Capability>): Item {
    var c := Specialized(CandidateFor(p, a), ctx);
    var r := BuildRecommendation(p, a, ctx, capabilities, c);
    Item(a, c.purpose, r, BuildAlternatives(p, r))
  }

  /** The branch that offers an alternative is never taken. */
  lemma NoAlternatives<R>(p: Policy<R>, a: Asset, ctx: Context, capabilities: set<Capability>)
    ensures Recommend(p, a, ctx, capabilities).alternatives == []
  {
    var c := Specialized(CandidateFor(p, a), ctx);
    if OrElse(c.replaceSet, c.hybridSet) == [] {
      assert Join([a.algorithm]) == a.algorithm;
    }
  }

  /** The target text is its algorithm set joined, the set is never empty, and a transition ends where it starts. */
  lemma RecommendationConsistent<R>(p: Policy<R>, a: Asset, ctx: Context, capabilities: set<Capability>)
    ensures
      var r := Recommend(p, a, ctx, capabilities).recommendation;
      && r.targetSet != [] && r.target == Join(r.targetSet)
      && (r.strategy == Hybrid ==> r.finalSet == r.targetSet && r.phase == HybridFirst)
      && (r.strategy == NoChange <==> r.phase == Monitor)
      && (r.strategy != Hybrid && r.finalSet != r.targetSet ==> r.targetSet == [a.algorithm])
  {
    var c := Specialized(CandidateFor(p, a), ctx);
    assert Join([a.algorithm]) == a.algorithm;
    if c.replaceSet == [] {
      assert OrElse(c.replaceSet, [a.algorithm]) == [a.algorithm];
    }
  }

  /** The strategy by the candidate alone; no context changes it. */
  lemma StrategyExactly(c: Candidate, ctx: Context)
    ensures ChooseStrategy(c, ctx) == NoChange <==> c.kind in {Pqc, SafeClassical}
    ensures ChooseStrategy(c, ctx) == Replace <==>
      c.kind !in {Pqc, SafeClassical} && (c.kind in {Hash, Symmetric} || c.weak)
    ensures ChooseStrategy(c, ctx) == Hybrid <==>
      c.kind !in {Pqc, SafeClassical, Hash, Symmetric} && !c.weak
  {
  }

  /** The first matching rule decides, and an unmatched asset keeps its algorithm. */
  lemma {:induction false} FirstRuleExact<R>(p: Policy<R>, a: Asset, rules: seq<R>)
    ensures FirstRule(p, a, rules).None? <==> forall i :: 0 <= i < |rules| ==> !p.matches(rules[i], a)
    ensures FirstRule(p, a, rules).Some? ==>
      exists i :: (0 <= i < |rules| && rules[i] == FirstRule(p, a, rules).value && p.matches(rules[i], a)
                   && forall j :: 0 <= j < i ==> !p.matches(rules[j], a))
  {
    if rules != [] && !p.matches(rules[0], a) {
      FirstRuleExact(p, a, rules[1..]);
      if FirstRule(p, a, rules).Some? {
        var i :| (0 <= i < |rules| - 1 && rules[1..][i] == FirstRule(p, a, rules).value && p.matches(rules[1..][i], a)
                  && forall j :: 0 <= j < i ==> !p.matches(rules[1..][j], a));
        forall j | 0 <= j < i + 1 ensures !p.matches(rules[j], a) {
          assert j > 0 ==> rules[j] == rules[1..][j - 1];
        }
        assert rules[i + 1] == FirstRule(p, a, rules).value;
      }
    }
  }

  /** A signature that must last, where the rule has a set for it, takes that set. */
  lemma SpecializedExactly(c: Candidate, ctx: Context)
    ensures
      var r := Specialized(c, ctx);
      if c.kind == Signature && ctx.longTerm && c.longTermReplace != []
      then
        && r.replaceSet == c.longTermReplace && r.purpose == "long_term_signature"
        && r.hybridSet == (if c.longTermHybrid != [] then c.longTermHybrid else c.hybridSet)
        && r.kind == c.kind && r.weak == c.weak
      else r == c
  {
  }

  /** The algorithm sets, by the candidate's: the replacement where there is one; the hybrid set only for a hybrid
      transition, or as the final one; else the algorithm itself. */
  lemma RecommendedSets<R>(p: Policy<R>, a: Asset, ctx: Context, capabilities: set<Capability>, c: Candidate)
    ensures
      var r := BuildRecommendation(p, a, ctx, capabilities, c);
      && r.strategy == ChooseStrategy(c, ctx)
      && (c.replaceSet != [] ==> r.targetSet == c.replaceSet && r.finalSet == c.replaceSet)
      && (c.replaceSet == [] && c.hybridSet != [] ==>
            r.finalSet == c.hybridSet && r.targetSet == if r.strategy == Hybrid then c.hybridSet else [a.algorithm])
      && (c.replaceSet == [] && c.hybridSet == [] ==> r.finalSet == [a.algorithm] && r.targetSet == [a.algorithm])
      && (r.phase == HybridFirst <==> r.strategy == Hybrid) && (r.phase == ReplaceNow <==> r.strategy == Replace)
  {
  }

  /** Each blocker, by the capability that is missing, and in this order. */
  lemma BlockersExactly(s: Strategy, capabilities: set<Capability>, c: Candidate, x: Blocker)
    ensures x in Blockers(s, capabilities, c) <==>
      match x
      case RuntimeUnknown => s != NoChange && RuntimePqc !in capabilities
      case PolicyMissing => s != NoChange && ConfigPolicy !in capabilities
      case ProbeMissing => s != NoChange && RescanValidation !in capabilities
      case RollbackUndefined => s != NoChange && RollbackSupported !in capabilities
      case ClassificationUnknown => c.kind == UnknownKind
    ensures |Blockers(s, capabilities, c)| <= 5
  {
  }

  /** Nine tenths, or 0.82 for a change, less a twentieth for each of the at most five blockers. */
  lemma ConfidenceValue(s: Strategy, blockers: nat)
    requires blockers <= 5
    ensures ConfidenceFor(s, blockers) == (if s == NoChange then 0.9 else 0.82) - blockers as real * 0.05
  {
    var hundredths := (if s == NoChange then 90 else 82) - 5 * blockers;
    NearestInteger(hundredths, ((if s == NoChange then 0.9 else 0.82) - blockers as real * 0.05) * 100.0);
  }

  lemma ConfidenceBounded(s: Strategy, blockers: nat)
    ensures 0.45 <= ConfidenceFor(s, blockers) <= 0.9
  {
    var base := if s == NoChange then 0.9 else 0.82;
    var reduced := base - blockers as real * 0.05;
    var x := if reduced > 0.45 then reduced else 0.45;
    RoundMonotone(0.45, x, Two);
    RoundMonotone(x, 0.9, Two);
    NearestInteger(45, 0.45 * 100.0);
    NearestInteger(90, 0.9 * 100.0);
  }

  // ----- Options and the model's answer -----

  datatype Choice = Choice(id: string, title: string, recommendation: Recommendation)

  /** Library functions: the digits of a number, the split of an algorithm set, `float(v)` where it succeeds,
      and the JSON object in a text. */
  datatype Library = Library(py: Python, digits: nat -> string, split: string -> seq<string>,
                             float: Json -> Option<real>, extract: string -> Option<Object>)

  function AlternativeChoice(lib: Library, r: Recommendation, a: Alternative, index: nat): Choice {
    var target := if a.target != "" then a.target else r.target;
    var limit := if r.confidence != 0.0 then r.confidence else 0.82;
    Choice("alternative_" + lib.digits(index), if a.tradeOff != "" then a.tradeOff else "Policy alternative",
      r.(strategy := a.strategy, target := target, targetSet := lib.split(target), finalSet := lib.split(target),
         phase := if a.strategy == Replace then ReplaceNow else r.phase,
         rationale := if a.tradeOff != "" then a.tradeOff else r.rationale,
         confidence := if 0.76 < limit then 0.76 else limit))
  }

  /** The policy default comes first, then each alternative in order. */
  method AllowedOptions(lib: Library, item: Item) returns (options: seq<Choice>)
    ensures |options| == 1 + |item.alternatives|
    ensures options[0] == Choice("policy_default", "Policy default PQC target", item.recommendation)
    ensures forall i :: 0 <= i < |item.alternatives| ==>
      options[i + 1] == AlternativeChoice(lib, item.recommendation, item.alternatives[i], i + 1)
  {
    options := [Choice("policy_default", "Policy default PQC target", item.recommendation)];
    for i := 0 to |item.alternatives|
      invariant |options| == 1 + i
      invariant options[0] == Choice("policy_default", "Policy default PQC target", item.recommendation)
      invariant forall j :: 0 <= j < i ==>
        options[j + 1] == AlternativeChoice(lib, item.recommendation, item.alternatives[j], j + 1)
    {
      options := options + [AlternativeChoice(lib, item.recommendation, item.alternatives[i], i + 1)];
    }
  }

  datatype Fallback = NotUsed | InvalidJson | CandidateNotAllowed

  datatype Parsed = Parsed(option: Choice, confidence: Option<real>, rationale: Option<string>, fallback: Fallback)

  function StrategyText(s: Strategy): string {
    match s case Hybrid => "hybrid" case Replace => "replace" case NoChange => "no_change"
  }

  function Stripped(py: Python, v: Json): string {
    py.strip(Text(py, Or(v, JStr(""))))
  }

  function NamedId(py: Python, data: Object): string {
    Stripped(py, Or(Get(data, SelectedCandidateId), Get(data, CandidateId)))
  }

  /** The answer describes an option by its target and, if it gives one, its strategy. */
  predicate Describes(py: Python, data: Object, c: Choice) {
    var target, strategy := Stripped(py, Get(data, TargetAlgorithm)), Stripped(py, Get(data, StrategyField));
    target != "" && c.recommendation.target == target
        && (strategy == "" || StrategyText(c.recommendation.strategy) == strategy)
  }

  function ConfidenceOrNone(lib: Library, v: Json): Option<real> {
    match lib.float(v) case Some(x) => Some(Round(Clamp(x, 0.0, 1.0), Two)) case None => None
  }

  function TextOrNone(py: Python, v: Json): Option<string> {
    if v.JStr? && py.strip(v.s) != "" then Some(py.strip(v.s)) else None
  }

  /** c is the first of the options that the answer describes. */
  ghost predicate FirstDescribed(py: Python, data: Object, options: seq<Choice>, c: Choice) {
    exists i :: (0 <= i < |options| && options[i] == c && Describes(py, data, options[i])
                 && forall j :: 0 <= j < i ==> !Describes(py, data, options[j]))
  }

  method FindOption(py: Python, data: Object, options: seq<Choice>) returns (found: Option<Choice>)
    ensures found.None? <==> forall c :: c in options ==> !Describes(py, data, c)
    ensures found.Some? ==> FirstDescribed(py, data, options, found.value)
  {
    for i := 0 to |options|
      invariant forall j :: 0 <= j < i ==> !Describes(py, data, options[j])
    {
      if Describes(py, data, options[i]) {
        return Some(options[i]);
      }
    }
    return None;
  }

  /** c is the last of the first n options with this id. */
  ghost predicate LastNamed(options: seq<Choice>, n: nat, id: string, c: Choice)
    requires n <= |options|
  {
    exists i :: (0 <= i < n && options[i] == c && options[i].id == id
                 && forall j :: i < j < n ==> options[j].id != id)
  }

  /** A dictionary of options by id keeps the last of equal ids. */
  method OptionById(options: seq<Choice>, id: string) returns (found: Option<Choice>)
    ensures found.None? <==> forall c :: c in options ==> c.id != id
    ensures found.Some? ==> LastNamed(options, |options|, id, found.value)
  {
    var byId: map<string, Choice> := map[];
    for n := 0 to |options|
      invariant forall k :: k in byId ==> LastNamed(options, n, k, byId[k])
      invariant forall j :: 0 <= j < n ==> options[j].id in byId
    {
      ghost var before := byId;
      byId := byId[options[n].id := options[n]];
      forall k | k in byId ensures LastNamed(options, n + 1, k, byId[k]) {
        if k == options[n].id {
          assert options[n] == byId[k];
        } else {
          LaterOther(options, n, k, before[k]);
        }
      }
    }
    found := if id in byId then Some(byId[id]) else None;
  }

  lemma LaterOther(options: seq<Choice>, n: nat, id: string, c: Choice)
    requires n < |options| && LastNamed(options, n, id, c) && options[n].id != id
    ensures LastNamed(options, n + 1, id, c)
  {
    var i :| 0 <= i < n && options[i] == c && options[i].id == id && forall j :: i < j < n ==> options[j].id != id;
    assert forall j :: i < j < n + 1 ==> options[j].id != id;
  }

  function Data(lib: Library, text: string): Object {
    match lib.extract(text) case Some(data) => data case None => map[]
  }

  predicate NamesOne(py: Python, data: Object, options: seq<Choice>) {
    exists c :: c in options && c.id == NamedId(py, data)
  }

  predicate DescribesOne(py: Python, data: Object, options: seq<Choice>) {
    exists c :: c in options && Describes(py, data, c)
  }

  /** Whatever the text, an allowed option is selected: the one it names, else the first it describes, else the
      policy default; the fallback says whether the text was usable. */
  method ParseResponse(lib: Library, text: string, options: seq<Choice>) returns (r: Parsed)
    requires options != []
    ensures r.option in options
    ensures
      var py, data := lib.py, Data(lib, text);
      if NamesOne(py, data, options) then LastNamed(options, |options|, NamedId(py, data), r.option)
      else if DescribesOne(py, data, options) then FirstDescribed(py, data, options, r.option)
      else r.option == options[0]
    ensures
      var py, data := lib.py, Data(lib, text);
      r.fallback == if lib.extract(text).None? then InvalidJson
                    else if NamesOne(py, data, options) || DescribesOne(py, data, options) then NotUsed
                    else CandidateNotAllowed
    ensures r.confidence == ConfidenceOrNone(lib, Get(Data(lib, text), ConfidenceField))
    ensures r.rationale == TextOrNone(lib.py, Get(Data(lib, text), RationaleField))
  {
    var fallback := NotUsed;
    var data := map[];
    match lib.extract(text) {
      case Some(d) => data := d;
      case None => fallback := InvalidJson;
    }
    var selected := OptionById(options, NamedId(lib.py, data));
    if selected.None? {
      selected := FindOption(lib.py, data, options);
    }
    if selected.None? {
      selected := Some(options[0]);
      fallback := if fallback == NotUsed then CandidateNotAllowed else fallback;
    }
    var confidence, rationale := ConfidenceOrNone(lib, Get(data, ConfidenceField)),
        TextOrNone(lib.py, Get(data, RationaleField));
    r := Parsed(selected.value, confidence, rationale, fallback);
  }

  function ApplySelection(item: Item, parsed: Parsed): Item {
    var r := parsed.option.recommendation;
    item.(recommendation := r.(
      rationale := if parsed.rationale.Some? then parsed.rationale.value else r.rationale,
      confidence := if parsed.confidence.Some? then parsed.confidence.value else r.confidence))
  }

  /** Everything but the wording and the confidence. */
  predicate SamePlan(a: Item, b: Item) {
    a == b.(recommendation := b.recommendation.(rationale := a.recommendation.rationale,
        confidence := a.recommendation.confidence))
  }

  lemma ConfidenceInRange(lib: Library, v: Json)
    ensures ConfidenceOrNone(lib, v).Some? ==> 0.0 <= ConfidenceOrNone(lib, v).value <= 1.0
  {
    match lib.float(v)
    case Some(x) => RoundBetween(Clamp(x, 0.0, 1.0), 0, 1, Two);
    case None =>
  }

  /** A confidence from the answer is kept to two places, and between 0 and 1. */
  lemma ConfidenceRead(lib: Library, v: Json)
    ensures
      match lib.float(v)
      case None => ConfidenceOrNone(lib, v) == None
      case Some(x) =>
        && ConfidenceOrNone(lib, v).Some?
        && var r := ConfidenceOrNone(lib, v).value;
           (x < 0.0 ==> r == 0.0) && (x > 1.0 ==> r == 1.0) && (0.0 <= x <= 1.0 ==> Near(r, x, 0.005))
  {
    match lib.float(v)
    case Some(x) =>
      RoundIsNear(Clamp(x, 0.0, 1.0), Two);
      RoundInteger(0, Two);
      RoundInteger(1, Two);
    case None =>
  }

  /** An alternative has its own strategy and algorithms, and the default's where it gives none. */
  lemma AlternativeFields(lib: Library, r: Recommendation, a: Alternative, index: nat)
    ensures
      var c := AlternativeChoice(lib, r, a, index).recommendation;
      && c.strategy == a.strategy && c.target == (if a.target != "" then a.target else r.target)
      && c.targetSet == lib.split(c.target) && c.finalSet == c.targetSet && c.confidence <= 0.76
      && (a.strategy == Replace ==> c.phase == ReplaceNow) && (a.strategy != Replace ==> c.phase == r.phase)
      && c.blockers == r.blockers && c.rollback == r.rollback && c.validation == r.validation
  {
  }

  /** The model's answer, whatever its text, changes only the rationale and the confidence of the policy's plan. */
  method SuggestMigration<R>(p: Policy<R>, lib: Library, a: Asset, ctx: Context, capabilities: set<Capability>,
      text: string)
    returns (item: Item, fallback: Fallback)
    ensures SamePlan(item, Recommend(p, a, ctx, capabilities))
    ensures 0.0 <= item.recommendation.confidence <= 1.0
    ensures ConfidenceOrNone(lib, Get(Data(lib, text), ConfidenceField)).None? ==>
      item.recommendation.confidence == Recommend(p, a, ctx, capabilities).recommendation.confidence
    ensures TextOrNone(lib.py, Get(Data(lib, text), RationaleField)).None? ==>
      item.recommendation.rationale == Recommend(p, a, ctx, capabilities).recommendation.rationale
  {
    var base := Recommend(p, a, ctx, capabilities);
    NoAlternatives(p, a, ctx, capabilities);
    var options := AllowedOptions(lib, base);
    var parsed := ParseResponse(lib, text, options);
    assert options == [options[0]];
    ConfidenceInRange(lib, Get(Data(lib, text), ConfidenceField));
    ConfidenceBounded(base.recommendation.strategy, |base.recommendation.blockers|);
    item, fallback := ApplySelection(base, parsed), parsed.fallback;
  }

  /** The guard in general: with any alternatives, the plan's algorithms are those of an allowed option. */
  method SuggestAmong(lib: Library, base: Item, text: string) returns (item: Item, option: Choice)
    ensures item.asset == base.asset && item.alternatives == base.alternatives && item.purpose == base.purpose
    ensures SamePlan(item, base.(recommendation := option.recommendation))
    ensures option.recommendation == base.recommendation
      || exists i :: (0 <= i < |base.alternatives|
                      && option == AlternativeChoice(lib, base.recommendation, base.alternatives[i], i + 1))
  {
    var options := AllowedOptions(lib, base);
    var parsed := ParseResponse(lib, text, options);
    option := parsed.option;
    ghost var at :| 0 <= at < |options| && options[at] == option;
    if at > 0 {
      assert option == AlternativeChoice(lib, base.recommendation, base.alternatives[at - 1], at - 1 + 1);
    }
    item := ApplySelection(base, parsed);
  }
}
