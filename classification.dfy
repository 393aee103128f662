/** Classification of a learner's answer with the string classifier (classify and
    classify_string_classifier_rule). The classifier algorithm and the interaction's
    answer normaliser are foreign capabilities, passed in through `Registries`. */
module Classification {
  import opened ClassifierDomain
  import opened Labels

  /** One example of a training set: a document and its labels. */
  datatype TrainingExample = TrainingExample(doc: string, labels: seq<string>)

  /** A classifier algorithm trained on a set of examples and then asked for the
      label of one input (sc.train(examples) followed by sc.predict([input])[0]). */
  type Predictor = (seq<TrainingExample>, string) -> string

  /** What the interaction registry knows of an interaction type. */
  datatype InteractionCapability = InteractionCapability(
    normalizeAnswer: string -> string,
    isStringClassifierTrainable: bool)

  /** The interaction registry and the classifier registry, by id. */
  datatype Registries = Registries(
    interactions: map<string, InteractionCapability>,
    classifiers: map<string, Predictor>)

  /** The dict classify returns; a matcher result carries no certainty. */
  datatype Match = Match(
    outcome: Outcome,
    answerGroupIndex: int,
    ruleSpecIndex: Option<nat>,
    classificationCertainty: Option<real>)

  /** get_classifier_rule_index: the first rule spec of the classifier rule type. */
  function ClassifierRuleIndex(specs: seq<RuleSpec>, ruleType: string): (r: Option<nat>)
    ensures r.Some? ==> r.value < |specs| && specs[r.value].ruleType == ruleType
    ensures r.Some? ==> forall j :: 0 <= j < r.value ==> specs[j].ruleType != ruleType
    ensures r.None? ==> forall j :: 0 <= j < |specs| ==> specs[j].ruleType != ruleType
    decreases |specs|
  {
    if |specs| == 0 then None
    else if specs[0].ruleType == ruleType then Some(0)
    else match ClassifierRuleIndex(specs[1..], ruleType)
      case None => None
      case Some(j) => Some(j + 1)
  }

  /** The training documents of a group's classifier rule, if it has one. */
  function ClassifierTrainingDocs(group: AnswerGroup, ruleType: string): seq<string>
  {
    match ClassifierRuleIndex(group.ruleSpecs, ruleType)
    case None => []
    case Some(j) => group.ruleSpecs[j].trainingData
  }

  /** Every document paired with the same labels. */
  function Labelled(docs: seq<string>, labels: seq<string>): (r: seq<TrainingExample>)
    ensures |r| == |docs|
    ensures forall i :: 0 <= i < |docs| ==> r[i] == TrainingExample(docs[i], labels)
  {
    seq(|docs|, i requires 0 <= i < |docs| => TrainingExample(docs[i], labels))
  }

  /** The positive examples of the first n groups, group g labelled [str(g)]. */
  function GroupExamples(groups: seq<AnswerGroup>, ruleType: string, n: nat): seq<TrainingExample>
    requires n <= |groups|
    decreases n
  {
    if n == 0 then []
    else GroupExamples(groups, ruleType, n - 1)
         + Labelled(ClassifierTrainingDocs(groups[n - 1], ruleType), [NatToStr(n - 1)])
  }

  /** The training set: confirmed unclassified answers labelled [], then the groups' examples. */
  function TrainingExamples(it: Interaction, ruleType: string): seq<TrainingExample>
  {
    Labelled(it.confirmedUnclassifiedAnswers, [])
      + GroupExamples(it.answerGroups, ruleType, |it.answerGroups|)
  }

  /** The rule spec index the matcher reports: the value classifier_rule_spec_index
      still holds from the LAST iteration of the training-set loop, whatever group
      was predicted. */
  function LeftoverRuleSpecIndex(it: Interaction, ruleType: string): Option<nat>
    requires |it.answerGroups| > 0
  {
    ClassifierRuleIndex(it.answerGroups[|it.answerGroups| - 1].ruleSpecs, ruleType)
  }

  /** The match for a predicted label that is not the default label (source as written). */
  function PredictedMatch(it: Interaction, ruleType: string, predicted: string): Result<Option<Match>>
  {
    match ParseInt(predicted)
    case None => Err(LabelNotAnInteger(predicted))
    case Some(k) =>
      var n := |it.answerGroups|;
      if k < -n || k >= n then Err(AnswerGroupIndexOutOfRange(k))
      else
        var group := it.answerGroups[if k < 0 then k + n else k];
        var ruleSpecIndex :=
          if ClassifierRuleIndex(group.ruleSpecs, ruleType).Some?
          then LeftoverRuleSpecIndex(it, ruleType) else None;
        Ok(Some(Match(group.outcome, k, ruleSpecIndex, None)))
  }

  /** The match as the documentation of classify intends it: the rule spec index
      points into the rule specs of the matched group. */
  function IntendedPredictedMatch(it: Interaction, ruleType: string, predicted: string): Result<Option<Match>>
  {
    match ParseInt(predicted)
    case None => Err(LabelNotAnInteger(predicted))
    case Some(k) =>
      var n := |it.answerGroups|;
      if k < -n || k >= n then Err(AnswerGroupIndexOutOfRange(k))
      else
        var group := it.answerGroups[if k < 0 then k + n else k];
        Ok(Some(Match(group.outcome, k, ClassifierRuleIndex(group.ruleSpecs, ruleType), None)))
  }

  /** What classify_string_classifier_rule returns: no match (None), a match, or the
      error it raises; a match reports the left-over rule spec index of PredictedMatch. */
  function StringClassifierMatch(cfg: Config, reg: Registries, it: Interaction, answer: string): Result<Option<Match>>
  {
    if it.id !in cfg.interactionClassifierMapping then Err(InteractionNotConfigured(it.id))
    else
      var algorithmId := cfg.interactionClassifierMapping[it.id].algorithmId;
      if algorithmId !in reg.classifiers then Err(AlgorithmNotFound(algorithmId))
      else
        var examples := TrainingExamples(it, cfg.classifierRuleType);
        if |examples| == 0 then Ok(None)
        else
          var predicted := reg.classifiers[algorithmId](examples, answer);
          if predicted == cfg.defaultClassifierLabel then Ok(None)
          else PredictedMatch(it, cfg.classifierRuleType, predicted)
  }

  /** The training-set loop of classify_string_classifier_rule: the set, and the
      classifier rule index the loop variable holds after the last group. */
  method BuildTrainingExamples(it: Interaction, ruleType: string)
    returns (examples: seq<TrainingExample>, classifierRuleSpecIndex: Option<nat>)
    ensures examples == TrainingExamples(it, ruleType)
    ensures |it.answerGroups| > 0 ==> classifierRuleSpecIndex == LeftoverRuleSpecIndex(it, ruleType)
  {
    var groups := it.answerGroups;
    var unclassified := Labelled(it.confirmedUnclassifiedAnswers, []);
    examples := unclassified;
    classifierRuleSpecIndex := None;
    var i := 0;
    while i < |groups|
      invariant 0 <= i <= |groups|
      invariant examples == unclassified + GroupExamples(groups, ruleType, i)
      invariant i > 0 ==> classifierRuleSpecIndex == ClassifierRuleIndex(groups[i - 1].ruleSpecs, ruleType)
    {
      classifierRuleSpecIndex := ClassifierRuleIndex(groups[i].ruleSpecs, ruleType);
      TrainingExamplesStep(unclassified, groups, ruleType, i, examples);
      if classifierRuleSpecIndex.Some? {
        var spec := groups[i].ruleSpecs[classifierRuleSpecIndex.value];
        examples := examples + Labelled(spec.trainingData, [NatToStr(i)]);
      }
      i := i + 1;
    }
  }

  /** One iteration of the training-set loop adds group i's examples, if it has a classifier rule. */
  lemma TrainingExamplesStep(
    unclassified: seq<TrainingExample>, groups: seq<AnswerGroup>, ruleType: string, i: nat, examples: seq<TrainingExample>)
    requires i < |groups|
    requires examples == unclassified + GroupExamples(groups, ruleType, i)
    ensures var idx := ClassifierRuleIndex(groups[i].ruleSpecs, ruleType);
      && (idx.Some? ==> examples + Labelled(groups[i].ruleSpecs[idx.value].trainingData, [NatToStr(i)])
                        == unclassified + GroupExamples(groups, ruleType, i + 1))
      && (idx.None? ==> examples == unclassified + GroupExamples(groups, ruleType, i + 1))
  {
    var added := Labelled(ClassifierTrainingDocs(groups[i], ruleType), [NatToStr(i)]);
    assert GroupExamples(groups, ruleType, i + 1) == GroupExamples(groups, ruleType, i) + added;
    ConcatAssoc(unclassified, GroupExamples(groups, ruleType, i), added);
    if ClassifierRuleIndex(groups[i].ruleSpecs, ruleType).None? {
      assert added == [];
    }
  }

  /** The rule-spec loop of classify_string_classifier_rule: does the predicted
      group have a rule spec of the classifier rule type? */
  method HasClassifierRule(group: AnswerGroup, ruleType: string) returns (found: bool)
    ensures found <==> exists q :: 0 <= q < |group.ruleSpecs| && group.ruleSpecs[q].ruleType == ruleType
  {
    found := false;
    var j := 0;
    while j < |group.ruleSpecs|
      invariant 0 <= j <= |group.ruleSpecs|
      invariant forall q :: 0 <= q < j ==> group.ruleSpecs[q].ruleType != ruleType
    {
      if group.ruleSpecs[j].ruleType == ruleType {
        found := true;
        break;
      }
      j := j + 1;
    }
  }

  /** classify_string_classifier_rule: builds the training set, trains and predicts,
      and reports the predicted group; when that group has a classifier rule, the
      reported rule spec index is the one the training-set loop left behind. */
  method ClassifyStringClassifierRule(cfg: Config, reg: Registries, state: State, normalizedAnswer: string)
    returns (r: Result<Option<Match>>)
    ensures r == StringClassifierMatch(cfg, reg, state.interaction, normalizedAnswer)
  {
    var it := state.interaction;
    var groups := it.answerGroups;
    if it.id !in cfg.interactionClassifierMapping {
      return Err(InteractionNotConfigured(it.id));
    }
    var algorithmId := cfg.interactionClassifierMapping[it.id].algorithmId;
    if algorithmId !in reg.classifiers {
      return Err(AlgorithmNotFound(algorithmId));
    }
    var sc := reg.classifiers[algorithmId];
    var examples, classifierRuleSpecIndex := BuildTrainingExamples(it, cfg.classifierRuleType);
    if |examples| == 0 {
      return Ok(None);
    }
    var predicted := sc(examples, normalizedAnswer);
    if predicted == cfg.defaultClassifierLabel {
      return Ok(None);
    }
    var parsed := ParseInt(predicted);
    if parsed.None? {
      return Err(LabelNotAnInteger(predicted));
    }
    var k := parsed.value;
    var n := |groups|;
    if k < -n || k >= n {
      return Err(AnswerGroupIndexOutOfRange(k));
    }
    var group := groups[if k < 0 then k + n else k];
    var bestRuleSpecIndex: Option<nat> := None;
    var hasClassifierRule := HasClassifierRule(group, cfg.classifierRuleType);
    if hasClassifierRule {
      bestRuleSpecIndex := classifierRuleSpecIndex;
    }
    r := Ok(Some(Match(group.outcome, k, bestRuleSpecIndex, None)));
  }

  /** classify: fails unless ML classifiers are enabled and the interaction is
      string-classifier trainable; otherwise the matcher's match, or the default
      outcome as group |answer groups|, rule spec 0 and certainty 0.0, or an error
      when there is no default outcome. */
  method Classify(cfg: Config, reg: Registries, state: State, answer: string) returns (r: Result<Match>)
    ensures !cfg.enableMlClassifiers ==> r == Err(FeatureDisabled)
    ensures cfg.enableMlClassifiers && state.interaction.id !in reg.interactions ==>
      r == Err(InteractionNotFound(state.interaction.id))
    ensures (cfg.enableMlClassifiers && state.interaction.id in reg.interactions
             && !reg.interactions[state.interaction.id].isStringClassifierTrainable) ==>
      r == Err(NoClassifierForInteraction)
    ensures (cfg.enableMlClassifiers && state.interaction.id in reg.interactions
             && reg.interactions[state.interaction.id].isStringClassifierTrainable) ==>
      var capability := reg.interactions[state.interaction.id];
      match StringClassifierMatch(cfg, reg, state.interaction, capability.normalizeAnswer(answer))
      case Err(e) => r == Err(e)
      case Ok(Some(m)) => r == Ok(m)
      case Ok(None) =>
        r == match state.interaction.defaultOutcome
             case Some(o) => Ok(Match(o, |state.interaction.answerGroups|, Some(0), Some(0.0)))
             case None => Err(NoMatchForAnswer)
  {
    if !cfg.enableMlClassifiers {
      return Err(FeatureDisabled);
    }
    if state.interaction.id !in reg.interactions {
      return Err(InteractionNotFound(state.interaction.id));
    }
    var capability := reg.interactions[state.interaction.id];
    var normalizedAnswer := capability.normalizeAnswer(answer);
    if !capability.isStringClassifierTrainable {
      return Err(NoClassifierForInteraction);
    }
    var response := ClassifyStringClassifierRule(cfg, reg, state, normalizedAnswer);
    if response.Err? {
      return Err(response.error);
    }
    if response.value.Some? {
      return Ok(response.value.value);
    }
    match state.interaction.defaultOutcome {
      case Some(o) =>
        r := Ok(Match(o, |state.interaction.answerGroups|, Some(0), Some(0.0)));
      case None =>
        r := Err(NoMatchForAnswer);
    }
  }

  /* ---------- properties of the training set and the matcher ---------- */


  lemma {:induction false} GroupExamplesMembers(groups: seq<AnswerGroup>, ruleType: string, n: nat, e: TrainingExample)
    requires n <= |groups|
    requires e in GroupExamples(groups, ruleType, n)
    ensures exists g :: 0 <= g < n && e.labels == [NatToStr(g)] && e.doc in ClassifierTrainingDocs(groups[g], ruleType)
    decreases n
  {
    var prev := GroupExamples(groups, ruleType, n - 1);
    var last := Labelled(ClassifierTrainingDocs(groups[n - 1], ruleType), [NatToStr(n - 1)]);
    assert GroupExamples(groups, ruleType, n) == prev + last;
    if e in prev {
      GroupExamplesMembers(groups, ruleType, n - 1, e);
    } else {
      var i :| 0 <= i < |last| && last[i] == e;
      assert e.doc in ClassifierTrainingDocs(groups[n - 1], ruleType);
    }
  }

  lemma {:induction false} GroupExamplesComplete(groups: seq<AnswerGroup>, ruleType: string, n: nat, g: nat, doc: string)
    requires g < n <= |groups|
    requires doc in ClassifierTrainingDocs(groups[g], ruleType)
    ensures TrainingExample(doc, [NatToStr(g)]) in GroupExamples(groups, ruleType, n)
    decreases n
  {
    var last := Labelled(ClassifierTrainingDocs(groups[n - 1], ruleType), [NatToStr(n - 1)]);
    if g == n - 1 {
      var i :| 0 <= i < |ClassifierTrainingDocs(groups[g], ruleType)| && ClassifierTrainingDocs(groups[g], ruleType)[i] == doc;
      assert last[i] == TrainingExample(doc, [NatToStr(g)]);
    } else {
      GroupExamplesComplete(groups, ruleType, n - 1, g, doc);
    }
  }

  lemma {:induction false} GroupExamplesEmpty(groups: seq<AnswerGroup>, ruleType: string, n: nat)
    requires n <= |groups|
    ensures |GroupExamples(groups, ruleType, n)| == 0 <==>
      forall g :: 0 <= g < n ==> |ClassifierTrainingDocs(groups[g], ruleType)| == 0
    decreases n
  {
    if n > 0 {
      var docs := ClassifierTrainingDocs(groups[n - 1], ruleType);
      GroupExamplesEmpty(groups, ruleType, n - 1);
      assert |GroupExamples(groups, ruleType, n)| == |GroupExamples(groups, ruleType, n - 1)| + |docs|;
      if |GroupExamples(groups, ruleType, n)| == 0 {
        forall g | 0 <= g < n ensures |ClassifierTrainingDocs(groups[g], ruleType)| == 0 {
        }
      } else if |docs| == 0 {
        var g :| 0 <= g < n - 1 && |ClassifierTrainingDocs(groups[g], ruleType)| != 0;
      }
    }
  }

  /** The training set holds every confirmed unclassified answer labelled [], first and
      in order, then exactly the classifier-rule documents of each group g labelled
      [str(g)]; every non-empty label reads back as the index of a group. */
  lemma TrainingExamplesContents(it: Interaction, ruleType: string)
    ensures var ex := TrainingExamples(it, ruleType);
      var u := it.confirmedUnclassifiedAnswers;
      |ex| >= |u| && (forall i :: 0 <= i < |u| ==> ex[i] == TrainingExample(u[i], []))
      && (forall i :: |u| <= i < |ex| ==>
            exists g :: 0 <= g < |it.answerGroups| && ex[i].labels == [NatToStr(g)]
                        && ParseInt(ex[i].labels[0]) == Some(g)
                        && ex[i].doc in ClassifierTrainingDocs(it.answerGroups[g], ruleType))
      && (forall g, doc :: 0 <= g < |it.answerGroups| && doc in ClassifierTrainingDocs(it.answerGroups[g], ruleType)
            ==> TrainingExample(doc, [NatToStr(g)]) in ex)
  {
    var ex := TrainingExamples(it, ruleType);
    var u := it.confirmedUnclassifiedAnswers;
    var groupPart := GroupExamples(it.answerGroups, ruleType, |it.answerGroups|);
    forall i | |u| <= i < |ex|
      ensures exists g :: 0 <= g < |it.answerGroups| && ex[i].labels == [NatToStr(g)]
                          && ParseInt(ex[i].labels[0]) == Some(g)
                          && ex[i].doc in ClassifierTrainingDocs(it.answerGroups[g], ruleType)
    {
      assert ex[i] == groupPart[i - |u|];
      GroupExamplesMembers(it.answerGroups, ruleType, |it.answerGroups|, ex[i]);
      var g :| 0 <= g < |it.answerGroups| && ex[i].labels == [NatToStr(g)]
               && ex[i].doc in ClassifierTrainingDocs(it.answerGroups[g], ruleType);
      ParseNatToStr(g);
    }
    forall g, doc | 0 <= g < |it.answerGroups| && doc in ClassifierTrainingDocs(it.answerGroups[g], ruleType)
      ensures TrainingExample(doc, [NatToStr(g)]) in ex
    {
      GroupExamplesComplete(it.answerGroups, ruleType, |it.answerGroups|, g, doc);
    }
  }

  /** The training set is empty exactly when there are no confirmed unclassified
      answers and no group's classifier rule has training documents. */
  lemma TrainingExamplesEmpty(it: Interaction, ruleType: string)
    ensures |TrainingExamples(it, ruleType)| == 0 <==>
      |it.confirmedUnclassifiedAnswers| == 0
      && forall g :: 0 <= g < |it.answerGroups| ==> |ClassifierTrainingDocs(it.answerGroups[g], ruleType)| == 0
  {
    GroupExamplesEmpty(it.answerGroups, ruleType, |it.answerGroups|);
  }

  /** With an empty training set, or a predicted default label, the matcher reports no
      match (once the interaction's algorithm is configured and registered). */
  lemma NoMatchWithoutTrainingOrOnDefaultLabel(cfg: Config, reg: Registries, it: Interaction, answer: string)
    requires it.id in cfg.interactionClassifierMapping
    requires cfg.interactionClassifierMapping[it.id].algorithmId in reg.classifiers
    requires (|it.confirmedUnclassifiedAnswers| == 0
              && forall g :: 0 <= g < |it.answerGroups| ==> |ClassifierTrainingDocs(it.answerGroups[g], cfg.classifierRuleType)| == 0)
             || reg.classifiers[cfg.interactionClassifierMapping[it.id].algorithmId](TrainingExamples(it, cfg.classifierRuleType), answer)
                == cfg.defaultClassifierLabel
    ensures StringClassifierMatch(cfg, reg, it, answer) == Ok(None)
  {
    TrainingExamplesEmpty(it, cfg.classifierRuleType);
  }

  /** A predictor that answers with one of the labels it was trained on never makes the
      matcher fail: the label reads back as the index of a group g, whose outcome is
      returned. Group g has a classifier rule (it supplied the example), so the rule
      spec index reported is the left-over one of the last group. */
  lemma TrainedLabelAlwaysMatches(it: Interaction, ruleType: string, e: TrainingExample)
    requires e in TrainingExamples(it, ruleType) && e.labels != []
    ensures |it.answerGroups| > 0
    ensures exists g :: (0 <= g < |it.answerGroups| && e.labels == [NatToStr(g)]
      && PredictedMatch(it, ruleType, e.labels[0]) ==
           Ok(Some(Match(it.answerGroups[g].outcome, g, LeftoverRuleSpecIndex(it, ruleType), None))))
  {
    TrainedLabelGroup(it, ruleType, e);
  }

  /** The same for the intended matcher, which reports group g's own classifier rule. */
  lemma TrainedLabelIntendedMatch(it: Interaction, ruleType: string, e: TrainingExample)
    requires e in TrainingExamples(it, ruleType) && e.labels != []
    ensures exists g :: (0 <= g < |it.answerGroups| && e.labels == [NatToStr(g)]
      && IntendedPredictedMatch(it, ruleType, e.labels[0]) ==
           Ok(Some(Match(it.answerGroups[g].outcome, g, ClassifierRuleIndex(it.answerGroups[g].ruleSpecs, ruleType), None))))
  {
    TrainedLabelGroup(it, ruleType, e);
  }

  /** A labelled training example comes from a group with a classifier rule, and its
      label reads back as that group's index. */
  lemma TrainedLabelGroup(it: Interaction, ruleType: string, e: TrainingExample)
    requires e in TrainingExamples(it, ruleType) && e.labels != []
    ensures exists g :: (0 <= g < |it.answerGroups| && e.labels == [NatToStr(g)]
      && ClassifierRuleIndex(it.answerGroups[g].ruleSpecs, ruleType).Some?
      && ParseInt(e.labels[0]) == Some(g))
  {
    TrainingExamplesContents(it, ruleType);
    var ex := TrainingExamples(it, ruleType);
    var i :| 0 <= i < |ex| && ex[i] == e;
    assert i >= |it.confirmedUnclassifiedAnswers|;
    var g :| 0 <= g < |it.answerGroups| && e.labels == [NatToStr(g)] && ParseInt(e.labels[0]) == Some(g)
      && e.doc in ClassifierTrainingDocs(it.answerGroups[g], ruleType);
    assert ClassifierTrainingDocs(it.answerGroups[g], ruleType) != [];
  }

  /** The left-over index is the right one when the last group is the one predicted. */
  lemma LeftoverIndexRightForLastGroup(it: Interaction, ruleType: string)
    requires |it.answerGroups| > 0
    ensures var n := |it.answerGroups|;
      PredictedMatch(it, ruleType, NatToStr(n - 1)) == IntendedPredictedMatch(it, ruleType, NatToStr(n - 1))
  {
    ParseNatToStr(|it.answerGroups| - 1);
  }

  /** The left-over index can name a rule spec of the predicted group that is not its
      classifier rule: group 0's classifier rule is its second spec, group 1's its
      first, and the label "0" is reported with rule spec 0. */
  lemma LeftoverRuleSpecIndexMismatch()
    ensures var c := "FuzzyMatches";
      var o0 := Outcome("A", []);
      var g0 := AnswerGroup(o0, [RuleSpec("Equals", ["x"]), RuleSpec(c, ["a"])]);
      var g1 := AnswerGroup(Outcome("B", []), [RuleSpec(c, ["b"])]);
      var it := Interaction("TextInput", [g0, g1], None, []);
      PredictedMatch(it, c, "0") == Ok(Some(Match(o0, 0, Some(0), None)))
      && g0.ruleSpecs[0].ruleType != c
      && IntendedPredictedMatch(it, c, "0") == Ok(Some(Match(o0, 0, Some(1), None)))
  {
    var c := "FuzzyMatches";
    var g0 := AnswerGroup(Outcome("A", []), [RuleSpec("Equals", ["x"]), RuleSpec(c, ["a"])]);
    var g1 := AnswerGroup(Outcome("B", []), [RuleSpec(c, ["b"])]);
    assert ParseInt("0") == Some(0) by { ParseNatToStr(0); assert NatToStr(0) == "0"; }
    assert ClassifierRuleIndex(g1.ruleSpecs, c) == Some(0);
    assert g0.ruleSpecs[1..] == [RuleSpec(c, ["a"])];
    assert ClassifierRuleIndex(g0.ruleSpecs, c) == Some(1);
  }

  /** In the intended matcher the reported rule spec is a classifier rule of the matched group. */
  lemma IntendedRuleSpecIndexIsClassifierRule(it: Interaction, ruleType: string, predicted: string)
    requires IntendedPredictedMatch(it, ruleType, predicted).Ok?
    ensures var n := |it.answerGroups|;
      var m := IntendedPredictedMatch(it, ruleType, predicted).value.value;
      -n <= m.answerGroupIndex < n
      && var group := it.answerGroups[if m.answerGroupIndex < 0 then m.answerGroupIndex + n else m.answerGroupIndex];
      m.outcome == group.outcome
      && (m.ruleSpecIndex.Some? <==> exists j :: 0 <= j < |group.ruleSpecs| && group.ruleSpecs[j].ruleType == ruleType)
      && (m.ruleSpecIndex.Some? ==> m.ruleSpecIndex.value < |group.ruleSpecs|
                                    && group.ruleSpecs[m.ruleSpecIndex.value].ruleType == ruleType)
  {
  }
}
