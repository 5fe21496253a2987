/** Payload routing: the decision from declared task class and override class, and the
    routing kind that the tally and the receipt query each derive from it. */
module SmartRouting {
  import opened Ledger

  datatype Rule = Rule(model: string, direction: string, risk: string)

  /** The configured tables. */
  datatype Tables = Tables(
    taskComplexity: map<string, string>, defaultComplexity: string,
    complexityTiers: map<string, string>, overrideRules: map<string, Rule>)

  /** Every complexity level a task can have maps to a tier. */
  predicate Complete(t: Tables) {
    && t.defaultComplexity in t.complexityTiers
    && forall k | k in t.taskComplexity :: t.taskComplexity[k] in t.complexityTiers
  }

  datatype Decision = Decision(
    complexity: string, risk: string, selectedModel: string, routeReason: string,
    wouldHaveSelected: Option<string>, overrideClass: Option<string>, overrideDirection: Option<string>)

  function OrEmpty(s: Option<string>): string {
    if s.Some? then s.value else ""
  }

  function TaskComplexity(t: Tables, taskClass: Option<string>): string {
    if OrEmpty(taskClass) in t.taskComplexity then t.taskComplexity[OrEmpty(taskClass)] else t.defaultComplexity
  }

  /** How an optional class is spelled inside a reason string. */
  function Spelled(s: Option<string>): string {
    if s.Some? then s.value else "None"
  }

  function SmartDecision(t: Tables, taskClass: Option<string>, overrideClass: Option<string>): Decision
    requires Complete(t)
  {
    var complexity := TaskComplexity(t, taskClass);
    var model := t.complexityTiers[complexity];
    if OrEmpty(overrideClass) in t.overrideRules then
      var rule := t.overrideRules[OrEmpty(overrideClass)];
      Decision(complexity, rule.risk, rule.model, "override_" + Spelled(overrideClass),
               if model != rule.model then Some(model) else None, overrideClass, Some(rule.direction))
    else
      Decision(complexity, "low", model, "complexity_" + complexity, None, None, None)
  }

  datatype Kind = Weighted | Payload | Override | Other

  /** The kind the batch tallies: an override that is declared and not empty. */
  function TalliedKind(d: Decision): Kind {
    if OrEmpty(d.overrideClass) != "" then Override else Payload
  }

  /** SQL LIKE 'word_%': the underscore stands for any one character. */
  predicate LikeWordAnyRest(s: string, word: string) {
    |s| > |word| && s[..|word|] == word
  }

  /** The kind the receipt query derives, first match wins. */
  function ReceiptKind(routeReason: string): Kind {
    if routeReason == "weighted_distribution" then Weighted
    else if LikeWordAnyRest(routeReason, "override") then Override
    else if LikeWordAnyRest(routeReason, "complexity") then Payload
    else Other
  }

  /** Which reasons read as which kind: the exact phrase, or the word and at least one more
      character. */
  lemma ReceiptKindIff(reason: string)
    ensures ReceiptKind(reason) == Weighted <==> reason == "weighted_distribution"
    ensures ReceiptKind(reason) == Override <==> exists rest :: |rest| >= 1 && reason == "override" + rest
    ensures ReceiptKind(reason) == Payload <==> exists rest :: |rest| >= 1 && reason == "complexity" + rest
  {
    hide LikeWordAnyRest;
    LikeIsPrefix(reason, "override");
    LikeIsPrefix(reason, "complexity");
    assert "override"[0] == 'o' && "complexity"[0] == 'c' && "weighted_distribution"[0] == 'w';
    FirstOfLike(reason, "override");
    FirstOfLike(reason, "complexity");
  }

  lemma LikeIsPrefix(s: string, word: string)
    ensures LikeWordAnyRest(s, word) <==> exists rest :: |rest| >= 1 && s == word + rest
  {
    if LikeWordAnyRest(s, word) {
      assert s == word + s[|word|..];
    } else {
      forall rest: string | |rest| >= 1 ensures s != word + rest { assert (word + rest)[..|word|] == word; }
    }
  }

  lemma FirstOfLike(s: string, word: string)
    requires |word| > 0
    ensures LikeWordAnyRest(s, word) ==> s[0] == word[0]
  {
    if LikeWordAnyRest(s, word) { assert s[0] == s[..|word|][0]; }
  }

  lemma ReasonKinds(rest: string)
    ensures ReceiptKind("override_" + rest) == Override
    ensures ReceiptKind("complexity_" + rest) == Payload
  {
    assert ("override_" + rest)[..8] == "override";
    assert ("complexity_" + rest)[..10] == "complexity";
    assert ("override_" + rest)[0] == 'o' && ("complexity_" + rest)[0] == 'c';
  }

  /** The tallied kind and the receipt's kind agree for every request exactly when no override
      rule is keyed by the empty string (which an undeclared class would hit). */
  lemma KindsAgreeIff(t: Tables)
    requires Complete(t)
    ensures (forall task: Option<string>, over: Option<string> :: KindAgrees(t, task, over))
            <==> "" !in t.overrideRules
  {
    if "" !in t.overrideRules {
      forall task: Option<string>, over: Option<string> ensures KindAgrees(t, task, over) {
        KindAgreement(t, task, over);
      }
    } else {
      KindAgreement(t, None, None);
      assert !KindAgrees(t, None, None);
    }
  }

  predicate KindAgrees(t: Tables, task: Option<string>, over: Option<string>)
    requires Complete(t)
  {
    var d := SmartDecision(t, task, over);
    TalliedKind(d) == ReceiptKind(d.routeReason)
  }

  lemma KindAgreement(t: Tables, task: Option<string>, over: Option<string>)
    requires Complete(t)
    ensures KindAgrees(t, task, over) <==> !(OrEmpty(over) == "" && "" in t.overrideRules)
  {
    ReasonKinds(Spelled(over));
    ReasonKinds(TaskComplexity(t, task));
  }

  /** Without a rule the declared task class alone selects the tier: a class in the table by
      its own level, any other or none by the default level; and nothing is overridden. */
  lemma TaskSelectsTier(t: Tables, task: Option<string>, over: Option<string>)
    requires Complete(t) && (over == None ==> "" !in t.overrideRules) && (over.Some? ==> over.value !in t.overrideRules)
    ensures var d := SmartDecision(t, task, over);
            && (task.Some? && task.value in t.taskComplexity ==>
                  && d.complexity == t.taskComplexity[task.value]
                  && d.selectedModel == t.complexityTiers[t.taskComplexity[task.value]]
                  && d.routeReason == "complexity_" + t.taskComplexity[task.value])
            && ((task == None && "" !in t.taskComplexity) || (task.Some? && task.value !in t.taskComplexity) ==>
                  && d.complexity == t.defaultComplexity
                  && d.selectedModel == t.complexityTiers[t.defaultComplexity]
                  && d.routeReason == "complexity_" + t.defaultComplexity)
            && (task == None ==> d == SmartDecision(t, Some(""), over))
            && d.risk == "low"
            && d.wouldHaveSelected == None && d.overrideClass == None && d.overrideDirection == None
  {
  }

  /** With a rule the tier, the risk and the direction are the rule's and the reason names the
      class; the complexity is still the task's, and the tier it would have selected is
      reported exactly when it differs. */
  lemma RulePinsTier(t: Tables, task: Option<string>, cls: string)
    requires Complete(t) && cls in t.overrideRules
    ensures var d, rule := SmartDecision(t, task, Some(cls)), t.overrideRules[cls];
            && d.selectedModel == rule.model && d.risk == rule.risk && d.overrideDirection == Some(rule.direction)
            && d.routeReason == "override_" + cls && d.overrideClass == Some(cls)
            && d.complexity == TaskComplexity(t, task)
            && (d.wouldHaveSelected.Some? <==> t.complexityTiers[d.complexity] != rule.model)
            && (d.wouldHaveSelected.Some? ==> d.wouldHaveSelected.value == t.complexityTiers[d.complexity])
            && (cls == "" ==>
                  SmartDecision(t, task, None) == d.(routeReason := "override_None", overrideClass := None))
  {
  }

  const TABLES := Tables(
    map["ticket_tag" := "simple", "doc_summary" := "simple", "data_extract" := "moderate",
        "bug_triage" := "complex", "incident_analysis" := "complex"],
    "simple",
    map["simple" := "econo-mini", "moderate" := "balanced-std", "complex" := "premium-max"],
    map["bulk_batch" := Rule("econo-mini", "economy", "low"),
        "legal_review" := Rule("premium-max", "risk", "high"),
        "code_generation" := Rule("premium-max", "risk", "high")])

  /** The configured tables are complete and have no empty override class. */
  lemma TablesAreSound()
    ensures Complete(TABLES) && "" !in TABLES.overrideRules
    ensures forall task: Option<string>, over: Option<string> :: KindAgrees(TABLES, task, over)
    ensures SmartDecision(TABLES, Some("data_extract"), None).selectedModel == "balanced-std"
    ensures SmartDecision(TABLES, None, None).selectedModel == "econo-mini"
    ensures SmartDecision(TABLES, None, Some("code_generation")).selectedModel == "premium-max"
  {
    hide KindAgrees;
    KindsAgreeIff(TABLES);
  }
}
