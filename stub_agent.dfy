/** The stub responder that stands in for an LLM-backed agent: a priority-ordered
    keyword classifier over the lower-cased task description. */
module StubAgent {
  import opened Values

  // The canned answers, in rule order, and the fallback.
  const ArchitectureAnswer := "Monolithic-like architecture inferred from repository layout."
  const PatternsAnswer := "Singleton\nFactory\nAdapter"
  const DockerfileAnswer := "# Dockerfile\nFROM python:3.11-slim\n# ..."
  const KubernetesAnswer := "apiVersion: v1\nkind: Service\n# ..."
  const PipelineAnswer := "# CI/CD pipeline stub"
  const EnvAnswer := "DATABASE_URL, REDIS_URL"
  const Fallback := "Stubbed result"

  const Answers: set<string> :=
    {ArchitectureAnswer, PatternsAnswer, DockerfileAnswer, KubernetesAnswer, PipelineAnswer, EnvAnswer, Fallback}

  /** `str.lower()` on one character, for the ASCII letters. */
  function LowerChar(c: char): char
  {
    if 'A' <= c <= 'Z' then (c as int + 32) as char else c
  }

  /** `str.lower()`: every character lowered, nothing added or dropped. */
  function Lower(s: string): (r: string)
    ensures |r| == |s|
    ensures forall i :: 0 <= i < |s| ==> r[i] == LowerChar(s[i])
  {
    if s == [] then [] else [LowerChar(s[0])] + Lower(s[1..])
  }

  /** Two strings that `str.lower()` cannot tell apart, compared character by character. */
  ghost predicate EqualIgnoringCase(a: string, b: string)
  {
    |a| == |b| && forall i :: 0 <= i < |a| ==> LowerChar(a[i]) == LowerChar(b[i])
  }

  /** Python's `sub in s` on strings. */
  predicate Contains(s: string, sub: string)
  {
    sub <= s || (s != [] && Contains(s[1..], sub))
  }

  /** `sub` occurs in `s` starting at index `i`. */
  ghost predicate OccursAt(s: string, sub: string, i: int)
  {
    0 <= i && i + |sub| <= |s| && s[i..i + |sub|] == sub
  }

  /** A found occurrence is an occurrence at some index. */
  lemma {:induction false} ContainsOccurs(s: string, sub: string)
    requires Contains(s, sub)
    ensures exists i :: OccursAt(s, sub, i)
  {
    if sub <= s {
      assert OccursAt(s, sub, 0);
    } else {
      ContainsOccurs(s[1..], sub);
      var i :| OccursAt(s[1..], sub, i);
      assert s[1..][i..i + |sub|] == s[i + 1..i + 1 + |sub|];
      assert OccursAt(s, sub, i + 1);
    }
  }

  /** An occurrence at index `i` is found. */
  lemma {:induction false} OccursContains(s: string, sub: string, i: int)
    requires OccursAt(s, sub, i)
    ensures Contains(s, sub)
    decreases i
  {
    if i > 0 {
      assert s[1..][i - 1..i - 1 + |sub|] == s[i..i + |sub|];
      OccursContains(s[1..], sub, i - 1);
    } else {
      assert sub <= s;
    }
  }

  /** `Contains` is substring search: it holds exactly when `sub` occurs somewhere in `s`. */
  lemma ContainsIff(s: string, sub: string)
    ensures Contains(s, sub) <==> exists i :: OccursAt(s, sub, i)
  {
    if Contains(s, sub) {
      ContainsOccurs(s, sub);
    }
    if i :| OccursAt(s, sub, i) {
      OccursContains(s, sub, i);
    }
  }

  /** A string that contains `t` contains everything `t` contains. */
  lemma {:induction false} ContainsTransitive(s: string, t: string, u: string)
    requires Contains(s, t) && Contains(t, u)
    ensures Contains(s, u)
  {
    ContainsIff(s, t);
    ContainsIff(t, u);
    var i :| OccursAt(s, t, i);
    var j :| OccursAt(t, u, j);
    assert forall k :: 0 <= k < |u| ==> s[i + j + k] == t[j + k] == u[k];
    assert s[i + j..i + j + |u|] == u;
    assert OccursAt(s, u, i + j);
    ContainsIff(s, u);
  }

  /** `getattr(task, "description", "") or ""`: a missing or `None` description is empty. */
  function DescriptionText(description: Option<string>): (r: string)
    ensures description.Some? ==> r == description.value
    ensures r == "" <==> description == None || description == Some("")
  {
    if description.Some? then description.value else ""
  }

  /** `StubAgent.execute_task`: the first keyword group found in the lower-cased
      description picks the answer. */
  function ExecuteTask(description: Option<string>): (r: string)
    ensures r in Answers && r != ""
  {
    var d := Lower(DescriptionText(description));
    if Contains(d, "architecture") || Contains(d, "architect") then ArchitectureAnswer
    else if Contains(d, "design patterns") || Contains(d, "design pattern") then PatternsAnswer
    else if Contains(d, "dockerfile") then DockerfileAnswer
    else if Contains(d, "kubernetes") || Contains(d, "k8s") then KubernetesAnswer
    else if Contains(d, "ci/cd") || Contains(d, "ci cd") || Contains(d, "pipeline") then PipelineAnswer
    else if Contains(d, "environment variables") || Contains(d, "env") then EnvAnswer
    else Fallback
  }

  /** The same classifier as a table: keyword groups in priority order. */
  datatype Rule = Rule(keywords: seq<string>, answer: string)

  const Rules: seq<Rule> := [
    Rule(["architecture", "architect"], ArchitectureAnswer),
    Rule(["design patterns", "design pattern"], PatternsAnswer),
    Rule(["dockerfile"], DockerfileAnswer),
    Rule(["kubernetes", "k8s"], KubernetesAnswer),
    Rule(["ci/cd", "ci cd", "pipeline"], PipelineAnswer),
    Rule(["environment variables", "env"], EnvAnswer)
  ]

  /** Some keyword of the group occurs in `d`. */
  predicate Mentions(d: string, keywords: seq<string>)
  {
    exists k :: k in keywords && Contains(d, k)
  }

  /** The answer of the first rule whose group `d` mentions, or the fallback. */
  function FirstMatch(rules: seq<Rule>, d: string): string
  {
    if rules == [] then Fallback
    else if Mentions(d, rules[0].keywords) then rules[0].answer
    else FirstMatch(rules[1..], d)
  }

  /** First match wins: the rule at `k` answers when it matches and no earlier rule does. */
  lemma {:induction false} FirstMatchPicks(rules: seq<Rule>, d: string, k: nat)
    requires k < |rules| && Mentions(d, rules[k].keywords)
    requires forall j :: 0 <= j < k ==> !Mentions(d, rules[j].keywords)
    ensures FirstMatch(rules, d) == rules[k].answer
  {
    if k > 0 {
      assert !Mentions(d, rules[0].keywords);
      FirstMatchPicks(rules[1..], d, k - 1);
    }
  }

  /** With no rule matching, the fallback answers. */
  lemma {:induction false} FirstMatchNone(rules: seq<Rule>, d: string)
    requires forall j :: 0 <= j < |rules| ==> !Mentions(d, rules[j].keywords)
    ensures FirstMatch(rules, d) == Fallback
  {
    if rules != [] {
      assert !Mentions(d, rules[0].keywords);
      FirstMatchNone(rules[1..], d);
    }
  }

  /** The rule table read in order, as an if-chain over its rules. */
  lemma RulesInOrder(d: string)
    ensures FirstMatch(Rules, d) ==
      if Mentions(d, Rules[0].keywords) then ArchitectureAnswer
      else if Mentions(d, Rules[1].keywords) then PatternsAnswer
      else if Mentions(d, Rules[2].keywords) then DockerfileAnswer
      else if Mentions(d, Rules[3].keywords) then KubernetesAnswer
      else if Mentions(d, Rules[4].keywords) then PipelineAnswer
      else if Mentions(d, Rules[5].keywords) then EnvAnswer
      else Fallback
  {
    if Mentions(d, Rules[0].keywords) {
      FirstMatchPicks(Rules, d, 0);
    } else if Mentions(d, Rules[1].keywords) {
      FirstMatchPicks(Rules, d, 1);
    } else if Mentions(d, Rules[2].keywords) {
      FirstMatchPicks(Rules, d, 2);
    } else if Mentions(d, Rules[3].keywords) {
      FirstMatchPicks(Rules, d, 3);
    } else if Mentions(d, Rules[4].keywords) {
      FirstMatchPicks(Rules, d, 4);
    } else if Mentions(d, Rules[5].keywords) {
      FirstMatchPicks(Rules, d, 5);
    } else {
      FirstMatchNone(Rules, d);
    }
  }

  /** The if-chain of `execute_task` is the rule table read in order. */
  lemma ExecuteTaskIsFirstMatch(description: Option<string>)
    ensures ExecuteTask(description) == FirstMatch(Rules, Lower(DescriptionText(description)))
  {
    var d := Lower(DescriptionText(description));
    RulesMention(d);
    RulesInOrder(d);
  }

  /** Each rule of the table matches exactly when one of its keywords occurs. */
  lemma RulesMention(d: string)
    ensures Mentions(d, Rules[0].keywords) <==> Contains(d, "architecture") || Contains(d, "architect")
    ensures Mentions(d, Rules[1].keywords) <==> Contains(d, "design patterns") || Contains(d, "design pattern")
    ensures Mentions(d, Rules[2].keywords) <==> Contains(d, "dockerfile")
    ensures Mentions(d, Rules[3].keywords) <==> Contains(d, "kubernetes") || Contains(d, "k8s")
    ensures Mentions(d, Rules[4].keywords) <==> Contains(d, "ci/cd") || Contains(d, "ci cd") || Contains(d, "pipeline")
    ensures Mentions(d, Rules[5].keywords) <==> Contains(d, "environment variables") || Contains(d, "env")
  {
    MentionsTwo(d, "architecture", "architect");
    MentionsTwo(d, "design patterns", "design pattern");
    MentionsOne(d, "dockerfile");
    MentionsTwo(d, "kubernetes", "k8s");
    MentionsThree(d, "ci/cd", "ci cd", "pipeline");
    MentionsTwo(d, "environment variables", "env");
  }

  lemma MentionsOne(d: string, a: string)
    ensures Mentions(d, [a]) <==> Contains(d, a)
  {
    assert a in [a];
  }

  lemma MentionsTwo(d: string, a: string, b: string)
    ensures Mentions(d, [a, b]) <==> Contains(d, a) || Contains(d, b)
  {
    assert a in [a, b] && b in [a, b];
  }

  lemma MentionsThree(d: string, a: string, b: string, c: string)
    ensures Mentions(d, [a, b, c]) <==> Contains(d, a) || Contains(d, b) || Contains(d, c)
  {
    assert a in [a, b, c] && b in [a, b, c] && c in [a, b, c];
  }

  /** Priority: a description mentioning the architecture gets the architecture answer,
      whatever else (a Dockerfile, say) it mentions. */
  lemma ArchitectureWins(description: string)
    requires Contains(Lower(description), "architecture")
    ensures ExecuteTask(Some(description)) == ArchitectureAnswer
  {
  }

  /** "env" alone, with no keyword of an earlier group, gets the environment answer. */
  lemma EnvWhenNothingEarlier(description: string)
    requires Contains(Lower(description), "env")
    requires forall k :: k in ["architect", "design pattern", "dockerfile", "kubernetes", "k8s", "ci/cd", "ci cd", "pipeline"]
               ==> !Contains(Lower(description), k)
    ensures ExecuteTask(Some(description)) == EnvAnswer
  {
    var d := Lower(description);
    assert !Contains(d, "architect");
    assert !Contains(d, "design pattern");
    assert !Contains(d, "dockerfile");
    assert !Contains(d, "kubernetes") && !Contains(d, "k8s");
    assert !Contains(d, "ci/cd") && !Contains(d, "ci cd") && !Contains(d, "pipeline");
    if Contains(d, "architecture") {
      ContainsTransitive(d, "architecture", "architect");
    }
    if Contains(d, "design patterns") {
      ContainsTransitive(d, "design patterns", "design pattern");
    }
  }

  /** The longer keyword of three groups is redundant: "architecture" contains "architect",
      "design patterns" contains "design pattern" and "environment variables" contains "env",
      so the classifier is decided by the shorter keywords alone. */
  lemma ShorterKeywordsDecide(description: string)
    ensures var d := Lower(description);
      ExecuteTask(Some(description)) ==
        if Contains(d, "architect") then ArchitectureAnswer
        else if Contains(d, "design pattern") then PatternsAnswer
        else if Contains(d, "dockerfile") then DockerfileAnswer
        else if Contains(d, "kubernetes") || Contains(d, "k8s") then KubernetesAnswer
        else if Contains(d, "ci/cd") || Contains(d, "ci cd") || Contains(d, "pipeline") then PipelineAnswer
        else if Contains(d, "env") then EnvAnswer
        else Fallback
  {
    var d := Lower(description);
    if Contains(d, "architecture") {
      ContainsTransitive(d, "architecture", "architect");
    }
    if Contains(d, "design patterns") {
      ContainsTransitive(d, "design patterns", "design pattern");
    }
    if Contains(d, "environment variables") {
      ContainsTransitive(d, "environment variables", "env");
    }
  }

  /** A missing, `None` or empty description matches no keyword. */
  lemma EmptyDescription()
    ensures ExecuteTask(None) == Fallback
    ensures ExecuteTask(Some("")) == Fallback
  {
  }

  /** The answer depends only on the description up to letter case. */
  lemma CaseInsensitive(a: string, b: string)
    requires EqualIgnoringCase(a, b)
    ensures ExecuteTask(Some(a)) == ExecuteTask(Some(b))
  {
    assert Lower(a) == Lower(b);
  }

  /** Lower-casing twice is lower-casing once. */
  lemma {:induction false} LowerIdempotent(s: string)
    ensures Lower(Lower(s)) == Lower(s)
  {
    if s != [] {
      LowerIdempotent(s[1..]);
    }
  }

  /** A description already lower-cased gets the answer of the original: the
      classifier's own `lower()` makes a caller's lower-casing redundant. */
  lemma LoweredDescription(description: string)
    ensures ExecuteTask(Some(Lower(description))) == ExecuteTask(Some(description))
  {
    LowerIdempotent(description);
  }
}
