/** components/form-builder/conditional-logic.tsx: the editor for one
    question's rule list. Its state is the rule list; its props are the
    form's questions and the current question's id; every edit stores the
    new list and passes the same list to `onChange`, which the model records
    in the log `emitted`. Rules are only edited here, never evaluated. */
module ConditionalLogic {
  import opened Common
  import opened FormTypes

  /** The kinds a rule may test: multiple choice, dropdown, checkbox, scale. */
  predicate IsSourceKind(t: QuestionType) {
    t == MultipleChoice || t == Dropdown || t == Checkbox || t == LinearScale
  }

  /** `eligibleQuestions`: the other questions of a source kind, in order. */
  function EligibleQuestions(qs: seq<Question>, currentId: string): (r: seq<Question>)
    ensures |r| <= |qs|
    ensures forall i :: 0 <= i < |r| ==> r[i] in qs && r[i].id != currentId && IsSourceKind(r[i].qtype)
    ensures forall i :: 0 <= i < |qs| && qs[i].id != currentId && IsSourceKind(qs[i].qtype) ==> qs[i] in r
  {
    if |qs| == 0 then []
    else
      var rest := EligibleQuestions(qs[1..], currentId);
      assert forall i :: 1 <= i < |qs| ==> qs[i] == qs[1..][i - 1];
      if qs[0].id != currentId && IsSourceKind(qs[0].qtype) then [qs[0]] + rest else rest
  }

  /** `targetQuestions`: every other question, in order. */
  function TargetQuestions(qs: seq<Question>, currentId: string): (r: seq<Question>)
    ensures |r| <= |qs|
    ensures forall i :: 0 <= i < |r| ==> r[i] in qs && r[i].id != currentId
    ensures forall i :: 0 <= i < |qs| && qs[i].id != currentId ==> qs[i] in r
  {
    if |qs| == 0 then []
    else
      var rest := TargetQuestions(qs[1..], currentId);
      assert forall i :: 1 <= i < |qs| ==> qs[i] == qs[1..][i - 1];
      if qs[0].id != currentId then [qs[0]] + rest else rest
  }

  /** An eligible source for the question `currentId`. */
  predicate IsEligible(q: Question, currentId: string) {
    q.id != currentId && IsSourceKind(q.qtype)
  }

  /** Filtering a concatenation filters each part and keeps them in the same
      order: together with the one-question case, this fixes the list
      completely, with the original order and no repeats. */
  lemma {:induction false} EligibleAppend(a: seq<Question>, b: seq<Question>, currentId: string)
    ensures EligibleQuestions(a + b, currentId) == EligibleQuestions(a, currentId) + EligibleQuestions(b, currentId)
  {
    if |a| == 0 {
      assert a + b == b;
    } else {
      assert (a + b)[1..] == a[1..] + b;
      EligibleAppend(a[1..], b, currentId);
    }
  }

  /** A single question is kept exactly when it is eligible. */
  lemma EligibleOfOne(q: Question, currentId: string)
    ensures EligibleQuestions([q], currentId) == if IsEligible(q, currentId) then [q] else []
  {
    assert [q][1..] == [];
  }

  /** `eligibleQuestions[0]` is the first eligible question of the form. */
  lemma {:induction false} EligibleHead(qs: seq<Question>, currentId: string)
    ensures var r := EligibleQuestions(qs, currentId);
            |r| > 0 ==> exists k :: 0 <= k < |qs| && r[0] == qs[k] && IsEligible(qs[k], currentId) &&
                                     forall j :: 0 <= j < k ==> !IsEligible(qs[j], currentId)
  {
    if |qs| > 0 && !IsEligible(qs[0], currentId) {
      EligibleHead(qs[1..], currentId);
      var r := EligibleQuestions(qs[1..], currentId);
      if |r| > 0 {
        var k :| 0 <= k < |qs[1..]| && r[0] == qs[1..][k] && IsEligible(qs[1..][k], currentId) &&
                 forall j :: 0 <= j < k ==> !IsEligible(qs[1..][j], currentId);
        assert r[0] == qs[k + 1];
        assert forall j :: 1 <= j < k + 1 ==> qs[j] == qs[1..][j - 1];
      }
    }
  }

  /** The same two laws for the skip targets. */
  lemma {:induction false} TargetAppend(a: seq<Question>, b: seq<Question>, currentId: string)
    ensures TargetQuestions(a + b, currentId) == TargetQuestions(a, currentId) + TargetQuestions(b, currentId)
  {
    if |a| == 0 {
      assert a + b == b;
    } else {
      assert (a + b)[1..] == a[1..] + b;
      TargetAppend(a[1..], b, currentId);
    }
  }

  lemma TargetOfOne(q: Question, currentId: string)
    ensures TargetQuestions([q], currentId) == if q.id != currentId then [q] else []
  {
    assert [q][1..] == [];
  }

  /** `targetQuestions[0]` is the first question of the form other than the
      current one. */
  lemma {:induction false} TargetHead(qs: seq<Question>, currentId: string)
    ensures var r := TargetQuestions(qs, currentId);
            |r| > 0 ==> exists k :: 0 <= k < |qs| && r[0] == qs[k] && qs[k].id != currentId &&
                                     forall j :: 0 <= j < k ==> qs[j].id == currentId
  {
    if |qs| > 0 && qs[0].id == currentId {
      TargetHead(qs[1..], currentId);
      var r := TargetQuestions(qs[1..], currentId);
      if |r| > 0 {
        var k :| 0 <= k < |qs[1..]| && r[0] == qs[1..][k] && qs[1..][k].id != currentId &&
                 forall j :: 0 <= j < k ==> qs[1..][j].id == currentId;
        assert r[0] == qs[k + 1];
        assert forall j :: 1 <= j < k + 1 ==> qs[j] == qs[1..][j - 1];
      }
    }
  }

  /** The questions of a source kind, in order. */
  function OfSourceKind(qs: seq<Question>): (r: seq<Question>)
    ensures |r| <= |qs|
    ensures forall i :: 0 <= i < |r| ==> r[i] in qs && IsSourceKind(r[i].qtype)
    ensures forall i :: 0 <= i < |qs| && IsSourceKind(qs[i].qtype) ==> qs[i] in r
  {
    if |qs| == 0 then []
    else
      var rest := OfSourceKind(qs[1..]);
      assert forall i :: 1 <= i < |qs| ==> qs[i] == qs[1..][i - 1];
      (if IsSourceKind(qs[0].qtype) then [qs[0]] else []) + rest
  }

  /** The eligible sources are exactly the skip targets of a source kind,
      in the same order. */
  lemma {:induction false} EligibleAreSourceTargets(qs: seq<Question>, currentId: string)
    ensures EligibleQuestions(qs, currentId) == OfSourceKind(TargetQuestions(qs, currentId))
  {
    if |qs| > 0 {
      EligibleAreSourceTargets(qs[1..], currentId);
      if qs[0].id != currentId {
        var t := TargetQuestions(qs, currentId);
        assert t == [qs[0]] + TargetQuestions(qs[1..], currentId);
        assert t[1..] == TargetQuestions(qs[1..], currentId);
      }
    }
  }

  /** `questions.find((q) => q.id === id)`. */
  function FindQuestion(qs: seq<Question>, id: string): (r: Option<Question>)
    ensures r.None? <==> id !in QuestionIds(qs)
    ensures r.Some? ==> exists k :: 0 <= k < |qs| && qs[k] == r.value && r.value.id == id &&
                                      id !in QuestionIds(qs)[..k]
  {
    var k := IndexOf(QuestionIds(qs), id);
    if k < 0 then None else Some(qs[k])
  }

  /** The rule `addRule` appends: test the given source for "equals" the empty
      value, then show; no target. */
  function NewRule(freshId: string, sourceId: string): (r: ConditionalRule)
    ensures r.id == freshId && r.questionId == sourceId
    ensures r.operator == Equals && r.value == "" && r.action == Show && r.targetQuestionId.None?
  {
    ConditionalRule(freshId, sourceId, Equals, "", Show, None)
  }

  function RuleIds(rules: seq<ConditionalRule>): (ids: seq<string>)
    ensures |ids| == |rules|
    ensures forall i :: 0 <= i < |rules| ==> ids[i] == rules[i].id
  {
    seq(|rules|, i requires 0 <= i < |rules| => rules[i].id)
  }

  /** `rules.map((rule) => (rule.id === id ? { ...rule, ...data } : rule))`. */
  function UpdatedRules(rules: seq<ConditionalRule>, id: string, patch: RulePatch): (r: seq<ConditionalRule>)
    ensures |r| == |rules|
    ensures forall i :: 0 <= i < |rules| && rules[i].id != id ==> r[i] == rules[i]
    ensures forall i :: 0 <= i < |rules| && rules[i].id == id ==> r[i] == MergeRule(rules[i], patch)
  {
    seq(|rules|, i requires 0 <= i < |rules| => if rules[i].id == id then MergeRule(rules[i], patch) else rules[i])
  }

  /** A patch that does not carry an id keeps every rule's id in place. */
  lemma UpdateKeepsRuleIds(rules: seq<ConditionalRule>, id: string, patch: RulePatch)
    requires patch.id.None?
    ensures RuleIds(UpdatedRules(rules, id, patch)) == RuleIds(rules)
  {
    var r := UpdatedRules(rules, id, patch);
    assert forall i :: 0 <= i < |rules| ==> RuleIds(r)[i] == RuleIds(rules)[i];
  }

  /** `rules.filter((rule) => rule.id !== id)`. */
  function WithoutRule(rules: seq<ConditionalRule>, id: string): (r: seq<ConditionalRule>)
    ensures id !in RuleIds(r)
    ensures forall i :: 0 <= i < |r| ==> r[i] in rules
    ensures forall i :: 0 <= i < |rules| && rules[i].id != id ==> rules[i] in r
  {
    var r := Filter(rules, (rule: ConditionalRule) => rule.id != id);
    assert forall i :: 0 <= i < |r| ==> RuleIds(r)[i] != id;
    r
  }

  /** With unique rule ids, removing a rule deletes exactly its position and
      the other rules keep their order. */
  lemma WithoutRuleRemovesAt(rules: seq<ConditionalRule>, k: nat)
    requires Distinct(RuleIds(rules)) && k < |rules|
    ensures WithoutRule(rules, rules[k].id) == RemoveAt(rules, k)
  {
    var id := rules[k].id;
    assert forall j :: 0 <= j < |rules| && j != k ==> RuleIds(rules)[j] != RuleIds(rules)[k];
    FilterDropsOne(rules, (rule: ConditionalRule) => rule.id != id, k);
  }

  /** The patch the action selector emits: the action, and a target that is
      the first skip target for "skip to" and cleared for any other action. */
  function ActionPatch(action: RuleAction, targets: seq<Question>): (p: RulePatch)
    ensures forall rule :: MergeRule(rule, p).action == action
    ensures forall rule :: action == SkipTo && |targets| > 0 ==>
              MergeRule(rule, p).targetQuestionId == Some(targets[0].id)
    ensures forall rule :: action != SkipTo || |targets| == 0 ==> MergeRule(rule, p).targetQuestionId.None?
    ensures forall rule :: MergeRule(rule, p).(action := rule.action, targetQuestionId := rule.targetQuestionId) == rule
  {
    RulePatch(action := Some(action),
              targetQuestionId := Some(if action == SkipTo && |targets| > 0 then Some(targets[0].id) else None))
  }

  /** A rule whose action was chosen with the selector has a target exactly
      when it skips and the form has another question. That target is the id
      of the first question, in form order, that is not the one owning the
      rule. */
  lemma ChosenTargetIsOtherQuestion(rule: ConditionalRule, action: RuleAction, qs: seq<Question>, currentId: string)
    ensures var r := MergeRule(rule, ActionPatch(action, TargetQuestions(qs, currentId)));
            (r.targetQuestionId.Some? <==> action == SkipTo && exists i :: 0 <= i < |qs| && qs[i].id != currentId) &&
            (r.targetQuestionId.Some? ==> r.targetQuestionId.value != currentId &&
                                          exists k :: 0 <= k < |qs| && qs[k].id == r.targetQuestionId.value &&
                                                      forall j :: 0 <= j < k ==> qs[j].id == currentId)
  {
    var targets := TargetQuestions(qs, currentId);
    TargetHead(qs, currentId);
    if exists i :: 0 <= i < |qs| && qs[i].id != currentId {
      var i :| 0 <= i < |qs| && qs[i].id != currentId;
      assert qs[i] in targets;
    }
    if |targets| > 0 {
      assert targets[0] in qs;
    }
  }

  /** The label each operator is shown with. */
  function OperatorLabel(op: Operator): string {
    match op
    case Equals => "equals"
    case NotEquals => "does not equal"
    case Contains => "contains"
    case NotContains => "does not contain"
    case GreaterThan => "is greater than"
    case LessThan => "is less than"
  }

  /** The label each action is shown with. */
  function ActionLabel(a: RuleAction): string {
    match a
    case Show => "Show this question"
    case Hide => "Hide this question"
    case Require => "Make this question required"
    case SkipTo => "Skip to question"
  }

  /** `getOperatorLabel(operator)`: the label of a known operator name; any
      other string is returned as it is. */
  function GetOperatorLabel(operator: string): (r: string)
    ensures forall op: Operator :: operator == OperatorName(op) ==> r == OperatorLabel(op)
    ensures (forall op: Operator :: operator != OperatorName(op)) ==> r == operator
  {
    if operator == OperatorName(Equals) then OperatorLabel(Equals)
    else if operator == OperatorName(NotEquals) then OperatorLabel(NotEquals)
    else if operator == OperatorName(Contains) then OperatorLabel(Contains)
    else if operator == OperatorName(NotContains) then OperatorLabel(NotContains)
    else if operator == OperatorName(GreaterThan) then OperatorLabel(GreaterThan)
    else if operator == OperatorName(LessThan) then OperatorLabel(LessThan)
    else operator
  }

  /** `getActionLabel(action)`: the label of a known action name; any other
      string is returned as it is. */
  function GetActionLabel(action: string): (r: string)
    ensures forall a: RuleAction :: action == ActionName(a) ==> r == ActionLabel(a)
    ensures (forall a: RuleAction :: action != ActionName(a)) ==> r == action
  {
    if action == ActionName(Show) then ActionLabel(Show)
    else if action == ActionName(Hide) then ActionLabel(Hide)
    else if action == ActionName(Require) then ActionLabel(Require)
    else if action == ActionName(SkipTo) then ActionLabel(SkipTo)
    else action
  }

  /** Different operators and different actions are shown with different
      labels, so a label identifies its operator or action. */
  lemma LabelsDistinct(a: Operator, b: Operator, x: RuleAction, y: RuleAction)
    ensures a != b ==> OperatorLabel(a) != OperatorLabel(b)
    ensures x != y ==> ActionLabel(x) != ActionLabel(y)
  {
  }

  /** The operators the selector offers for a rule's source question:
      always equals / does not equal; contains / does not contain for text and
      paragraph sources; greater / less than for scale sources. */
  function OfferedOperators(source: Option<Question>): (ops: seq<Operator>)
    ensures Equals in ops && NotEquals in ops
    ensures Contains in ops <==> source.Some? && (source.value.qtype == Text || source.value.qtype == Paragraph)
    ensures NotContains in ops <==> Contains in ops
    ensures GreaterThan in ops <==> source.Some? && source.value.qtype == LinearScale
    ensures LessThan in ops <==> GreaterThan in ops
  {
    var isText := source.Some? && (source.value.qtype == Text || source.value.qtype == Paragraph);
    var isScale := source.Some? && source.value.qtype == LinearScale;
    [Equals, NotEquals] + (if isText then [Contains, NotContains] else []) +
    (if isScale then [GreaterThan, LessThan] else [])
  }

  /** A rule whose source is an eligible question is never offered the text
      operators, since text and paragraph questions are not eligible. */
  lemma EligibleSourceHasNoTextOperators(qs: seq<Question>, currentId: string, k: nat)
    requires k < |EligibleQuestions(qs, currentId)|
    ensures Contains !in OfferedOperators(Some(EligibleQuestions(qs, currentId)[k]))
  {
  }

  class RuleEditor {
    var questions: seq<Question>
    var currentQuestionId: string
    var rules: seq<ConditionalRule>
    /** Every list passed to `onChange`, oldest first. */
    var emitted: seq<seq<ConditionalRule>>

    /** `useState(logic || [])`. */
    constructor (questions: seq<Question>, currentQuestionId: string, logic: Option<seq<ConditionalRule>>)
      ensures this.questions == questions && this.currentQuestionId == currentQuestionId
      ensures rules == logic.GetOr([]) && emitted == []
    {
      this.questions := questions;
      this.currentQuestionId := currentQuestionId;
      rules := logic.GetOr([]);
      emitted := [];
    }

    /** A re-render with new props: the stored rules are not re-read from `logic`. */
    method Rerender(questions: seq<Question>, currentQuestionId: string)
      modifies this`questions, this`currentQuestionId
      ensures this.questions == questions && this.currentQuestionId == currentQuestionId
    {
      this.questions := questions;
      this.currentQuestionId := currentQuestionId;
    }

    /** `addRule()`, with the uuid passed in. */
    method AddRule(freshId: string)
      modifies this`rules, this`emitted
      ensures |EligibleQuestions(questions, currentQuestionId)| == 0 ==>
                rules == old(rules) && emitted == old(emitted)
      ensures |EligibleQuestions(questions, currentQuestionId)| > 0 ==>
                rules == old(rules) + [NewRule(freshId, EligibleQuestions(questions, currentQuestionId)[0].id)] &&
                emitted == old(emitted) + [rules]
    {
      var eligible := EligibleQuestions(questions, currentQuestionId);
      if |eligible| == 0 {
        return;
      }
      var newRule := NewRule(freshId, eligible[0].id);
      var updatedRules := rules + [newRule];
      rules := updatedRules;
      emitted := emitted + [updatedRules];
    }

    /** `updateRule(id, data)`. */
    method UpdateRule(id: string, patch: RulePatch)
      modifies this`rules, this`emitted
      ensures rules == UpdatedRules(old(rules), id, patch)
      ensures emitted == old(emitted) + [rules]
    {
      var updatedRules := UpdatedRules(rules, id, patch);
      rules := updatedRules;
      emitted := emitted + [updatedRules];
    }

    /** `removeRule(id)`. */
    method RemoveRule(id: string)
      modifies this`rules, this`emitted
      ensures rules == WithoutRule(old(rules), id)
      ensures emitted == old(emitted) + [rules]
    {
      var updatedRules := WithoutRule(rules, id);
      rules := updatedRules;
      emitted := emitted + [updatedRules];
    }

    /** The action selector of rule `id`. */
    method ChooseAction(id: string, action: RuleAction)
      modifies this`rules, this`emitted
      ensures rules == UpdatedRules(old(rules), id, ActionPatch(action, TargetQuestions(questions, currentQuestionId)))
      ensures emitted == old(emitted) + [rules]
    {
      UpdateRule(id, ActionPatch(action, TargetQuestions(questions, currentQuestionId)));
    }
  }
}
