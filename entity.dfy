/** The parsed stylesheet tree: a StyleSheet owns RuleSets, a RuleSet owns
    the Rules (property/value declarations) written inside it. */
module Entity {
  import opened BinaryRule
  import opened Text
  import Seqs

  /** The string normalisers of the entity helper module, whose rules are not
      part of this model: every result below holds for any choice of them. */
  datatype Cleaner = Cleaner(
    clearName: string -> string,
    clearValue: string -> string,
    clearSelector: string -> string,
    clean: string -> string)

  /** Every data field of a Rule: raw, cleaned, trimmed and staged-fix forms,
      and the browsers it applies to. */
  datatype RuleState = RuleState(
    roughName: string, roughValue: string, roughSelector: string,
    name: string, value: string, selector: string,
    strippedName: string, strippedValue: string, strippedSelector: string,
    fixedName: string, fixedValue: string,
    browser: Mask)

  /** The staged-fix pair cleared, nothing else changed. */
  function RebasedRule(s: RuleState): (r: RuleState)
    ensures r.fixedName == "" && r.fixedValue == ""
    ensures r.(fixedName := s.fixedName, fixedValue := s.fixedValue) == s
  {
    s.(fixedName := "", fixedValue := "")
  }

  /** `browser || ALL`: a falsy target mask means every browser. */
  function TargetMask(b: Mask): (r: Mask)
    ensures r != 0
    ensures b != 0 ==> r == b
    ensures b == 0 ==> r == ALL
  {
    if b == 0 then ALL else b
  }

  /** `compress` drops a rule restricted to browsers none of which is targeted. */
  predicate Dropped(s: RuleState, b: Mask) {
    s.browser != 0 && s.browser & TargetMask(b) == 0
  }

  /** The text `compress(b)` renders for a rule in state `s`: nothing when
      the rule is dropped, otherwise `name:value;` with the trimmed staged
      pair, each part falling back to the cleaned one while unstaged. */
  function CompressedText(s: RuleState, b: Mask, c: Cleaner): (r: string)
    ensures r == "" <==> Dropped(s, b)
    ensures !Dropped(s, b) ==>
      r == (if s.fixedName != "" then Trim(s.fixedName) else s.name) + ":" +
           c.clean(if s.fixedValue != "" then Trim(s.fixedValue) else s.value) + ";"
  {
    if Dropped(s, b) then ""
    else
      var n := if s.fixedName != "" then Trim(s.fixedName) else s.name;
      var v := if s.fixedValue != "" then Trim(s.fixedValue) else s.value;
      n + ":" + c.clean(v) + ";"
  }

  /** The text `fixed()` renders: `name: value;` from the staged pair,
      each part falling back to the trimmed raw one while unstaged. */
  function FixedText(s: RuleState, c: Cleaner): (r: string)
    ensures |r| >= 3 && r[|r| - 1] == ';'
    ensures r == (if s.fixedName != "" then s.fixedName else s.strippedName) + ": " +
                 c.clean(if s.fixedValue != "" then s.fixedValue else s.strippedValue) + ";"
  {
    var n := if s.fixedName != "" then s.fixedName else s.strippedName;
    var v := if s.fixedValue != "" then s.fixedValue else s.strippedValue;
    n + ": " + c.clean(v) + ";"
  }

  /** A staged pair is rendered in place of the trimmed raw one, whatever
      that was: the rule renders as an unstaged rule whose trimmed raw pair
      is the staged pair. */
  lemma FixedPrefersStaged(s: RuleState, c: Cleaner)
    requires s.fixedName != "" && s.fixedValue != ""
    ensures FixedText(s, c) == FixedText(RebasedRule(s).(strippedName := s.fixedName, strippedValue := s.fixedValue), c)
    ensures forall t: RuleState :: t.fixedName == s.fixedName && t.fixedValue == s.fixedValue ==> FixedText(t, c) == FixedText(s, c)
  {
  }

  /** Targeting every browser (explicitly or by a falsy mask) keeps every rule. */
  lemma CompressAllKeepsEveryRule(s: RuleState, c: Cleaner)
    ensures CompressedText(s, ALL, c) != "" && CompressedText(s, NONE, c) != ""
  {
  }

  /** A rule dropped for a target stays dropped for any narrower non-empty target. */
  lemma DroppedNarrower(s: RuleState, b: Mask, b': Mask)
    requires Dropped(s, b) && b' != 0 && Within(b', TargetMask(b))
    ensures Dropped(s, b')
  {
    assert s.browser & b' == (s.browser & TargetMask(b)) & b';
  }

  /** The fixed rendering never looks at the browser mask. */
  lemma FixedIgnoresBrowser(s: RuleState, m: Mask, c: Cleaner)
    ensures FixedText(s.(browser := m), c) == FixedText(s, c)
  {
  }

  /** With nothing staged, the fixed rendering is made of the trimmed raw pair only. */
  lemma RebasedFixedUsesStripped(s: RuleState, t: RuleState, c: Cleaner)
    requires s.strippedName == t.strippedName && s.strippedValue == t.strippedValue
    ensures FixedText(RebasedRule(s), c) == FixedText(RebasedRule(t), c)
    ensures FixedText(RebasedRule(s), c) == s.strippedName + ": " + c.clean(s.strippedValue) + ";"
  {
  }

  /** An IE6-only rule disappears from a compressed rendering for non-IE
      browsers, but not from the fixed rendering. */
  lemma Ie6RuleDroppedForNonIe(s: RuleState, c: Cleaner)
    requires s.browser == IE6
    ensures CompressedText(s, NONEIE, c) == ""
    ensures FixedText(s, c) != ""
    ensures CompressedText(s, ALLIE, c) != ""
  {
  }

  /** One `property: value` declaration. */
  class Rule {
    var roughName: string
    var roughValue: string
    var roughSelector: string
    var name: string
    var value: string
    var selector: string
    var strippedName: string
    var strippedValue: string
    var strippedSelector: string
    var fixedName: string
    var fixedValue: string
    var ruleSet: RuleSet?
    var browser: Mask

    function State(): RuleState
      reads this
    {
      RuleState(roughName, roughValue, roughSelector, name, value, selector,
                strippedName, strippedValue, strippedSelector, fixedName, fixedValue, browser)
    }

    constructor (selector: string, name: string, value: string, ruleSet: RuleSet?, c: Cleaner)
      ensures State() == RuleState(name, value, selector,
                                   c.clearName(name), c.clearValue(value), c.clearSelector(selector),
                                   Trim(name), Trim(value), Trim(selector), "", "", ALL)
      ensures this.ruleSet == ruleSet
    {
      this.roughName := name;
      this.roughValue := value;
      this.roughSelector := selector;
      this.name := c.clearName(name);
      this.value := c.clearValue(value);
      this.selector := c.clearSelector(selector);
      this.strippedName := Trim(name);
      this.strippedValue := Trim(value);
      this.strippedSelector := Trim(selector);
      this.fixedName := "";
      this.fixedValue := "";
      this.ruleSet := ruleSet;
      this.browser := ALL;
    }

    /** Clears the staged-fix pair. */
    method Rebase()
      modifies this
      ensures State() == RebasedRule(old(State()))
      ensures ruleSet == old(ruleSet)
    {
      fixedName := "";
      fixedValue := "";
    }

    /** Replaces the declaration: raw, cleaned, trimmed and staged forms all
      become `n` and `v`; the selector forms and the browsers are kept. */
    method Reset(n: string, v: string)
      modifies this
      ensures State() == old(State()).(roughName := n, name := n, strippedName := n, fixedName := n,
                                       roughValue := v, value := v, strippedValue := v, fixedValue := v)
      ensures ruleSet == old(ruleSet)
    {
      Assign(State().(roughName := n, name := n, strippedName := n, fixedName := n,
                      roughValue := v, value := v, strippedValue := v, fixedValue := v));
    }

    /** Overwrites every data field: the effect of an opaque fixer. */
    method Assign(s: RuleState)
      modifies this
      ensures State() == s
      ensures ruleSet == old(ruleSet)
    {
      AssignRaw(s);
      AssignCleaned(s);
      AssignStripped(s);
      AssignStaged(s);
    }

    /** The raw forms of `s`. */
    method AssignRaw(s: RuleState)
      modifies this
      ensures State() == old(State()).(roughName := s.roughName, roughValue := s.roughValue, roughSelector := s.roughSelector)
      ensures ruleSet == old(ruleSet)
    {
      roughName, roughValue, roughSelector := s.roughName, s.roughValue, s.roughSelector;
    }

    /** The cleaned forms of `s`. */
    method AssignCleaned(s: RuleState)
      modifies this
      ensures State() == old(State()).(name := s.name, value := s.value, selector := s.selector)
      ensures ruleSet == old(ruleSet)
    {
      name, value, selector := s.name, s.value, s.selector;
    }

    /** The trimmed forms of `s`. */
    method AssignStripped(s: RuleState)
      modifies this
      ensures State() == old(State()).(strippedName := s.strippedName, strippedValue := s.strippedValue, strippedSelector := s.strippedSelector)
      ensures ruleSet == old(ruleSet)
    {
      strippedName, strippedValue, strippedSelector := s.strippedName, s.strippedValue, s.strippedSelector;
    }

    /** The staged pair and the browsers of `s`. */
    method AssignStaged(s: RuleState)
      modifies this
      ensures State() == old(State()).(fixedName := s.fixedName, fixedValue := s.fixedValue, browser := s.browser)
      ensures ruleSet == old(ruleSet)
    {
      fixedName, fixedValue, browser := s.fixedName, s.fixedValue, s.browser;
    }

    function Compress(b: Mask, c: Cleaner): (r: string)
      reads this
      ensures r == CompressedText(State(), b, c)
    {
      CompressedText(State(), b, c)
    }

    function Fixed(c: Cleaner): (r: string)
      reads this
      ensures r == FixedText(State(), c)
    {
      FixedText(State(), c)
    }

    function GetRuleSet(): (r: RuleSet?)
      reads this
      ensures r == ruleSet
    {
      ruleSet
    }
  }

  /** A parsed rule's two renderings after `reset(n, v)`: both show the given pair. */
  lemma ResetRendering(s: RuleState, n: string, v: string, b: Mask, c: Cleaner)
    requires !Dropped(s, b)
    ensures var t := s.(roughName := n, name := n, strippedName := n, fixedName := n,
                        roughValue := v, value := v, strippedValue := v, fixedValue := v);
      FixedText(t, c) == n + ": " + c.clean(v) + ";" &&
      CompressedText(t, b, c) == Trim(n) + ":" + c.clean(Trim(v)) + ";"
  {
    assert Trim("") == "";
  }

  /** The ruleset-level fields a fixer or the engine may stage. */
  datatype GroupState = GroupState(
    selector: string, comment: string, statement: string,
    fixedSelector: string, fixedComment: string, fixedStatement: string)

  function RebasedGroup(g: GroupState): (r: GroupState)
    ensures r.fixedSelector == "" && r.fixedComment == "" && r.fixedStatement == ""
    ensures r.(fixedSelector := g.fixedSelector, fixedComment := g.fixedComment,
               fixedStatement := g.fixedStatement) == g
  {
    g.(fixedSelector := "", fixedComment := "", fixedStatement := "")
  }

  /** The value of one ruleset and of its rules, in order. */
  datatype GroupSnap = GroupSnap(extra: bool, group: GroupState, rules: seq<RuleState>)

  function RebasedSnap(g: GroupSnap): (r: GroupSnap)
    ensures r.extra == g.extra && r.group == RebasedGroup(g.group) && |r.rules| == |g.rules|
    ensures forall j :: 0 <= j < |g.rules| ==> r.rules[j] == RebasedRule(g.rules[j])
  {
    GroupSnap(g.extra, RebasedGroup(g.group), seq(|g.rules|, j requires 0 <= j < |g.rules| => RebasedRule(g.rules[j])))
  }

  /** A whole sheet with every staged field cleared. */
  function RebasedSheet(s: seq<GroupSnap>): (r: seq<GroupSnap>)
    ensures |r| == |s| && forall i :: 0 <= i < |s| ==> r[i] == RebasedSnap(s[i])
  {
    seq(|s|, i requires 0 <= i < |s| => RebasedSnap(s[i]))
  }

  /** Rebasing twice is rebasing once. */
  lemma RebasedSheetIdempotent(s: seq<GroupSnap>)
    ensures RebasedSheet(RebasedSheet(s)) == RebasedSheet(s)
  {
    var r := RebasedSheet(s);
    forall i | 0 <= i < |s| ensures RebasedSnap(r[i]) == r[i] {
      assert RebasedSnap(r[i]).rules == r[i].rules;
    }
  }

  /** A selector block with its declarations, or (`extra`) a non-standard
      block such as an at-rule. */
  class RuleSet {
    var selector: string
    var comment: string
    var statement: string
    var extra: bool
    var fixedSelector: string
    var fixedComment: string
    var fixedStatement: string
    var rules: seq<Rule>

    function State(): GroupState
      reads this
    {
      GroupState(selector, comment, statement, fixedSelector, fixedComment, fixedStatement)
    }

    function Snap(): (r: GroupSnap)
      reads this, rules
      ensures r.extra == extra && r.group == State() && |r.rules| == |rules|
      ensures forall j :: 0 <= j < |rules| ==> r.rules[j] == rules[j].State()
    {
      GroupSnap(extra, State(), seq(|rules|, j requires 0 <= j < |rules| reads this, rules => rules[j].State()))
    }

    /** Its rules are distinct objects that point back at it. */
    ghost predicate Valid()
      reads this, rules
    {
      (forall j, m :: 0 <= j < m < |rules| ==> rules[j] != rules[m]) &&
      (forall j :: 0 <= j < |rules| ==> rules[j].ruleSet == this)
    }

    /** Overwrites the ruleset-level fields: the effect of an opaque fixer. */
    method Assign(g: GroupState)
      modifies this
      ensures State() == g
      ensures rules == old(rules) && extra == old(extra)
    {
      selector, comment, statement := g.selector, g.comment, g.statement;
      fixedSelector, fixedComment, fixedStatement := g.fixedSelector, g.fixedComment, g.fixedStatement;
    }

    /** Clears its own staged fields and rebases every rule. */
    method Rebase()
      requires Valid()
      modifies this, rules
      ensures Valid() && rules == old(rules)
      ensures Snap() == RebasedSnap(old(Snap()))
    {
      ghost var s0 := Snap().rules;
      fixedSelector, fixedComment, fixedStatement := "", "", "";
      var j := 0;
      while j < |rules|
        invariant 0 <= j <= |rules|
        invariant rules == old(rules) && extra == old(extra)
        invariant State() == RebasedGroup(old(State()))
        invariant Valid() && RulesRebasedUpTo(s0, j)
      {
        RebaseRule(j, s0);
        j := j + 1;
      }
      Seqs.Ext(Snap().rules, RebasedSnap(old(Snap())).rules);
    }

    /** Rules before `j` are rebased, the others as in `s0`. */
    ghost predicate RulesRebasedUpTo(s0: seq<RuleState>, j: nat)
      reads this, rules
    {
      |rules| == |s0| &&
      forall m :: 0 <= m < |s0| ==> rules[m].State() == if m < j then RebasedRule(s0[m]) else s0[m]
    }

    /** One turn of the rule loop of `Rebase`. */
    method RebaseRule(j: nat, ghost s0: seq<RuleState>)
      requires Valid() && j < |rules| && RulesRebasedUpTo(s0, j)
      modifies rules[j]
      ensures Valid() && RulesRebasedUpTo(s0, j + 1)
    {
      rules[j].Rebase();
    }
  }

  /** The whole parsed file. */
  class StyleSheet {
    var ruleSets: seq<RuleSet>
    var file: string

    function GetFile(): (r: string)
      reads this
      ensures r == file
    {
      file
    }

    /** Every rule of every ruleset. */
    ghost function Rules(): set<Rule>
      reads this, ruleSets
    {
      set i, j | 0 <= i < |ruleSets| && 0 <= j < |ruleSets[i].rules| :: ruleSets[i].rules[j]
    }

    lemma RulesOf(i: nat)
      requires i < |ruleSets|
      ensures forall r :: r in ruleSets[i].rules ==> r in Rules()
    {
      forall r | r in ruleSets[i].rules ensures r in Rules() {
        var j :| 0 <= j < |ruleSets[i].rules| && ruleSets[i].rules[j] == r;
      }
    }

    /** Distinct rulesets, each valid: hence no rule is shared. */
    ghost predicate Valid()
      reads this, ruleSets, Rules()
    {
      (forall i, k :: 0 <= i < k < |ruleSets| ==> ruleSets[i] != ruleSets[k]) &&
      (forall i :: 0 <= i < |ruleSets| ==> ruleSets[i].Valid())
    }

    /** The value of the whole tree. */
    ghost function Snapshot(): (r: seq<GroupSnap>)
      reads this, ruleSets, Rules()
      ensures |r| == |ruleSets| && forall i :: 0 <= i < |ruleSets| ==> r[i] == ruleSets[i].Snap()
    {
      seq(|ruleSets|, i requires 0 <= i < |ruleSets| reads this, ruleSets, Rules() => ruleSets[i].Snap())
    }

    /** A rule of one ruleset is not a rule of another. */
    lemma NotShared(i: nat, k: nat)
      requires Valid() && i < |ruleSets| && k < |ruleSets| && i != k
      ensures forall r :: r in ruleSets[k].rules ==> r !in ruleSets[i].rules
    {
      assert ruleSets[k].Valid() && ruleSets[i].Valid();
      assert ruleSets[i] != ruleSets[k] by { assert i < k || k < i; }
      forall r | r in ruleSets[k].rules ensures r !in ruleSets[i].rules {
        assert r.ruleSet == ruleSets[k];
      }
    }

    /** Ruleset `i` and its rules are apart from every other ruleset and its rules. */
    lemma Apart(i: nat)
      requires Valid() && i < |ruleSets|
      ensures forall k :: 0 <= k < |ruleSets| && k != i ==>
        ruleSets[k] != ruleSets[i] && forall r :: r in ruleSets[k].rules ==> r !in ruleSets[i].rules
    {
      forall k | 0 <= k < |ruleSets| && k != i
        ensures ruleSets[k] != ruleSets[i] && forall r :: r in ruleSets[k].rules ==> r !in ruleSets[i].rules
      {
        NotShared(i, k);
        assert ruleSets[k] != ruleSets[i] by { assert i < k || k < i; }
      }
    }

    /** Rebases every ruleset and, through them, every rule. */
    method Rebase()
      requires Valid()
      modifies ruleSets, Rules()
      ensures Valid() && Rules() == old(Rules())
      ensures forall i :: 0 <= i < |ruleSets| ==> ruleSets[i].rules == old(ruleSets[i].rules)
      ensures Snapshot() == RebasedSheet(old(Snapshot()))
    {
      ghost var s0 := Snapshot();
      ghost var all := Rules();
      forall k | 0 <= k < |ruleSets| ensures forall r :: r in ruleSets[k].rules ==> r in all {
        RulesOf(k);
      }
      var i := 0;
      while i < |ruleSets|
        invariant 0 <= i <= |ruleSets|
        invariant forall k :: 0 <= k < |ruleSets| ==> ruleSets[k].rules == old(ruleSets[k].rules)
        invariant Valid() && RebasedUpTo(s0, i)
      {
        RebaseTurn(i, s0);
        i := i + 1;
      }
      Seqs.Ext(Snapshot(), RebasedSheet(s0));
    }

    /** Rulesets before `i` are rebased, the others as in `s0`. */
    ghost predicate RebasedUpTo(s0: seq<GroupSnap>, i: nat)
      reads this, ruleSets, Rules()
    {
      |ruleSets| == |s0| &&
      forall k :: 0 <= k < |s0| ==> ruleSets[k].Snap() == if k < i then RebasedSnap(s0[k]) else s0[k]
    }

    /** One turn of the rebase loop: ruleset `i` and its rules, nothing else. */
    method RebaseTurn(i: nat, ghost s0: seq<GroupSnap>)
      requires Valid() && i < |ruleSets| && RebasedUpTo(s0, i)
      modifies ruleSets[i], ruleSets[i].rules
      ensures Valid() && RebasedUpTo(s0, i + 1)
      ensures forall k :: 0 <= k < |ruleSets| ==> ruleSets[k].rules == old(ruleSets[k].rules)
    {
      var rs := ruleSets[i];
      Apart(i);
      rs.Rebase();
      forall k | 0 <= k < |ruleSets| ensures ruleSets[k].Valid() {
        if k != i {
          assert old(ruleSets[k].Valid());
        }
      }
    }
  }
}
