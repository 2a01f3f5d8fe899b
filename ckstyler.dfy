/** The checker engine `CssChecker`: its plugin registry, its severity
    ledger, message logging, and the check, fix and compress passes. */
module Ckstyler {
  import opened Wrappers
  import opened BinaryRule
  import opened Text
  import opened Options
  import opened Severity
  import opened Registry
  import opened Entity
  import opened Messages
  import opened Schedule
  import Seqs

  // ----- extend -----

  /** A plain object used as a dictionary of settings. */
  class Dict<V> {
    var entries: map<string, V>

    constructor (entries: map<string, V>)
      ensures this.entries == entries
    {
      this.entries := entries;
    }
  }

  /** `target` completed with the properties of `src` it lacks. */
  function Extended<V>(target: map<string, V>, src: map<string, V>): (r: map<string, V>)
    ensures r.Keys == target.Keys + src.Keys
    ensures forall k :: k in target ==> r[k] == target[k]
    ensures forall k :: k in src && k !in target ==> r[k] == src[k]
  {
    map k | k in target.Keys + src.Keys :: if k in target then target[k] else src[k]
  }

  /** Completing twice with the same source changes nothing more, and a
      source whose keys the target already has changes nothing at all. */
  lemma ExtendedStable<V>(target: map<string, V>, src: map<string, V>)
    ensures Extended(Extended(target, src), src) == Extended(target, src)
    ensures src.Keys <= target.Keys ==> Extended(target, src) == target
  {
  }

  /** `extend(target, src)`: copies each property of `src` that `target` lacks. */
  method Extend<V>(target: Dict<V>, src: map<string, V>)
    modifies target
    ensures target.entries == Extended(old(target.entries), src)
  {
    var todo := src.Keys;
    while todo != {}
      invariant todo <= src.Keys
      invariant target.entries.Keys == old(target.entries).Keys + (src.Keys - todo)
      invariant forall k :: k in old(target.entries) ==> target.entries[k] == old(target.entries)[k]
      invariant forall k :: k in src.Keys - todo && k !in old(target.entries) ==> target.entries[k] == src[k]
      decreases todo
    {
      var k :| k in todo;
      if k !in target.entries {
        target.entries := target.entries[k := src[k]];
      }
      todo := todo - {k};
    }
  }

  // ----- registration -----

  /** What list `cat` gains when `registerChecker(p)` runs. */
  function Into(p: Plugin, cat: Category): seq<Plugin> {
    if Route(p) == cat then [p] else []
  }

  /** Registration appends the plugin at the end of exactly one list — rule
      before ruleset before stylesheet, else extra — and leaves the other three alone. */
  lemma IntoExactlyOne(p: Plugin)
    ensures |Into(p, RuleCat)| + |Into(p, RuleSetCat)| + |Into(p, StyleSheetCat)| + |Into(p, ExtraCat)| == 1
    ensures forall cat :: Into(p, cat) == [] || Into(p, cat) == [p]
    ensures Into(p, RuleCat) == [p] <==> HasType(p, "rule")
    ensures Into(p, RuleSetCat) == [p] <==> !HasType(p, "rule") && HasType(p, "ruleset")
    ensures Into(p, StyleSheetCat) == [p] <==> !HasType(p, "rule") && !HasType(p, "ruleset") && HasType(p, "stylesheet")
    ensures Into(p, ExtraCat) == [p] <==> !HasType(p, "rule") && !HasType(p, "ruleset") && !HasType(p, "stylesheet")
  {
    RouteCases(p);
  }

  /** A `remember` request of the parser: a level and a message. */
  datatype ParseIssue = ParseIssue(level: Option<int>, text: string)

  function ParseActions(errs: seq<ParseIssue>): (r: seq<Action>)
    ensures |r| == |errs|
  {
    seq(|errs|, k requires 0 <= k < |errs| => Record(errs[k].level, ParseError(errs[k].text)))
  }

  /** Every parse error is one `remember` call; with a permissive threshold
      all recognised ones are kept. */
  lemma {:induction false} ParseErrorsKept(l: Ledger, errs: seq<ParseIssue>)
    requires forall k :: 0 <= k < |errs| ==> Recognised(errs[k].level).Some?
    ensures Size(ApplyAll(l, 0, ParseActions(errs))) == Size(l) + |errs|
  {
    AllRecords(ParseActions(errs));
    PermissiveRecordsAll(l, ParseActions(errs));
  }

  lemma {:induction false} AllRecords(acts: seq<Action>)
    requires forall k :: 0 <= k < |acts| ==> acts[k].Record?
    ensures Records(acts) == |acts|
  {
    if acts != [] {
      AllRecords(acts[..|acts| - 1]);
    }
  }

  /** One more discovered plugin: each list gains it or not as `Selected` says. */
  lemma SelectedSnoc(c: Config, ps: seq<Plugin>, k: nat)
    requires k < |ps|
    ensures forall cat :: Selected(c, ps[..k + 1], cat) ==
                          Selected(c, ps[..k], cat) + (if Admitted(c, ps[k]) then Into(ps[k], cat) else [])
  {
    assert ps[..k + 1][..k] == ps[..k];
  }

  // ----- the engine -----

  class CssChecker {
    var config: Config
    var logMsgs: seq<Entry>
    var warningMsgs: seq<Entry>
    var errorMsgs: seq<Entry>
    var extraMsgs: seq<Entry>
    /** The `logger.error('[DEV] ...')` diagnostics written to the console. */
    var devLog: seq<DevError>
    var ruleSetCheckers: seq<Plugin>
    var ruleCheckers: seq<Plugin>
    var styleSheetCheckers: seq<Plugin>
    var extraCheckers: seq<Plugin>
    /** The parser's tree, `parser.styleSheet`. */
    var styleSheet: StyleSheet
    /** Every plugin `check` or `fix` invoked so far, in order. */
    ghost var calls: seq<Call>

    function Logged(): Ledger
      reads this
    {
      Ledger(logMsgs, warningMsgs, errorMsgs, devLog)
    }

    function Checkers(): Buckets
      reads this
    {
      Buckets(ruleCheckers, ruleSetCheckers, styleSheetCheckers, extraCheckers)
    }

    ghost predicate Valid()
      reads this, styleSheet, styleSheet.ruleSets, styleSheet.Rules()
    {
      styleSheet.Valid()
    }

    /** Nothing but the ledger and the trace changed. */
    twostate predicate SetupKept()
      reads this
    {
      config == old(config) && Checkers() == old(Checkers()) &&
      styleSheet == old(styleSheet) && extraMsgs == old(extraMsgs)
    }

    /** `new CssChecker(parser, config)` with `parser.styleSheet` and the
        parser's errors given; an absent configuration is the default one.
        The parse errors are remembered first. */
    constructor (styleSheet: StyleSheet, parseErrors: seq<ParseIssue>, config: Option<Config>, defaults: Config)
      ensures this.styleSheet == styleSheet
      ensures this.config == if config.Some? then config.value else defaults
      ensures Checkers() == Buckets([], [], [], []) && extraMsgs == [] && calls == []
      ensures Logged() == ApplyAll(EmptyLedger, this.config.errorLevel, ParseActions(parseErrors))
    {
      this.styleSheet := styleSheet;
      this.config := if config.Some? then config.value else defaults;
      logMsgs, warningMsgs, errorMsgs, extraMsgs, devLog := [], [], [], [], [];
      ruleSetCheckers, ruleCheckers, styleSheetCheckers, extraCheckers := [], [], [], [];
      calls := [];
      new;
      HandleParseErrors(parseErrors);
    }

    /** `handleParseErrors`: remembers each parse error in order. */
    method HandleParseErrors(errs: seq<ParseIssue>)
      modifies this
      ensures Logged() == ApplyAll(old(Logged()), config.errorLevel, ParseActions(errs))
      ensures SetupKept() && calls == old(calls)
    {
      ghost var acts := ParseActions(errs);
      var k := 0;
      while k < |errs|
        invariant 0 <= k <= |errs|
        invariant Logged() == ApplyAll(old(Logged()), config.errorLevel, acts[..k])
        invariant SetupKept() && calls == old(calls)
      {
        Remember(errs[k].level, ParseError(errs[k].text));
        Seqs.TakeSnoc(acts, k);
        ApplyAllSnoc(old(Logged()), config.errorLevel, acts[..k], acts[k]);
        k := k + 1;
      }
      Seqs.TakeAll(acts);
    }

    /** `hasError`: some bucket holds an entry. */
    function HasError(): (r: bool)
      reads this
      ensures r <==> Size(Logged()) > 0
    {
      logMsgs != [] || warningMsgs != [] || errorMsgs != []
    }

    /** `getErrors`: the three buckets, log first and error last. */
    function GetErrors(): (r: seq<seq<Entry>>)
      reads this
      ensures |r| == 3 && r[0] == logMsgs && r[1] == warningMsgs && r[2] == errorMsgs
      ensures HasError() <==> exists b :: b in r && b != []
    {
      HasErrorIffNonEmpty(Logged());
      Severity.GetErrors(Logged())
    }

    /** `remember(errorLevel, errorMsg)`. */
    method Remember(level: Option<int>, e: Entry)
      modifies this
      ensures Logged() == Severity.Remember(old(Logged()), config.errorLevel, level, e)
      ensures SetupKept() && calls == old(calls)
    {
      if level == Some(Code(Log)) {
        if config.errorLevel == 0 || config.errorLevel > 1 {
          logMsgs := logMsgs + [e];
        }
      } else if level == Some(Code(Warning)) {
        if config.errorLevel == 0 || config.errorLevel > 0 {
          warningMsgs := warningMsgs + [e];
        }
      } else if level == Some(Code(Error)) {
        errorMsgs := errorMsgs + [e];
      } else {
        devLog := devLog + [WrongLevel(e)];
      }
    }

    method RegisterStyleSheetChecker(p: Plugin)
      modifies this
      ensures Checkers() == old(Checkers()).(styleSheet := old(styleSheetCheckers) + [p])
      ensures config == old(config) && Logged() == old(Logged()) && styleSheet == old(styleSheet)
      ensures extraMsgs == old(extraMsgs) && calls == old(calls)
    {
      styleSheetCheckers := styleSheetCheckers + [p];
    }

    method RegisterRuleSetChecker(p: Plugin)
      modifies this
      ensures Checkers() == old(Checkers()).(ruleSet := old(ruleSetCheckers) + [p])
      ensures config == old(config) && Logged() == old(Logged()) && styleSheet == old(styleSheet)
      ensures extraMsgs == old(extraMsgs) && calls == old(calls)
    {
      ruleSetCheckers := ruleSetCheckers + [p];
    }

    method RegisterRuleChecker(p: Plugin)
      modifies this
      ensures Checkers() == old(Checkers()).(rule := old(ruleCheckers) + [p])
      ensures config == old(config) && Logged() == old(Logged()) && styleSheet == old(styleSheet)
      ensures extraMsgs == old(extraMsgs) && calls == old(calls)
    {
      ruleCheckers := ruleCheckers + [p];
    }

    method RegisterExtraChecker(p: Plugin)
      modifies this
      ensures Checkers() == old(Checkers()).(extra := old(extraCheckers) + [p])
      ensures config == old(config) && Logged() == old(Logged()) && styleSheet == old(styleSheet)
      ensures extraMsgs == old(extraMsgs) && calls == old(calls)
    {
      extraCheckers := extraCheckers + [p];
    }

    /** `registerChecker`: files the plugin by its own or its parent's type. */
    method RegisterChecker(p: Plugin)
      modifies this
      ensures ruleCheckers == old(ruleCheckers) + Into(p, RuleCat)
      ensures ruleSetCheckers == old(ruleSetCheckers) + Into(p, RuleSetCat)
      ensures styleSheetCheckers == old(styleSheetCheckers) + Into(p, StyleSheetCat)
      ensures extraCheckers == old(extraCheckers) + Into(p, ExtraCat)
      ensures config == old(config) && Logged() == old(Logged()) && styleSheet == old(styleSheet)
      ensures extraMsgs == old(extraMsgs) && calls == old(calls)
    {
      if p.parentType == "rule" || p.ownType == "rule" {
        RegisterRuleChecker(p);
      } else if p.parentType == "ruleset" || p.ownType == "ruleset" {
        RegisterRuleSetChecker(p);
      } else if p.parentType == "stylesheet" || p.ownType == "stylesheet" {
        RegisterStyleSheetChecker(p);
      } else {
        RegisterExtraChecker(p);
      }
    }

    /** `registerPluginClass`: registers the plugin unless the configuration rejects it. */
    method RegisterPluginClass(p: Plugin)
      modifies this
      ensures ruleCheckers == old(ruleCheckers) + (if Admitted(config, p) then Into(p, RuleCat) else [])
      ensures ruleSetCheckers == old(ruleSetCheckers) + (if Admitted(config, p) then Into(p, RuleSetCat) else [])
      ensures styleSheetCheckers == old(styleSheetCheckers) + (if Admitted(config, p) then Into(p, StyleSheetCat) else [])
      ensures extraCheckers == old(extraCheckers) + (if Admitted(config, p) then Into(p, ExtraCat) else [])
      ensures config == old(config) && Logged() == old(Logged()) && styleSheet == old(styleSheet)
      ensures extraMsgs == old(extraMsgs) && calls == old(calls)
    {
      if !p.always {
        if config.includes.Ids? && !Listed(config.includes.ids, p.id) {
          return;
        } else if config.excludes.Ids? && Listed(config.excludes.ids, p.id) {
          return;
        } else if config.safe && p.notSafe {
          return;
        }
      }
      RegisterChecker(p);
    }

    /** `loadPlugins` over the discovered plugins `ps`: each list gains, in
        discovery order, exactly the admitted plugins routed to it. */
    method LoadPlugins(ps: seq<Plugin>)
      modifies this
      ensures ruleCheckers == old(ruleCheckers) + Selected(config, ps, RuleCat)
      ensures ruleSetCheckers == old(ruleSetCheckers) + Selected(config, ps, RuleSetCat)
      ensures styleSheetCheckers == old(styleSheetCheckers) + Selected(config, ps, StyleSheetCat)
      ensures extraCheckers == old(extraCheckers) + Selected(config, ps, ExtraCat)
      ensures config == old(config) && Logged() == old(Logged()) && styleSheet == old(styleSheet)
      ensures extraMsgs == old(extraMsgs) && calls == old(calls)
    {
      var k := 0;
      while k < |ps|
        invariant 0 <= k <= |ps|
        invariant ruleCheckers == old(ruleCheckers) + Selected(config, ps[..k], RuleCat)
        invariant ruleSetCheckers == old(ruleSetCheckers) + Selected(config, ps[..k], RuleSetCat)
        invariant styleSheetCheckers == old(styleSheetCheckers) + Selected(config, ps[..k], StyleSheetCat)
        invariant extraCheckers == old(extraCheckers) + Selected(config, ps[..k], ExtraCat)
        invariant config == old(config) && Logged() == old(Logged()) && styleSheet == old(styleSheet)
        invariant extraMsgs == old(extraMsgs) && calls == old(calls)
      {
        RegisterPluginClass(ps[k]);
        SelectedSnoc(config, ps, k);
        k := k + 1;
      }
      Seqs.TakeAll(ps);
    }

    /** `sortPlugins`: each list becomes its stable sort by `order || 10000`. */
    method SortPlugins()
      modifies this
      ensures ruleSetCheckers == SortByOrder(old(ruleSetCheckers))
      ensures ruleCheckers == SortByOrder(old(ruleCheckers))
      ensures styleSheetCheckers == SortByOrder(old(styleSheetCheckers))
      ensures extraCheckers == SortByOrder(old(extraCheckers))
      ensures config == old(config) && Logged() == old(Logged()) && styleSheet == old(styleSheet)
      ensures extraMsgs == old(extraMsgs) && calls == old(calls)
    {
      ruleSetCheckers := SortByOrder(ruleSetCheckers);
      ruleCheckers := SortByOrder(ruleCheckers);
      styleSheetCheckers := SortByOrder(styleSheetCheckers);
      extraCheckers := SortByOrder(extraCheckers);
    }

    // ----- messages -----

    /** `logStyleSheetMessage`. */
    method LogStyleSheetMessage(checker: Plugin, sheet: StyleSheet, errors: Option<seq<string>>)
      modifies this
      ensures Logged() == ApplyAll(old(Logged()), config.errorLevel,
                                   LogActions(checker, SheetCtx(sheet.file), MessagesOf(checker, errors)))
      ensures SetupKept() && calls == old(calls)
    {
      var ms := MessagesOf(checker, errors);
      ghost var ctx := SheetCtx(sheet.file);
      var k := 0;
      while k < |ms|
        invariant 0 <= k <= |ms|
        invariant Logged() == ApplyAll(old(Logged()), config.errorLevel, LogActions(checker, ctx, ms[..k]))
        invariant SetupKept() && calls == old(calls)
      {
        LogStyleSheetEntry(checker, sheet, ms[k]);
        LogActionsSnoc(checker, ctx, ms, k);
        ApplyAllConcat(old(Logged()), config.errorLevel, LogActions(checker, ctx, ms[..k]), MessageActions(checker, ctx, ms[k]));
        k := k + 1;
      }
      Seqs.TakeAll(ms);
    }

    /** The `forEach` callback of `logStyleSheetMessage`: one message. An
        empty one is reported and still recorded. */
    method LogStyleSheetEntry(checker: Plugin, sheet: StyleSheet, errorMsg: string)
      modifies this
      ensures Logged() == ApplyAll(old(Logged()), config.errorLevel, MessageActions(checker, SheetCtx(sheet.file), errorMsg))
      ensures SetupKept() && calls == old(calls)
    {
      ghost var ctx := SheetCtx(sheet.file);
      ghost var rec := Record(LevelOf(checker), EntryOf(errorMsg, ctx));
      if errorMsg == "" {
        devLog := devLog + [NoMessage];
      }
      var m := errorMsg;
      if IndexOf(m, "${file}") == -1 {
        m := m + " (from \"" + sheet.GetFile() + "\")";
      }
      assert m == WithContext(errorMsg, ctx);
      Remember(LevelOf(checker), StyleSheetMsg(m, sheet.GetFile()));
      if errorMsg == "" {
        ApplyAllShort(old(Logged()), config.errorLevel, Note(NoMessage), rec);
      } else {
        ApplyAllOne(old(Logged()), config.errorLevel, rec);
      }
    }

    /** `logRuleSetMessage`. */
    method LogRuleSetMessage(checker: Plugin, ruleSet: RuleSet, errors: Option<seq<string>>)
      modifies this
      ensures Logged() == ApplyAll(old(Logged()), config.errorLevel,
                                   LogActions(checker, GroupCtx(ruleSet.selector), MessagesOf(checker, errors)))
      ensures SetupKept() && calls == old(calls)
    {
      var ms := MessagesOf(checker, errors);
      ghost var ctx := GroupCtx(ruleSet.selector);
      var k := 0;
      while k < |ms|
        invariant 0 <= k <= |ms|
        invariant Logged() == ApplyAll(old(Logged()), config.errorLevel, LogActions(checker, ctx, ms[..k]))
        invariant SetupKept() && calls == old(calls)
      {
        LogRuleSetEntry(checker, ruleSet, ms[k]);
        LogActionsSnoc(checker, ctx, ms, k);
        ApplyAllConcat(old(Logged()), config.errorLevel, LogActions(checker, ctx, ms[..k]), MessageActions(checker, ctx, ms[k]));
        k := k + 1;
      }
      Seqs.TakeAll(ms);
    }

    /** The `forEach` callback of `logRuleSetMessage`: one message. */
    method LogRuleSetEntry(checker: Plugin, ruleSet: RuleSet, errorMsg: string)
      modifies this
      ensures Logged() == ApplyAll(old(Logged()), config.errorLevel, MessageActions(checker, GroupCtx(ruleSet.selector), errorMsg))
      ensures SetupKept() && calls == old(calls)
    {
      ghost var ctx := GroupCtx(ruleSet.selector);
      var m := errorMsg;
      if IndexOf(m, "${selector}") == -1 {
        m := m + " (from \"" + ruleSet.selector + "\")";
      }
      assert m == WithContext(errorMsg, ctx);
      var e := RuleSetMsg(m, ruleSet.selector);
      Remember(LevelOf(checker), e);
      ApplyAllOne(old(Logged()), config.errorLevel, Record(LevelOf(checker), e));
    }

    /** `logRuleMessage`. */
    method LogRuleMessage(checker: Plugin, rule: Rule, errors: Option<seq<string>>)
      modifies this
      ensures Logged() == ApplyAll(old(Logged()), config.errorLevel,
                                   LogActions(checker, DeclCtx(rule.selector, rule.roughName, rule.value), MessagesOf(checker, errors)))
      ensures SetupKept() && calls == old(calls)
    {
      var ms := MessagesOf(checker, errors);
      ghost var ctx := DeclCtx(rule.selector, rule.roughName, rule.value);
      var k := 0;
      while k < |ms|
        invariant 0 <= k <= |ms|
        invariant Logged() == ApplyAll(old(Logged()), config.errorLevel, LogActions(checker, ctx, ms[..k]))
        invariant SetupKept() && calls == old(calls)
      {
        LogRuleEntry(checker, rule, ms[k]);
        LogActionsSnoc(checker, ctx, ms, k);
        ApplyAllConcat(old(Logged()), config.errorLevel, LogActions(checker, ctx, ms[..k]), MessageActions(checker, ctx, ms[k]));
        k := k + 1;
      }
      Seqs.TakeAll(ms);
    }

    /** The `forEach` callback of `logRuleMessage`: one message. */
    method LogRuleEntry(checker: Plugin, rule: Rule, errorMsg: string)
      modifies this
      ensures Logged() == ApplyAll(old(Logged()), config.errorLevel,
                                   MessageActions(checker, DeclCtx(rule.selector, rule.roughName, rule.value), errorMsg))
      ensures SetupKept() && calls == old(calls)
    {
      ghost var ctx := DeclCtx(rule.selector, rule.roughName, rule.value);
      if errorMsg == "" {
        devLog := devLog + [NoMessage];
        ApplyAllOne(old(Logged()), config.errorLevel, Note(NoMessage));
        return;
      }
      var m := errorMsg;
      if IndexOf(m, "${selector}") == -1 {
        m := m + " (from \"" + rule.selector + "\")";
      }
      assert m == WithContext(errorMsg, ctx);
      var e := RuleMsg(m, rule.selector, Trim(rule.roughName), Trim(rule.value));
      Remember(LevelOf(checker), e);
      ApplyAllOne(old(Logged()), config.errorLevel, Record(LevelOf(checker), e));
    }

    // ----- the check pass -----

    /** The log*Message call for a target of the tree `gs`. */
    method LogFor(checker: Plugin, t: Target, errors: Option<seq<string>>, ghost gs: seq<GroupSnap>)
      requires gs == styleSheet.Snapshot() && InTree(gs, t)
      modifies this
      ensures Logged() == ApplyAll(old(Logged()), config.errorLevel,
                                   LogActions(checker, ContextOf(styleSheet.file, gs, t), MessagesOf(checker, errors)))
      ensures SetupKept() && calls == old(calls)
    {
      match t
      case Sheet =>
        LogStyleSheetMessage(checker, styleSheet, errors);
      case Group(i) =>
        LogRuleSetMessage(checker, styleSheet.ruleSets[i], errors);
      case Decl(i, j) =>
        LogRuleMessage(checker, styleSheet.ruleSets[i].rules[j], errors);
    }

    /** The body of the check callbacks: runs one checker on one target of
        the tree `gs` and logs what its result asks for. `step` is the
        ledger effect of a call on that tree. */
    method CheckOne(checker: Plugin, t: Target, bh: Behaviour, ghost gs: seq<GroupSnap>, ghost step: Call -> seq<Action>)
      requires gs == styleSheet.Snapshot() && InTree(gs, t)
      requires step == CheckStep(styleSheet.file, gs, bh.check, config)
      modifies this
      ensures calls == old(calls) + [Call(checker, t)]
      ensures Logged() == ApplyAll(old(Logged()), config.errorLevel, step(Call(checker, t)))
      ensures SetupKept()
    {
      ghost var ctx := ContextOf(styleSheet.file, gs, t);
      var result := bh.check(checker, t, config);
      ghost var acts := VerdictActions(checker, ctx, Classify(result));
      assert step(Call(checker, t)) == acts;
      match result {
      case Bool(b) =>
        if !b {
          assert acts == LogActions(checker, ctx, MessagesOf(checker, None));
          LogFor(checker, t, None, gs);
        } else {
          assert acts == [];
        }
      case List(ms) =>
        if |ms| != 0 {
          assert acts == LogActions(checker, ctx, MessagesOf(checker, Some(ms)));
          LogFor(checker, t, Some(ms), gs);
        } else {
          assert acts == [Note(BadResult(checker.id))];
          devLog := devLog + [BadResult(checker.id)];
          ApplyAllOne(old(Logged()), config.errorLevel, Note(BadResult(checker.id)));
        }
      case Other =>
        assert acts == [Note(BadResult(checker.id))];
        devLog := devLog + [BadResult(checker.id)];
        ApplyAllOne(old(Logged()), config.errorLevel, Note(BadResult(checker.id)));
      }
      calls := calls + [Call(checker, t)];
    }

    /** Since the call trace stood at `c0` and the ledger at `l0`, exactly the
        calls `s` ran, each with the ledger steps `step` gives it. */
    ghost predicate Progress(c0: seq<Call>, l0: Ledger, s: seq<Call>, step: Call -> seq<Action>)
      reads this
    {
      calls == c0 + s && Logged() == ApplyAll(l0, config.errorLevel, Steps(s, step))
    }

    /** One callback of a `forEach` over the checker list `cs` on target `t`:
        checker `k` runs when it has `check`. */
    method CheckTurn(cs: seq<Plugin>, k: nat, t: Target, bh: Behaviour, ghost gs: seq<GroupSnap>, ghost step: Call -> seq<Action>,
                     ghost c0: seq<Call>, ghost l0: Ledger, ghost done: seq<Call>)
      requires gs == styleSheet.Snapshot() && InTree(gs, t) && k < |cs|
      requires step == CheckStep(styleSheet.file, gs, bh.check, config)
      requires Progress(c0, l0, done + PluginCalls(cs[..k], CheckPass, t), step)
      modifies this
      ensures SetupKept()
      ensures Progress(c0, l0, done + PluginCalls(cs[..k + 1], CheckPass, t), step)
    {
      ghost var pre := PluginCalls(cs[..k], CheckPass, t);
      ghost var acc := done + pre;
      PluginCallsSnoc(cs, CheckPass, t, k);
      if cs[k].hasCheck {
        ghost var c := Call(cs[k], t);
        ghost var before := Logged();
        CheckOne(cs[k], t, bh, gs, step);
        StepsSnoc(l0, config.errorLevel, acc, c, step, before, Logged());
        Seqs.Assoc(c0, acc, [c]);
        Seqs.Assoc(done, pre, [c]);
      } else {
        Seqs.Unit(pre);
      }
    }

    /** One `forEach` over a checker list on one target: the stylesheet loop
        of `doCheck`, `checkRuleSet` and `checkExtraRule`. */
    method RunChecks(cs: seq<Plugin>, t: Target, bh: Behaviour, ghost gs: seq<GroupSnap>, ghost step: Call -> seq<Action>,
                     ghost c0: seq<Call>, ghost l0: Ledger, ghost done: seq<Call>)
      requires gs == styleSheet.Snapshot() && InTree(gs, t)
      requires step == CheckStep(styleSheet.file, gs, bh.check, config)
      requires Progress(c0, l0, done, step)
      modifies this
      ensures SetupKept()
      ensures Progress(c0, l0, done + PluginCalls(cs, CheckPass, t), step)
    {
      Seqs.TakeNone(cs);
      Seqs.Unit(done);
      var k := 0;
      while k < |cs|
        invariant 0 <= k <= |cs|
        invariant SetupKept() && gs == styleSheet.Snapshot()
        invariant Progress(c0, l0, done + PluginCalls(cs[..k], CheckPass, t), step)
      {
        CheckTurn(cs, k, t, bh, gs, step, c0, l0, done);
        k := k + 1;
      }
      Seqs.TakeAll(cs);
    }

    /** The callback of `eachRule` in `checkRule`: `checker` on rule `j` of ruleset `i`. */
    method CheckRuleCell(checker: Plugin, i: nat, j: nat, bh: Behaviour, ghost gs: seq<GroupSnap>, ghost step: Call -> seq<Action>,
                         ghost c0: seq<Call>, ghost l0: Ledger, ghost done: seq<Call>)
      requires gs == styleSheet.Snapshot() && i < |gs| && j < |gs[i].rules|
      requires step == CheckStep(styleSheet.file, gs, bh.check, config)
      requires Progress(c0, l0, done + Visits(checker, CheckPass, i, j), step)
      modifies this
      ensures SetupKept()
      ensures Progress(c0, l0, done + Visits(checker, CheckPass, i, j + 1), step)
    {
      ghost var acc := done + Visits(checker, CheckPass, i, j);
      if checker.hasCheck {
        ghost var c := Call(checker, Decl(i, j));
        ghost var before := Logged();
        CheckOne(checker, Decl(i, j), bh, gs, step);
        StepsSnoc(l0, config.errorLevel, acc, c, step, before, Logged());
        RowSnoc(checker, i, j);
        Seqs.Assoc(c0, acc, [c]);
        Seqs.Assoc(done, Row(checker, i, j), [c]);
      } else {
        assert Visits(checker, CheckPass, i, j) == Visits(checker, CheckPass, i, j + 1);
      }
    }

    /** The `eachRule` loop of `checkRule` for one checker on ruleset `i`. */
    method CheckRuleRow(checker: Plugin, i: nat, bh: Behaviour, ghost gs: seq<GroupSnap>, ghost step: Call -> seq<Action>,
                        ghost c0: seq<Call>, ghost l0: Ledger, ghost done: seq<Call>)
      requires gs == styleSheet.Snapshot() && i < |gs|
      requires step == CheckStep(styleSheet.file, gs, bh.check, config)
      requires Progress(c0, l0, done, step)
      modifies this
      ensures SetupKept()
      ensures Progress(c0, l0, done + Visits(checker, CheckPass, i, |gs[i].rules|), step)
    {
      var rules := styleSheet.ruleSets[i].rules;
      assert Visits(checker, CheckPass, i, 0) == [];
      Seqs.Unit(done);
      var j := 0;
      while j < |rules|
        invariant 0 <= j <= |rules| && |rules| == |gs[i].rules|
        invariant SetupKept() && gs == styleSheet.Snapshot()
        invariant Progress(c0, l0, done + Visits(checker, CheckPass, i, j), step)
      {
        CheckRuleCell(checker, i, j, bh, gs, step, c0, l0, done);
        j := j + 1;
      }
    }

    /** One turn of the checker loop of `checkRule`: rule checker `k` over ruleset `i`. */
    method CheckRuleColumn(k: nat, i: nat, bh: Behaviour, ghost gs: seq<GroupSnap>, ghost step: Call -> seq<Action>,
                           ghost c0: seq<Call>, ghost l0: Ledger, ghost done: seq<Call>)
      requires gs == styleSheet.Snapshot() && i < |gs| && k < |ruleCheckers|
      requires step == CheckStep(styleSheet.file, gs, bh.check, config)
      requires Progress(c0, l0, done + DeclCalls(ruleCheckers[..k], CheckPass, i, |gs[i].rules|), step)
      modifies this
      ensures SetupKept()
      ensures Progress(c0, l0, done + DeclCalls(ruleCheckers[..k + 1], CheckPass, i, |gs[i].rules|), step)
    {
      ghost var n := |gs[i].rules|;
      ghost var acc := done + DeclCalls(ruleCheckers[..k], CheckPass, i, n);
      CheckRuleRow(ruleCheckers[k], i, bh, gs, step, c0, l0, acc);
      DeclCallsSnoc(ruleCheckers, CheckPass, i, n, k);
      Seqs.Assoc(done, DeclCalls(ruleCheckers[..k], CheckPass, i, n), Visits(ruleCheckers[k], CheckPass, i, n));
    }

    /** `checkRule`: every rule checker over every rule of ruleset `i`. */
    method CheckRule(i: nat, bh: Behaviour, ghost gs: seq<GroupSnap>, ghost step: Call -> seq<Action>,
                     ghost c0: seq<Call>, ghost l0: Ledger, ghost done: seq<Call>)
      requires gs == styleSheet.Snapshot() && i < |gs|
      requires step == CheckStep(styleSheet.file, gs, bh.check, config)
      requires Progress(c0, l0, done, step)
      modifies this
      ensures SetupKept()
      ensures Progress(c0, l0, done + DeclCalls(ruleCheckers, CheckPass, i, |gs[i].rules|), step)
    {
      Seqs.TakeNone(ruleCheckers);
      Seqs.Unit(done);
      var k := 0;
      while k < |ruleCheckers|
        invariant 0 <= k <= |ruleCheckers|
        invariant SetupKept() && gs == styleSheet.Snapshot()
        invariant Progress(c0, l0, done + DeclCalls(ruleCheckers[..k], CheckPass, i, |gs[i].rules|), step)
      {
        CheckRuleColumn(k, i, bh, gs, step, c0, l0, done);
        k := k + 1;
      }
      Seqs.TakeAll(ruleCheckers);
    }

    /** One callback of `eachRuleSet` in `doCheck`: an extra ruleset goes to
        `checkExtraRule`, an ignored one is skipped, any other goes to
        `checkRuleSet` and then `checkRule`. */
    method CheckGroupTurn(i: nat, bh: Behaviour, ghost gs: seq<GroupSnap>, ghost step: Call -> seq<Action>,
                          ghost c0: seq<Call>, ghost l0: Ledger, ghost done: seq<Call>)
      requires gs == styleSheet.Snapshot() && i < |gs|
      requires step == CheckStep(styleSheet.file, gs, bh.check, config)
      requires Progress(c0, l0, done + GroupsCalls(Checkers(), CheckPass, config.ignoreRulesets, gs[..i]), step)
      modifies this
      ensures SetupKept()
      ensures Progress(c0, l0, done + GroupsCalls(Checkers(), CheckPass, config.ignoreRulesets, gs[..i + 1]), step)
    {
      ghost var b := Checkers();
      ghost var pre := GroupsCalls(b, CheckPass, config.ignoreRulesets, gs[..i]);
      ghost var acc := done + pre;
      ghost var here := GroupCalls(b, CheckPass, config.ignoreRulesets, i, gs[i]);
      ghost var next := done + GroupsCalls(b, CheckPass, config.ignoreRulesets, gs[..i + 1]);
      GroupsCallsSnoc(b, CheckPass, config.ignoreRulesets, gs, i);
      Seqs.Assoc(done, pre, here);
      var rs := styleSheet.ruleSets[i];
      assert rs.extra == gs[i].extra && rs.selector == gs[i].group.selector;
      if rs.extra {
        assert here == PluginCalls(extraCheckers, CheckPass, Group(i));
        RunChecks(extraCheckers, Group(i), bh, gs, step, c0, l0, acc);
      } else if Ignored(config.ignoreRulesets, rs.selector) {
        assert here == [];
        Seqs.Unit(acc);
      } else {
        assert here == PluginCalls(ruleSetCheckers, CheckPass, Group(i)) + DeclCalls(ruleCheckers, CheckPass, i, |gs[i].rules|);
        CheckPlainGroup(i, bh, gs, step, c0, l0, acc);
      }
    }

    /** A ruleset that is neither extra nor ignored: `checkRuleSet`, then `checkRule`. */
    method CheckPlainGroup(i: nat, bh: Behaviour, ghost gs: seq<GroupSnap>, ghost step: Call -> seq<Action>,
                           ghost c0: seq<Call>, ghost l0: Ledger, ghost done: seq<Call>)
      requires gs == styleSheet.Snapshot() && i < |gs|
      requires step == CheckStep(styleSheet.file, gs, bh.check, config)
      requires Progress(c0, l0, done, step)
      modifies this
      ensures SetupKept()
      ensures Progress(c0, l0, done + (PluginCalls(ruleSetCheckers, CheckPass, Group(i)) +
                                       DeclCalls(ruleCheckers, CheckPass, i, |gs[i].rules|)), step)
    {
      ghost var front := PluginCalls(ruleSetCheckers, CheckPass, Group(i));
      ghost var back := DeclCalls(ruleCheckers, CheckPass, i, |gs[i].rules|);
      RunChecks(ruleSetCheckers, Group(i), bh, gs, step, c0, l0, done);
      CheckRule(i, bh, gs, step, c0, l0, done + front);
      Seqs.Assoc(done, front, back);
    }

    /** The `eachRuleSet` loop of `doCheck`. */
    method CheckGroups(bh: Behaviour, ghost gs: seq<GroupSnap>, ghost step: Call -> seq<Action>,
                       ghost c0: seq<Call>, ghost l0: Ledger, ghost done: seq<Call>)
      requires gs == styleSheet.Snapshot()
      requires step == CheckStep(styleSheet.file, gs, bh.check, config)
      requires Progress(c0, l0, done, step)
      modifies this
      ensures SetupKept()
      ensures Progress(c0, l0, done + GroupsCalls(Checkers(), CheckPass, config.ignoreRulesets, gs), step)
    {
      Seqs.TakeNone(gs);
      Seqs.Unit(done);
      var i := 0;
      while i < |styleSheet.ruleSets|
        invariant 0 <= i <= |gs|
        invariant SetupKept() && gs == styleSheet.Snapshot()
        invariant Progress(c0, l0, done + GroupsCalls(Checkers(), CheckPass, config.ignoreRulesets, gs[..i]), step)
      {
        CheckGroupTurn(i, bh, gs, step, c0, l0, done);
        i := i + 1;
      }
      Seqs.TakeAll(gs);
    }

    /** `doCheck`: sets the operation to "check", runs the stylesheet
        checkers, then visits the rulesets in tree order. The calls made are
        `CheckSchedule`, and the ledger takes the steps their results ask for. */
    method DoCheck(bh: Behaviour)
      modifies this
      ensures config == old(config).(operation := "check")
      ensures Checkers() == old(Checkers()) && styleSheet == old(styleSheet) && extraMsgs == old(extraMsgs)
      ensures Progress(old(calls), old(Logged()), CheckSchedule(Checkers(), config.ignoreRulesets, styleSheet.Snapshot()),
                       CheckStep(styleSheet.file, styleSheet.Snapshot(), bh.check, config))
    {
      config := config.(operation := "check");
      ghost var gs := styleSheet.Snapshot();
      ghost var step := CheckStep(styleSheet.file, gs, bh.check, config);
      ghost var c0, l0 := calls, Logged();
      ghost var b := Checkers();
      ghost var head := PluginCalls(b.styleSheet, CheckPass, Sheet);
      ghost var sched := CheckSchedule(b, config.ignoreRulesets, gs);
      assert sched == head + GroupsCalls(b, CheckPass, config.ignoreRulesets, gs);
      Seqs.Unit(c0);
      assert Progress(c0, l0, [], step);
      RunChecks(styleSheetCheckers, Sheet, bh, gs, step, c0, l0, []);
      Seqs.Unit(head);
      CheckGroups(bh, gs, step, c0, l0, head);
      assert styleSheet.Snapshot() == gs;
    }

    // ----- the fix pass -----

    /** Nothing but the trace and the tree changed. */
    twostate predicate FixKept()
      reads this
    {
      SetupKept() && Logged() == old(Logged())
    }

    /** `resetStyleSheet`: clears every staged field of the tree. */
    method ResetStyleSheet()
      requires Valid()
      modifies styleSheet.ruleSets, styleSheet.Rules()
      ensures Valid() && styleSheet.Rules() == old(styleSheet.Rules())
      ensures styleSheet.Snapshot() == RebasedSheet(old(styleSheet.Snapshot()))
    {
      styleSheet.Rebase();
    }

    /** The callback of `eachRule` in `fixRules`: rule fixer `k` on rule `j`
        of `rs`, seeding the staged pair first when it is still empty. The
        rules before `j` have had fixers `0..k`, the others fixers `0..k-1`. */
    method FixRuleCell(k: nat, rs: RuleSet, i: nat, j: nat, bh: Behaviour, ghost orig: seq<RuleState>, ghost c0: seq<Call>)
      requires rs.Valid() && k < |ruleCheckers| && j < |rs.rules| && |orig| == |rs.rules|
      requires forall m :: 0 <= m < j ==> rs.rules[m].State() == FoldRule(ruleCheckers[..k + 1], bh, config, i, m, orig[m])
      requires forall m :: j <= m < |rs.rules| ==> rs.rules[m].State() == FoldRule(ruleCheckers[..k], bh, config, i, m, orig[m])
      requires calls == c0 + DeclCalls(ruleCheckers[..k], FixPass, i, |rs.rules|) + Visits(ruleCheckers[k], FixPass, i, j)
      modifies this, rs.rules[j]
      ensures FixKept() && rs.Valid()
      ensures forall m :: 0 <= m < j + 1 ==> rs.rules[m].State() == FoldRule(ruleCheckers[..k + 1], bh, config, i, m, orig[m])
      ensures forall m :: j + 1 <= m < |rs.rules| ==> rs.rules[m].State() == FoldRule(ruleCheckers[..k], bh, config, i, m, orig[m])
      ensures calls == c0 + DeclCalls(ruleCheckers[..k], FixPass, i, |rs.rules|) + Visits(ruleCheckers[k], FixPass, i, j + 1)
    {
      var checker := ruleCheckers[k];
      var rule := rs.rules[j];
      FoldRuleSnoc(ruleCheckers, bh, config, i, j, orig[j], k);
      RowSnoc(checker, i, j);
      if checker.hasFix {
        SeedRuleFields(rule);
        rule.Assign(bh.fixRule(checker, Decl(i, j), config, rule.State()));
        Seqs.Assoc(c0 + DeclCalls(ruleCheckers[..k], FixPass, i, |rs.rules|), Row(checker, i, j), [Call(checker, Decl(i, j))]);
        calls := calls + [Call(checker, Decl(i, j))];
      } else {
        assert Visits(checker, FixPass, i, j) == Visits(checker, FixPass, i, j + 1);
      }
    }

    /** The `eachRule` loop of `fixRules` for rule fixer `k`. */
    method FixRuleRow(k: nat, rs: RuleSet, i: nat, bh: Behaviour, ghost orig: seq<RuleState>, ghost c0: seq<Call>)
      requires rs.Valid() && k < |ruleCheckers| && |orig| == |rs.rules|
      requires forall m :: 0 <= m < |rs.rules| ==> rs.rules[m].State() == FoldRule(ruleCheckers[..k], bh, config, i, m, orig[m])
      requires calls == c0 + DeclCalls(ruleCheckers[..k], FixPass, i, |rs.rules|)
      modifies this, rs.rules
      ensures FixKept() && rs.Valid()
      ensures forall m :: 0 <= m < |rs.rules| ==> rs.rules[m].State() == FoldRule(ruleCheckers[..k + 1], bh, config, i, m, orig[m])
      ensures calls == c0 + DeclCalls(ruleCheckers[..k + 1], FixPass, i, |rs.rules|)
    {
      ghost var pre := c0 + DeclCalls(ruleCheckers[..k], FixPass, i, |rs.rules|);
      assert Visits(ruleCheckers[k], FixPass, i, 0) == [];
      Seqs.Unit(pre);
      var j := 0;
      while j < |rs.rules|
        invariant 0 <= j <= |rs.rules|
        invariant FixKept() && rs.Valid()
        invariant forall m :: 0 <= m < j ==> rs.rules[m].State() == FoldRule(ruleCheckers[..k + 1], bh, config, i, m, orig[m])
        invariant forall m :: j <= m < |rs.rules| ==> rs.rules[m].State() == FoldRule(ruleCheckers[..k], bh, config, i, m, orig[m])
        invariant calls == pre + Visits(ruleCheckers[k], FixPass, i, j)
      {
        FixRuleCell(k, rs, i, j, bh, orig, c0);
        j := j + 1;
      }
      DeclCallsSnoc(ruleCheckers, FixPass, i, |rs.rules|, k);
      Seqs.Assoc(c0, DeclCalls(ruleCheckers[..k], FixPass, i, |rs.rules|), Visits(ruleCheckers[k], FixPass, i, |rs.rules|));
    }

    /** `fixRules`: every rule fixer over every rule of `rs`, ruleset `i`
        of the tree. Each rule ends up as `FoldRule` says. */
    method FixRules(rs: RuleSet, i: nat, bh: Behaviour)
      requires rs.Valid()
      modifies this, rs.rules
      ensures FixKept() && rs.Valid()
      ensures forall m :: 0 <= m < |rs.rules| ==> rs.rules[m].State() == FoldRule(ruleCheckers, bh, config, i, m, old(rs.rules[m].State()))
      ensures calls == old(calls) + DeclCalls(ruleCheckers, FixPass, i, |rs.rules|)
    {
      ghost var orig := seq(|rs.rules|, m requires 0 <= m < |rs.rules| reads rs, rs.rules => rs.rules[m].State());
      Seqs.TakeNone(ruleCheckers);
      Seqs.Unit(calls);
      var k := 0;
      while k < |ruleCheckers|
        invariant 0 <= k <= |ruleCheckers|
        invariant FixKept() && rs.Valid()
        invariant forall m :: 0 <= m < |rs.rules| ==> rs.rules[m].State() == FoldRule(ruleCheckers[..k], bh, config, i, m, orig[m])
        invariant calls == old(calls) + DeclCalls(ruleCheckers[..k], FixPass, i, |rs.rules|)
      {
        FixRuleRow(k, rs, i, bh, orig, old(calls));
        k := k + 1;
      }
      Seqs.TakeAll(ruleCheckers);
    }

    /** `fixRuleSet` (`cs` the ruleset fixers) and `fixExtraRules` (`cs` the
        extra fixers, `extra` set): each fixer in turn on `rs`, seeding the
        staged selector first when it is still empty. */
    method FixGroup(cs: seq<Plugin>, extra: bool, rs: RuleSet, i: nat, bh: Behaviour)
      requires rs.Valid()
      modifies this, rs
      ensures FixKept() && rs.Valid() && rs.rules == old(rs.rules) && rs.extra == old(rs.extra)
      ensures rs.Snap().rules == old(rs.Snap().rules)
      ensures rs.State() == FoldGroup(cs, bh, config, extra, i, old(rs.State()), old(rs.Snap().rules))
      ensures calls == old(calls) + PluginCalls(cs, FixPass, Group(i))
    {
      Seqs.TakeNone(cs);
      Seqs.Unit(calls);
      var k := 0;
      while k < |cs|
        invariant 0 <= k <= |cs|
        invariant FixKept() && rs.Valid() && rs.rules == old(rs.rules) && rs.extra == old(rs.extra)
        invariant rs.Snap().rules == old(rs.Snap().rules)
        invariant rs.State() == FoldGroup(cs[..k], bh, config, extra, i, old(rs.State()), old(rs.Snap().rules))
        invariant calls == old(calls) + PluginCalls(cs[..k], FixPass, Group(i))
      {
        FixGroupTurn(cs, k, extra, rs, i, bh, old(rs.State()), old(rs.Snap().rules), old(calls));
        k := k + 1;
      }
      Seqs.TakeAll(cs);
    }

    /** One callback of the `forEach` of `fixRuleSet` or `fixExtraRules`. */
    method FixGroupTurn(cs: seq<Plugin>, k: nat, extra: bool, rs: RuleSet, i: nat, bh: Behaviour,
                        ghost g0: GroupState, ghost rules: seq<RuleState>, ghost c0: seq<Call>)
      requires rs.Valid() && k < |cs| && rs.Snap().rules == rules
      requires rs.State() == FoldGroup(cs[..k], bh, config, extra, i, g0, rules)
      requires calls == c0 + PluginCalls(cs[..k], FixPass, Group(i))
      modifies this, rs
      ensures FixKept() && rs.Valid() && rs.rules == old(rs.rules) && rs.extra == old(rs.extra)
      ensures rs.Snap().rules == rules
      ensures rs.State() == FoldGroup(cs[..k + 1], bh, config, extra, i, g0, rules)
      ensures calls == c0 + PluginCalls(cs[..k + 1], FixPass, Group(i))
    {
      var checker := cs[k];
      FoldGroupSnoc(cs, bh, config, extra, i, g0, rules, k);
      PluginCallsSnoc(cs, FixPass, Group(i), k);
      if checker.hasFix {
        SeedGroupFields(rs, extra);
        assert rs.Snap().rules == rules;
        rs.Assign(bh.fixGroup(checker, Group(i), config, rs.State(), rs.Snap().rules));
        Seqs.Assoc(c0, PluginCalls(cs[..k], FixPass, Group(i)), [Call(checker, Group(i))]);
        calls := calls + [Call(checker, Group(i))];
      } else {
        Seqs.Unit(PluginCalls(cs[..k], FixPass, Group(i)));
      }
    }

    /** The seeding in `fixRules`: an empty `fixedValue` is initialised from
        the cleaned value and `fixedName` from the stripped name. */
    method SeedRuleFields(rule: Rule)
      modifies rule
      ensures rule.State() == SeedRule(old(rule.State())) && rule.ruleSet == old(rule.ruleSet)
    {
      if rule.fixedValue == "" {
        rule.fixedValue := rule.value;
        rule.fixedName := rule.strippedName;
      }
    }

    /** The seeding in `fixRuleSet` (selector and comment) and in
        `fixExtraRules` (selector and statement). */
    method SeedGroupFields(rs: RuleSet, extra: bool)
      modifies rs
      ensures rs.State() == if extra then SeedExtra(old(rs.State())) else SeedGroup(old(rs.State()))
      ensures rs.rules == old(rs.rules) && rs.extra == old(rs.extra)
    {
      if rs.fixedSelector == "" {
        rs.fixedSelector := rs.selector;
        if extra {
          rs.fixedStatement := rs.statement;
        } else {
          rs.fixedComment := rs.comment;
        }
      }
    }

    /** The callback of `eachRuleSet` in `doFix` on ruleset `i`, whose value
        is `g`: an extra ruleset goes to `fixExtraRules`, an ignored one is
        skipped, any other goes to `fixRules` and then `fixRuleSet`. */
    method FixVisit(rs: RuleSet, i: nat, bh: Behaviour, ghost g: GroupSnap)
      requires rs.Valid() && rs.Snap() == g
      modifies this, rs, rs.rules
      ensures FixKept() && rs.Valid() && rs.rules == old(rs.rules)
      ensures rs.Snap() == FixedSnap(Checkers(), bh, config, i, g)
      ensures calls == old(calls) + GroupCalls(Checkers(), FixPass, config.ignoreRulesets, i, g)
    {
      if rs.extra {
        FixGroup(extraCheckers, true, rs, i, bh);
        assert rs.Snap().rules == g.rules;
      } else if Ignored(config.ignoreRulesets, rs.selector) {
      } else {
        ghost var c1 := calls;
        FixRules(rs, i, bh);
        FixGroup(ruleSetCheckers, false, rs, i, bh);
        assert rs.Snap().rules == FixedSnap(Checkers(), bh, config, i, g).rules;
        Seqs.Assoc(c1, DeclCalls(ruleCheckers, FixPass, i, |g.rules|), PluginCalls(ruleSetCheckers, FixPass, Group(i)));
      }
    }

    /** Rulesets before `i` are as the fix pass leaves them, the others as in `r0`. */
    ghost predicate FixedUpTo(r0: seq<GroupSnap>, i: nat, bh: Behaviour)
      reads this, styleSheet, styleSheet.ruleSets, styleSheet.Rules()
    {
      |styleSheet.ruleSets| == |r0| &&
      forall k :: 0 <= k < |r0| ==>
        styleSheet.ruleSets[k].Snap() == if k < i then FixedSnap(Checkers(), bh, config, k, r0[k]) else r0[k]
    }

    lemma FixedAll(r0: seq<GroupSnap>, bh: Behaviour)
      requires FixedUpTo(r0, |r0|, bh)
      ensures styleSheet.Snapshot() == FixedSheet(Checkers(), bh, config, r0)
    {
      Seqs.Ext(styleSheet.Snapshot(), FixedSheet(Checkers(), bh, config, r0));
    }

    /** `FixVisit` on ruleset `i` of the tree: every other ruleset and rule is left alone. */
    method FixInPlace(i: nat, bh: Behaviour, ghost g: GroupSnap)
      requires Valid() && i < |styleSheet.ruleSets| && styleSheet.ruleSets[i].Snap() == g
      modifies this, styleSheet.ruleSets[i], styleSheet.ruleSets[i].rules
      ensures FixKept() && Valid()
      ensures forall k :: 0 <= k < |styleSheet.ruleSets| ==> styleSheet.ruleSets[k].rules == old(styleSheet.ruleSets[k].rules)
      ensures forall k :: 0 <= k < |styleSheet.ruleSets| && k != i ==> styleSheet.ruleSets[k].Snap() == old(styleSheet.ruleSets[k].Snap())
      ensures styleSheet.ruleSets[i].Snap() == FixedSnap(Checkers(), bh, config, i, g)
      ensures calls == old(calls) + GroupCalls(Checkers(), FixPass, config.ignoreRulesets, i, g)
    {
      var rs := styleSheet.ruleSets[i];
      styleSheet.Apart(i);
      FixVisit(rs, i, bh, g);
      forall k | 0 <= k < |styleSheet.ruleSets| ensures styleSheet.ruleSets[k].Valid() {
        if k != i {
          assert old(styleSheet.ruleSets[k].Valid());
        }
      }
    }

    /** One turn of the `eachRuleSet` loop of `doFix`. */
    method FixTreeTurn(i: nat, bh: Behaviour, ghost r0: seq<GroupSnap>, ghost c0: seq<Call>)
      requires Valid() && i < |r0| && FixedUpTo(r0, i, bh)
      requires calls == c0 + GroupsCalls(Checkers(), FixPass, config.ignoreRulesets, r0[..i])
      modifies this, styleSheet.ruleSets[i], styleSheet.ruleSets[i].rules
      ensures FixKept() && Valid()
      ensures forall k :: 0 <= k < |styleSheet.ruleSets| ==> styleSheet.ruleSets[k].rules == old(styleSheet.ruleSets[k].rules)
      ensures FixedUpTo(r0, i + 1, bh)
      ensures calls == c0 + GroupsCalls(Checkers(), FixPass, config.ignoreRulesets, r0[..i + 1])
    {
      ghost var b, ign := Checkers(), config.ignoreRulesets;
      ghost var pre := GroupsCalls(b, FixPass, ign, r0[..i]);
      ghost var here := GroupCalls(b, FixPass, ign, i, r0[i]);
      GroupsCallsSnoc(b, FixPass, ign, r0, i);
      Seqs.Assoc(c0, pre, here);
      FixInPlace(i, bh, r0[i]);
    }

    /** The `eachRuleSet` loop of `doFix`, from the tree `r0`. */
    method FixTree(bh: Behaviour, ghost r0: seq<GroupSnap>)
      requires Valid() && r0 == styleSheet.Snapshot()
      modifies this, styleSheet.ruleSets, styleSheet.Rules()
      ensures FixKept() && Valid()
      ensures forall k :: 0 <= k < |styleSheet.ruleSets| ==> styleSheet.ruleSets[k].rules == old(styleSheet.ruleSets[k].rules)
      ensures styleSheet.Snapshot() == FixedSheet(Checkers(), bh, config, r0)
      ensures calls == old(calls) + GroupsCalls(Checkers(), FixPass, config.ignoreRulesets, r0)
    {
      ghost var all := styleSheet.Rules();
      forall k | 0 <= k < |styleSheet.ruleSets| ensures forall r :: r in styleSheet.ruleSets[k].rules ==> r in all {
        styleSheet.RulesOf(k);
      }
      Seqs.TakeNone(r0);
      Seqs.Unit(calls);
      var i := 0;
      while i < |styleSheet.ruleSets|
        invariant 0 <= i <= |r0|
        invariant FixKept() && Valid() && FixedUpTo(r0, i, bh)
        invariant forall k :: 0 <= k < |styleSheet.ruleSets| ==> styleSheet.ruleSets[k].rules == old(styleSheet.ruleSets[k].rules)
        invariant calls == old(calls) + GroupsCalls(Checkers(), FixPass, config.ignoreRulesets, r0[..i])
      {
        FixTreeTurn(i, bh, r0, old(calls));
        i := i + 1;
      }
      Seqs.TakeAll(r0);
      FixedAll(r0, bh);
    }

    /** The stylesheet fixers of `doFix`, run last, in order. What they do
        to the tree is not part of this model: only the calls are traced. */
    method FixStyleSheet()
      requires Valid()
      modifies this
      ensures FixKept() && Valid() && styleSheet.Snapshot() == old(styleSheet.Snapshot())
      ensures calls == old(calls) + PluginCalls(styleSheetCheckers, FixPass, Sheet)
    {
      ghost var c0 := calls;
      Seqs.TakeNone(styleSheetCheckers);
      Seqs.Unit(c0);
      var k := 0;
      while k < |styleSheetCheckers|
        invariant 0 <= k <= |styleSheetCheckers|
        invariant FixKept() && Valid() && styleSheet.Snapshot() == old(styleSheet.Snapshot())
        invariant calls == old(calls) + PluginCalls(styleSheetCheckers[..k], FixPass, Sheet)
      {
        PluginCallsSnoc(styleSheetCheckers, FixPass, Sheet, k);
        if styleSheetCheckers[k].hasFix {
          Seqs.Assoc(c0, PluginCalls(styleSheetCheckers[..k], FixPass, Sheet), [Call(styleSheetCheckers[k], Sheet)]);
          calls := calls + [Call(styleSheetCheckers[k], Sheet)];
        } else {
          Seqs.Unit(PluginCalls(styleSheetCheckers[..k], FixPass, Sheet));
        }
        k := k + 1;
      }
      Seqs.TakeAll(styleSheetCheckers);
    }

    /** The ruleset loop and the stylesheet fixers of `doFix`, from the rebased tree `r0`. */
    method FixAll(bh: Behaviour, ghost r0: seq<GroupSnap>)
      requires Valid() && r0 == styleSheet.Snapshot()
      modifies this, styleSheet.ruleSets, styleSheet.Rules()
      ensures FixKept() && Valid()
      ensures styleSheet.Snapshot() == FixedSheet(Checkers(), bh, config, r0)
      ensures calls == old(calls) + FixSchedule(Checkers(), config.ignoreRulesets, r0)
    {
      ghost var b, ign, c0 := Checkers(), config.ignoreRulesets, calls;
      FixTree(bh, r0);
      FixStyleSheet();
      Seqs.Assoc(c0, GroupsCalls(b, FixPass, ign, r0), PluginCalls(b.styleSheet, FixPass, Sheet));
    }

    /** `resetStyleSheet`, then the ruleset loop and the stylesheet fixers. */
    method ResetAndFix(bh: Behaviour, ghost s0: seq<GroupSnap>)
      requires Valid() && s0 == styleSheet.Snapshot()
      modifies this, styleSheet.ruleSets, styleSheet.Rules()
      ensures FixKept() && Valid()
      ensures styleSheet.Snapshot() == FixedSheet(Checkers(), bh, config, RebasedSheet(s0))
      ensures calls == old(calls) + FixSchedule(Checkers(), config.ignoreRulesets, RebasedSheet(s0))
    {
      ResetStyleSheet();
      FixAll(bh, styleSheet.Snapshot());
    }

    /** `doFix(browser, operation)`: sets the operation (`fix` when none is
        given), rebases the tree, fixes the rulesets in tree order and runs
        the stylesheet fixers last. The tree ends up as `FixedSheet` of the
        rebased tree and the calls made are `FixSchedule`. */
    method DoFix(operation: string, bh: Behaviour)
      requires Valid()
      modifies this, styleSheet.ruleSets, styleSheet.Rules()
      ensures config == old(config).(operation := if operation == "" then "fix" else operation)
      ensures Checkers() == old(Checkers()) && styleSheet == old(styleSheet) && extraMsgs == old(extraMsgs)
      ensures Logged() == old(Logged()) && Valid()
      ensures styleSheet.Snapshot() == FixedSheet(Checkers(), bh, config, RebasedSheet(old(styleSheet.Snapshot())))
      ensures calls == old(calls) + FixSchedule(Checkers(), config.ignoreRulesets, RebasedSheet(old(styleSheet.Snapshot())))
    {
      ghost var s0 := styleSheet.Snapshot();
      config := config.(operation := if operation == "" then "fix" else operation);
      assert styleSheet.Snapshot() == s0;
      ResetAndFix(bh, s0);
    }

    /** `doCompress(browser)`: records the target (`ALL` when `browser` is
        falsy) in the configuration, then runs the fix pass as "compress". */
    method DoCompress(browser: Mask, bh: Behaviour)
      requires Valid()
      modifies this, styleSheet.ruleSets, styleSheet.Rules()
      ensures config == old(config).(curBrowser := TargetMask(browser), operation := "compress")
      ensures Checkers() == old(Checkers()) && styleSheet == old(styleSheet) && extraMsgs == old(extraMsgs)
      ensures Logged() == old(Logged()) && Valid()
      ensures styleSheet.Snapshot() == FixedSheet(Checkers(), bh, config, RebasedSheet(old(styleSheet.Snapshot())))
      ensures calls == old(calls) + FixSchedule(Checkers(), config.ignoreRulesets, RebasedSheet(old(styleSheet.Snapshot())))
    {
      ghost var s0 := styleSheet.Snapshot();
      var b := TargetMask(browser);
      config := config.(curBrowser := b);
      assert styleSheet.Snapshot() == s0;
      DoFix("compress", bh);
    }
  }
}
