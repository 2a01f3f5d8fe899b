/** The order in which `doCheck` and `doFix` invoke plugins, what a check
    result adds to the ledger, and what the fix pass leaves in the tree. */
module Schedule {
  import opened Wrappers
  import opened Options
  import opened Severity
  import opened Registry
  import opened Entity
  import opened Messages

  /** What a plugin is applied to: the stylesheet, ruleset `i`, or rule `j` of ruleset `i`. */
  datatype Target = Sheet | Group(i: nat) | Decl(i: nat, j: nat)

  /** One invocation of a plugin's `check` or `fix`. */
  datatype Call = Call(plugin: Plugin, target: Target)

  /** What a `check` returns: a boolean, a list of messages, or anything else. */
  datatype Outcome = Bool(b: bool) | List(msgs: seq<string>) | Other

  /** The plugin bodies, which are opaque to the engine; each also sees the
      configuration. The tree does not change during a check, so the target
      identifies what is checked. A rule fixer receives the current state of
      its rule and returns the new one; a ruleset fixer receives the current
      ruleset-level state together with the current states of the ruleset's
      rules, and returns the new ruleset-level state. */
  datatype Behaviour = Behaviour(
    check: (Plugin, Target, Config) -> Outcome,
    fixRule: (Plugin, Target, Config, RuleState) -> RuleState,
    fixGroup: (Plugin, Target, Config, GroupState, seq<RuleState>) -> GroupState)

  /** The four checker lists of the engine. */
  datatype Buckets = Buckets(rule: seq<Plugin>, ruleSet: seq<Plugin>, styleSheet: seq<Plugin>, extra: seq<Plugin>)

  datatype Mode = CheckPass | FixPass

  /** A plugin takes part in a pass when it has the pass's method. */
  predicate Active(p: Plugin, mode: Mode) {
    if mode == CheckPass then p.hasCheck else p.hasFix
  }

  /** `findInArray(ignoreRulesets, selector)`, taken as membership. */
  predicate Ignored(ignore: seq<string>, selector: string) {
    selector in ignore
  }

  // ----- schedules -----

  /** The list `cs` applied in order to target `t`, skipping plugins without the pass's method. */
  function PluginCalls(cs: seq<Plugin>, mode: Mode, t: Target): seq<Call> {
    if cs == [] then []
    else
      var last := cs[|cs| - 1];
      PluginCalls(cs[..|cs| - 1], mode, t) + (if Active(last, mode) then [Call(last, t)] else [])
  }

  /** Every call is on `t` by a plugin of the list that has the pass's
      method, and such a plugin is called as often as it is listed. */
  lemma {:induction false} PluginCallsSound(cs: seq<Plugin>, mode: Mode, t: Target)
    ensures var r := PluginCalls(cs, mode, t);
      |r| <= |cs| && forall c :: c in r ==> c.target == t && c.plugin in cs && Active(c.plugin, mode)
    ensures forall q :: multiset(PluginCalls(cs, mode, t))[Call(q, t)] == if Active(q, mode) then multiset(cs)[q] else 0
  {
    if cs != [] {
      var last := cs[|cs| - 1];
      assert cs == cs[..|cs| - 1] + [last];
      PluginCallsSound(cs[..|cs| - 1], mode, t);
    }
  }

  /** Calls follow the order of the list: those of `a` come before those of `b`. */
  lemma {:induction false} PluginCallsConcat(a: seq<Plugin>, b: seq<Plugin>, mode: Mode, t: Target)
    ensures PluginCalls(a + b, mode, t) == PluginCalls(a, mode, t) + PluginCalls(b, mode, t)
  {
    if b == [] {
      assert a + b == a;
    } else {
      var pre := b[..|b| - 1];
      assert (a + b)[..|a + b| - 1] == a + pre;
      PluginCallsConcat(a, pre, mode, t);
    }
  }

  /** Every plugin of the list that has the pass's method is applied. */
  lemma {:induction false} PluginCallsComplete(cs: seq<Plugin>, mode: Mode, t: Target, p: Plugin)
    requires p in cs && Active(p, mode)
    ensures Call(p, t) in PluginCalls(cs, mode, t)
  {
    var last := cs[|cs| - 1];
    if p != last {
      assert cs == cs[..|cs| - 1] + [last];
      PluginCallsComplete(cs[..|cs| - 1], mode, t, p);
    }
  }

  /** The calls of the first `k + 1` plugins of `cs`. */
  lemma PluginCallsSnoc(cs: seq<Plugin>, mode: Mode, t: Target, k: nat)
    requires k < |cs|
    ensures PluginCalls(cs[..k + 1], mode, t) ==
            PluginCalls(cs[..k], mode, t) + (if Active(cs[k], mode) then [Call(cs[k], t)] else [])
  {
    assert cs[..k + 1][..k] == cs[..k];
  }

  /** One plugin applied to rules 0 .. n-1 of ruleset `i`. */
  function Row(p: Plugin, i: nat, n: nat): (r: seq<Call>)
    ensures |r| == n && forall j :: 0 <= j < n ==> r[j] == Call(p, Decl(i, j))
  {
    seq(n, j requires 0 <= j < n => Call(p, Decl(i, j)))
  }

  /** Checkers in the outer loop, the `n` rules of ruleset `i` in the inner loop. */
  function DeclCalls(cs: seq<Plugin>, mode: Mode, i: nat, n: nat): seq<Call> {
    if cs == [] then []
    else
      var last := cs[|cs| - 1];
      DeclCalls(cs[..|cs| - 1], mode, i, n) + (if Active(last, mode) then Row(last, i, n) else [])
  }

  /** Every call is on an existing rule of ruleset `i`, by a plugin of the
      list that has the pass's method. */
  lemma {:induction false} DeclCallsSound(cs: seq<Plugin>, mode: Mode, i: nat, n: nat)
    ensures forall c :: c in DeclCalls(cs, mode, i, n) ==>
      c.target.Decl? && c.target.i == i && c.target.j < n && c.plugin in cs && Active(c.plugin, mode)
  {
    if cs != [] {
      var last := cs[|cs| - 1];
      assert cs == cs[..|cs| - 1] + [last];
      DeclCallsSound(cs[..|cs| - 1], mode, i, n);
    }
  }

  lemma RowSnoc(p: Plugin, i: nat, j: nat)
    ensures Row(p, i, j + 1) == Row(p, i, j) + [Call(p, Decl(i, j))]
  {
    assert Row(p, i, j + 1)[..j] == Row(p, i, j);
  }

  /** The calls of `p` on the first `j` rules of ruleset `i`: none when `p`
      lacks the pass's method. */
  function Visits(p: Plugin, mode: Mode, i: nat, j: nat): seq<Call> {
    if Active(p, mode) then Row(p, i, j) else []
  }

  lemma DeclCallsSnoc(cs: seq<Plugin>, mode: Mode, i: nat, n: nat, k: nat)
    requires k < |cs|
    ensures DeclCalls(cs[..k + 1], mode, i, n) ==
            DeclCalls(cs[..k], mode, i, n) + (if Active(cs[k], mode) then Row(cs[k], i, n) else [])
  {
    assert cs[..k + 1][..k] == cs[..k];
  }

  /** The calls for ruleset `i`: extra rulesets get the extra list only,
      ignored ones nothing; the others get ruleset and rule plugins, ruleset
      plugins first when checking and last when fixing. */
  function GroupCalls(b: Buckets, mode: Mode, ignore: seq<string>, i: nat, g: GroupSnap): seq<Call> {
    if g.extra then PluginCalls(b.extra, mode, Group(i))
    else if Ignored(ignore, g.group.selector) then []
    else if mode == CheckPass then PluginCalls(b.ruleSet, mode, Group(i)) + DeclCalls(b.rule, mode, i, |g.rules|)
    else DeclCalls(b.rule, mode, i, |g.rules|) + PluginCalls(b.ruleSet, mode, Group(i))
  }

  /** `eachRuleSet`: the rulesets in tree order. */
  function GroupsCalls(b: Buckets, mode: Mode, ignore: seq<string>, gs: seq<GroupSnap>): seq<Call> {
    if gs == [] then []
    else GroupsCalls(b, mode, ignore, gs[..|gs| - 1]) + GroupCalls(b, mode, ignore, |gs| - 1, gs[|gs| - 1])
  }

  lemma GroupsCallsSnoc(b: Buckets, mode: Mode, ignore: seq<string>, gs: seq<GroupSnap>, i: nat)
    requires i < |gs|
    ensures GroupsCalls(b, mode, ignore, gs[..i + 1]) ==
            GroupsCalls(b, mode, ignore, gs[..i]) + GroupCalls(b, mode, ignore, i, gs[i])
  {
    assert gs[..i + 1][..i] == gs[..i];
  }

  /** `doCheck`: stylesheet checkers first, then the rulesets. */
  function CheckSchedule(b: Buckets, ignore: seq<string>, gs: seq<GroupSnap>): seq<Call> {
    PluginCalls(b.styleSheet, CheckPass, Sheet) + GroupsCalls(b, CheckPass, ignore, gs)
  }

  /** `doFix`: the rulesets, then stylesheet fixers last. */
  function FixSchedule(b: Buckets, ignore: seq<string>, gs: seq<GroupSnap>): seq<Call> {
    GroupsCalls(b, FixPass, ignore, gs) + PluginCalls(b.styleSheet, FixPass, Sheet)
  }

  /** The ruleset a call is about (the stylesheet counts as none). */
  function GroupIndex(c: Call): int {
    if c.target.Sheet? then -1 else c.target.i
  }

  /** Whether a call may be made on ruleset `i` of `gs`: only extra plugins on
      extra rulesets, nothing on ignored ones, ruleset plugins on the ruleset
      and rule plugins on its existing rules otherwise. */
  predicate Routed(b: Buckets, mode: Mode, ignore: seq<string>, gs: seq<GroupSnap>, c: Call) {
    !c.target.Sheet? && c.target.i < |gs| && Active(c.plugin, mode) &&
    var g := gs[c.target.i];
    (g.extra ==> c.target.Group? && c.plugin in b.extra) &&
    (!g.extra ==>
      !Ignored(ignore, g.group.selector) &&
      (c.target.Group? ==> c.plugin in b.ruleSet) &&
      (c.target.Decl? ==> c.plugin in b.rule && c.target.j < |g.rules|))
  }

  lemma GroupCallsRouted(b: Buckets, mode: Mode, ignore: seq<string>, gs: seq<GroupSnap>, i: nat)
    requires i < |gs|
    ensures forall c :: c in GroupCalls(b, mode, ignore, i, gs[i]) ==> Routed(b, mode, ignore, gs, c) && c.target.i == i
  {
    PluginCallsSound(b.extra, mode, Group(i));
    PluginCallsSound(b.ruleSet, mode, Group(i));
    DeclCallsSound(b.rule, mode, i, |gs[i].rules|);
  }

  /** Every ruleset-level call of a pass is routed as `Routed` says. */
  lemma {:induction false} GroupsCallsRouted(b: Buckets, mode: Mode, ignore: seq<string>, gs: seq<GroupSnap>)
    ensures forall c :: c in GroupsCalls(b, mode, ignore, gs) ==> Routed(b, mode, ignore, gs, c)
  {
    if gs != [] {
      var pre := gs[..|gs| - 1];
      GroupsCallsRouted(b, mode, ignore, pre);
      GroupCallsRouted(b, mode, ignore, gs, |gs| - 1);
      forall c | c in GroupsCalls(b, mode, ignore, pre) ensures Routed(b, mode, ignore, gs, c) {
        assert Routed(b, mode, ignore, pre, c);
        assert gs[c.target.i] == pre[c.target.i];
      }
    }
  }

  /** The ruleset index of the calls `s` never decreases and stays below `n`. */
  predicate InTreeOrder(s: seq<Call>, n: int) {
    forall x, y :: 0 <= x < y < |s| ==> 0 <= GroupIndex(s[x]) <= GroupIndex(s[y]) < n
  }

  /** Rulesets are visited in tree order: along a pass the ruleset index never decreases. */
  lemma {:induction false} GroupsInOrder(b: Buckets, mode: Mode, ignore: seq<string>, gs: seq<GroupSnap>)
    ensures InTreeOrder(GroupsCalls(b, mode, ignore, gs), |gs|)
  {
    if gs != [] {
      var pre := gs[..|gs| - 1];
      GroupsInOrder(b, mode, ignore, pre);
      GroupsCallsRouted(b, mode, ignore, pre);
      GroupCallsRouted(b, mode, ignore, gs, |gs| - 1);
      var a := GroupsCalls(b, mode, ignore, pre);
      var c := GroupCalls(b, mode, ignore, |gs| - 1, gs[|gs| - 1]);
      var s := a + c;
      assert GroupsCalls(b, mode, ignore, gs) == s;
      forall z | 0 <= z < |a| ensures 0 <= GroupIndex(a[z]) < |pre| {
        assert a[z] in a && Routed(b, mode, ignore, pre, a[z]);
      }
      forall z | 0 <= z < |c| ensures GroupIndex(c[z]) == |gs| - 1 {
        assert c[z] in c;
      }
      forall x, y | 0 <= x < y < |s| ensures 0 <= GroupIndex(s[x]) <= GroupIndex(s[y]) < |gs| {
        if y < |a| {
          assert s[x] == a[x] && s[y] == a[y];
        } else if x < |a| {
          assert s[x] == a[x] && s[y] == c[y - |a|];
        } else {
          assert s[x] == c[x - |a|] && s[y] == c[y - |a|];
        }
      }
    }
  }

  /** Within a ruleset: checking runs ruleset checkers before rule checkers;
      fixing runs rule fixers before ruleset fixers. */
  lemma GroupPhases(b: Buckets, mode: Mode, ignore: seq<string>, i: nat, g: GroupSnap)
    ensures var s := GroupCalls(b, mode, ignore, i, g);
      forall x, y :: 0 <= x < y < |s| ==>
        (mode == CheckPass && !g.extra && s[x].target.Decl? ==> s[y].target.Decl?) &&
        (mode == FixPass && !g.extra && s[x].target.Group? ==> s[y].target.Group?)
  {
    if !g.extra && !Ignored(ignore, g.group.selector) {
      var p := PluginCalls(b.ruleSet, mode, Group(i));
      var d := DeclCalls(b.rule, mode, i, |g.rules|);
      PluginCallsSound(b.ruleSet, mode, Group(i));
      DeclCallsSound(b.rule, mode, i, |g.rules|);
      assert forall x :: 0 <= x < |p| ==> p[x] in p;
      assert forall x :: 0 <= x < |d| ==> d[x] in d;
    }
  }

  /** Stylesheet checkers run before any ruleset is checked. */
  lemma SheetChecksFirst(b: Buckets, ignore: seq<string>, gs: seq<GroupSnap>)
    ensures var s := CheckSchedule(b, ignore, gs);
      forall x, y :: 0 <= x < y < |s| && s[y].target.Sheet? ==> s[x].target.Sheet?
  {
    GroupsCallsRouted(b, CheckPass, ignore, gs);
    PluginCallsSound(b.styleSheet, CheckPass, Sheet);
    var g := GroupsCalls(b, CheckPass, ignore, gs);
    assert forall x :: 0 <= x < |g| ==> g[x] in g;
  }

  /** Stylesheet fixers run after every ruleset is fixed. */
  lemma SheetFixesLast(b: Buckets, ignore: seq<string>, gs: seq<GroupSnap>)
    ensures var s := FixSchedule(b, ignore, gs);
      forall x, y :: 0 <= x < y < |s| && s[x].target.Sheet? ==> s[y].target.Sheet?
  {
    GroupsCallsRouted(b, FixPass, ignore, gs);
    PluginCallsSound(b.styleSheet, FixPass, Sheet);
    var g := GroupsCalls(b, FixPass, ignore, gs);
    assert forall x :: 0 <= x < |g| ==> g[x] in g;
  }

  /** Every active rule plugin visits every rule of a checked ruleset. */
  lemma {:induction false} DeclCallsComplete(cs: seq<Plugin>, mode: Mode, i: nat, n: nat, p: Plugin, j: nat)
    requires p in cs && Active(p, mode) && j < n
    ensures Call(p, Decl(i, j)) in DeclCalls(cs, mode, i, n)
  {
    var last := cs[|cs| - 1];
    if p == last {
      assert Row(last, i, n)[j] == Call(p, Decl(i, j));
    } else {
      assert cs == cs[..|cs| - 1] + [last];
      DeclCallsComplete(cs[..|cs| - 1], mode, i, n, p, j);
    }
  }

  // ----- check results -----

  /** How a check result is read, with `len(result)` taken as the list's length. */
  datatype Verdict = Pass | Flag | Report(msgs: seq<string>) | Malformed

  function Classify(o: Outcome): (v: Verdict)
    ensures v == Pass <==> o == Bool(true)
    ensures v == Flag <==> o == Bool(false)
    ensures v.Report? <==> o.List? && o.msgs != []
    ensures v.Report? ==> v.msgs == o.msgs
    ensures v == Malformed <==> o.Other? || o == List([])
  {
    match o
    case Bool(b) => if b then Pass else Flag
    case List(ms) => if ms != [] then Report(ms) else Malformed
    case Other => Malformed
  }

  /** The ruleset, rule and extra branches as written: `len` is not defined
      in the file, so any list result raises a ReferenceError before it is read. */
  datatype Reaction = Handled(v: Verdict) | ReferenceError

  function ClassifyAsWritten(o: Outcome): (r: Reaction)
    ensures r == ReferenceError <==> o.List?
    ensures !o.List? ==> r == Handled(Classify(o))
  {
    match o
    case Bool(b) => Handled(if b then Pass else Flag)
    case List(_) => ReferenceError
    case Other => Handled(Malformed)
  }

  /** A rule checker returning one message aborts the pass as written, where
      the stylesheet branch, which uses `.length`, would log the message. */
  lemma LenUndefined()
    ensures ClassifyAsWritten(List(["bad"])) == ReferenceError
    ensures Classify(List(["bad"])) == Report(["bad"])
  {
  }

  /** The ledger steps a verdict causes. */
  function VerdictActions(p: Plugin, ctx: Context, v: Verdict): seq<Action> {
    match v
    case Pass => []
    case Flag => LogActions(p, ctx, MessagesOf(p, None))
    case Report(ms) => LogActions(p, ctx, ms)
    case Malformed => [Note(BadResult(p.id))]
  }

  /** `true` adds nothing; `false` logs the static template once; a list of
      messages logs each; anything else, the empty list included, only
      reports a tooling error. */
  lemma CheckResultEffects(p: Plugin, ctx: Context, o: Outcome)
    ensures var acts := VerdictActions(p, ctx, Classify(o));
      && (o == Bool(true) ==> acts == [])
      && (o == Bool(false) ==> Records(acts) == if ctx.DeclCtx? && Template(p) == "" then 0 else 1)
      && (o.List? && o.msgs != [] ==> Records(acts) == if ctx.DeclCtx? then NonEmptyCount(o.msgs) else |o.msgs|)
      && (o.Other? || o == List([]) ==> acts == [Note(BadResult(p.id))])
  {
    var acts := VerdictActions(p, ctx, Classify(o));
    match o
    case Bool(b) =>
      if !b {
        assert acts == LogActions(p, ctx, [Template(p)]);
        LogActionsRecords(p, ctx, [Template(p)]);
        assert [Template(p)][..0] == [];
      }
    case List(ms) =>
      if ms != [] {
        assert acts == LogActions(p, ctx, ms);
        LogActionsRecords(p, ctx, ms);
      }
    case Other =>
  }

  /** `t` names a part of the tree `gs`. */
  predicate InTree(gs: seq<GroupSnap>, t: Target) {
    match t
    case Sheet => true
    case Group(i) => i < |gs|
    case Decl(i, j) => i < |gs| && j < |gs[i].rules|
  }

  /** Where the messages of a call point: the file, the ruleset's selector,
      or the rule's selector, raw name and value. Indices outside the tree
      fall back to the file; the schedules never produce them. */
  function ContextOf(file: string, gs: seq<GroupSnap>, t: Target): Context {
    match t
    case Sheet => SheetCtx(file)
    case Group(i) => if i < |gs| then GroupCtx(gs[i].group.selector) else SheetCtx(file)
    case Decl(i, j) =>
      if i < |gs| && j < |gs[i].rules| then
        var r := gs[i].rules[j];
        DeclCtx(r.selector, r.roughName, r.value)
      else SheetCtx(file)
  }

  function CallActions(file: string, gs: seq<GroupSnap>, check: (Plugin, Target, Config) -> Outcome, cfg: Config, c: Call): seq<Action> {
    VerdictActions(c.plugin, ContextOf(file, gs, c.target), Classify(check(c.plugin, c.target, cfg)))
  }

  /** The ledger steps of a sequence of calls, in order, given each call's steps. */
  function Steps(cs: seq<Call>, step: Call -> seq<Action>): seq<Action> {
    if cs == [] then []
    else Steps(cs[..|cs| - 1], step) + step(cs[|cs| - 1])
  }

  /** Running `a` then `b` takes the steps of running `a + b`. */
  lemma {:induction false} StepsConcat(a: seq<Call>, b: seq<Call>, step: Call -> seq<Action>)
    ensures Steps(a + b, step) == Steps(a, step) + Steps(b, step)
  {
    if b == [] {
      assert a + b == a;
    } else {
      assert (a + b)[..|a + b| - 1] == a + b[..|b| - 1];
      StepsConcat(a, b[..|b| - 1], step);
    }
  }

  /** One more call: a ledger that took the steps of `s` and then those of
      `c` took the steps of `s + [c]`. */
  lemma StepsSnoc(l0: Ledger, t: int, s: seq<Call>, c: Call, step: Call -> seq<Action>, mid: Ledger, after: Ledger)
    requires mid == ApplyAll(l0, t, Steps(s, step)) && after == ApplyAll(mid, t, step(c))
    ensures after == ApplyAll(l0, t, Steps(s + [c], step))
  {
    assert (s + [c])[..|s|] == s;
    ApplyAllConcat(l0, t, Steps(s, step), step(c));
  }

  /** Running the calls `b` after the calls `a` is running `a + b`. */
  lemma StepsThen(l0: Ledger, t: int, a: seq<Call>, b: seq<Call>, step: Call -> seq<Action>, mid: Ledger, after: Ledger)
    requires mid == ApplyAll(l0, t, Steps(a, step)) && after == ApplyAll(mid, t, Steps(b, step))
    ensures after == ApplyAll(l0, t, Steps(a + b, step))
  {
    StepsConcat(a, b, step);
    ApplyAllConcat(l0, t, Steps(a, step), Steps(b, step));
  }

  /** The steps of one check call against the tree `gs` of file `file`. */
  function CheckStep(file: string, gs: seq<GroupSnap>, check: (Plugin, Target, Config) -> Outcome, cfg: Config): Call -> seq<Action> {
    c => CallActions(file, gs, check, cfg, c)
  }

  /** The ignore list is read fresh: a ruleset on it contributes no ledger step. */
  lemma IgnoredRuleSetSilent(b: Buckets, ignore: seq<string>, i: nat, g: GroupSnap, file: string, gs: seq<GroupSnap>, check: (Plugin, Target, Config) -> Outcome, cfg: Config)
    requires !g.extra && Ignored(ignore, g.group.selector)
    ensures Steps(GroupCalls(b, CheckPass, ignore, i, g), CheckStep(file, gs, check, cfg)) == []
  {
  }

  // ----- fixing -----

  /** `fixRules` seeding: an empty `fixedValue` is initialised from the
      cleaned value and `fixedName` from the stripped name; a non-empty
      staged value is never overwritten. */
  function SeedRule(s: RuleState): (r: RuleState)
    ensures s.fixedValue == "" ==> r.fixedValue == s.value && r.fixedName == s.strippedName
    ensures s.fixedValue != "" ==> r == s
    ensures RebasedRule(r) == RebasedRule(s)
  {
    if s.fixedValue == "" then s.(fixedValue := s.value, fixedName := s.strippedName) else s
  }

  /** `fixRuleSet` seeding of the selector and the comment. */
  function SeedGroup(g: GroupState): (r: GroupState)
    ensures g.fixedSelector == "" ==> r.fixedSelector == g.selector && r.fixedComment == g.comment
    ensures g.fixedSelector != "" ==> r == g
    ensures RebasedGroup(r) == RebasedGroup(g)
  {
    if g.fixedSelector == "" then g.(fixedSelector := g.selector, fixedComment := g.comment) else g
  }

  /** `fixExtraRules` seeding of the selector and the statement. */
  function SeedExtra(g: GroupState): (r: GroupState)
    ensures g.fixedSelector == "" ==> r.fixedSelector == g.selector && r.fixedStatement == g.statement
    ensures g.fixedSelector != "" ==> r == g
    ensures RebasedGroup(r) == RebasedGroup(g)
  {
    if g.fixedSelector == "" then g.(fixedSelector := g.selector, fixedStatement := g.statement) else g
  }

  /** A rule after the fixers `cs` have run on it in order. */
  function FoldRule(cs: seq<Plugin>, bh: Behaviour, cfg: Config, i: nat, j: nat, s: RuleState): RuleState {
    if cs == [] then s
    else
      var t := FoldRule(cs[..|cs| - 1], bh, cfg, i, j, s);
      var c := cs[|cs| - 1];
      if c.hasFix then bh.fixRule(c, Decl(i, j), cfg, SeedRule(t)) else t
  }

  /** A ruleset after the fixers `cs` have run on it in order, its rules
      being in the states `rules` meanwhile. */
  function FoldGroup(cs: seq<Plugin>, bh: Behaviour, cfg: Config, extra: bool, i: nat, g: GroupState, rules: seq<RuleState>): GroupState {
    if cs == [] then g
    else
      var t := FoldGroup(cs[..|cs| - 1], bh, cfg, extra, i, g, rules);
      var c := cs[|cs| - 1];
      if c.hasFix then bh.fixGroup(c, Group(i), cfg, if extra then SeedExtra(t) else SeedGroup(t), rules) else t
  }

  lemma FoldRuleSnoc(cs: seq<Plugin>, bh: Behaviour, cfg: Config, i: nat, j: nat, s: RuleState, k: nat)
    requires k < |cs|
    ensures var t := FoldRule(cs[..k], bh, cfg, i, j, s);
      FoldRule(cs[..k + 1], bh, cfg, i, j, s) == if cs[k].hasFix then bh.fixRule(cs[k], Decl(i, j), cfg, SeedRule(t)) else t
  {
    assert cs[..k + 1][..k] == cs[..k];
  }

  lemma FoldGroupSnoc(cs: seq<Plugin>, bh: Behaviour, cfg: Config, extra: bool, i: nat, g: GroupState, rules: seq<RuleState>, k: nat)
    requires k < |cs|
    ensures var t := FoldGroup(cs[..k], bh, cfg, extra, i, g, rules);
      FoldGroup(cs[..k + 1], bh, cfg, extra, i, g, rules) ==
        if cs[k].hasFix then bh.fixGroup(cs[k], Group(i), cfg, if extra then SeedExtra(t) else SeedGroup(t), rules) else t
  {
    assert cs[..k + 1][..k] == cs[..k];
  }

  /** Ruleset `i` after the fix pass has visited it: the rule fixers run
      first, so the ruleset fixers see the fixed rules. */
  function FixedSnap(b: Buckets, bh: Behaviour, cfg: Config, i: nat, g: GroupSnap): (r: GroupSnap)
    ensures r.extra == g.extra && |r.rules| == |g.rules|
  {
    if g.extra then g.(group := FoldGroup(b.extra, bh, cfg, true, i, g.group, g.rules))
    else if Ignored(cfg.ignoreRulesets, g.group.selector) then g
    else
      var rules := seq(|g.rules|, j requires 0 <= j < |g.rules| => FoldRule(b.rule, bh, cfg, i, j, g.rules[j]));
      GroupSnap(g.extra, FoldGroup(b.ruleSet, bh, cfg, false, i, g.group, rules), rules)
  }

  /** In a plain ruleset that is not ignored, every rule is fixed by the rule
      fixers, the ruleset fixers fold over the ruleset-level state, and each
      of them that has `fix` is handed those fixed rules. */
  lemma RuleSetFixerSeesFixedRules(b: Buckets, bh: Behaviour, cfg: Config, i: nat, g: GroupSnap, k: nat)
    requires !g.extra && !Ignored(cfg.ignoreRulesets, g.group.selector)
    requires k < |b.ruleSet| && b.ruleSet[k].hasFix
    ensures var r := FixedSnap(b, bh, cfg, i, g);
      && (forall j :: 0 <= j < |g.rules| ==> r.rules[j] == FoldRule(b.rule, bh, cfg, i, j, g.rules[j]))
      && r.group == FoldGroup(b.ruleSet, bh, cfg, false, i, g.group, r.rules)
      && FoldGroup(b.ruleSet[..k + 1], bh, cfg, false, i, g.group, r.rules) ==
           bh.fixGroup(b.ruleSet[k], Group(i), cfg, SeedGroup(FoldGroup(b.ruleSet[..k], bh, cfg, false, i, g.group, r.rules)), r.rules)
  {
    FoldGroupSnoc(b.ruleSet, bh, cfg, false, i, g.group, FixedSnap(b, bh, cfg, i, g).rules, k);
  }

  /** The tree after the ruleset phase of the fix pass. */
  function FixedSheet(b: Buckets, bh: Behaviour, cfg: Config, gs: seq<GroupSnap>): (r: seq<GroupSnap>)
    ensures |r| == |gs| && forall i :: 0 <= i < |gs| ==> r[i] == FixedSnap(b, bh, cfg, i, gs[i])
  {
    seq(|gs|, i requires 0 <= i < |gs| => FixedSnap(b, bh, cfg, i, gs[i]))
  }

  /** Which parts of the tree the fix pass touches: ignored rulesets not at
      all, extra rulesets only at ruleset level, and a ruleset's shape never. */
  lemma FixScope(b: Buckets, bh: Behaviour, cfg: Config, i: nat, g: GroupSnap)
    ensures var r := FixedSnap(b, bh, cfg, i, g);
      && r.extra == g.extra && |r.rules| == |g.rules|
      && (!g.extra && Ignored(cfg.ignoreRulesets, g.group.selector) ==> r == g)
      && (g.extra ==> r.rules == g.rules)
  {
  }

  /** Plugins without `fix` are skipped. */
  lemma {:induction false} FoldRuleSkipsNonFixers(cs: seq<Plugin>, bh: Behaviour, cfg: Config, i: nat, j: nat, s: RuleState)
    requires forall k :: 0 <= k < |cs| ==> !cs[k].hasFix
    ensures FoldRule(cs, bh, cfg, i, j, s) == s
  {
    if cs != [] {
      FoldRuleSkipsNonFixers(cs[..|cs| - 1], bh, cfg, i, j, s);
    }
  }

  /** Fixers that only write the staged fields. */
  ghost predicate StagedOnly(bh: Behaviour) {
    (forall p, t, c, s :: RebasedRule(bh.fixRule(p, t, c, s)) == RebasedRule(s)) &&
    (forall p, t, c, g, rs :: RebasedGroup(bh.fixGroup(p, t, c, g, rs)) == RebasedGroup(g))
  }

  lemma {:induction false} FoldRuleStaged(cs: seq<Plugin>, bh: Behaviour, cfg: Config, i: nat, j: nat, s: RuleState)
    requires StagedOnly(bh)
    ensures RebasedRule(FoldRule(cs, bh, cfg, i, j, s)) == RebasedRule(s)
  {
    if cs != [] {
      FoldRuleStaged(cs[..|cs| - 1], bh, cfg, i, j, s);
    }
  }

  lemma {:induction false} FoldGroupStaged(cs: seq<Plugin>, bh: Behaviour, cfg: Config, extra: bool, i: nat, g: GroupState, rules: seq<RuleState>)
    requires StagedOnly(bh)
    ensures RebasedGroup(FoldGroup(cs, bh, cfg, extra, i, g, rules)) == RebasedGroup(g)
  {
    if cs != [] {
      FoldGroupStaged(cs[..|cs| - 1], bh, cfg, extra, i, g, rules);
    }
  }

  /** With fixers that only write staged fields, rebasing a fixed tree gives
      back the tree that was fixed... */
  lemma FixedSheetRebases(b: Buckets, bh: Behaviour, cfg: Config, gs: seq<GroupSnap>)
    requires StagedOnly(bh)
    ensures RebasedSheet(FixedSheet(b, bh, cfg, RebasedSheet(gs))) == RebasedSheet(gs)
  {
    var r := RebasedSheet(gs);
    RebasedSheetIdempotent(gs);
    var f := FixedSheet(b, bh, cfg, r);
    forall i | 0 <= i < |r| ensures RebasedSnap(f[i]) == RebasedSnap(r[i]) {
      var g := r[i];
      FoldGroupStaged(b.extra, bh, cfg, true, i, g.group, g.rules);
      FoldGroupStaged(b.ruleSet, bh, cfg, false, i, g.group, FixedSnap(b, bh, cfg, i, g).rules);
      forall j | 0 <= j < |g.rules| ensures RebasedRule(FixedSnap(b, bh, cfg, i, g).rules[j]) == RebasedRule(g.rules[j]) {
        FoldRuleStaged(b.rule, bh, cfg, i, j, g.rules[j]);
      }
    }
  }

  /** ... so fixing twice gives what fixing once gives: `doFix` is idempotent. */
  lemma FixIdempotent(b: Buckets, bh: Behaviour, cfg: Config, gs: seq<GroupSnap>)
    requires StagedOnly(bh)
    ensures var once := FixedSheet(b, bh, cfg, RebasedSheet(gs));
      FixedSheet(b, bh, cfg, RebasedSheet(once)) == once
      && FixSchedule(b, cfg.ignoreRulesets, RebasedSheet(once)) == FixSchedule(b, cfg.ignoreRulesets, RebasedSheet(gs))
  {
    FixedSheetRebases(b, bh, cfg, gs);
  }
}
