# ckstyle checker engine, modelled in Dafny

This project models the core of ckstyle, a CSS style checker and fixer. The
core has three parts.

- **`CssChecker`** (`ckstyle/ckstyler.js`) is the engine.
  - It keeps a registry of plugins in four lists: rule, ruleset, stylesheet and extra.
  - It keeps a severity ledger with three buckets: log, warning and error.
  - It composes the messages plugins report.
  - It runs three passes over a parsed stylesheet:
    - `doCheck` calls every checker on its targets and logs what they report;
    - `doFix` rebases the tree, then lets every fixer stage its changes;
    - `doCompress` records the target browsers and then fixes.
- **`Rule`** (`ckstyle/entity/rule.js`) is one `property: value` declaration.
  - It holds raw, cleaned, trimmed and staged (`fixed*`) forms of its name, value and selector.
  - It renders itself in a compressed form and in a fixed form.
- **The browser bit masks** (`ckstyle/browsers/BinaryRule.js`): nine single-bit flags and the unions built from them.

The Dafny modules follow that structure:

| file | module | contents |
|---|---|---|
| `binary_rule.dfy` | `BinaryRule` | the masks as `bv9` constants |
| `text.dfy` | `Text` | ECMAScript `trim` and `indexOf` |
| `options.dfy` | `Options` | the configuration the engine reads |
| `severity.dfy` | `Wrappers`, `Severity` | `Option`; the ledger and `remember` |
| `registry.dfy` | `Registry` | plugin descriptors, admission, routing, ordering |
| `messages.dfy` | `Messages` | how a message becomes a ledger entry |
| `entity.dfy` | `Entity` | the classes `Rule`, `RuleSet`, `StyleSheet` |
| `schedule.dfy` | `Schedule` | plugin-call order, check-result dispatch, fix results |
| `ckstyler.dfy` | `Ckstyler` | `extend` and the class `CssChecker` |
| `seqs.dfy` | `Seqs` | small sequence facts the proofs cite |

The engine's methods are imperative Dafny, mirroring the source: they push
onto sequence fields, reassign the checker lists and write the fields of the
tree in place. Each method is proved against a specification function.

- A ghost trace `calls` records every plugin `check` or `fix` invocation.
- The check pass is proved to make exactly the calls of `CheckSchedule`, in
  that order. It is also proved to leave the ledger as the ledger steps of
  those calls (`Steps`) produce.
- The fix pass is proved to visit exactly `FixSchedule`. It is also proved to
  leave the tree as `FixedSheet` of the rebased tree.
- Lemmas about those functions give the properties the code promises: order,
  routing, seeding, scope and idempotence.

Plugin bodies and other code outside the core become parameters:

- `Behaviour` holds the plugins' `check` and `fix` functions;
- `Cleaner` holds the string normalisers of the entity helper module;
- the parse tree and the parse errors are inputs.

## Model

| member | source | states |
|---|---|---|
| BinaryRule.PrimitivesAreDistinctSingleBits | ckstyle/browsers/BinaryRule.js:19-32 | the nine primitive flags are single bits, pairwise distinct and pairwise disjoint |
| BinaryRule.AllIsUnionOfPrimitives | ckstyle/browsers/BinaryRule.js:39 | ALL (511) is the OR of the nine primitive flags |
| BinaryRule.WebkitFacts | ckstyle/browsers/BinaryRule.js:25-27 | WEBKIT is CHROME or SAFARI, a strict subset of NONEIE, disjoint from FIREFOX |
| BinaryRule.IeFamilyFacts | ckstyle/browsers/BinaryRule.js:27-33 | ALLIE is the four IE flags; ALLIE, NONEIE and STD are pairwise disjoint and together make ALL |
| BinaryRule.NoIeTiers | ckstyle/browsers/BinaryRule.js:35-37 | NOIE6 ⊋ NOIE67 ⊋ NOIE678, each adding one IE flag; none contains IE6 or STD |
| BinaryRule.NoneAndAll | ckstyle/browsers/BinaryRule.js:17-39 | NONE and ORIGIN are 0; ALL is neutral for AND and absorbing for OR on every 9-bit mask |
| Text.Trim | ckstyle/entity/rule.js:16-18 | `trim` returns a slice of the input that neither starts nor ends with white space, and everything removed on either side is white space |
| Text.TrimIdempotent | ckstyle/entity/rule.js:16-18 | trimming twice equals trimming once |
| Text.TrimFixesUnpadded | ckstyle/entity/rule.js:16-18 | a string with no white space at either end is left unchanged by trimming |
| Text.IndexFrom | ckstyle/ckstyler.js:225 | `indexOf` gives -1 exactly when the piece occurs nowhere; otherwise it gives the first position where the piece occurs |
| Text.ContainsPiece | ckstyle/ckstyler.js:225-226 | a string contains each piece it is concatenated from |
| Severity.Recognised | ckstyle/ckstyler.js:197-212 | a level value stands for LOG, WARNING or ERROR exactly when it is that level's number (2, 1, 0); an absent level or any other number stands for none |
| Severity.RememberLevels | ckstyle/ckstyler.js:197-212 | ERROR (0) always goes to the error bucket. WARNING (1) is kept iff errorLevel is falsy or above 0. LOG (2) is kept iff it is falsy or above 1. Any other level value only adds a "wrong ErrorLevel" note. At most one bucket grows, and by one entry. |
| Severity.GetErrors | ckstyle/ckstyler.js:102-105 | the result holds the three buckets: log first, then warning, then error |
| Severity.HasErrorIffNonEmpty | ckstyle/ckstyler.js:97-105 | `hasError` holds iff some bucket of `getErrors` is non-empty, that is iff the ledger holds at least one entry |
| Severity.ApplyAllConcat | ckstyle/ckstyler.js:197-212 | performing two lists of ledger steps in turn equals performing their concatenation |
| Severity.ApplyAllOnlyAppends | ckstyle/ckstyler.js:197-212 | ledger steps only append, and buckets grow by at most the number of `remember` calls |
| Severity.NotesLeaveBuckets | ckstyle/ckstyler.js:209-211 | steps with no `remember` among them leave all three buckets unchanged |
| Severity.PermissiveRecordsAll | ckstyle/ckstyler.js:199-208 | with a falsy errorLevel, every `remember` with a known level adds exactly one entry |
| Registry.RouteCases | ckstyle/ckstyler.js:168-179 | a plugin goes to the rule list iff it or its parent has type rule; otherwise to ruleset, then stylesheet, with the extra list as the fallback (both directions) |
| Registry.AdmissionPolicy | ckstyle/ckstyler.js:142-166 | an `always` plugin is admitted. Otherwise a plugin missing from an explicit include list is rejected, as is one on an explicit exclude list, or a notSafe plugin in safe mode. An admitted plugin passes all three tests. |
| Registry.SelectedExactly | ckstyle/ckstyler.js:107-112 | after loading, each list holds exactly the admitted plugins routed to it, each as often as it was discovered |
| Registry.SelectedConcat | ckstyle/ckstyler.js:107-112 | selection keeps discovery order: plugins discovered earlier come first |
| Registry.SelectedPartition | ckstyle/ckstyler.js:142-195 | every admitted plugin lands in exactly one of the four lists |
| Registry.SortByOrderCorrect | ckstyle/ckstyler.js:63-76 | the sort result ascends by `order \|\| 10000` (an order of 0 counts as 10000), is a permutation of its input, and is stable |
| Registry.SortByOrderIdempotent | ckstyle/ckstyler.js:63-76 | sorting twice equals sorting once |
| Registry.SortedFixed | ckstyle/ckstyler.js:63-76 | a list already in order is unchanged by the sort |
| Registry.InsertSorted | ckstyle/ckstyler.js:63-76 | inserting by key keeps a sorted list sorted and adds one element |
| Registry.InsertMultiset | ckstyle/ckstyler.js:63-76 | inserting by key adds exactly that element |
| Messages.WithContext | ckstyle/ckstyler.js:225-229 | a message holding the placeholder is unchanged. Any other message gets a suffix that names the file or selector. The original text is a prefix of the result. |
| Messages.LogActionsRecords | ckstyle/ckstyler.js:220-235 | each message gives one `remember`, except that an empty rule-level message gives none |
| Messages.MessageRecords | ckstyle/ckstyler.js:222-248 | one message gives one `remember`, or none when it is an empty rule-level message |
| Messages.LevelFallsThrough | ckstyle/ckstyler.js:216 | `level \|\| errorLevel`: a level other than ERROR wins, even an unknown one; ERROR (0, falsy) and an absent level give way to `errorLevel`; the result is ERROR exactly when `errorLevel` is and `level` is ERROR or absent |
| Messages.ErrorLevelGivesWay | ckstyle/ckstyler.js:199-216 | a plugin with level ERROR and errorLevel WARNING has its message kept as a warning; with no errorLevel it gets only a "wrong ErrorLevel" note |
| Messages.LogActionsEntries | ckstyle/ckstyler.js:231-281 | every entry has the checker's `level \|\| errorLevel`, a text that starts with one of the messages, and the context's fields; a rule entry carries the trimmed raw name and the trimmed cleaned value |
| Messages.TemplateOnly | ckstyle/ckstyler.js:217-219 | with no message list, exactly one entry, built from `msg \|\| errorMsg`, is logged |
| Schedule.PluginCallsSound | ckstyle/ckstyler.js:407-410 | a forEach over a checker list calls, on its one target, only plugins of that list that have the pass's method, each exactly as often as it is listed |
| Schedule.PluginCallsConcat | ckstyle/ckstyler.js:407-410 | calls follow the order of the list |
| Schedule.PluginCallsComplete | ckstyle/ckstyler.js:407-410 | every plugin of the list that has the pass's method is called |
| Schedule.DeclCallsSound | ckstyle/ckstyler.js:425-443 | the rule loop calls only rule plugins that have the method, and only on existing rules of that ruleset |
| Schedule.DeclCallsComplete | ckstyle/ckstyler.js:425-443 | every active rule plugin visits every rule of a checked ruleset |
| Schedule.Row | ckstyle/ckstyler.js:427 | the inner `eachRule` loop visits rules 0..n-1 in order |
| Schedule.GroupsCallsRouted | ckstyle/ckstyler.js:481-492 | an extra ruleset gets only extra plugins, an ignored ruleset gets none, and any other ruleset gets ruleset plugins on itself and rule plugins on its own rules |
| Schedule.GroupsInOrder | ckstyle/ckstyler.js:481-492 | rulesets are visited in tree order: along a pass the ruleset index never decreases |
| Schedule.GroupPhases | ckstyle/ckstyler.js:369-373 | within a ruleset, checking runs ruleset checkers before rule checkers, and fixing runs rule fixers before ruleset fixers |
| Schedule.SheetChecksFirst | ckstyle/ckstyler.js:466-492 | every stylesheet check comes before any ruleset-level check |
| Schedule.SheetFixesLast | ckstyle/ckstyler.js:360-383 | every stylesheet fixer runs after all ruleset-level fixes |
| Schedule.Classify | ckstyle/ckstyler.js:471-479 | true passes; false asks for the template; a non-empty list is reported as it is; anything else, the empty list included, is malformed (each case both ways) |
| Schedule.ClassifyAsWritten | ckstyle/ckstyler.js:412-420 | the ruleset, rule and extra branches as written: a result raises a ReferenceError exactly when it is a list, because `len` is undefined; booleans and other values are read as `Classify` reads them |
| Schedule.LenUndefined | ckstyle/ckstyler.js:436 | a one-message list result aborts as written, where the corrected reading reports it |
| Schedule.CheckResultEffects | ckstyle/ckstyler.js:406-421 | `true` adds nothing; `false` adds one entry (none for an empty rule template); a list of n messages adds n (non-empty ones at rule level); anything else only reports a tooling error |
| Schedule.IgnoredRuleSetSilent | ckstyle/ckstyler.js:486-489 | a ruleset on the ignore list adds no ledger step |
| Schedule.StepsConcat | ckstyle/ckstyler.js:466-492 | the ledger steps of consecutive calls are the concatenation of their steps |
| Schedule.SeedRule | ckstyle/ckstyler.js:332-335 | an empty `fixedValue` is seeded from the cleaned value, with `fixedName` from the stripped name; a non-empty one is never overwritten; only staged fields change |
| Schedule.SeedGroup | ckstyle/ckstyler.js:312-315 | an empty `fixedSelector` is seeded from the selector, with `fixedComment` from the comment; otherwise nothing changes |
| Schedule.SeedExtra | ckstyle/ckstyler.js:349-352 | an empty `fixedSelector` is seeded from the selector, with `fixedStatement` from the statement; otherwise nothing changes |
| Schedule.FixedSnap | ckstyle/ckstyler.js:360-374 | fixing a ruleset keeps its kind and its number of rules |
| Schedule.RuleSetFixerSeesFixedRules | ckstyle/ckstyler.js:305-373 | in a plain ruleset that is not ignored, the rule fixers run first; the ruleset-level state is the fold of the ruleset fixers, each of which that has `fix` is handed the seeded state so far and the fixed rules |
| Schedule.FixedSheet | ckstyle/ckstyler.js:360-374 | the fixed tree has each ruleset fixed independently, at its own index |
| Schedule.FixScope | ckstyle/ckstyler.js:360-374 | an ignored ruleset is untouched, an extra ruleset keeps its rules, and no ruleset changes shape |
| Schedule.FoldRuleSkipsNonFixers | ckstyle/ckstyler.js:325-327 | plugins without `fix` leave a rule untouched |
| Schedule.FoldRuleStaged | ckstyle/ckstyler.js:322-341 | with fixers that write only staged fields, the rule fixers change only staged fields |
| Schedule.FoldGroupStaged | ckstyle/ckstyler.js:306-356 | with such fixers, the ruleset fixers change only staged fields |
| Schedule.FixedSheetRebases | ckstyle/ckstyler.js:297-374 | with such fixers, rebasing a fixed tree gives back the tree before fixing |
| Schedule.FixIdempotent | ckstyle/ckstyler.js:297-374 | with such fixers, fixing twice gives the same tree as fixing once, by the same sequence of calls |
| Entity.RebasedRule | ckstyle/entity/rule.js:29-33 | rebasing clears `fixedName` and `fixedValue` and changes no other field |
| Entity.RebasedGroup | ckstyle/ckstyler.js:312-352 | rebasing a ruleset clears its three staged fields and changes no other field |
| Entity.RebasedSnap | ckstyle/ckstyler.js:78-80 | a rebased ruleset has its own staged fields cleared and each of its rules rebased |
| Entity.RebasedSheet | ckstyle/ckstyler.js:78-80 | a rebased stylesheet has every ruleset rebased |
| Entity.RebasedSheetIdempotent | ckstyle/ckstyler.js:78-80 | rebasing twice equals rebasing once |
| Entity.TargetMask | ckstyle/entity/rule.js:43 | `browser \|\| ALL`: a non-zero mask is kept and a falsy one means ALL |
| Entity.CompressedText | ckstyle/entity/rule.js:41-50 | empty exactly when the rule's mask is non-zero and disjoint from the target. Otherwise `N:clean(V);`, where N is the trimmed `fixedName`, or `name` when none is staged, and V likewise from `fixedValue` or `value`. |
| Entity.FixedText | ckstyle/entity/rule.js:52-57 | the fixed rendering is `name: value;` from the staged name and the cleaned staged value, each falling back to the trimmed raw one while unstaged |
| Entity.FixedPrefersStaged | ckstyle/entity/rule.js:52-57 | a staged pair replaces the trimmed raw pair whatever it was: the rule renders as an unstaged rule whose trimmed raw pair is the staged pair |
| Entity.CompressAllKeepsEveryRule | ckstyle/entity/rule.js:43-46 | compressing for ALL, or for a falsy target, keeps every rule |
| Entity.DroppedNarrower | ckstyle/entity/rule.js:44-46 | a rule dropped for a target is dropped for every narrower non-empty target |
| Entity.FixedIgnoresBrowser | ckstyle/entity/rule.js:52-57 | the fixed rendering never reads the browser mask |
| Entity.RebasedFixedUsesStripped | ckstyle/entity/rule.js:29-33 | after rebasing, the fixed rendering depends only on the stripped name and value |
| Entity.Ie6RuleDroppedForNonIe | ckstyle/entity/rule.js:44-57 | an IE6-only rule is dropped when compressing for NONEIE, but kept when compressing for ALLIE and in the fixed rendering |
| Entity.ResetRendering | ckstyle/entity/rule.js:35-57 | after `reset(n, v)` both renderings show the pair `n`, `v` |
| Entity.Rule.constructor | ckstyle/entity/rule.js:5-27 | the raw forms are the arguments, the cleaned forms their Cleaner images and the stripped forms their trims; both staged fields are empty; the mask is ALL; the owner is the given ruleset |
| Entity.Rule.Rebase | ckstyle/entity/rule.js:29-33 | the new state is the old one rebased |
| Entity.Rule.Reset | ckstyle/entity/rule.js:35-39 | all four name forms become `n` and all four value forms `v`; the selectors, the mask and the owner are kept |
| Entity.Rule.Compress | ckstyle/entity/rule.js:41-50 | the result is `CompressedText` of the current state |
| Entity.Rule.Fixed | ckstyle/entity/rule.js:52-57 | the result is `FixedText` of the current state |
| Entity.Rule.GetRuleSet | ckstyle/entity/rule.js:59-62 | the result is the owning ruleset |
| Entity.RuleSet.Rebase | ckstyle/ckstyler.js:78-80 | the ruleset and every rule it owns are rebased; its rule list and ownership stay as they were |
| Entity.StyleSheet.Rebase | ckstyle/ckstyler.js:78-80 | the whole tree is rebased in place; its shape is unchanged |
| Ckstyler.Extended | ckstyle/ckstyler.js:17-24 | the result has the keys of both maps: the target's own values where it has them, the source's values elsewhere |
| Ckstyler.ExtendedStable | ckstyle/ckstyler.js:17-24 | extending twice from the same source equals extending once; a source with no new keys changes nothing |
| Ckstyler.Extend | ckstyle/ckstyler.js:17-24 | the loop over the source's keys leaves the target as `Extended` of the old target |
| Ckstyler.IntoExactlyOne | ckstyle/ckstyler.js:168-195 | registration appends the plugin to the end of exactly one list, as the routing rules say (both directions) |
| Ckstyler.ParseErrorsKept | ckstyle/ckstyler.js:91-95 | each parse error is one `remember`; with a falsy errorLevel each one with a known level is kept |
| Ckstyler.CssChecker.constructor | ckstyle/ckstyler.js:27-55 | the configuration is the given one, or the defaults when none is given; the lists are empty; the parse errors are remembered in order |
| Ckstyler.CssChecker.HandleParseErrors | ckstyle/ckstyler.js:91-95 | the ledger takes the parse errors' `remember` steps in order; nothing else changes |
| Ckstyler.CssChecker.HasError | ckstyle/ckstyler.js:97-100 | true iff the ledger holds an entry |
| Ckstyler.CssChecker.GetErrors | ckstyle/ckstyler.js:102-105 | the three buckets, log first and error last; some bucket is non-empty iff `hasError` |
| Ckstyler.CssChecker.Remember | ckstyle/ckstyler.js:197-212 | the ledger becomes `Severity.Remember` of the old ledger; nothing else changes |
| Ckstyler.CssChecker.RegisterStyleSheetChecker | ckstyle/ckstyler.js:181-183 | the plugin is appended to the stylesheet list; nothing else changes |
| Ckstyler.CssChecker.RegisterRuleSetChecker | ckstyle/ckstyler.js:185-187 | the plugin is appended to the ruleset list; nothing else changes |
| Ckstyler.CssChecker.RegisterRuleChecker | ckstyle/ckstyler.js:189-191 | the plugin is appended to the rule list; nothing else changes |
| Ckstyler.CssChecker.RegisterExtraChecker | ckstyle/ckstyler.js:193-195 | the plugin is appended to the extra list; nothing else changes |
| Ckstyler.CssChecker.RegisterChecker | ckstyle/ckstyler.js:168-179 | each list gains `Into(p, its category)`, so exactly one list grows by `p` |
| Ckstyler.CssChecker.RegisterPluginClass | ckstyle/ckstyler.js:142-166 | an admitted plugin is registered as `RegisterChecker` does; a rejected one changes nothing |
| Ckstyler.CssChecker.LoadPlugins | ckstyle/ckstyler.js:107-112 | each list is extended by its `Selected` plugins, in discovery order |
| Ckstyler.CssChecker.SortPlugins | ckstyle/ckstyler.js:63-76 | each list becomes `SortByOrder` of its old contents |
| Ckstyler.CssChecker.LogStyleSheetMessage | ckstyle/ckstyler.js:214-236 | the ledger takes the `LogActions` of the messages in the file's context |
| Ckstyler.CssChecker.LogStyleSheetEntry | ckstyle/ckstyler.js:220-235 | one message: an empty one is reported and still recorded; the suffix is as `WithContext` gives it |
| Ckstyler.CssChecker.LogRuleSetMessage | ckstyle/ckstyler.js:265-283 | the ledger takes the `LogActions` of the messages in the selector's context |
| Ckstyler.CssChecker.LogRuleSetEntry | ckstyle/ckstyler.js:271-282 | one message, recorded with its suffixed text and the selector |
| Ckstyler.CssChecker.LogRuleMessage | ckstyle/ckstyler.js:238-263 | the ledger takes the `LogActions` of the messages in the rule's context |
| Ckstyler.CssChecker.LogRuleEntry | ckstyle/ckstyler.js:243-262 | one message: an empty one is reported and skipped; any other is recorded with the trimmed raw name and cleaned value |
| Ckstyler.CssChecker.CheckOne | ckstyle/ckstyler.js:408-420 | one checker on one target: the trace gains that call and the ledger takes its `Classify`/`VerdictActions` steps; a list result in the ruleset, rule and extra branches follows the corrected `.length` reading of "## Findings", not the code as written |
| Ckstyler.CssChecker.RunChecks | ckstyle/ckstyler.js:466-480 | a forEach over a checker list makes exactly `PluginCalls` and their ledger steps |
| Ckstyler.CssChecker.CheckRule | ckstyle/ckstyler.js:425-443 | checkers outer, rules inner: exactly `DeclCalls` and their ledger steps |
| Ckstyler.CssChecker.CheckGroups | ckstyle/ckstyler.js:481-492 | the ruleset loop makes exactly `GroupsCalls` and their ledger steps |
| Ckstyler.CssChecker.DoCheck | ckstyle/ckstyler.js:391-493 | operation becomes "check". The trace gains exactly `CheckSchedule` and the ledger exactly its steps, list results being read as in the corrected row of "## Findings". The checker lists, the configuration otherwise, and the tree are unchanged. |
| Ckstyler.CssChecker.ResetStyleSheet | ckstyle/ckstyler.js:78-80 | the tree becomes its rebased snapshot |
| Ckstyler.CssChecker.FixRules | ckstyle/ckstyler.js:322-341 | each rule becomes `FoldRule` of the rule fixers over its old state; the trace gains `DeclCalls` |
| Ckstyler.CssChecker.FixGroup | ckstyle/ckstyler.js:306-356 | the ruleset becomes `FoldGroup` of its fixers over its old state and its rules' states, which it leaves unchanged; the trace gains `PluginCalls` |
| Ckstyler.CssChecker.SeedRuleFields | ckstyle/ckstyler.js:332-335 | the rule becomes `SeedRule` of its old state |
| Ckstyler.CssChecker.SeedGroupFields | ckstyle/ckstyler.js:312-315 | the ruleset becomes `SeedGroup` (or `SeedExtra`) of its old state |
| Ckstyler.CssChecker.FixVisit | ckstyle/ckstyler.js:360-374 | the ruleset becomes `FixedSnap` of its old value; the trace gains `GroupCalls` |
| Ckstyler.CssChecker.FixInPlace | ckstyle/ckstyler.js:360-374 | fixing ruleset `i` leaves every other ruleset and rule unchanged |
| Ckstyler.CssChecker.FixTree | ckstyle/ckstyler.js:358-374 | the tree becomes `FixedSheet` of its old value; the trace gains `GroupsCalls` |
| Ckstyler.CssChecker.FixStyleSheet | ckstyle/ckstyler.js:377-383 | stylesheet fixers run last and in order; the trace gains their `PluginCalls` |
| Ckstyler.CssChecker.FixAll | ckstyle/ckstyler.js:358-383 | the tree becomes `FixedSheet` and the trace gains exactly `FixSchedule` |
| Ckstyler.CssChecker.DoFix | ckstyle/ckstyler.js:297-389 | operation becomes the given one, or "fix". The tree becomes `FixedSheet` of the rebased tree. The trace gains `FixSchedule` of the rebased tree. The ledger and the lists are unchanged. |
| Ckstyler.CssChecker.DoCompress | ckstyle/ckstyler.js:285-290 | curBrowser becomes `browser \|\| ALL` and operation "compress"; then the fix pass runs as above |

## Left out

- Parsing: `CSSParser`, `doParse`, `prepare` and `getStyleSheet` are not modelled. The parse tree and the parse errors are inputs to the constructor.
- Plugin discovery: `_doLoadPlugins` and the AMD/CMD branch of `loadPlugins` read the file system and call `require`. Plugins are an input sequence, and `LoadPlugins` models the registration loop.
- `isFunction`/`isObject` instantiation in `registerPluginClass` is not modelled: a plugin is given as its instance.
- Timing and logging: the `timer.*` calls are left out. `logger.error` diagnostics are kept as `DevError` notes in the ledger's `dev` list.
- Return values of `doFix`, `doCompress` and `doFormat` are not modelled. `StyleSheet.fixed`, `StyleSheet.compress` and `RuleSet` serialisation are not part of this model. Only the `Rule` renderings are.
- Stylesheet fixers: the trace records their calls and their order, but their effect on the tree is not modelled (`FixStyleSheet` leaves the tree unchanged).
- Plugin bodies are opaque functions in `Behaviour`. A checker sees the target's identity and the configuration. A rule fixer sees the current state of its rule and returns its new state. A ruleset fixer sees the ruleset-level state and its rules' current states, and returns the new ruleset-level state.
- Schedule.FixedSnap, Schedule.FixScope: a ruleset or extra-ruleset fixer can read its rules but cannot edit, add or remove them, although the source hands `fix` the whole ruleset. The kept rule count and shape follow from that abstraction; a fixer that edits its rules is not modelled.
- The input tree is assumed well formed (`StyleSheet.Valid`, `RuleSet.Valid`): its rulesets are distinct objects, no `Rule` object is shared between rulesets or listed twice, and every rule and ruleset points back at its owner. An aliased tree is not modelled.
- The `RuleSet` and `StyleSheet` entity files are not part of this model. The classes of those names are built from how `ckstyler.js` uses them. `StyleSheet.rebase` is assumed to rebase every rule and to clear each ruleset's `fixedSelector`, `fixedComment` and `fixedStatement`.
- `Cleaner` (`clearName`, `clearValue`, `clearSelector`, `clean`) comes from a helper module that is not part of this model. It is a parameter of function values, and every result holds for any choice of them.
- `findInArray` is taken as membership of the selector in `ignoreRulesets`.
- `include` and `exclude` are modelled only as the keyword (`'all'`/`'none'`) or a list of ids with membership. A string value searched with `indexOf` as a substring, and a list such as `['all']` that loosely equals `'all'`, are not modelled.
- Ordering assumes a stable `Array.prototype.sort`, as ECMAScript 2019 and later require. Older engines could reorder plugins with equal `order`.
- Plugin and parser levels are numbers, as in `ERROR_LEVEL` (log 2, warning 1, error 0), or absent. Non-number levels (strings, `false`, `null`) and their loose `==` comparisons are not modelled.
- An absent errorLevel and a zero errorLevel are both falsy, and both are modelled as 0.
- Absent `msg`/`errorMsg` are modelled as `""`. The `TypeError` that `undefined.indexOf` raises in `logRuleSetMessage` and `logStyleSheetMessage` is not modelled; the empty string is processed instead.
- The implicit globals `errorLevel`, `obj`, `result`, `name` and `value` (in `Rule.compress`) are treated as locals. Because the code is single-threaded and sequential, the results are the same.
- `config._inner.curBrowser` is the field `curBrowser` of the configuration. The `browser` parameter of `doFix` is never read by the engine, so it is not a parameter of `DoFix`.
- `extend` is modelled on a dictionary class (`Dict`). The constructor takes the configuration as already completed with the defaults rather than running `extend` on a record.
- `Rule.toString` (debug text) and `toBeUsed` are not modelled.
- Ckstyler.CssChecker.FixStyleSheet: states only the trace and that the tree is unchanged, because the stylesheet fixers' bodies are opaque.
- Ckstyler.CssChecker.FixAll, Ckstyler.CssChecker.DoFix, Ckstyler.CssChecker.DoCompress: the tree they promise, `FixedSheet` of the (rebased) tree, is the tree after the ruleset phase only. The source then hands `fix` the whole stylesheet, and what a stylesheet fixer does to the tree is not modelled.
- Schedule.FixIdempotent: only holds for fixers that write nothing but staged fields (`StagedOnly`); for other fixers the source promises nothing.

## Findings

| source | as written | input that shows it | evidently intended | confidence | as-written member | corrected member |
|---|---|---|---|---|---|---|
| ckstyle/ckstyler.js:416 | `isList(result) && len(result) != 0` calls `len`, which this file neither defines nor imports (also at lines 436 and 456), so a list result in the ruleset, rule or extra branch raises a ReferenceError | a rule checker whose `check` returns `["bad"]` | `result.length != 0`, as the stylesheet branch at line 475 writes it: log each message of a non-empty list | not executed | Schedule.ClassifyAsWritten, Schedule.LenUndefined | Schedule.Classify |
