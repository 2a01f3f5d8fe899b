/** How `logStyleSheetMessage`, `logRuleSetMessage` and `logRuleMessage`
    turn a checker's messages into ledger entries. */
module Messages {
  import opened Wrappers
  import opened Text
  import opened Severity
  import opened Registry

  /** What a message is about: the file, a ruleset's selector, or a rule
      (its cleaned selector, raw name and cleaned value). */
  datatype Context =
    | SheetCtx(file: string)
    | GroupCtx(selector: string)
    | DeclCtx(selector: string, roughName: string, value: string)

  /** `checker.msg || checker.errorMsg` */
  function Template(p: Plugin): string {
    if p.msg != "" then p.msg else p.errorMsg
  }

  /** `checker.level || checker.errorLevel`: a level of 0, which is
      ERROR_LEVEL.ERROR, is falsy and gives way to `errorLevel`. */
  function LevelOf(p: Plugin): Option<int> {
    if p.level.Some? && p.level.value != 0 then p.level else p.errorLevel
  }

  /** A level other than ERROR wins, even one that is not an ERROR_LEVEL
      value; ERROR and an absent level give way to `errorLevel`. So a
      plugin's messages are errors only when its `errorLevel` says so. */
  lemma LevelFallsThrough(p: Plugin)
    ensures p.level.Some? && p.level != Some(Code(Error)) ==> LevelOf(p) == p.level
    ensures p.level == None || p.level == Some(Code(Error)) ==> LevelOf(p) == p.errorLevel
    ensures LevelOf(p) == Some(Code(Error)) <==> p.errorLevel == Some(Code(Error)) && (p.level == None || p.level == Some(Code(Error)))
  {
  }

  /** A plugin declaring level ERROR: with `errorLevel` WARNING its message is
      kept as a warning, with no `errorLevel` it is only reported as a
      wrong level. */
  lemma ErrorLevelGivesWay(p: Plugin, l: Ledger, e: Entry)
    requires p.level == Some(Code(Error))
    ensures p.errorLevel == Some(Code(Warning)) ==> Remember(l, 0, LevelOf(p), e) == l.(warnings := l.warnings + [e])
    ensures p.errorLevel == None ==> Remember(l, 0, LevelOf(p), e) == l.(dev := l.dev + [WrongLevel(e)])
  {
  }

  /** The messages to log: the given list, or the static template when none is given. */
  function MessagesOf(p: Plugin, errors: Option<seq<string>>): seq<string> {
    match errors
    case None => [Template(p)]
    case Some(ms) => ms
  }

  /** The placeholder whose presence suppresses the appended context. */
  function Token(ctx: Context): string {
    if ctx.SheetCtx? then "${file}" else "${selector}"
  }

  /** The name of the context: the file name or the selector. */
  function Where(ctx: Context): string {
    if ctx.SheetCtx? then ctx.file else ctx.selector
  }

  /** A message with ` (from "<where>")` appended unless it holds the placeholder. */
  function WithContext(m: string, ctx: Context): (r: string)
    ensures m <= r
    ensures Contains(m, Token(ctx)) ==> r == m
    ensures !Contains(m, Token(ctx)) ==> Contains(r, Where(ctx))
  {
    if Contains(m, Token(ctx)) then m
    else
      var r := m + " (from \"" + Where(ctx) + "\")";
      assert r == (m + " (from \"") + Where(ctx) + "\")";
      ContainsPiece(m + " (from \"", Where(ctx), "\")");
      r
  }

  /** The entry recorded for message `m`. */
  function EntryOf(m: string, ctx: Context): Entry {
    var text := WithContext(m, ctx);
    match ctx
    case SheetCtx(file) => StyleSheetMsg(text, file)
    case GroupCtx(sel) => RuleSetMsg(text, sel)
    case DeclCtx(sel, n, v) => RuleMsg(text, sel, Trim(n), Trim(v))
  }

  /** The steps for one message. An empty message is reported as a tooling
      error; at stylesheet level it is still recorded, at rule level it is
      skipped, and at ruleset level it is recorded without a report. */
  function MessageActions(p: Plugin, ctx: Context, m: string): seq<Action> {
    match ctx
    case SheetCtx(_) =>
      (if m == "" then [Note(NoMessage)] else []) + [Record(LevelOf(p), EntryOf(m, ctx))]
    case GroupCtx(_) => [Record(LevelOf(p), EntryOf(m, ctx))]
    case DeclCtx(_, _, _) =>
      if m == "" then [Note(NoMessage)] else [Record(LevelOf(p), EntryOf(m, ctx))]
  }

  /** The steps of one log*Message call over the messages `ms`, in order. */
  function LogActions(p: Plugin, ctx: Context, ms: seq<string>): seq<Action> {
    if ms == [] then []
    else LogActions(p, ctx, ms[..|ms| - 1]) + MessageActions(p, ctx, ms[|ms| - 1])
  }

  lemma LogActionsSnoc(p: Plugin, ctx: Context, ms: seq<string>, k: nat)
    requires k < |ms|
    ensures LogActions(p, ctx, ms[..k + 1]) == LogActions(p, ctx, ms[..k]) + MessageActions(p, ctx, ms[k])
  {
    assert ms[..k + 1][..k] == ms[..k];
  }

  function NonEmptyCount(ms: seq<string>): nat {
    if ms == [] then 0 else NonEmptyCount(ms[..|ms| - 1]) + (if ms[|ms| - 1] != "" then 1 else 0)
  }

  /** Each message gives one `remember`, except empty rule-level messages, which give none. */
  lemma {:induction false} LogActionsRecords(p: Plugin, ctx: Context, ms: seq<string>)
    ensures Records(LogActions(p, ctx, ms)) == if ctx.DeclCtx? then NonEmptyCount(ms) else |ms|
  {
    if ms != [] {
      LogActionsRecords(p, ctx, ms[..|ms| - 1]);
      RecordsConcat(LogActions(p, ctx, ms[..|ms| - 1]), MessageActions(p, ctx, ms[|ms| - 1]));
      MessageRecords(p, ctx, ms[|ms| - 1]);
    }
  }

  lemma MessageRecords(p: Plugin, ctx: Context, m: string)
    ensures Records(MessageActions(p, ctx, m)) == if ctx.DeclCtx? && m == "" then 0 else 1
  {
    var acts := MessageActions(p, ctx, m);
    assert acts[..|acts| - 1] == if ctx.SheetCtx? && m == "" then [Note(NoMessage)] else [];
    if ctx.SheetCtx? && m == "" {
      var pre := acts[..|acts| - 1];
      assert pre[..|pre| - 1] == [];
      assert Records(pre) == 0;
    }
  }

  lemma {:induction false} RecordsConcat(a: seq<Action>, b: seq<Action>)
    ensures Records(a + b) == Records(a) + Records(b)
  {
    if b == [] {
      assert a + b == a;
    } else {
      assert (a + b)[..|a + b| - 1] == a + b[..|b| - 1];
      RecordsConcat(a, b[..|b| - 1]);
    }
  }

  /** Some message of `ms` begins the recorded text. */
  predicate FromOneOf(text: string, ms: seq<string>) {
    exists m :: m in ms && m <= text
  }

  /** What is recorded per kind of context: the checker's level, a text that
      starts with one of the messages, and for rules the trimmed raw name
      and the trimmed cleaned value. */
  lemma {:induction false} LogActionsEntries(p: Plugin, ctx: Context, ms: seq<string>)
    ensures forall a :: a in LogActions(p, ctx, ms) && a.Record? ==>
      a.level == LevelOf(p) &&
      match ctx
      case SheetCtx(file) => a.entry.StyleSheetMsg? && a.entry.file == file && FromOneOf(a.entry.errorMsg, ms)
      case GroupCtx(sel) => a.entry.RuleSetMsg? && a.entry.selector == sel && FromOneOf(a.entry.errorMsg, ms)
      case DeclCtx(sel, n, v) =>
        a.entry.RuleMsg? && a.entry.selector == sel && a.entry.name == Trim(n) && a.entry.value == Trim(v) &&
        FromOneOf(a.entry.errorMsg, ms)
  {
    if ms != [] {
      var pre, last := ms[..|ms| - 1], ms[|ms| - 1];
      LogActionsEntries(p, ctx, pre);
      assert last in ms;
      assert WithContext(last, ctx) == EntryOf(last, ctx).errorMsg;
      forall a | a in LogActions(p, ctx, pre) && a.Record?
        ensures FromOneOf(a.entry.errorMsg, ms)
      {
        var m :| m in pre && m <= a.entry.errorMsg;
        assert m in ms;
      }
    }
  }

  /** With no message list, exactly the static template is logged. */
  lemma TemplateOnly(p: Plugin, ctx: Context)
    requires Template(p) != ""
    ensures LogActions(p, ctx, MessagesOf(p, None)) == [Record(LevelOf(p), EntryOf(Template(p), ctx))]
  {
    assert [Template(p)][..0] == [];
  }
}
