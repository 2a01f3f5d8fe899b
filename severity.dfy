/** Optional values. */
module Wrappers {
  datatype Option<T> = None | Some(value: T)
}

/** The severity ledger: three ordered buckets of findings, filled by
    `remember` according to the configured `errorLevel`. */
module Severity {
  import opened Wrappers

  /** ERROR_LEVEL.LOG, WARNING and ERROR. */
  datatype Level = Log | Warning | Error

  /** The numbers ERROR_LEVEL gives them: log is level 2, warning 1, error 0. */
  function Code(l: Level): int {
    match l
    case Log => 2
    case Warning => 1
    case Error => 0
  }

  /** The level a value handed to `remember` stands for. Levels are numbers,
      `None` being an absent (undefined) one; an absent level and any number
      other than the three codes stand for no level. */
  function Recognised(v: Option<int>): (r: Option<Level>)
    ensures forall l :: r == Some(l) <==> v == Some(Code(l))
  {
    if v == Some(2) then Some(Log)
    else if v == Some(1) then Some(Warning)
    else if v == Some(0) then Some(Error)
    else None
  }

  /** What `remember` stores: a parse error's message as the parser gave it,
      or the object a log*Message call builds (its `level` property is the
      constructor). */
  datatype Entry =
    | ParseError(text: string)
    | StyleSheetMsg(errorMsg: string, file: string)
    | RuleSetMsg(errorMsg: string, selector: string)
    | RuleMsg(errorMsg: string, selector: string, name: string, value: string)

  /** The `logger.error('[DEV] ...')` diagnostics about the tooling itself. */
  datatype DevError =
    | WrongLevel(entry: Entry)    // remember called with an unknown level
    | NoMessage                   // a plugin message that is empty
    | BadResult(pluginId: string) // a check result that is neither boolean nor non-empty list

  /** The three buckets, plus the developer diagnostics written to the console. */
  datatype Ledger = Ledger(logs: seq<Entry>, warnings: seq<Entry>, errors: seq<Entry>, dev: seq<DevError>)

  const EmptyLedger := Ledger([], [], [], [])

  /** `remember(level, entry)` under configured error level `threshold`
      (0 standing for both 0 and absent, which JavaScript treats alike as falsy). */
  function Remember(l: Ledger, threshold: int, level: Option<int>, e: Entry): Ledger {
    match Recognised(level)
    case Some(Log) =>
      if threshold == 0 || threshold > 1 then l.(logs := l.logs + [e]) else l
    case Some(Warning) =>
      if threshold == 0 || threshold > 0 then l.(warnings := l.warnings + [e]) else l
    case Some(Error) => l.(errors := l.errors + [e])
    case None => l.(dev := l.dev + [WrongLevel(e)])
  }

  function Size(l: Ledger): nat {
    |l.logs| + |l.warnings| + |l.errors|
  }

  /** `hasError`: some bucket is non-empty. */
  predicate HasError(l: Ledger) {
    l.logs != [] || l.warnings != [] || l.errors != []
  }

  /** `getErrors`: the buckets, log first and error last. */
  function GetErrors(l: Ledger): (r: seq<seq<Entry>>)
    ensures |r| == 3 && r[0] == l.logs && r[1] == l.warnings && r[2] == l.errors
  {
    [l.logs, l.warnings, l.errors]
  }

  lemma HasErrorIffNonEmpty(l: Ledger)
    ensures HasError(l) <==> Size(l) > 0
    ensures HasError(l) <==> exists b :: b in GetErrors(l) && b != []
  {
    var r := GetErrors(l);
    if l.logs != [] { assert r[0] in r; }
    if l.warnings != [] { assert r[1] in r; }
    if l.errors != [] { assert r[2] in r; }
  }

  /** Which level reaches which bucket: errors always, warnings unless the
      threshold is truthy and below 1, logs unless it is truthy and below 2;
      an unknown level reaches none and is reported as a tooling error.
      In every case at most one bucket grows, by exactly one entry. */
  lemma RememberLevels(l: Ledger, t: int, level: Option<int>, e: Entry)
    ensures var r := Remember(l, t, level, e);
      && (level == Some(Code(Error)) ==> r.errors == l.errors + [e] && r.logs == l.logs && r.warnings == l.warnings)
      && (level == Some(Code(Warning)) ==>
            r.warnings == (if t == 0 || t > 0 then l.warnings + [e] else l.warnings) &&
            r.logs == l.logs && r.errors == l.errors)
      && (level == Some(Code(Log)) ==>
            r.logs == (if t == 0 || t > 1 then l.logs + [e] else l.logs) &&
            r.warnings == l.warnings && r.errors == l.errors)
      && (Recognised(level) == None ==>
            r == l.(dev := l.dev + [WrongLevel(e)]))
      && (Size(r) == Size(l) || Size(r) == Size(l) + 1)
      && (level == Some(Code(Error)) ==> HasError(r))
  {
  }

  /** One step of a log*Message call: a `remember` with the level value it
      is handed, or a diagnostic. */
  datatype Action = Record(level: Option<int>, entry: Entry) | Note(err: DevError)

  function Apply(l: Ledger, t: int, a: Action): Ledger {
    match a
    case Record(level, e) => Remember(l, t, level, e)
    case Note(d) => l.(dev := l.dev + [d])
  }

  /** The ledger after performing `acts` in order. */
  function ApplyAll(l: Ledger, t: int, acts: seq<Action>): Ledger {
    if acts == [] then l else Apply(ApplyAll(l, t, acts[..|acts| - 1]), t, acts[|acts| - 1])
  }

  /** Performing two action lists one after the other performs their concatenation. */
  lemma {:induction false} ApplyAllConcat(l: Ledger, t: int, a: seq<Action>, b: seq<Action>)
    ensures ApplyAll(l, t, a + b) == ApplyAll(ApplyAll(l, t, a), t, b)
  {
    if b == [] {
      assert a + b == a;
    } else {
      assert (a + b)[..|a + b| - 1] == a + b[..|b| - 1];
      ApplyAllConcat(l, t, a, b[..|b| - 1]);
    }
  }

  /** One more action after `acts`. */
  lemma ApplyAllSnoc(l: Ledger, t: int, acts: seq<Action>, a: Action)
    ensures ApplyAll(l, t, acts + [a]) == Apply(ApplyAll(l, t, acts), t, a)
  {
    assert (acts + [a])[..|acts|] == acts;
  }

  /** A single action. */
  lemma ApplyAllOne(l: Ledger, t: int, a: Action)
    ensures ApplyAll(l, t, [a]) == Apply(l, t, a)
  {
    assert [a][..0] == [];
  }

  /** Two actions. */
  lemma ApplyAllShort(l: Ledger, t: int, a: Action, b: Action)
    ensures ApplyAll(l, t, [a, b]) == Apply(Apply(l, t, a), t, b)
  {
    ApplyAllOne(l, t, a);
    assert [a, b][..1] == [a];
  }

  /** `l` is an earlier state of `r`: every bucket of `l` is a prefix of the same bucket of `r`. */
  predicate Extends(r: Ledger, l: Ledger) {
    l.logs <= r.logs && l.warnings <= r.warnings && l.errors <= r.errors && l.dev <= r.dev
  }

  /** The number of `Record` actions, the most entries the actions can add. */
  function Records(acts: seq<Action>): nat {
    if acts == [] then 0 else Records(acts[..|acts| - 1]) + (if acts[|acts| - 1].Record? then 1 else 0)
  }

  /** Actions only append: nothing already recorded is lost or reordered,
      and the buckets grow by at most the number of `remember` calls. */
  lemma {:induction false} ApplyAllOnlyAppends(l: Ledger, t: int, acts: seq<Action>)
    ensures Extends(ApplyAll(l, t, acts), l)
    ensures Size(ApplyAll(l, t, acts)) <= Size(l) + Records(acts)
  {
    if acts != [] {
      ApplyAllOnlyAppends(l, t, acts[..|acts| - 1]);
    }
  }

  /** Actions with no `remember` among them leave the buckets as they were. */
  lemma {:induction false} NotesLeaveBuckets(l: Ledger, t: int, acts: seq<Action>)
    requires Records(acts) == 0
    ensures var r := ApplyAll(l, t, acts); r.logs == l.logs && r.warnings == l.warnings && r.errors == l.errors
  {
    if acts != [] {
      NotesLeaveBuckets(l, t, acts[..|acts| - 1]);
    }
  }

  /** At the most permissive threshold every recognised `remember` lands in a bucket. */
  lemma {:induction false} PermissiveRecordsAll(l: Ledger, acts: seq<Action>)
    requires forall i :: 0 <= i < |acts| ==> acts[i].Record? ==> Recognised(acts[i].level).Some?
    ensures Size(ApplyAll(l, 0, acts)) == Size(l) + Records(acts)
  {
    if acts != [] {
      PermissiveRecordsAll(l, acts[..|acts| - 1]);
    }
  }
}
