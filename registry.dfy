/** Plugin descriptors and the registry's selection, routing and ordering rules. */
module Registry {
  import opened Options
  import opened Wrappers
  import opened Severity
  import Seqs

  /** What the engine reads from a plugin instance. `check`/`fix` presence is
      recorded by `hasCheck`/`hasFix`; what they do is supplied separately. */
  datatype Plugin = Plugin(
    id: string,
    ownType: string,              // plugin.type, "" when absent
    parentType: string,           // plugin.parent.type, "" when there is no parent
    order: Option<int>,
    always: bool,
    notSafe: bool,
    hasCheck: bool,
    hasFix: bool,
    level: Option<int>,           // an ERROR_LEVEL number, None when absent
    errorLevel: Option<int>,
    msg: string,                  // "" when absent
    errorMsg: string)             // "" when absent

  /** The four checker lists of the engine. */
  datatype Category = RuleCat | RuleSetCat | StyleSheetCat | ExtraCat

  /** `p.parent && p.parent.type == t || p.type == t` */
  predicate HasType(p: Plugin, t: string) {
    p.parentType == t || p.ownType == t
  }

  /** The list `registerChecker` appends `p` to: 'rule' wins over 'ruleset',
      which wins over 'stylesheet'; anything else goes to the extra list. */
  function Route(p: Plugin): Category {
    if HasType(p, "rule") then RuleCat
    else if HasType(p, "ruleset") then RuleSetCat
    else if HasType(p, "stylesheet") then StyleSheetCat
    else ExtraCat
  }

  lemma RouteCases(p: Plugin)
    ensures Route(p) == RuleCat <==> HasType(p, "rule")
    ensures Route(p) == RuleSetCat <==> !HasType(p, "rule") && HasType(p, "ruleset")
    ensures Route(p) == StyleSheetCat <==> !HasType(p, "rule") && !HasType(p, "ruleset") && HasType(p, "stylesheet")
    ensures Route(p) == ExtraCat <==> !HasType(p, "rule") && !HasType(p, "ruleset") && !HasType(p, "stylesheet")
  {
  }

  /** Whether `registerPluginClass` keeps `p` under configuration `c`. */
  predicate Admitted(c: Config, p: Plugin) {
    p.always ||
    !( (c.includes.Ids? && !Listed(c.includes.ids, p.id))
    || (c.excludes.Ids? && Listed(c.excludes.ids, p.id))
    || (c.safe && p.notSafe))
  }

  lemma AdmissionPolicy(c: Config, p: Plugin)
    ensures p.always ==> Admitted(c, p)
    ensures !p.always && c.includes.Ids? && p.id !in c.includes.ids ==> !Admitted(c, p)
    ensures !p.always && c.excludes.Ids? && p.id in c.excludes.ids ==> !Admitted(c, p)
    ensures !p.always && c.safe && p.notSafe ==> !Admitted(c, p)
    ensures Admitted(c, p) ==>
      p.always || ((c.includes.Keyword? || p.id in c.includes.ids) &&
                   (c.excludes.Keyword? || p.id !in c.excludes.ids) && !(c.safe && p.notSafe))
  {
  }

  /** The admitted plugins of `ps` that route to `cat`, in discovery order. */
  function Selected(c: Config, ps: seq<Plugin>, cat: Category): seq<Plugin> {
    if ps == [] then []
    else
      var last := ps[|ps| - 1];
      Selected(c, ps[..|ps| - 1], cat) + (if Admitted(c, last) && Route(last) == cat then [last] else [])
  }

  /** A list holds exactly the admitted plugins routed to it, each as often
      as it was discovered. */
  lemma {:induction false} SelectedExactly(c: Config, ps: seq<Plugin>, cat: Category)
    ensures |Selected(c, ps, cat)| <= |ps|
    ensures forall q :: q in Selected(c, ps, cat) <==> q in ps && Admitted(c, q) && Route(q) == cat
    ensures forall q :: multiset(Selected(c, ps, cat))[q] == if Admitted(c, q) && Route(q) == cat then multiset(ps)[q] else 0
  {
    if ps != [] {
      var pre := ps[..|ps| - 1];
      SelectedExactly(c, pre, cat);
      assert ps == pre + [ps[|ps| - 1]];
    }
    forall q ensures multiset(Selected(c, ps, cat))[q] == if Admitted(c, q) && Route(q) == cat then multiset(ps)[q] else 0 {
      SelectedCount(c, ps, cat, q);
    }
  }

  lemma {:induction false} SelectedCount(c: Config, ps: seq<Plugin>, cat: Category, q: Plugin)
    ensures multiset(Selected(c, ps, cat))[q] == if Admitted(c, q) && Route(q) == cat then multiset(ps)[q] else 0
  {
    if ps != [] {
      var pre, last := ps[..|ps| - 1], ps[|ps| - 1];
      SelectedCount(c, pre, cat, q);
      assert ps == pre + [last];
      var tail := if Admitted(c, last) && Route(last) == cat then [last] else [];
      assert multiset(Selected(c, ps, cat)) == multiset(Selected(c, pre, cat)) + multiset(tail);
    }
  }

  /** Selection keeps discovery order: the plugins discovered in `a` come
      before those discovered in `b`. */
  lemma {:induction false} SelectedConcat(c: Config, a: seq<Plugin>, b: seq<Plugin>, cat: Category)
    ensures Selected(c, a + b, cat) == Selected(c, a, cat) + Selected(c, b, cat)
  {
    if b == [] {
      assert a + b == a;
    } else {
      var pre := b[..|b| - 1];
      assert (a + b)[..|a + b| - 1] == a + pre;
      SelectedConcat(c, a, pre, cat);
    }
  }

  /** Every admitted plugin lands in exactly one list and no rejected one in any. */
  lemma {:induction false} SelectedPartition(c: Config, ps: seq<Plugin>)
    ensures |Selected(c, ps, RuleCat)| + |Selected(c, ps, RuleSetCat)| +
            |Selected(c, ps, StyleSheetCat)| + |Selected(c, ps, ExtraCat)|
            == |AdmittedOf(c, ps)|
  {
    if ps != [] {
      SelectedPartition(c, ps[..|ps| - 1]);
    }
  }

  function AdmittedOf(c: Config, ps: seq<Plugin>): seq<Plugin> {
    if ps == [] then []
    else AdmittedOf(c, ps[..|ps| - 1]) + (if Admitted(c, ps[|ps| - 1]) then [ps[|ps| - 1]] else [])
  }

  // ----- ordering -----

  /** `plugin.order || 10000`: an absent order and an order of 0 both sort as 10000. */
  function OrderKey(p: Plugin): int {
    if p.order.Some? && p.order.value != 0 then p.order.value else 10000
  }

  predicate SortedByOrder(s: seq<Plugin>) {
    forall i, j :: 0 <= i < j < |s| ==> OrderKey(s[i]) <= OrderKey(s[j])
  }

  /** The plugins of `s` whose order key is `k`, in their order in `s`. */
  function WithKey(s: seq<Plugin>, k: int): seq<Plugin> {
    if s == [] then []
    else (if OrderKey(s[0]) == k then [s[0]] else []) + WithKey(s[1..], k)
  }

  /** Places `p` before the first element whose key is not smaller. */
  function Insert(p: Plugin, s: seq<Plugin>): seq<Plugin> {
    if s == [] || OrderKey(p) <= OrderKey(s[0]) then [p] + s
    else [s[0]] + Insert(p, s[1..])
  }

  /** The stable sort `Array.prototype.sort` performs with the comparator
      `(a.order || 10000) - (b.order || 10000)`. */
  function SortByOrder(s: seq<Plugin>): seq<Plugin> {
    if s == [] then [] else Insert(s[0], SortByOrder(s[1..]))
  }

  lemma {:induction false} InsertSorted(p: Plugin, s: seq<Plugin>)
    requires SortedByOrder(s)
    ensures SortedByOrder(Insert(p, s))
    ensures |Insert(p, s)| == |s| + 1
    ensures Insert(p, s) != [] && (Insert(p, s)[0] == p || Insert(p, s)[0] == s[0])
  {
    if s != [] && OrderKey(p) > OrderKey(s[0]) {
      InsertSorted(p, s[1..]);
    }
  }

  lemma {:induction false} InsertMultiset(p: Plugin, s: seq<Plugin>)
    ensures multiset(Insert(p, s)) == multiset([p] + s)
  {
    if s != [] && OrderKey(p) > OrderKey(s[0]) {
      InsertMultiset(p, s[1..]);
      assert [p] + s == [p] + [s[0]] + s[1..];
      assert s == [s[0]] + s[1..];
    }
  }

  lemma {:induction false} WithKeyConcat(a: seq<Plugin>, b: seq<Plugin>, k: int)
    ensures WithKey(a + b, k) == WithKey(a, k) + WithKey(b, k)
  {
    if a == [] {
      assert a + b == b;
    } else {
      var h := if OrderKey(a[0]) == k then [a[0]] else [];
      assert (a + b)[0] == a[0] && (a + b)[1..] == a[1..] + b;
      WithKeyConcat(a[1..], b, k);
      Seqs.Assoc(h, WithKey(a[1..], k), WithKey(b, k));
    }
  }

  lemma {:induction false} InsertWithKey(p: Plugin, s: seq<Plugin>, k: int)
    ensures WithKey(Insert(p, s), k) == WithKey([p] + s, k)
  {
    if s != [] && OrderKey(p) > OrderKey(s[0]) {
      InsertWithKey(p, s[1..], k);
      calc {
        WithKey(Insert(p, s), k);
        { WithKeyConcat([s[0]], Insert(p, s[1..]), k); }
        WithKey([s[0]], k) + WithKey(Insert(p, s[1..]), k);
        WithKey([s[0]], k) + WithKey([p] + s[1..], k);
        { WithKeyConcat([p], s[1..], k); WithKeyConcat([s[0]], s[1..], k); }
        WithKey([p], k) + WithKey([s[0]], k) + WithKey(s[1..], k);
        { WithKeyConcat([s[0]], s[1..], k); assert [s[0]] + s[1..] == s; }
        WithKey([p], k) + WithKey(s, k);
        { WithKeyConcat([p], s, k); }
        WithKey([p] + s, k);
      }
    }
  }

  /** After sorting: ascending by key, a permutation, and stable — the
      plugins sharing a key keep their discovery order. */
  lemma {:induction false} SortByOrderCorrect(s: seq<Plugin>)
    ensures SortedByOrder(SortByOrder(s))
    ensures multiset(SortByOrder(s)) == multiset(s)
    ensures forall k :: WithKey(SortByOrder(s), k) == WithKey(s, k)
  {
    if s != [] {
      SortByOrderCorrect(s[1..]);
      InsertSorted(s[0], SortByOrder(s[1..]));
      InsertMultiset(s[0], SortByOrder(s[1..]));
      assert s == [s[0]] + s[1..];
      forall k ensures WithKey(SortByOrder(s), k) == WithKey(s, k) {
        InsertWithKey(s[0], SortByOrder(s[1..]), k);
        WithKeyConcat([s[0]], SortByOrder(s[1..]), k);
        WithKeyConcat([s[0]], s[1..], k);
      }
    }
  }

  /** Sorting an already sorted list changes nothing, so sorting twice is sorting once. */
  lemma {:induction false} SortByOrderIdempotent(s: seq<Plugin>)
    ensures SortByOrder(SortByOrder(s)) == SortByOrder(s)
  {
    SortByOrderCorrect(s);
    SortedFixed(SortByOrder(s));
  }

  lemma {:induction false} SortedFixed(s: seq<Plugin>)
    requires SortedByOrder(s)
    ensures SortByOrder(s) == s
  {
    if s != [] {
      assert SortedByOrder(s[1..]);
      SortedFixed(s[1..]);
      assert s == [s[0]] + s[1..];
    }
  }
}
