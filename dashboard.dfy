/**
 * The dashboard's list of scripts: the relative age shown on each card, the
 * newest-first order the subscription imposes on the fetched documents, and
 * the tab, search, level and bimester filter over that list.
 *
 * Timestamps are integer milliseconds since the epoch; the current time is a
 * parameter.
 */
module Dashboard {
  import opened Wrappers
  import opened Text
  import opened CanvasTypes

  // ---------------------------------------------------------------------------
  // Relative time

  /** What a card shows for its last modification. */
  datatype RelativeTime =
    | Pending                // no timestamp yet: "..."
    | JustNow                // under a minute: "Agora"
    | Minutes(n: nat)        // "<n> min"
    | Hours(n: nat)          // "<n> h"
    | Days(n: nat)           // "<n> d"
    | CalendarDate(ms: int)  // a week or more: the date itself, in the pt-BR locale

  /** Whole seconds from `stamp` to `now`, rounded down as `Math.floor` does, also for a negative difference. */
  function ElapsedSeconds(stamp: int, now: int): (d: int)
    ensures d * 1000 <= now - stamp < d * 1000 + 1000
  {
    (now - stamp) / 1000
  }

  /** The relative age of `timestamp` at `now`; an absent or zero timestamp is falsy and shows as pending. */
  function FormatRelativeTime(timestamp: Option<int>, now: int): (r: RelativeTime)
    ensures r.Pending? <==> timestamp.None? || timestamp.value == 0
    ensures r.JustNow? ==> ElapsedSeconds(timestamp.value, now) < 60
    ensures r.Minutes? ==> 1 <= r.n <= 59 && r.n * 60 <= ElapsedSeconds(timestamp.value, now) < r.n * 60 + 60
    ensures r.Hours? ==> 1 <= r.n <= 23 && r.n * 3600 <= ElapsedSeconds(timestamp.value, now) < r.n * 3600 + 3600
    ensures r.Days? ==> 1 <= r.n <= 6 && r.n * 86400 <= ElapsedSeconds(timestamp.value, now) < r.n * 86400 + 86400
    ensures r.CalendarDate? ==> r.ms == timestamp.value && ElapsedSeconds(timestamp.value, now) >= 604800
  {
    if timestamp.None? || timestamp.value == 0 then Pending
    else
      var d := ElapsedSeconds(timestamp.value, now);
      if d < 60 then JustNow
      else if d < 3600 then Minutes(d / 60)
      else if d < 86400 then Hours(d / 3600)
      else if d < 604800 then Days(d / 86400)
      else CalendarDate(timestamp.value)
  }

  /** How coarse a label's unit is; a pending label has none. */
  function Coarseness(r: RelativeTime): nat
  {
    match r
    case Pending => 0
    case JustNow => 0
    case Minutes(_) => 1
    case Hours(_) => 2
    case Days(_) => 3
    case CalendarDate(_) => 4
  }

  /** `a` shows an age no greater than `b` does: a finer unit, or the same unit and no larger count. */
  predicate NoOlderThan(a: RelativeTime, b: RelativeTime)
  {
    Coarseness(a) < Coarseness(b) ||
    (Coarseness(a) == Coarseness(b) && (a.Minutes? || a.Hours? || a.Days? ==> a.n <= b.n))
  }

  /** An older timestamp never shows a younger age. */
  lemma OlderNeverLooksNewer(older: int, newer: int, now: int)
    requires older <= newer && older != 0 && newer != 0
    ensures NoOlderThan(FormatRelativeTime(Some(newer), now), FormatRelativeTime(Some(older), now))
  {
    var dNewer, dOlder := ElapsedSeconds(newer, now), ElapsedSeconds(older, now);
    assert dNewer <= dOlder;
  }

  /** The decimal digits of `n`, as a template literal prints a non-negative integer. */
  function Decimal(n: nat): (s: string)
    ensures |s| >= 1
    ensures forall i :: 0 <= i < |s| ==> '0' <= s[i] <= '9'
  {
    if n < 10 then [Digit(n)] else Decimal(n / 10) + [Digit(n % 10)]
  }

  function Digit(d: nat): char
    requires d < 10
  {
    ['0', '1', '2', '3', '4', '5', '6', '7', '8', '9'][d]
  }

  /** The number a string of decimal digits denotes. */
  function DecimalValue(s: string): nat
    requires forall i :: 0 <= i < |s| ==> '0' <= s[i] <= '9'
  {
    if s == [] then 0 else DecimalValue(s[..|s| - 1]) * 10 + (s[|s| - 1] as int - '0' as int)
  }

  lemma {:induction false} DecimalRoundTrip(n: nat)
    ensures DecimalValue(Decimal(n)) == n
  {
    if n >= 10 {
      var s := Decimal(n);
      assert s[..|s| - 1] == Decimal(n / 10);
      DecimalRoundTrip(n / 10);
    }
  }

  /** The text of a label; the locale date of an old timestamp is not part of this model. */
  function Label(r: RelativeTime): (text: Option<string>)
    ensures text.None? <==> r.CalendarDate?
  {
    match r
    case Pending => Some("...")
    case JustNow => Some("Agora")
    case Minutes(n) => Some(Decimal(n) + " min")
    case Hours(n) => Some(Decimal(n) + " h")
    case Days(n) => Some(Decimal(n) + " d")
    case CalendarDate(_) => None
  }

  lemma SameDigitsBeforeSuffix(n: nat, m: nat, suffix: string)
    requires Decimal(n) + suffix == Decimal(m) + suffix
    ensures n == m
  {
    var a, b := Decimal(n) + suffix, Decimal(m) + suffix;
    assert Decimal(n) == a[..|a| - |suffix|];
    assert Decimal(m) == b[..|b| - |suffix|];
    DecimalRoundTrip(n);
    DecimalRoundTrip(m);
  }

  /** Two different ages never print the same text. */
  lemma {:induction false} LabelsDistinct(a: RelativeTime, b: RelativeTime)
    requires !a.CalendarDate? && Label(a) == Label(b)
    ensures a == b
  {
    var t := Label(a).value;
    assert t == Label(b).value;
    match a
    case Minutes(n) =>
      assert t[|t| - 1] == 'n';
      if b.Minutes? { SameDigitsBeforeSuffix(n, b.n, " min"); }
    case Hours(n) =>
      assert t[|t| - 1] == 'h';
      if b.Hours? { SameDigitsBeforeSuffix(n, b.n, " h"); }
    case Days(n) =>
      assert t[|t| - 1] == 'd';
      if b.Days? { SameDigitsBeforeSuffix(n, b.n, " d"); }
    case Pending =>
      assert t[|t| - 1] == '.';
    case JustNow =>
      assert t[|t| - 1] == 'a';
  }

  // ---------------------------------------------------------------------------
  // Newest-first order

  /** The sort key: the last modification, with an absent one counted as the epoch. */
  function SortKey(s: ScriptItem): int
  {
    s.lastModified.GetOr(0)
  }

  predicate NewestFirst(xs: seq<ScriptItem>)
  {
    forall i, j :: 0 <= i < j < |xs| ==> SortKey(xs[i]) >= SortKey(xs[j])
  }

  /** The subscription's in-place sort of the fetched documents, newest first. */
  method SortNewestFirst(a: array<ScriptItem>)
    modifies a
    ensures NewestFirst(a[..])
    ensures multiset(a[..]) == multiset(old(a[..]))
  {
    var i := 0;
    while i < a.Length
      invariant 0 <= i <= a.Length
      invariant forall p, q :: 0 <= p < q < i ==> SortKey(a[p]) >= SortKey(a[q])
      invariant multiset(a[..]) == multiset(old(a[..]))
    {
      InsertNewestFirst(a, i);
      i := i + 1;
    }
  }

  /** One step of the sort: `a[i]` moves left past every older script before it. */
  method InsertNewestFirst(a: array<ScriptItem>, i: nat)
    requires i < a.Length
    requires forall p, q :: 0 <= p < q < i ==> SortKey(a[p]) >= SortKey(a[q])
    modifies a
    ensures forall p, q :: 0 <= p < q <= i ==> SortKey(a[p]) >= SortKey(a[q])
    ensures multiset(a[..]) == multiset(old(a[..]))
  {
    var j := i;
    while j > 0 && SortKey(a[j - 1]) < SortKey(a[j])
      invariant 0 <= j <= i
      invariant forall p, q :: 0 <= p < q <= i && q != j ==> SortKey(a[p]) >= SortKey(a[q])
      invariant forall q :: j < q <= i ==> SortKey(a[j]) >= SortKey(a[q])
      invariant multiset(a[..]) == multiset(old(a[..]))
    {
      SwapAdjacent(a, j - 1);
      j := j - 1;
    }
  }

  /** Exchanges `a[k]` and `a[k + 1]`. */
  method SwapAdjacent(a: array<ScriptItem>, k: nat)
    requires k + 1 < a.Length
    modifies a
    ensures a[..] == old(a[..])[k := old(a[k + 1])][k + 1 := old(a[k])]
    ensures multiset(a[..]) == multiset(old(a[..]))
  {
    a[k], a[k + 1] := a[k + 1], a[k];
  }

  /** The dashboard's list state as the subscription callbacks leave it. */
  class ScriptList {
    var scripts: seq<ScriptItem>
    var loading: bool
    var error: Option<string>

    constructor ()
      ensures scripts == [] && loading && error == None
    {
      scripts, loading, error := [], true, None;
    }

    /** A snapshot arrives: its documents, newest first, become the list. */
    method OnSnapshot(fetched: seq<ScriptItem>)
      modifies this
      ensures NewestFirst(scripts) && multiset(scripts) == multiset(fetched)
      ensures !loading && error == old(error)
    {
      var a := new ScriptItem[|fetched|](i requires 0 <= i < |fetched| => fetched[i]);
      assert a[..] == fetched;
      SortNewestFirst(a);
      scripts, loading := a[..], false;
    }

    /** The subscription fails: a message by cause, and the list stays as it was. */
    method OnError(permissionDenied: bool)
      modifies this
      ensures scripts == old(scripts) && !loading
      ensures error == Some(if permissionDenied then AccessDeniedMessage else LoadFailedMessage)
    {
      error := Some(if permissionDenied then AccessDeniedMessage else LoadFailedMessage);
      loading := false;
    }
  }

  const AccessDeniedMessage := "Acesso negado. Suas regras de segurança do Firestore podem estar bloqueando o acesso."
  const LoadFailedMessage := "Não foi possível carregar os roteiros. Verifique sua conexão."

  // ---------------------------------------------------------------------------
  // Filtering

  datatype Tab = ScriptsTab | TrashTab

  /** The dashboard's filter controls; an unselected level or bimester is `None`. */
  datatype ListFilter = ListFilter(tab: Tab, query: string, level: Option<EducationLevel>, bimester: Option<Bimester>)

  /** Whether a script belongs on a tab: the trash shows deleted scripts, the other tab the rest. */
  predicate OnTab(tab: Tab, s: ScriptItem)
    ensures tab == TrashTab ==> (OnTab(tab, s) <==> s.status == Deleted)
    ensures tab == ScriptsTab ==> (OnTab(tab, s) <==> s.status == Active)
  {
    (s.status == Deleted) == (tab == TrashTab)
  }

  /** The search: the lower-cased query inside the lower-cased title or subject. */
  predicate SearchHit(query: string, s: ScriptItem)
    ensures SearchHit(query, s) <==> Occurs(ToLower(s.title), ToLower(query)) || Occurs(ToLower(s.subject), ToLower(query))
    ensures query == "" ==> SearchHit(query, s)
  {
    var q := ToLower(query);
    Contains(ToLower(s.title), q) || Contains(ToLower(s.subject), q)
  }

  /** Whether `filteredScripts` keeps `s`. */
  function Matches(f: ListFilter, s: ScriptItem): (keep: bool)
    ensures keep ==> OnTab(f.tab, s)
    ensures keep ==> f.level.None? || s.level == f.level.value
    ensures keep ==> f.bimester.None? || s.bimester == f.bimester.value
    ensures keep ==> SearchHit(f.query, s)
    ensures f.query == "" ==>
      (keep <==> OnTab(f.tab, s) && (f.level.None? || s.level == f.level.value)
                 && (f.bimester.None? || s.bimester == f.bimester.value))
    ensures f.query == "" && f.level.None? && f.bimester.None? ==> (keep <==> OnTab(f.tab, s))
  {
    ContainsEmpty(ToLower(s.title));
    OnTab(f.tab, s) && SearchHit(f.query, s) &&
    (f.level.None? || s.level == f.level.value) &&
    (f.bimester.None? || s.bimester == f.bimester.value)
  }

  /** An unselected level or bimester filter keeps or drops a script whatever its level or bimester. */
  lemma UnselectedFiltersImposeNothing(f: ListFilter, s: ScriptItem, level: EducationLevel, bimester: Bimester)
    ensures f.level.None? ==> Matches(f, s) == Matches(f, s.(level := level))
    ensures f.bimester.None? ==> Matches(f, s) == Matches(f, s.(bimester := bimester))
  {
  }

  /** `r` is `s` with some elements dropped and the rest in their order. */
  ghost predicate SubsequenceOf(r: seq<ScriptItem>, s: seq<ScriptItem>)
    decreases |s|
  {
    r == [] ||
    (s != [] && ((r[0] == s[0] && SubsequenceOf(r[1..], s[1..])) || SubsequenceOf(r, s[1..])))
  }

  /** `filteredScripts`: the scripts the filter keeps, in list order. */
  function FilterScripts(f: ListFilter, s: seq<ScriptItem>): (r: seq<ScriptItem>)
    ensures SubsequenceOf(r, s)
    ensures forall x :: multiset(r)[x] == if Matches(f, x) then multiset(s)[x] else 0
  {
    if s == [] then []
    else
      var rest := FilterScripts(f, s[1..]);
      assert s == [s[0]] + s[1..];
      if Matches(f, s[0]) then [s[0]] + rest else rest
  }

  /** With no search and no level or bimester, the two tabs split the list between them. */
  lemma {:induction false} TabsPartition(query: string, s: seq<ScriptItem>)
    requires query == ""
    ensures multiset(FilterScripts(ListFilter(ScriptsTab, query, None, None), s)) +
            multiset(FilterScripts(ListFilter(TrashTab, query, None, None), s)) == multiset(s)
  {
    var active := FilterScripts(ListFilter(ScriptsTab, query, None, None), s);
    var trash := FilterScripts(ListFilter(TrashTab, query, None, None), s);
    forall x
      ensures (multiset(active) + multiset(trash))[x] == multiset(s)[x]
    {
      var _ := Matches(ListFilter(ScriptsTab, query, None, None), x);
      var _ := Matches(ListFilter(TrashTab, query, None, None), x);
    }
  }

  /** The search ignores the case of the query. */
  lemma {:induction false} SearchIgnoresQueryCase(f: ListFilter, s: seq<ScriptItem>)
    ensures FilterScripts(f.(query := ToLower(f.query)), s) == FilterScripts(f, s)
  {
    ToLowerIdempotent(f.query);
    if s != [] {
      SearchIgnoresQueryCase(f, s[1..]);
    }
  }

  /** A script whose title or subject differs from another's only in case is found by the same queries. */
  lemma SearchIgnoresTextCase(query: string, s: ScriptItem, t: ScriptItem)
    requires ToLower(s.title) == ToLower(t.title) && ToLower(s.subject) == ToLower(t.subject)
    ensures SearchHit(query, s) == SearchHit(query, t)
  {
  }
}
