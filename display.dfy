/**
 * The two display policies of src/editor/editor.ts: the issue list of the
 * information popup (triggered rules sorted by descending severity and
 * bucketed into error, warning and info) and the one-line on-screen text
 * (the area, unless a severity-3 rule is triggered).
 *
 * The editor sees an entity through a `Summary`: its area, whether it has
 * unsaved changes, and its triggered rules as (severity, texts) snapshots.
 */
module Display {
  import opened Wrappers

  /** A triggered rule as the editor reads it: its reported severity and its two texts. */
  datatype ShownRule = ShownRule(severity: int, shortMessage: string, message: string)

  /** Map entities are identified by their id. */
  type EntityId = nat

  /** What the editor reads of an entity. */
  datatype Summary = Summary(area: real, hasChanges: bool, triggered: seq<ShownRule>)

  /**
   * The editor's window on the world: the current summary of each entity and
   * JavaScript's number-to-string conversion.
   */
  datatype Host = Host(look: EntityId -> Summary, show: real -> string)

  // ---------------------------------------------------------------------
  // Classification

  datatype IssueClass = Info | Warning | Error

  /** A line of the popup's issue list. */
  datatype Issue = Issue(cls: IssueClass, message: string)

  /** The CSS class a rule of the given severity is shown with. */
  function Classify(severity: int): (c: IssueClass)
    ensures c == Error <==> severity >= 3
    ensures c == Warning <==> 2 <= severity < 3
    ensures c == Info <==> severity < 2
  {
    if severity >= 3 then Error
    else if severity >= 2 then Warning
    else Info
  }

  function Rank(c: IssueClass): nat
  {
    match c
    case Info => 0
    case Warning => 1
    case Error => 2
  }

  /** A more severe rule is never shown in a milder class. */
  lemma ClassifyMonotone(a: int, b: int)
    requires a >= b
    ensures Rank(Classify(a)) >= Rank(Classify(b))
  {
  }

  // ---------------------------------------------------------------------
  // Sorting by descending severity

  ghost predicate NonIncreasing(s: seq<ShownRule>)
  {
    forall i, j :: 0 <= i < j < |s| ==> s[i].severity >= s[j].severity
  }

  /**
   * Inserts `x` in front of the first element that is not more severe, so
   * that `x` stays ahead of the elements of equal severity.
   */
  function Insert(x: ShownRule, s: seq<ShownRule>): (r: seq<ShownRule>)
    requires NonIncreasing(s)
    ensures NonIncreasing(r)
    ensures multiset(r) == multiset(s) + multiset{x}
    ensures |r| == |s| + 1
    ensures r[0] == x || (|s| > 0 && r[0] == s[0])
  {
    if s == [] || s[0].severity <= x.severity then
      [x] + s
    else
      var rest := Insert(x, s[1..]);
      assert s == [s[0]] + s[1..];
      assert forall k :: 0 <= k < |rest| ==> rest[0].severity >= rest[k].severity;
      [s[0]] + rest
  }

  /**
   * The order `sort((a, b) => b.severity - a.severity)` produces: JavaScript's
   * sort is stable, so rules of equal severity keep their order.
   */
  function SortBySeverity(rules: seq<ShownRule>): (sorted: seq<ShownRule>)
    ensures NonIncreasing(sorted)
    ensures multiset(sorted) == multiset(rules)
    ensures |sorted| == |rules|
  {
    if rules == [] then []
    else
      assert rules == [rules[0]] + rules[1..];
      Insert(rules[0], SortBySeverity(rules[1..]))
  }

  /** The rules of exactly severity `k`, in order. */
  function OfSeverity(s: seq<ShownRule>, k: int): seq<ShownRule>
  {
    if s == [] then []
    else (if s[0].severity == k then [s[0]] else []) + OfSeverity(s[1..], k)
  }

  lemma {:induction false} InsertKeepsEqualOrder(x: ShownRule, s: seq<ShownRule>, k: int)
    requires NonIncreasing(s)
    ensures OfSeverity(Insert(x, s), k) == OfSeverity([x] + s, k)
  {
    assert ([x] + s)[1..] == s;
    if s == [] || s[0].severity <= x.severity {
    } else {
      var rest := Insert(x, s[1..]);
      InsertKeepsEqualOrder(x, s[1..], k);
      assert ([s[0]] + rest)[1..] == rest;
      assert ([x] + s[1..])[1..] == s[1..];
    }
  }

  /** Sorting is stable: the rules of each severity appear in their original order. */
  lemma {:induction false} SortIsStable(rules: seq<ShownRule>, k: int)
    ensures OfSeverity(SortBySeverity(rules), k) == OfSeverity(rules, k)
  {
    if rules != [] {
      var tail := SortBySeverity(rules[1..]);
      SortIsStable(rules[1..], k);
      InsertKeepsEqualOrder(rules[0], tail, k);
      assert ([rules[0]] + tail)[1..] == tail;
    }
  }

  // ---------------------------------------------------------------------
  // The popup's issue list

  /** The popup's issue list for these triggered rules. */
  function IssuesOf(triggered: seq<ShownRule>): seq<Issue>
  {
    var sorted := SortBySeverity(triggered);
    seq(|sorted|, i requires 0 <= i < |sorted| => Issue(Classify(sorted[i].severity), sorted[i].message))
  }

  /** Errors come first, then warnings, then infos; one line per triggered rule. */
  lemma IssuesOrdered(triggered: seq<ShownRule>)
    ensures |IssuesOf(triggered)| == |triggered|
    ensures forall i, j :: 0 <= i < j < |triggered| ==>
      Rank(IssuesOf(triggered)[i].cls) >= Rank(IssuesOf(triggered)[j].cls)
  {
    var sorted := SortBySeverity(triggered);
    forall i, j | 0 <= i < j < |triggered|
      ensures Rank(IssuesOf(triggered)[i].cls) >= Rank(IssuesOf(triggered)[j].cls)
    {
      ClassifyMonotone(sorted[i].severity, sorted[j].severity);
    }
  }

  /** The loop of `setPopup('info', ...)` that appends one classed line per sorted rule. */
  method IssueList(triggered: seq<ShownRule>) returns (issues: seq<Issue>)
    ensures issues == IssuesOf(triggered)
  {
    var sorted := SortBySeverity(triggered);
    issues := [];
    for i := 0 to |sorted|
      invariant issues == IssuesOf(triggered)[..i]
    {
      var rule := sorted[i];
      if rule.severity >= 3 {
        issues := issues + [Issue(Error, rule.message)];
      } else if rule.severity >= 2 {
        issues := issues + [Issue(Warning, rule.message)];
      } else {
        issues := issues + [Issue(Info, rule.message)];
      }
    }
  }

  // ---------------------------------------------------------------------
  // The on-screen line

  /** `rule` is `rules[i]`, has severity 3 or more, and no later rule has. */
  ghost predicate IsLastSevereAt(rules: seq<ShownRule>, i: int, rule: ShownRule)
  {
    0 <= i < |rules| && rules[i] == rule && rule.severity >= 3
    && forall j :: i < j < |rules| ==> rules[j].severity < 3
  }

  /** The last rule of severity 3 or more, in iteration order. */
  function LastSevere(rules: seq<ShownRule>): (r: Option<ShownRule>)
    ensures r.None? <==> forall i :: 0 <= i < |rules| ==> rules[i].severity < 3
    ensures r.Some? ==> r.value.severity >= 3 && exists i :: IsLastSevereAt(rules, i, r.value)
  {
    if rules == [] then None
    else if rules[|rules| - 1].severity >= 3 then
      assert IsLastSevereAt(rules, |rules| - 1, rules[|rules| - 1]);
      Some(rules[|rules| - 1])
    else
      var prefix := rules[..|rules| - 1];
      var r := LastSevere(prefix);
      assert forall i :: 0 <= i < |prefix| ==> prefix[i] == rules[i];
      assert r.Some? ==> exists i :: IsLastSevereAt(rules, i, r.value) by {
        if r.Some? {
          var i :| IsLastSevereAt(prefix, i, r.value);
          assert IsLastSevereAt(rules, i, r.value);
        }
      }
      r
  }

  /** The text the on-screen line shows for an entity with this summary. */
  function OnScreenLine(s: Summary, show: real -> string): string
  {
    match LastSevere(s.triggered)
    case Some(rule) => rule.shortMessage
    case None => show(s.area) + "m²"
  }

  /** The text `UpdateOnScreenDisplay` leaves for `entity` (null shows nothing). */
  function OnScreenText(entity: Option<EntityId>, host: Host): string
  {
    match entity
    case None => ""
    case Some(id) => OnScreenLine(host.look(id), host.show)
  }

  /** Without a severity-3 rule the line is the area; with one it is that rule's short message. */
  lemma OnScreenLineCases(s: Summary, show: real -> string)
    ensures (forall i :: 0 <= i < |s.triggered| ==> s.triggered[i].severity < 3) ==>
      OnScreenLine(s, show) == show(s.area) + "m²"
    ensures (exists i :: 0 <= i < |s.triggered| && s.triggered[i].severity >= 3) ==>
      exists i, rule :: IsLastSevereAt(s.triggered, i, rule) && OnScreenLine(s, show) == rule.shortMessage
  {
    var last := LastSevere(s.triggered);
    if last.Some? {
      var i :| IsLastSevereAt(s.triggered, i, last.value);
      assert IsLastSevereAt(s.triggered, i, last.value) && OnScreenLine(s, show) == last.value.shortMessage;
    }
  }
}
