/**
 * The newer complaint history page: a search, a status filter and a sort over a constant list of
 * four complaints whose statuses are the lowercase values, and the label each status shows.
 */
module ComplaintHistoryNew {
  import opened Text
  import opened Seqs
  import opened Wrappers
  import opened Complaints

  /** A record of the page's constant list. `date` is a day number, as elsewhere in the model. */
  datatype MockComplaint = MockComplaint(
    id: string, subject: string, department: string, status: string, priority: string, date: int, progress: int)

  const MockComplaints: seq<MockComplaint> := [
    MockComplaint("2025-12346", "Water leakage in main pipeline", "Water Supply", "in_progress", "high", 20116, 65),
    MockComplaint("2025-12345", "Pothole on main road near market", "Roads & Traffic", "resolved", "medium", 20113, 100),
    MockComplaint("2025-12344", "Street light not working for 2 months", "Municipal Services", "resolved", "low", 20108, 100),
    MockComplaint("2025-12343", "Noise pollution from construction site", "Environment", "escalated", "high", 20103, 45)
  ]

  /** The search rule applied to a record's id and subject. */
  predicate MatchesSearch(m: MockComplaint, term: string) {
    SearchMatch(m.id, m.subject, term)
  }

  /** `statusFilter === "all" || status === statusFilter`: the filter compares the raw status. */
  predicate MatchesStatus(m: MockComplaint, statusFilter: string) {
    statusFilter == "all" || m.status == statusFilter
  }

  /** `filtered`: the records of `list` passing both tests, in list order. */
  function Filtered(list: seq<MockComplaint>, term: string, statusFilter: string): (r: seq<MockComplaint>)
    ensures forall m :: m in r <==> m in list && MatchesSearch(m, term) && MatchesStatus(m, statusFilter)
    ensures IsSubsequence(r, list)
  {
    FilterIsSubsequence(list, (m: MockComplaint) => MatchesSearch(m, term) && MatchesStatus(m, statusFilter));
    Filter(list, (m: MockComplaint) => MatchesSearch(m, term) && MatchesStatus(m, statusFilter))
  }

  /** The comparator `sortBy` selects, as a sort key. The priority lookup gives 99 for an unknown
   *  priority; the date comparator is newest first. */
  function SortKey(sortBy: string): MockComplaint -> int {
    if sortBy == "date" then (m: MockComplaint) => -m.date
    else if sortBy == "priority" then (m: MockComplaint) => PriorityRank(Some(m.priority))
    else (m: MockComplaint) => 0
  }

  /**
   * `sorted`: a permutation of a subsequence of `list`, namely of the filtered records; newest
   * first by date, high before medium before low before unknown by priority, and the filtered
   * order itself for any other sort value.
   */
  function Projection(list: seq<MockComplaint>, term: string, statusFilter: string, sortBy: string): (r: seq<MockComplaint>)
    ensures multiset(r) == multiset(Filtered(list, term, statusFilter))
    ensures IsSubsequence(Filtered(list, term, statusFilter), list)
    ensures sortBy == "date" ==> forall i, j :: 0 <= i < j < |r| ==> r[i].date >= r[j].date
    ensures sortBy == "priority" ==>
      forall i, j :: 0 <= i < j < |r| ==> PriorityRank(Some(r[i].priority)) <= PriorityRank(Some(r[j].priority))
    ensures sortBy != "date" && sortBy != "priority" ==> r == Filtered(list, term, statusFilter)
  {
    var f := Filtered(list, term, statusFilter);
    var r := SortBy(f, SortKey(sortBy));
    SortedByOrdered(r, SortKey(sortBy));
    if sortBy != "date" && sortBy != "priority" then
      SortBySortedIsIdentity(f, SortKey(sortBy));
      r
    else
      r
  }

  /** What the page shows: always drawn from the constant list, which nothing changes. */
  function Shown(term: string, statusFilter: string, sortBy: string): seq<MockComplaint> {
    Projection(MockComplaints, term, statusFilter, sortBy)
  }

  /** The filter values of the old page's capitalised scheme select nothing here. */
  lemma CapitalisedFilterShowsNothing(term: string, statusFilter: string, sortBy: string)
    requires statusFilter in ["In Progress", "Resolved", "Escalated"]
    ensures Shown(term, statusFilter, sortBy) == []
  {
    var p := (m: MockComplaint) => MatchesSearch(m, term) && MatchesStatus(m, statusFilter);
    assert forall m :: m in MockComplaints ==> m.status in ["in_progress", "resolved", "escalated"];
    FilterNone(MockComplaints, p);
  }

  // ---------------------------------------------------------------- status labels

  /** `word.charAt(0).toUpperCase() + word.slice(1)` */
  function Capitalize(word: string): string {
    if word == "" then "" else [UpperChar(word[0])] + word[1..]
  }

  function CapitalizeAll(words: seq<string>): (r: seq<string>)
    ensures |r| == |words|
  {
    seq(|words|, i requires 0 <= i < |words| => Capitalize(words[i]))
  }

  /** Capitalising a list capitalises its first word and then the rest. */
  lemma CapitalizeAllCons(w: string, ws: seq<string>)
    ensures CapitalizeAll([w] + ws) == [Capitalize(w)] + CapitalizeAll(ws)
  {
    var r := CapitalizeAll([w] + ws);
    assert forall i :: 0 <= i < |ws| ==> r[i + 1] == Capitalize(ws[i]);
  }

  /** `getStatusLabel`: split on "_", capitalise each piece, join with single spaces. */
  function GetStatusLabel(status: string): string {
    Join(CapitalizeAll(Split(status, '_')), " ")
  }

  /**
   * The label described one character at a time: every "_" becomes a space, and a character that
   * starts a word (the first one, or one right after "_") is upper-cased; every other character
   * is kept.
   */
  function Relabel(s: string, atWordStart: bool): (r: string)
    ensures |r| == |s|
    ensures forall i :: 0 <= i < |s| ==> (s[i] == '_' <==> r[i] == ' ') || s[i] == ' '
  {
    if s == "" then ""
    else if s[0] == '_' then " " + Relabel(s[1..], true)
    else [if atWordStart then UpperChar(s[0]) else s[0]] + Relabel(s[1..], false)
  }

  /** Joining after prepending to the first piece prepends to the result. */
  lemma JoinPrepend(a: string, b: string, rest: seq<string>, sep: string)
    ensures Join([a + b] + rest, sep) == a + Join([b] + rest, sep)
  {
    if rest != [] {
      assert ([a + b] + rest)[1..] == rest && ([b] + rest)[1..] == rest;
    }
  }

  /** `getStatusLabel` is the character-by-character relabelling; starting inside a word, the
   *  first piece is left as it is. */
  lemma {:induction false} GetStatusLabelIsRelabel(s: string)
    ensures GetStatusLabel(s) == Relabel(s, true)
    ensures var pieces := Split(s, '_'); Join([pieces[0]] + CapitalizeAll(pieces[1..]), " ") == Relabel(s, false)
  {
    if s != "" {
      GetStatusLabelIsRelabel(s[1..]);
      if s[0] == '_' {
        RelabelAtSeparator(s);
      } else {
        RelabelInWord(s);
      }
    }
  }

  /** The step for a status that starts with "_": an empty first piece, then a space. */
  lemma RelabelAtSeparator(s: string)
    requires s != "" && s[0] == '_'
    requires GetStatusLabel(s[1..]) == Relabel(s[1..], true)
    ensures GetStatusLabel(s) == Relabel(s, true)
    ensures var pieces := Split(s, '_'); Join([pieces[0]] + CapitalizeAll(pieces[1..]), " ") == Relabel(s, false)
  {
    var pieces := Split(s, '_');
    var rest := Split(s[1..], '_');
    var caps := CapitalizeAll(rest);
    assert pieces == [""] + rest;
    assert pieces[0] == "" && pieces[1..] == rest;
    CapitalizeAllCons("", rest);
    assert Join([""] + caps, " ") == " " + Join(caps, " ") by {
      assert ([""] + caps)[1..] == caps;
    }
    assert Relabel(s, true) == " " + Relabel(s[1..], true);
    assert Relabel(s, false) == " " + Relabel(s[1..], true);
  }

  /** The step for a status that starts with a letter: it joins the first piece. */
  lemma RelabelInWord(s: string)
    requires s != "" && s[0] != '_'
    requires var pieces := Split(s[1..], '_');
      Join([pieces[0]] + CapitalizeAll(pieces[1..]), " ") == Relabel(s[1..], false)
    ensures GetStatusLabel(s) == Relabel(s, true)
    ensures var pieces := Split(s, '_'); Join([pieces[0]] + CapitalizeAll(pieces[1..]), " ") == Relabel(s, false)
  {
    var pieces := Split(s, '_');
    var rest := Split(s[1..], '_');
    var c := s[0];
    assert pieces == [[c] + rest[0]] + rest[1..];
    assert pieces[1..] == rest[1..];
    CapitalizeAllCons([c] + rest[0], rest[1..]);
    assert Capitalize([c] + rest[0]) == [UpperChar(c)] + rest[0] by {
      assert ([c] + rest[0])[1..] == rest[0];
    }
    JoinPrepend([UpperChar(c)], rest[0], CapitalizeAll(rest[1..]), " ");
    JoinPrepend([c], rest[0], CapitalizeAll(rest[1..]), " ");
    assert Relabel(s, true) == [UpperChar(c)] + Relabel(s[1..], false);
    assert Relabel(s, false) == [c] + Relabel(s[1..], false);
  }

  /** The label is as long as the status, and shows a space exactly where the status has "_"
   *  (for a status without spaces). */
  lemma LabelShape(s: string)
    ensures |GetStatusLabel(s)| == |s|
    ensures forall i :: 0 <= i < |s| && s[i] != ' ' ==> (s[i] == '_' <==> GetStatusLabel(s)[i] == ' ')
  {
    GetStatusLabelIsRelabel(s);
  }

  /** Splitting at the first separator gives the part before it, then the pieces after it. */
  lemma {:induction false} SplitAtFirst(a: string, b: string, sep: char)
    requires sep !in a
    ensures Split(a + [sep] + b, sep) == [a] + Split(b, sep)
  {
    if a != "" {
      SplitAtFirst(a[1..], b, sep);
      assert (a + [sep] + b)[1..] == a[1..] + [sep] + b;
      assert a == [a[0]] + a[1..];
    }
  }

  /** A string without the separator is a single piece. */
  lemma {:induction false} SplitNone(s: string, sep: char)
    requires sep !in s
    ensures Split(s, sep) == [s]
  {
    if s != "" {
      assert s == [s[0]] + s[1..];
      assert s[0] != sep && sep !in s[1..];
      SplitNone(s[1..], sep);
    }
  }

  /** A two-word status `a_b` is shown as the two capitalised words with one space between them,
   *  as "in_progress" becomes "In Progress". */
  lemma TwoWordLabel(a: string, b: string)
    requires '_' !in a && '_' !in b
    ensures GetStatusLabel(a + "_" + b) == Capitalize(a) + " " + Capitalize(b)
  {
    SplitAtFirst(a, b, '_');
    SplitNone(b, '_');
    assert Split(a + "_" + b, '_') == [a, b];
    assert CapitalizeAll([a, b]) == [Capitalize(a), Capitalize(b)];
    var parts := [Capitalize(a), Capitalize(b)];
    assert parts[1..] == [Capitalize(b)];
    assert Join(parts, " ") == parts[0] + " " + Join(parts[1..], " ");
  }

  /** A one-word status is shown capitalised, as "resolved" becomes "Resolved". */
  lemma OneWordLabel(a: string)
    requires '_' !in a
    ensures GetStatusLabel(a) == Capitalize(a)
  {
    SplitNone(a, '_');
    assert CapitalizeAll([a]) == [Capitalize(a)];
  }
}
