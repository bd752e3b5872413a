/**
 * The dashboard's non-web logic: reading the counts back out of a day
 * summary text, the task table with its per-area and per-status counters,
 * and the choice of which day's summary to show.
 */
module Dashboard {
  import opened Wrappers
  import opened Text
  import opened OrderedDict
  import opened Memory
  import AgenticCeo

  // ---------------------------------------------------------------------
  // Searching the snapshot text
  // ---------------------------------------------------------------------

  /**
   * The pattern `marker\s*(\d+)` tried at the start of `s`: the marker, any
   * whitespace, then at least one digit; the number is the whole digit run.
   */
  function CountAt(s: string, marker: string): (r: Option<nat>)
    ensures r.Some? ==> StartsWith(s, marker)
  {
    if StartsWith(s, marker) then
      var digits := DigitRun(TrimLeft(s[|marker|..], IsSpace));
      if |digits| > 0 then Some(DigitsToNat(digits)) else None
    else None
  }

  /** The count pattern for `marker`, as a matcher tried at the start of a string. */
  function CountPattern(marker: string): string -> Option<nat> {
    t => CountAt(t, marker)
  }

  /** The number the first match of `marker\s*(\d+)` captures. */
  function Search(s: string, marker: string): Option<nat> {
    SearchWith(s, CountPattern(marker))
  }

  /** The count search finds nothing exactly when the pattern matches nowhere, and otherwise reads a match. */
  lemma SearchMeaning(s: string, marker: string)
    ensures Search(s, marker).None? <==>
            forall i {:trigger CountAt(s[i..], marker)} :: 0 <= i <= |s| ==> CountAt(s[i..], marker).None?
    ensures Search(s, marker).Some? ==> exists i :: 0 <= i <= |s| && CountAt(s[i..], marker) == Search(s, marker)
  {
    var at := CountPattern(marker);
    assert forall t :: at(t) == CountAt(t, marker);
    SearchWithMeaning(s, at);
  }

  /**
   * `re.search` with a pattern given as the matcher `at`, which says what
   * the pattern captures when tried at the start of a string: the capture
   * at the first position where it matches.
   */
  function SearchWith<T>(s: string, at: string -> Option<T>): Option<T> {
    match FirstMatch(s, at, 0)
    case Some(i) => at(s[i..])
    case None => None
  }

  /** The search finds nothing exactly when no position matches, and otherwise reads a match. */
  lemma SearchWithMeaning<T>(s: string, at: string -> Option<T>)
    ensures SearchWith(s, at).None? <==> forall i {:trigger at(s[i..])} :: 0 <= i <= |s| ==> at(s[i..]).None?
    ensures SearchWith(s, at).Some? ==> exists i :: 0 <= i <= |s| && at(s[i..]) == SearchWith(s, at)
  {
    FirstMatchNone(s, at);
  }

  /** The first position from `i` on where the matcher matches. */
  function FirstMatch<T>(s: string, at: string -> Option<T>, i: nat): (r: Option<nat>)
    requires i <= |s|
    ensures r.Some? ==> i <= r.value <= |s| && at(s[r.value..]).Some?
    decreases |s| - i
  {
    if at(s[i..]).Some? then Some(i)
    else if i == |s| then None
    else FirstMatch(s, at, i + 1)
  }

  /** No position before the one reported matches... */
  lemma {:induction false} FirstMatchIsFirst<T>(s: string, at: string -> Option<T>, i: nat, j: nat)
    requires i <= j <= |s|
    requires FirstMatch(s, at, i).None? || j < FirstMatch(s, at, i).value
    ensures at(s[j..]).None?
    decreases |s| - i
  {
    if i < j {
      FirstMatchIsFirst(s, at, i + 1, j);
    }
  }

  /** ... so nothing is found exactly when no position matches. */
  lemma FirstMatchNone<T>(s: string, at: string -> Option<T>)
    ensures FirstMatch(s, at, 0).None? <==> forall i {:trigger at(s[i..])} :: 0 <= i <= |s| ==> at(s[i..]).None?
  {
    if FirstMatch(s, at, 0).None? {
      forall i | 0 <= i <= |s| ensures at(s[i..]).None? {
        FirstMatchIsFirst(s, at, 0, i);
      }
    }
  }

  /** Searching the text without its first character from `i - 1` on is searching the text from `i` on. */
  lemma {:induction false} FirstMatchShift<T>(s: string, at: string -> Option<T>, i: nat)
    requires 1 <= i <= |s|
    ensures FirstMatch(s, at, i) ==
            match FirstMatch(s[1..], at, i - 1)
            case Some(j) => Some(j + 1)
            case None => None
    decreases |s| - i
  {
    assert s[1..][i - 1..] == s[i..];
    if at(s[i..]).None? && i < |s| {
      FirstMatchShift(s, at, i + 1);
    }
  }

  /** Where the pattern does not match at the start, the search goes on one character later. */
  lemma SearchWithTail<T>(s: string, at: string -> Option<T>)
    requires |s| > 0 && at(s).None?
    ensures SearchWith(s, at) == SearchWith(s[1..], at)
  {
    assert s[0..] == s;
    FirstMatchShift(s, at, 1);
    match FirstMatch(s[1..], at, 0)
    case Some(j) => assert s[1..][j..] == s[j + 1..];
    case None =>
  }

  /** A match at the very start is the one the search reports. */
  lemma SearchWithHere<T>(s: string, at: string -> Option<T>)
    requires at(s).Some?
    ensures SearchWith(s, at) == at(s)
  {
    assert s[0..] == s;
  }

  /** The shape `dddd-dd-dd` of an ISO date. */
  predicate IsIsoDate(d: string) {
    |d| == 10 && IsDigit(d[0]) && IsDigit(d[1]) && IsDigit(d[2]) && IsDigit(d[3]) && d[4] == '-' &&
    IsDigit(d[5]) && IsDigit(d[6]) && d[7] == '-' && IsDigit(d[8]) && IsDigit(d[9])
  }

  /** The pattern `Reflection for\s+(\d{4}-\d{2}-\d{2})` tried at the start of `s`. */
  function DateAt(s: string): (r: Option<string>)
    ensures r.Some? ==> IsIsoDate(r.value)
  {
    if StartsWith(s, "Reflection for") then
      var after := s[14..];
      if |after| > 0 && IsSpace(after[0]) then
        var t := TrimLeft(after, IsSpace);
        if |t| >= 10 && IsIsoDate(t[..10]) then Some(t[..10]) else None
      else None
    else None
  }

  /** The date the first match of the date pattern captures. */
  function SearchDate(s: string): (r: Option<string>)
    ensures r.Some? ==> IsIsoDate(r.value)
  {
    SearchWithMeaning(s, DateAt);
    SearchWith(s, DateAt)
  }

  /** The date search finds nothing exactly when the pattern matches nowhere. */
  lemma SearchDateMeaning(s: string)
    ensures SearchDate(s).None? <==> forall i {:trigger DateAt(s[i..])} :: 0 <= i <= |s| ==> DateAt(s[i..]).None?
  {
    SearchWithMeaning(s, DateAt);
  }

  // ---------------------------------------------------------------------
  // The parsed metrics
  // ---------------------------------------------------------------------

  /** The metrics dict: the date apart, the counts in the dict's own key order. */
  datatype Metrics = Metrics(date: Option<string>, counts: Dict<string, int>)

  /** Each count's key and the marker its pattern looks for. */
  const CountLabels: seq<(string, string)> := [
    ("decisions_made", "Decisions made:"),
    ("tool_calls", "Tool calls executed:"),
    ("kpi_updates", "KPI updates recorded:"),
    ("events_processed", "Events processed:"),
    ("llm_calls", "LLM calls today:"),
    ("tokens_used", "Total tokens used today:"),
    ("open_tasks", "Open tasks (not done):")]

  /** A count of 0 for each key of `ls`, in the same order. */
  function ZeroCounts(ls: seq<(string, string)>): (d: Dict<string, int>)
    ensures |d| == |ls| && forall i :: 0 <= i < |ls| ==> d[i] == (ls[i].0, 0)
  {
    if |ls| == 0 then [] else [(ls[0].0, 0)] + ZeroCounts(ls[1..])
  }

  /** Every count starts at 0, in the order of the patterns. */
  const DefaultCounts: Dict<string, int> := ZeroCounts(CountLabels)

  /** The count search over one snapshot, as a function of the marker. */
  function Finder(snapshot: string): string -> Option<nat> {
    marker => Search(snapshot, marker)
  }

  /** One pattern tried: the count `find` reports for its marker replaces the old one. */
  function Step(d: Dict<string, int>, find: string -> Option<nat>, entry: (string, string)): Dict<string, int> {
    match find(entry.1)
    case Some(n) => Put(d, entry.0, n)
    case None => d
  }

  /** The counts after trying the patterns of `ls` in order. */
  function ApplyLabels(d: Dict<string, int>, find: string -> Option<nat>, ls: seq<(string, string)>): Dict<string, int> {
    if |ls| == 0 then d else Step(ApplyLabels(d, find, ls[..|ls| - 1]), find, ls[|ls| - 1])
  }

  /** The counts after one more pattern of `ls`. */
  lemma ApplyLabelsPrefix(d: Dict<string, int>, find: string -> Option<nat>, ls: seq<(string, string)>, k: nat)
    requires k < |ls|
    ensures ApplyLabels(d, find, ls[..k + 1]) == Step(ApplyLabels(d, find, ls[..k]), find, ls[k])
  {
    assert ls[..k + 1][..k] == ls[..k];
  }

  function Parsed(snapshot: string): Metrics {
    if |snapshot| == 0 then Metrics(None, DefaultCounts)
    else Metrics(SearchDate(snapshot), ApplyLabels(DefaultCounts, Finder(snapshot), CountLabels))
  }

  predicate DistinctLabelKeys(ls: seq<(string, string)>) {
    forall i, j :: 0 <= i < j < |ls| ==> ls[i].0 != ls[j].0
  }

  /** A key's count is that of its own pattern when it matched, and the starting value otherwise. */
  lemma {:induction false} ApplyLabelsGet(d: Dict<string, int>, find: string -> Option<nat>, ls: seq<(string, string)>, k: nat)
    requires DistinctLabelKeys(ls) && k < |ls|
    ensures Get(ApplyLabels(d, find, ls), ls[k].0) ==
            if find(ls[k].1).Some? then Some(find(ls[k].1).value as int) else Get(d, ls[k].0)
  {
    var last := ls[|ls| - 1];
    var init := ls[..|ls| - 1];
    var prev := ApplyLabels(d, find, init);
    var key := ls[k].0;
    assert ApplyLabels(d, find, ls) == Step(prev, find, last);
    assert Get(Step(prev, find, last), key) == if key == last.0 && find(last.1).Some? then Some(find(last.1).value as int) else Get(prev, key) by {
      if find(last.1).Some? {
        PutGet(prev, last.0, find(last.1).value, key);
      }
    }
    if k < |ls| - 1 {
      assert init[k] == ls[k] && key != last.0;
      assert DistinctLabelKeys(init) by {
        forall i, j | 0 <= i < j < |init| ensures init[i].0 != init[j].0 {
          assert init[i] == ls[i] && init[j] == ls[j];
        }
      }
      ApplyLabelsGet(d, find, init, k);
    } else {
      ApplyLabelsOther(d, find, init, key);
    }
  }

  /** A key no pattern of `ls` names keeps its starting count. */
  lemma {:induction false} ApplyLabelsOther(d: Dict<string, int>, find: string -> Option<nat>, ls: seq<(string, string)>, key: string)
    requires forall i :: 0 <= i < |ls| ==> ls[i].0 != key
    ensures Get(ApplyLabels(d, find, ls), key) == Get(d, key)
  {
    if |ls| > 0 {
      var last := ls[|ls| - 1];
      var init := ls[..|ls| - 1];
      assert forall i :: 0 <= i < |init| ==> init[i] == ls[i];
      ApplyLabelsOther(d, find, init, key);
      if find(last.1).Some? {
        PutGet(ApplyLabels(d, find, init), last.0, find(last.1).value, key);
      }
    }
  }

  /** The keys and their order never change: every marker's key is already there. */
  lemma {:induction false} ApplyLabelsKeys(d: Dict<string, int>, find: string -> Option<nat>, ls: seq<(string, string)>)
    requires forall i :: 0 <= i < |ls| ==> ls[i].0 in Keys(d)
    ensures Keys(ApplyLabels(d, find, ls)) == Keys(d)
  {
    if |ls| > 0 {
      var init := ls[..|ls| - 1];
      assert forall i :: 0 <= i < |init| ==> init[i] == ls[i];
      ApplyLabelsKeys(d, find, init);
      var last := ls[|ls| - 1];
      if find(last.1).Some? {
        PutKeys(ApplyLabels(d, find, init), last.0, find(last.1).value);
      }
    }
  }

  /** Each count is the number its pattern finds first in the snapshot, or 0 when it finds none. */
  lemma ParsedCount(snapshot: string, k: nat)
    requires k < |CountLabels|
    ensures Keys(Parsed(snapshot).counts) == Keys(DefaultCounts)
    ensures Get(Parsed(snapshot).counts, CountLabels[k].0) == Some(Search(snapshot, CountLabels[k].1).GetOr(0) as int)
  {
    LabelsDistinct();
    if |snapshot| == 0 {
      SearchEmpty(CountLabels[k].1);
      ZeroGet(CountLabels, k);
    } else {
      var find := Finder(snapshot);
      assert find(CountLabels[k].1) == Search(snapshot, CountLabels[k].1);
      CountOf(find, CountLabels, k);
    }
  }

  /** The count keys are distinct and every marker is non-empty. */
  lemma LabelsDistinct()
    ensures DistinctLabelKeys(CountLabels)
    ensures forall k :: 0 <= k < |CountLabels| ==> CountLabels[k].1 != []
  {
  }

  /** Every key of `ZeroCounts(ls)` starts at 0. */
  lemma ZeroGet(ls: seq<(string, string)>, k: nat)
    requires DistinctLabelKeys(ls) && k < |ls|
    ensures DistinctKeys(ZeroCounts(ls))
    ensures Get(ZeroCounts(ls), ls[k].0) == Some(0)
  {
    var d := ZeroCounts(ls);
    assert d[k] == (ls[k].0, 0);
    assert DistinctKeys(d) by {
      forall i, j | 0 <= i < j < |d| ensures d[i].0 != d[j].0 {
        assert d[i].0 == ls[i].0 && d[j].0 == ls[j].0;
      }
    }
    GetDistinct(d, k);
  }

  /** Trying the patterns of `ls` from zero counts: each key holds what its pattern finds, or 0. */
  lemma CountOf(find: string -> Option<nat>, ls: seq<(string, string)>, k: nat)
    requires DistinctLabelKeys(ls) && k < |ls|
    ensures Keys(ApplyLabels(ZeroCounts(ls), find, ls)) == Keys(ZeroCounts(ls))
    ensures Get(ApplyLabels(ZeroCounts(ls), find, ls), ls[k].0) == Some(find(ls[k].1).GetOr(0) as int)
  {
    var d := ZeroCounts(ls);
    ZeroGet(ls, k);
    forall i | 0 <= i < |ls| ensures ls[i].0 in Keys(d) {
      assert Keys(d)[i] == ls[i].0;
    }
    ApplyLabelsGet(d, find, ls, k);
    ApplyLabelsKeys(d, find, ls);
  }

  lemma SearchEmpty(marker: string)
    requires marker != []
    ensures Search("", marker) == None
  {
    var e: string := "";
    assert e[0..] == e;
    assert CountAt(e, marker).None?;
  }

  /** An empty snapshot gives no date and every count 0. */
  lemma EmptySnapshot()
    ensures Parsed("") == Metrics(None, DefaultCounts)
  {
  }

  /**
   * `parse_snapshot`: the date pattern, then each count pattern in turn; a
   * pattern that finds nothing leaves the count at its default.
   */
  method ParseSnapshot(snapshot: string) returns (m: Metrics)
    ensures m == Parsed(snapshot)
  {
    m := Metrics(None, DefaultCounts);
    if |snapshot| == 0 {
      return;
    }
    var date := SearchDate(snapshot);
    if date.Some? {
      m := m.(date := date);
    }
    var counts := TryPatterns(snapshot, DefaultCounts, CountLabels);
    m := m.(counts := counts);
  }

  /** The loop of `parse_snapshot` over the count patterns `ls`, starting from the counts `d`. */
  method TryPatterns(snapshot: string, d: Dict<string, int>, ls: seq<(string, string)>) returns (counts: Dict<string, int>)
    ensures counts == ApplyLabels(d, Finder(snapshot), ls)
  {
    counts := d;
    ghost var find := Finder(snapshot);
    var k := 0;
    while k < |ls|
      invariant 0 <= k <= |ls|
      invariant counts == ApplyLabels(d, find, ls[..k])
    {
      ApplyLabelsPrefix(d, find, ls, k);
      ghost var before := counts;
      var (key, marker) := ls[k];
      var found := Search(snapshot, marker);
      assert found == find(marker);
      if found.Some? {
        counts := Put(counts, key, found.value);
      }
      assert counts == Step(before, find, ls[k]);
      k := k + 1;
    }
    assert ls[..k] == ls;
  }

  // ---------------------------------------------------------------------
  // Reading a day summary back
  // ---------------------------------------------------------------------

  lemma NotInDigits(s: string, c: char)
    requires AllDigits(s) && !IsDigit(c)
    ensures c !in s
  {
  }

  /** Where the pattern does not match at the start, the search goes on one character later. */
  lemma SearchTail(s: string, marker: string)
    requires |s| > 0 && CountAt(s, marker).None?
    ensures Search(s, marker) == Search(s[1..], marker)
  {
    SearchWithTail(s, CountPattern(marker));
  }

  /** The count pattern cannot match where the text does not start with the marker's first character. */
  lemma NoCountHere(x: string, marker: string)
    requires marker != [] && |x| > 0 && x[0] != marker[0]
    ensures CountAt(x, marker).None?
  {
  }

  /** A prefix at none of whose positions the pattern matches is passed over. */
  lemma {:induction false} SearchSkip<T>(pre: string, t: string, at: string -> Option<T>)
    requires forall k :: 0 <= k < |pre| ==> at(pre[k..] + t).None?
    ensures SearchWith(pre + t, at) == SearchWith(t, at)
    decreases |pre|
  {
    if pre != [] {
      var s := pre + t;
      assert pre[0..] == pre;
      SearchWithTail(s, at);
      assert s[1..] == pre[1..] + t;
      forall k | 0 <= k < |pre| - 1 ensures at(pre[1..][k..] + t).None? {
        assert pre[1..][k..] == pre[k + 1..];
      }
      SearchSkip(pre[1..], t, at);
    } else {
      assert pre + t == t;
    }
  }

  /** A prefix without the marker's first character is passed over. */
  lemma SkipPrefix(pre: string, t: string, marker: string)
    requires marker != [] && marker[0] !in pre
    ensures Search(pre + t, marker) == Search(t, marker)
  {
    var at := CountPattern(marker);
    forall k | 0 <= k < |pre| ensures at(pre[k..] + t).None? {
      assert (pre[k..] + t)[0] == pre[k];
      NoCountHere(pre[k..] + t, marker);
    }
    SearchSkip(pre, t, at);
  }

  /** One space before a string that does not start with whitespace is all `\s*` takes. */
  lemma OneSpaceTrimmed(x: string)
    requires x == [] || !IsSpace(x[0])
    ensures TrimLeft(" " + x, IsSpace) == x
  {
    assert (" " + x)[1..] == x;
  }

  /** A match at the very start is the one the search reports. */
  lemma SearchHere(s: string, marker: string)
    requires CountAt(s, marker).Some?
    ensures Search(s, marker) == CountAt(s, marker)
  {
    SearchWithHere(s, CountPattern(marker));
  }

  /** At the marker, one space and a rendered number, the search reads that number. */
  lemma FoundHere(marker: string, n: nat, rest: string)
    requires rest == [] || !IsDigit(rest[0])
    ensures Search(marker + " " + NatToString(n) + rest, marker) == Some(n)
  {
    var digits := NatToString(n);
    var s := marker + " " + digits + rest;
    assert s[..|marker|] == marker;
    assert s[|marker|..] == " " + (digits + rest);
    assert IsDigit(digits[0]);
    OneSpaceTrimmed(digits + rest);
    DigitRunOfRendered(digits, rest);
    NatToStringRoundTrip(n);
    assert CountAt(s, marker) == Some(n);
    SearchHere(s, marker);
  }

  /** The marker found after a prefix that cannot start it. */
  lemma FoundAfter(pre: string, marker: string, n: nat, rest: string)
    requires marker != [] && marker[0] !in pre
    requires rest == [] || !IsDigit(rest[0])
    ensures Search(pre + marker + " " + NatToString(n) + rest, marker) == Some(n)
  {
    var t := marker + " " + NatToString(n) + rest;
    AfterShape(pre, marker, NatToString(n), rest);
    FoundHere(marker, n, rest);
    SkipPrefix(pre, t, marker);
  }

  lemma AfterShape(pre: string, marker: string, digits: string, rest: string)
    ensures pre + marker + " " + digits + rest == pre + (marker + " " + digits + rest)
  {
  }

  /** A date match at the very start is the one the search reports. */
  lemma SearchDateHere(s: string)
    requires DateAt(s).Some?
    ensures SearchDate(s) == DateAt(s)
  {
    SearchWithHere(s, DateAt);
  }

  /** The date of a summary header is found at its very start. */
  lemma DateOfSummary(date: string, body: string)
    requires IsIsoDate(date)
    ensures SearchDate(SummaryHeader(date) + body) == Some(date)
  {
    var s := SummaryHeader(date) + body;
    var t := date + ":\n" + body;
    assert s == "Reflection for" + " " + t;
    assert s[..14] == "Reflection for";
    assert s[14..] == " " + t;
    assert IsDigit(t[0]);
    OneSpaceTrimmed(t);
    assert t[..10] == date;
    assert DateAt(s) == Some(date);
    SearchDateHere(s);
  }

  // ---------------------------------------------------------------------
  // The day summary read back
  // ---------------------------------------------------------------------

  /** A character that is no digit, no punctuation of the line and not in its marker is not in the line. */
  lemma NotInLine(c: char, marker: string, digits: string)
    requires AllDigits(digits) && !IsDigit(c) && c !in "- \n" && c !in marker
    ensures c !in CountLine(marker, digits)
  {
    NotInDigits(digits, c);
  }

  /** The same for the header line, whose date is digits and dashes. */
  lemma NotInHeader(c: char, date: string)
    requires IsIsoDate(date) && !IsDigit(c) && c !in "Reflection for -:\n"
    ensures c !in SummaryHeader(date)
  {
    assert forall i :: 0 <= i < |date| ==> IsDigit(date[i]) || date[i] == '-';
  }

  /** A marker whose first character occurs nowhere is not found. */
  lemma NotFound(s: string, marker: string)
    requires marker != [] && marker[0] !in s
    ensures Search(s, marker) == None
  {
    SkipPrefix(s, "", marker);
    assert s + "" == s;
    SearchEmpty(marker);
  }

  /** A count line is read back when nothing before it can start its marker. */
  lemma FoundInLine(pre: string, marker: string, n: nat, post: string)
    requires marker != [] && marker[0] !in pre + "- "
    ensures Search(pre + CountLine(marker, NatToString(n)) + post, marker) == Some(n)
  {
    LineShape(pre, marker, NatToString(n), post);
    FoundAfter(pre + "- ", marker, n, "\n" + post);
  }

  lemma LineShape(pre: string, marker: string, digits: string, post: string)
    ensures pre + CountLine(marker, digits) + post == (pre + "- ") + marker + " " + digits + ("\n" + post)
  {
  }

  /**
   * A count line whose marker shares only its first few characters with
   * `marker` (the two differ at position `j`) is passed over.
   */
  lemma SkipDecoyLine(pre: string, decoy: string, digits: string, post: string, marker: string, j: nat)
    requires marker != [] && marker[0] !in pre + "- "
    requires j < |decoy| && j < |marker| && decoy[j] != marker[j]
    requires marker[0] !in decoy[1..] + " " + digits + "\n"
    ensures Search(pre + CountLine(decoy, digits) + post, marker) == Search(post, marker)
  {
    var t := decoy + " " + digits + "\n" + post;
    var tail := decoy[1..] + " " + digits + "\n";
    DecoyShape(pre, decoy, digits, post);
    assert t[j] == decoy[j];
    assert !StartsWith(t, marker);
    SearchTail(t, marker);
    SkipPrefix(pre + "- ", t, marker);
    SkipPrefix(tail, post, marker);
  }

  /** A count line cut after its dash and space, and after the first character of its marker. */
  lemma DecoyShape(pre: string, decoy: string, digits: string, post: string)
    requires |decoy| > 0
    ensures pre + CountLine(decoy, digits) + post == (pre + "- ") + (decoy + " " + digits + "\n" + post)
    ensures (decoy + " " + digits + "\n" + post)[1..] == (decoy[1..] + " " + digits + "\n") + post
  {
  }

  /** Dropping the first character of a concatenation drops it from the left part. */
  lemma DropFirst(a: string, b: string)
    requires |a| > 0
    ensures (a + b)[1..] == a[1..] + b
  {
  }

  /** A negative number after the marker is no match: `\d+` cannot start at the minus sign. */
  lemma NegativeNotFound(marker: string, digits: string, post: string)
    requires marker != [] && AllDigits(digits)
    requires !IsDigit(marker[0]) && marker[0] !in " -\n" && marker[0] !in marker[1..] && marker[0] !in post
    ensures Search(marker + " " + ("-" + digits + "\n" + post), marker) == None
  {
    var rest := "-" + digits + "\n" + post;
    var t := marker + " " + rest;
    assert t[..|marker|] == marker;
    assert t[|marker|..] == " " + rest;
    OneSpaceTrimmed(rest);
    assert DigitRun(rest) == [];
    assert CountAt(t, marker).None?;
    SearchTail(t, marker);
    DropFirst(marker + " ", rest);
    DropFirst(marker, " ");
    NotInDigits(digits, marker[0]);
    assert marker[0] !in rest;
    NotFound(t[1..], marker);
  }

  /** The summary text regrouped around each of its six count lines. */
  lemma Regroup(h: string, l1: string, l2: string, l3: string, l4: string, l5: string, l6: string)
    ensures h + (l1 + l2 + l3 + l4 + l5 + l6) == h + l1 + (l2 + l3 + l4 + l5 + l6)
    ensures h + (l1 + l2 + l3 + l4 + l5 + l6) == (h + l1) + l2 + (l3 + l4 + l5 + l6)
    ensures h + (l1 + l2 + l3 + l4 + l5 + l6) == (h + l1 + l2) + l3 + (l4 + l5 + l6)
    ensures h + (l1 + l2 + l3 + l4 + l5 + l6) == (h + l1 + l2 + l3) + l4 + (l5 + l6)
    ensures h + (l1 + l2 + l3 + l4 + l5 + l6) == (h + l1 + l2 + l3 + l4) + l5 + l6
    ensures h + (l1 + l2 + l3 + l4 + l5 + l6) == (h + l1 + l2 + l3 + l4 + l5) + l6 + ""
  {
  }

  /**
   * Reading a day summary back: the date, each of the six counts, the
   * tokens when they are not negative (0 when they are), and 0 open tasks,
   * since a summary has no open-task line.
   */
  lemma SummaryReadBack(date: string, s: DaySummary)
    requires IsIsoDate(date)
    ensures var m := Parsed(SummaryText(date, s));
      m.date == Some(date) && Keys(m.counts) == Keys(DefaultCounts) &&
      Get(m.counts, "decisions_made") == Some(s.decisions as int) &&
      Get(m.counts, "tool_calls") == Some(s.toolCalls as int) &&
      Get(m.counts, "kpi_updates") == Some(s.kpiUpdates as int) &&
      Get(m.counts, "events_processed") == Some(s.events as int) &&
      Get(m.counts, "llm_calls") == Some(s.llmCalls as int) &&
      Get(m.counts, "tokens_used") == Some(if s.totalTokens >= 0 then s.totalTokens else 0) &&
      Get(m.counts, "open_tasks") == Some(0)
  {
    DateOfSummary(date, SummaryBody(s));
    SearchSummary(date, s);
    ReadBack(SummaryText(date, s), date, s);
  }

  /** The metrics of any non-empty snapshot whose patterns find what they find in a day summary. */
  lemma ReadBack(text: string, date: string, s: DaySummary)
    requires |text| > 0 && SearchDate(text) == Some(date)
    requires Search(text, "Decisions made:") == Some(s.decisions) &&
      Search(text, "Tool calls executed:") == Some(s.toolCalls) &&
      Search(text, "KPI updates recorded:") == Some(s.kpiUpdates) &&
      Search(text, "Events processed:") == Some(s.events) &&
      Search(text, "LLM calls today:") == Some(s.llmCalls) &&
      Search(text, "Total tokens used today:") == (if s.totalTokens >= 0 then Some(s.totalTokens as nat) else None) &&
      Search(text, "Open tasks (not done):") == None
    ensures var m := Parsed(text);
      m.date == Some(date) && Keys(m.counts) == Keys(DefaultCounts) &&
      Get(m.counts, "decisions_made") == Some(s.decisions as int) &&
      Get(m.counts, "tool_calls") == Some(s.toolCalls as int) &&
      Get(m.counts, "kpi_updates") == Some(s.kpiUpdates as int) &&
      Get(m.counts, "events_processed") == Some(s.events as int) &&
      Get(m.counts, "llm_calls") == Some(s.llmCalls as int) &&
      Get(m.counts, "tokens_used") == Some(if s.totalTokens >= 0 then s.totalTokens else 0) &&
      Get(m.counts, "open_tasks") == Some(0)
  {
    var c := Parsed(text).counts;
    ReadBackFirst(text, c, s.decisions, s.toolCalls, s.kpiUpdates);
    ReadBackLast(text, c, s.events, s.llmCalls, Search(text, "Total tokens used today:"));
  }

  lemma ReadBackFirst(text: string, c: Dict<string, int>, decisions: nat, toolCalls: nat, kpiUpdates: nat)
    requires c == Parsed(text).counts
    requires Search(text, "Decisions made:") == Some(decisions) &&
      Search(text, "Tool calls executed:") == Some(toolCalls) &&
      Search(text, "KPI updates recorded:") == Some(kpiUpdates)
    ensures Keys(c) == Keys(DefaultCounts)
    ensures Get(c, "decisions_made") == Some(decisions as int) &&
      Get(c, "tool_calls") == Some(toolCalls as int) &&
      Get(c, "kpi_updates") == Some(kpiUpdates as int)
  {
    ParsedCountOf(text, 0, "decisions_made", "Decisions made:");
    ParsedCountOf(text, 1, "tool_calls", "Tool calls executed:");
    ParsedCountOf(text, 2, "kpi_updates", "KPI updates recorded:");
  }

  lemma ReadBackLast(text: string, c: Dict<string, int>, events: nat, llmCalls: nat, tokens: Option<nat>)
    requires c == Parsed(text).counts
    requires Search(text, "Events processed:") == Some(events) &&
      Search(text, "LLM calls today:") == Some(llmCalls) &&
      Search(text, "Total tokens used today:") == tokens &&
      Search(text, "Open tasks (not done):") == None
    ensures Get(c, "events_processed") == Some(events as int) &&
      Get(c, "llm_calls") == Some(llmCalls as int) &&
      Get(c, "tokens_used") == Some(tokens.GetOr(0) as int) &&
      Get(c, "open_tasks") == Some(0)
  {
    ParsedCountOf(text, 3, "events_processed", "Events processed:");
    ParsedCountOf(text, 4, "llm_calls", "LLM calls today:");
    ParsedCountOf(text, 5, "tokens_used", "Total tokens used today:");
    ParsedCountOf(text, 6, "open_tasks", "Open tasks (not done):");
  }

  /** `ParsedCount` for the pattern at `k`, named by its key and marker. */
  lemma ParsedCountOf(snapshot: string, k: nat, key: string, marker: string)
    requires k < |CountLabels| && CountLabels[k] == (key, marker)
    ensures Keys(Parsed(snapshot).counts) == Keys(DefaultCounts)
    ensures Get(Parsed(snapshot).counts, key) == Some(Search(snapshot, marker).GetOr(0) as int)
  {
    ParsedCount(snapshot, k);
  }

  /** What each count pattern finds in a day summary. */
  lemma SearchSummary(date: string, s: DaySummary)
    requires IsIsoDate(date)
    ensures var text := SummaryText(date, s);
      Search(text, "Decisions made:") == Some(s.decisions) &&
      Search(text, "Tool calls executed:") == Some(s.toolCalls) &&
      Search(text, "KPI updates recorded:") == Some(s.kpiUpdates) &&
      Search(text, "Events processed:") == Some(s.events) &&
      Search(text, "LLM calls today:") == Some(s.llmCalls) &&
      Search(text, "Total tokens used today:") == (if s.totalTokens >= 0 then Some(s.totalTokens as nat) else None) &&
      Search(text, "Open tasks (not done):") == None
  {
    DecisionsInSummary(date, s);
    ToolCallsInSummary(date, s);
    KpiUpdatesInSummary(date, s);
    EventsInSummary(date, s);
    LlmCallsInSummary(date, s);
    TokensInSummary(date, s);
    OpenTasksNotInSummary(date, s);
  }

  /** The decisions line is found, nothing before it starting with `D`. */
  lemma DecisionsInSummary(date: string, s: DaySummary)
    requires IsIsoDate(date)
    ensures Search(SummaryText(date, s), "Decisions made:") == Some(s.decisions)
  {
    NotInHeader('D', date);
    var h := SummaryHeader(date);
    var l1 := CountLine("Decisions made:", NatToString(s.decisions));
    var l2 := CountLine("Tool calls executed:", NatToString(s.toolCalls));
    var l3 := CountLine("KPI updates recorded:", NatToString(s.kpiUpdates));
    var l4 := CountLine("Events processed:", NatToString(s.events));
    var l5 := CountLine("LLM calls today:", NatToString(s.llmCalls));
    var l6 := CountLine("Total tokens used today:", IntToString(s.totalTokens));
    Regroup(h, l1, l2, l3, l4, l5, l6);
    FoundInLine(h, "Decisions made:", s.decisions, l2 + l3 + l4 + l5 + l6);
  }

  /** The tool-calls line is found, nothing before it starting with `T`. */
  lemma ToolCallsInSummary(date: string, s: DaySummary)
    requires IsIsoDate(date)
    ensures Search(SummaryText(date, s), "Tool calls executed:") == Some(s.toolCalls)
  {
    NotInHeader('T', date);
    NotInLine('T', "Decisions made:", NatToString(s.decisions));
    var h := SummaryHeader(date);
    var l1 := CountLine("Decisions made:", NatToString(s.decisions));
    var l2 := CountLine("Tool calls executed:", NatToString(s.toolCalls));
    var l3 := CountLine("KPI updates recorded:", NatToString(s.kpiUpdates));
    var l4 := CountLine("Events processed:", NatToString(s.events));
    var l5 := CountLine("LLM calls today:", NatToString(s.llmCalls));
    var l6 := CountLine("Total tokens used today:", IntToString(s.totalTokens));
    Regroup(h, l1, l2, l3, l4, l5, l6);
    FoundInLine(h + l1, "Tool calls executed:", s.toolCalls, l3 + l4 + l5 + l6);
  }

  /** The KPI line is found, nothing before it starting with `K`. */
  lemma KpiUpdatesInSummary(date: string, s: DaySummary)
    requires IsIsoDate(date)
    ensures Search(SummaryText(date, s), "KPI updates recorded:") == Some(s.kpiUpdates)
  {
    NotInHeader('K', date);
    NotInLine('K', "Decisions made:", NatToString(s.decisions));
    NotInLine('K', "Tool calls executed:", NatToString(s.toolCalls));
    var h := SummaryHeader(date);
    var l1 := CountLine("Decisions made:", NatToString(s.decisions));
    var l2 := CountLine("Tool calls executed:", NatToString(s.toolCalls));
    var l3 := CountLine("KPI updates recorded:", NatToString(s.kpiUpdates));
    var l4 := CountLine("Events processed:", NatToString(s.events));
    var l5 := CountLine("LLM calls today:", NatToString(s.llmCalls));
    var l6 := CountLine("Total tokens used today:", IntToString(s.totalTokens));
    Regroup(h, l1, l2, l3, l4, l5, l6);
    FoundInLine(h + l1 + l2, "KPI updates recorded:", s.kpiUpdates, l4 + l5 + l6);
  }

  /** The events line is found, nothing before it starting with `E`. */
  lemma EventsInSummary(date: string, s: DaySummary)
    requires IsIsoDate(date)
    ensures Search(SummaryText(date, s), "Events processed:") == Some(s.events)
  {
    NotInHeader('E', date);
    NotInLine('E', "Decisions made:", NatToString(s.decisions));
    NotInLine('E', "Tool calls executed:", NatToString(s.toolCalls));
    NotInLine('E', "KPI updates recorded:", NatToString(s.kpiUpdates));
    var h := SummaryHeader(date);
    var l1 := CountLine("Decisions made:", NatToString(s.decisions));
    var l2 := CountLine("Tool calls executed:", NatToString(s.toolCalls));
    var l3 := CountLine("KPI updates recorded:", NatToString(s.kpiUpdates));
    var l4 := CountLine("Events processed:", NatToString(s.events));
    var l5 := CountLine("LLM calls today:", NatToString(s.llmCalls));
    var l6 := CountLine("Total tokens used today:", IntToString(s.totalTokens));
    Regroup(h, l1, l2, l3, l4, l5, l6);
    FoundInLine(h + l1 + l2 + l3, "Events processed:", s.events, l5 + l6);
  }

  /** The LLM-calls line is found, nothing before it starting with `L`. */
  lemma LlmCallsInSummary(date: string, s: DaySummary)
    requires IsIsoDate(date)
    ensures Search(SummaryText(date, s), "LLM calls today:") == Some(s.llmCalls)
  {
    NotInHeader('L', date);
    NotInLine('L', "Decisions made:", NatToString(s.decisions));
    NotInLine('L', "Tool calls executed:", NatToString(s.toolCalls));
    NotInLine('L', "KPI updates recorded:", NatToString(s.kpiUpdates));
    NotInLine('L', "Events processed:", NatToString(s.events));
    var h := SummaryHeader(date);
    var l1 := CountLine("Decisions made:", NatToString(s.decisions));
    var l2 := CountLine("Tool calls executed:", NatToString(s.toolCalls));
    var l3 := CountLine("KPI updates recorded:", NatToString(s.kpiUpdates));
    var l4 := CountLine("Events processed:", NatToString(s.events));
    var l5 := CountLine("LLM calls today:", NatToString(s.llmCalls));
    var l6 := CountLine("Total tokens used today:", IntToString(s.totalTokens));
    Regroup(h, l1, l2, l3, l4, l5, l6);
    FoundInLine(h + l1 + l2 + l3 + l4, "LLM calls today:", s.llmCalls, l6);
  }

  /**
   * The tokens pattern passes over the tool-calls line, whose marker also
   * starts with `T`, and finds the last line; a negative total is no match.
   */
  lemma TokensInSummary(date: string, s: DaySummary)
    requires IsIsoDate(date)
    ensures Search(SummaryText(date, s), "Total tokens used today:") ==
            if s.totalTokens >= 0 then Some(s.totalTokens as nat) else None
  {
    NotInHeader('T', date);
    NotInLine('T', "Decisions made:", NatToString(s.decisions));
    NotInDigits(NatToString(s.toolCalls), 'T');
    var marker := "Total tokens used today:";
    var h := SummaryHeader(date);
    var l1 := CountLine("Decisions made:", NatToString(s.decisions));
    var l2 := CountLine("Tool calls executed:", NatToString(s.toolCalls));
    var l3 := CountLine("KPI updates recorded:", NatToString(s.kpiUpdates));
    var l4 := CountLine("Events processed:", NatToString(s.events));
    var l5 := CountLine("LLM calls today:", NatToString(s.llmCalls));
    var l6 := CountLine(marker, IntToString(s.totalTokens));
    Regroup(h, l1, l2, l3, l4, l5, l6);
    SkipDecoyLine(h + l1, "Tool calls executed:", NatToString(s.toolCalls), l3 + l4 + l5 + l6, marker, 2);
    TokensAfterToolCalls(s);
  }

  /** After the tool-calls line, only the tokens line can start the tokens marker. */
  lemma TokensAfterToolCalls(s: DaySummary)
    ensures var marker := "Total tokens used today:";
      Search(CountLine("KPI updates recorded:", NatToString(s.kpiUpdates)) +
             CountLine("Events processed:", NatToString(s.events)) +
             CountLine("LLM calls today:", NatToString(s.llmCalls)) +
             CountLine(marker, IntToString(s.totalTokens)), marker) ==
      if s.totalTokens >= 0 then Some(s.totalTokens as nat) else None
  {
    var marker := "Total tokens used today:";
    NotInLine('T', "KPI updates recorded:", NatToString(s.kpiUpdates));
    NotInLine('T', "Events processed:", NatToString(s.events));
    NotInLine('T', "LLM calls today:", NatToString(s.llmCalls));
    SkipPrefix(CountLine("KPI updates recorded:", NatToString(s.kpiUpdates)) +
               CountLine("Events processed:", NatToString(s.events)) +
               CountLine("LLM calls today:", NatToString(s.llmCalls)),
               CountLine(marker, IntToString(s.totalTokens)), marker);
    TokensMarker();
    LastLine(marker, s.totalTokens);
  }

  /** The tokens marker starts with a `T` it holds once, which is no digit, space, dash or line break. */
  lemma TokensMarker()
    ensures var marker := "Total tokens used today:";
      marker != [] && !IsDigit(marker[0]) && marker[0] !in " -\n" && marker[0] !in marker[1..]
  {
  }

  /** The tokens line alone: a total that is not negative is read back, a negative one is no match. */
  lemma LastLine(marker: string, total: int)
    requires marker != [] && !IsDigit(marker[0]) && marker[0] !in " -\n" && marker[0] !in marker[1..]
    ensures Search(CountLine(marker, IntToString(total)), marker) == if total >= 0 then Some(total as nat) else None
  {
    var line := CountLine(marker, IntToString(total));
    if total >= 0 {
      assert "" + line + "" == line;
      FoundInLine("", marker, total, "");
    } else {
      var digits := NatToString(-total);
      var t := marker + " " + ("-" + digits + "\n" + "");
      assert "- " + marker + " " + ("-" + digits) + "\n" == "- " + t;
      SkipPrefix("- ", t, marker);
      NegativeNotFound(marker, digits, "");
    }
  }

  /** No line of a day summary starts the open-tasks marker, so that count stays 0. */
  lemma OpenTasksNotInSummary(date: string, s: DaySummary)
    requires IsIsoDate(date)
    ensures Search(SummaryText(date, s), "Open tasks (not done):") == None
  {
    NotInHeader('O', date);
    NotInLine('O', "Decisions made:", NatToString(s.decisions));
    NotInLine('O', "Tool calls executed:", NatToString(s.toolCalls));
    NotInLine('O', "KPI updates recorded:", NatToString(s.kpiUpdates));
    NotInLine('O', "Events processed:", NatToString(s.events));
    NotInLine('O', "LLM calls today:", NatToString(s.llmCalls));
    if s.totalTokens >= 0 {
      NotInLine('O', "Total tokens used today:", NatToString(s.totalTokens));
    } else {
      NotInDigits(NatToString(-s.totalTokens), 'O');
      assert 'O' !in IntToString(s.totalTokens);
    }
    NotFound(SummaryText(date, s), "Open tasks (not done):");
  }

  // ---------------------------------------------------------------------
  // The task table
  // ---------------------------------------------------------------------

  /**
   * One row of the task table.  The task record has no approval flags and
   * no result, so those columns always hold their fallbacks.
   */
  datatype TaskRow = TaskRow(
    id: nat,
    title: string,
    area: string,
    priority: int,
    owner: string,
    status: string,
    requiresApproval: bool,
    approved: bool,
    result: Option<string>)

  /** A task as the table shows it: an empty area reads "unspecified", an empty status "unknown". */
  function RowOf(t: AgenticCeo.Task): (r: TaskRow)
    ensures r.area != "" && r.status != ""
    ensures t.area != "" ==> r.area == t.area
    ensures t.status != "" ==> r.status == t.status
  {
    TaskRow(t.id, t.title, if t.area == "" then "unspecified" else t.area, t.priority, t.suggestedOwner,
            if t.status == "" then "unknown" else t.status, false, false, None)
  }

  function Areas(rows: seq<TaskRow>): seq<string> {
    seq(|rows|, i requires 0 <= i < |rows| => rows[i].area)
  }

  function Statuses(rows: seq<TaskRow>): seq<string> {
    seq(|rows|, i requires 0 <= i < |rows| => rows[i].status)
  }

  /**
   * `build_tasks_payload`: one row per task, in list order, then a counter
   * of the areas and a counter of the statuses of the rows.
   */
  method BuildTasksPayload(tasks: seq<AgenticCeo.Task>) returns (rows: seq<TaskRow>, byArea: Dict<string, nat>,
                                                                 byStatus: Dict<string, nat>)
    ensures |rows| == |tasks| && forall i :: 0 <= i < |tasks| ==> rows[i] == RowOf(tasks[i])
    ensures byArea == CountAll(Areas(rows)) && byStatus == CountAll(Statuses(rows))
  {
    rows := [];
    var k := 0;
    while k < |tasks|
      invariant 0 <= k <= |tasks|
      invariant |rows| == k && forall i :: 0 <= i < k ==> rows[i] == RowOf(tasks[i])
    {
      rows := rows + [RowOf(tasks[k])];
      k := k + 1;
    }
    byArea := CountAll(Areas(rows));
    byStatus := CountAll(Statuses(rows));
  }

  /** Both counters count every row once: their values add up to the number of tasks. */
  lemma TaskCountsAddUp(rows: seq<TaskRow>)
    ensures Total(CountAll(Areas(rows))) == |rows| && Total(CountAll(Statuses(rows))) == |rows|
  {
    CountAllTotal(Areas(rows));
    CountAllTotal(Statuses(rows));
  }

  /** No counter key is empty: a task without an area is counted under "unspecified", one without a status under "unknown". */
  lemma EmptyFieldsCountedUnderFallback(tasks: seq<AgenticCeo.Task>, rows: seq<TaskRow>, i: nat)
    requires |rows| == |tasks| && forall j :: 0 <= j < |tasks| ==> rows[j] == RowOf(tasks[j])
    requires i < |tasks|
    ensures Get(CountAll(Areas(rows)), "").GetOr(0) == 0 && Get(CountAll(Statuses(rows)), "").GetOr(0) == 0
    ensures tasks[i].area == "" ==> Get(CountAll(Areas(rows)), "unspecified").GetOr(0) > 0
    ensures tasks[i].status == "" ==> Get(CountAll(Statuses(rows)), "unknown").GetOr(0) > 0
  {
    CountAllGet(Areas(rows), "");
    CountAllGet(Statuses(rows), "");
    OccurrencesAbsent(Areas(rows), "");
    OccurrencesAbsent(Statuses(rows), "");
    CountAllGet(Areas(rows), rows[i].area);
    CountAllGet(Statuses(rows), rows[i].status);
    OccurrencesPresent(Areas(rows), i);
    OccurrencesPresent(Statuses(rows), i);
  }

  // ---------------------------------------------------------------------
  // Choosing the day to show
  // ---------------------------------------------------------------------

  /** The summary the snapshot view reads: the live one, or the stored one `offset` days before the state's date. */
  datatype SnapshotSource = Live | DaysBack(offset: int)

  /**
   * The `day` parameter of the snapshot view: "today" is the live summary,
   * "yesterday" one day back, "d-N" N days back when `int()` accepts N, and
   * anything else one day back.
   */
  function SnapshotSourceFor(day: string): (r: SnapshotSource)
    ensures r.Live? <==> day == "today"
    ensures r.DaysBack? && r.offset != 1 ==> StartsWith(day, "d-") && ParseInt(day[2..]) == Some(r.offset)
  {
    if day == "today" then Live
    else if day == "yesterday" then DaysBack(1)
    else if StartsWith(day, "d-") then
      match ParseInt(day[2..])
      case Some(n) => DaysBack(n)
      case None => DaysBack(1)
    else DaysBack(1)
  }

  /** "d-" followed by a rendered number selects that many days back. */
  lemma DaysBackRoundTrip(n: int)
    ensures SnapshotSourceFor("d-" + IntToString(n)) == DaysBack(n)
  {
    var day := "d-" + IntToString(n);
    assert day[0] == 'd' && day[..2] == "d-" && day[2..] == IntToString(n);
    assert day != "today" by { assert "today"[0] == 't'; }
    assert day != "yesterday" by { assert "yesterday"[0] == 'y'; }
    ParseIntOfRendered(n);
  }

  /** A day that is neither "today", "yesterday" nor a valid "d-N" falls back to one day back. */
  lemma UnknownDayIsYesterday(day: string)
    requires day != "today" && !(StartsWith(day, "d-") && ParseInt(day[2..]).Some?)
    ensures SnapshotSourceFor(day) == DaysBack(1)
  {
  }
}
