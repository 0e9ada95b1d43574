/** The client stores of stores/index.ts: the analysis store, whose result
    and error fields exclude each other, and the history store with its
    capped, newest-first list of analyses and the list of favourite ids. */
module Stores {
  import opened Wrappers
  import SeqUtil

  // ---------------------------------------------------------------------------
  // Records

  /** `ExplanationStep`: one step of the server's explanation. */
  datatype ExplanationStep = ExplanationStep(
    formalRuleApplied: Option<string>,
    observation: string,
    processedChord: Option<string>,
    tonalityUsedInStep: Option<string>,
    evaluatedFunctionalState: Option<string>,
    ruleType: Option<string>,
    tonalFunction: Option<string>,
    pivotTargetTonality: Option<string>,
    rawTonalityUsedInStep: Option<string>)

  /** `ProgressionAnalysisResponse` */
  datatype AnalysisResponse = AnalysisResponse(
    isTonalProgression: bool,
    identifiedTonality: Option<string>,
    explanationDetails: seq<ExplanationStep>,
    error: Option<string>)

  /** `AnalysisHistory`; the timestamp is the entry's time in milliseconds. */
  datatype HistoryEntry = HistoryEntry(
    id: string,
    chords: seq<string>,
    result: AnalysisResponse,
    timestamp: int,
    isFavorite: bool)

  /** The most entries the history keeps. */
  const HISTORY_CAP: nat := 100

  /** How many entries `getRecentAnalyses` returns when given no limit. */
  const DEFAULT_RECENT_LIMIT: int := 10

  // ---------------------------------------------------------------------------
  // The analysis store

  class AnalysisStore {
    var isLoading: bool
    var result: Option<AnalysisResponse>
    var error: Option<string>
    var visualization: Option<string>

    /** A result and an error are never held together. */
    ghost predicate Valid()
      reads this
    {
      result.None? || error.None?
    }

    constructor()
      ensures !isLoading && result == None && error == None && visualization == None
      ensures Valid()
    {
      isLoading := false;
      result := None;
      error := None;
      visualization := None;
    }

    /** `setLoading` */
    method SetLoading(loading: bool)
      modifies this
      ensures isLoading == loading
      ensures result == old(result) && error == old(error) && visualization == old(visualization)
      ensures old(Valid()) ==> Valid()
    {
      isLoading := loading;
    }

    /** `setResult`: the error is cleared. */
    method SetResult(r: Option<AnalysisResponse>)
      modifies this
      ensures result == r && error == None
      ensures isLoading == old(isLoading) && visualization == old(visualization)
      ensures Valid()
    {
      result := r;
      error := None;
    }

    /** `setError`: the result is cleared. */
    method SetError(e: Option<string>)
      modifies this
      ensures error == e && result == None
      ensures isLoading == old(isLoading) && visualization == old(visualization)
      ensures Valid()
    {
      error := e;
      result := None;
    }

    /** `setVisualization` */
    method SetVisualization(v: Option<string>)
      modifies this
      ensures visualization == v
      ensures isLoading == old(isLoading) && result == old(result) && error == old(error)
      ensures old(Valid()) ==> Valid()
    {
      visualization := v;
    }

    /** `clearAnalysis` */
    method ClearAnalysis()
      modifies this
      ensures !isLoading && result == None && error == None && visualization == None
      ensures Valid()
    {
      isLoading := false;
      result := None;
      error := None;
      visualization := None;
    }
  }

  // ---------------------------------------------------------------------------
  // History operations on values

  /** `history.filter(item => item.id !== id)` */
  function WithoutId(history: seq<HistoryEntry>, id: string): (r: seq<HistoryEntry>)
    ensures forall k :: 0 <= k < |r| ==> r[k].id != id
    ensures forall e :: e in history && e.id != id ==> e in r
    ensures SeqUtil.IsSubsequence(r, history)
    ensures forall e :: multiset(r)[e] == if e.id == id then 0 else multiset(history)[e]
    ensures |r| <= |history|
  {
    if history == [] then []
    else
      var rest := WithoutId(history[1..], id);
      assert history == [history[0]] + history[1..];
      if history[0].id == id then
        SeqUtil.SubsequenceOfTail(rest, history);
        rest
      else [history[0]] + rest
  }

  /** `history.map(item => item.id === id ? { ...item, isFavorite: flag } : item)` */
  function MarkFavorite(history: seq<HistoryEntry>, id: string, flag: bool): (r: seq<HistoryEntry>)
    ensures |r| == |history|
    ensures forall k :: 0 <= k < |r| ==>
              r[k] == if history[k].id == id then history[k].(isFavorite := flag) else history[k]
  {
    seq(|history|, k requires 0 <= k < |history| =>
      if history[k].id == id then history[k].(isFavorite := flag) else history[k])
  }

  /** Each entry's flag says whether its id is a favourite. */
  ghost predicate FlagsMatch(history: seq<HistoryEntry>, favorites: seq<string>) {
    forall k :: 0 <= k < |history| ==> (history[k].isFavorite <==> history[k].id in favorites)
  }

  /** Newest first: timestamps never increase along the list. */
  predicate NewestFirst(s: seq<HistoryEntry>) {
    forall i, j :: 0 <= i < j < |s| ==> s[i].timestamp >= s[j].timestamp
  }

  /** Puts `x` into a newest-first list after every entry at least as new. */
  function InsertByTimestamp(sorted: seq<HistoryEntry>, x: HistoryEntry): (r: seq<HistoryEntry>)
    ensures multiset(r) == multiset(sorted) + multiset{x}
  {
    if sorted == [] then [x]
    else if x.timestamp > sorted[0].timestamp then [x] + sorted
    else
      assert sorted == [sorted[0]] + sorted[1..];
      [sorted[0]] + InsertByTimestamp(sorted[1..], x)
  }

  /** Inserting an entry no newer than `bound` into entries no newer than
      `bound` leaves every entry no newer than `bound`. */
  lemma {:induction false} InsertKeepsBound(sorted: seq<HistoryEntry>, x: HistoryEntry, bound: int)
    requires forall k :: 0 <= k < |sorted| ==> sorted[k].timestamp <= bound
    requires x.timestamp <= bound
    ensures forall k :: 0 <= k < |InsertByTimestamp(sorted, x)| ==> InsertByTimestamp(sorted, x)[k].timestamp <= bound
  {
    if sorted != [] && x.timestamp <= sorted[0].timestamp {
      InsertKeepsBound(sorted[1..], x, bound);
    }
  }

  lemma {:induction false} InsertKeepsNewestFirst(sorted: seq<HistoryEntry>, x: HistoryEntry)
    requires NewestFirst(sorted)
    ensures NewestFirst(InsertByTimestamp(sorted, x))
  {
    if sorted != [] && x.timestamp <= sorted[0].timestamp {
      InsertKeepsNewestFirst(sorted[1..], x);
      InsertKeepsBound(sorted[1..], x, sorted[0].timestamp);
    }
  }

  /** The ordering `history.sort((a, b) => b.timestamp - a.timestamp)`
      produces: the same entries, newest first. */
  function SortByTimestamp(s: seq<HistoryEntry>): (r: seq<HistoryEntry>)
    ensures multiset(r) == multiset(s)
    ensures NewestFirst(r)
  {
    if s == [] then []
    else
      assert s == s[..|s| - 1] + [s[|s| - 1]];
      var sortedInit := SortByTimestamp(s[..|s| - 1]);
      InsertKeepsNewestFirst(sortedInit, s[|s| - 1]);
      InsertByTimestamp(sortedInit, s[|s| - 1])
  }

  /** The entries with timestamp `t`, in list order. */
  function AtTime(s: seq<HistoryEntry>, t: int): seq<HistoryEntry> {
    if s == [] then []
    else (if s[0].timestamp == t then [s[0]] else []) + AtTime(s[1..], t)
  }

  lemma {:induction false} AtTimeAppend(s: seq<HistoryEntry>, u: seq<HistoryEntry>, t: int)
    ensures AtTime(s + u, t) == AtTime(s, t) + AtTime(u, t)
  {
    if s != [] {
      assert (s + u)[1..] == s[1..] + u;
      AtTimeAppend(s[1..], u, t);
    } else {
      assert s + u == u;
    }
  }

  lemma {:induction false} AtTimeInsert(sorted: seq<HistoryEntry>, x: HistoryEntry, t: int)
    requires NewestFirst(sorted)
    ensures AtTime(InsertByTimestamp(sorted, x), t) ==
            AtTime(sorted, t) + (if x.timestamp == t then [x] else [])
  {
    var here := if x.timestamp == t then [x] else [];
    if sorted == [] {
      AtTimeCons(x, [], t);
    } else if x.timestamp > sorted[0].timestamp {
      AtTimeCons(x, sorted, t);
      if x.timestamp == t {
        // Every entry of `sorted` is older than `x`.
        NoneAtTime(sorted, t);
      }
    } else {
      var first := sorted[0];
      AtTimeInsert(sorted[1..], x, t);
      AtTimeCons(first, InsertByTimestamp(sorted[1..], x), t);
      AtTimeCons(first, sorted[1..], t);
      SplitFirst(sorted);
      var mine := if first.timestamp == t then [first] else [];
      SeqUtil.AppendAssociates(mine, AtTime(sorted[1..], t), here);
    }
  }

  lemma AtTimeCons(e: HistoryEntry, s: seq<HistoryEntry>, t: int)
    ensures AtTime([e] + s, t) == (if e.timestamp == t then [e] else []) + AtTime(s, t)
  {
    assert ([e] + s)[1..] == s;
  }

  lemma SplitFirst<T>(s: seq<T>)
    requires s != []
    ensures s == [s[0]] + s[1..]
  {
  }

  lemma {:induction false} NoneAtTime(s: seq<HistoryEntry>, t: int)
    requires forall k :: 0 <= k < |s| ==> s[k].timestamp < t
    ensures AtTime(s, t) == []
  {
    if s != [] {
      NoneAtTime(s[1..], t);
    }
  }

  lemma AtTimeSnoc(init: seq<HistoryEntry>, last: HistoryEntry, t: int)
    ensures AtTime(init + [last], t) == AtTime(init, t) + (if last.timestamp == t then [last] else [])
  {
    AtTimeAppend(init, [last], t);
    assert AtTime([last], t) == (if last.timestamp == t then [last] else []) + AtTime([], t);
  }

  lemma SplitLast<T>(s: seq<T>)
    requires s != []
    ensures s == s[..|s| - 1] + [s[|s| - 1]]
  {
  }

  /** The sort is stable: entries with the same timestamp keep their
      relative order. */
  lemma {:induction false} SortIsStable(s: seq<HistoryEntry>, t: int)
    ensures AtTime(SortByTimestamp(s), t) == AtTime(s, t)
  {
    if s != [] {
      var init := s[..|s| - 1];
      var last := s[|s| - 1];
      SortIsStable(init, t);
      AtTimeInsert(SortByTimestamp(init), last, t);
      AtTimeSnoc(init, last, t);
      SplitLast(s);
    }
  }

  /** `s.slice(0, end)`: a negative `end` counts back from the length. */
  function SliceTo<T>(s: seq<T>, end: int): (r: seq<T>)
    ensures |r| <= |s| && r == s[..|r|]
    ensures end >= 0 ==> |r| == if end < |s| then end else |s|
    ensures end < 0 ==> |r| == if |s| + end > 0 then |s| + end else 0
  {
    if end >= 0 then (if end < |s| then s[..end] else s)
    else if |s| + end > 0 then s[..|s| + end]
    else []
  }

  // ---------------------------------------------------------------------------
  // The history store

  class HistoryStore {
    var history: seq<HistoryEntry>
    var favorites: seq<string>

    /** The history holds at most 100 entries, no id is a favourite twice,
        and each entry's flag agrees with the favourites list. */
    ghost predicate Valid()
      reads this
    {
      && |history| <= HISTORY_CAP
      && SeqUtil.Distinct(favorites)
      && FlagsMatch(history, favorites)
    }

    constructor()
      ensures history == [] && favorites == []
      ensures Valid()
    {
      history := [];
      favorites := [];
    }

    /** `addToHistory`: the new entry, never a favourite, goes first; the
        oldest entries beyond the hundredth are dropped; the favourites are
        untouched. The id and the time are given (a fresh UUID and the clock
        in the source). */
    method AddToHistory(chords: seq<string>, result: AnalysisResponse, id: string, timestamp: int)
      modifies this
      ensures |history| == if |old(history)| < HISTORY_CAP then |old(history)| + 1 else HISTORY_CAP
      ensures history[0] == HistoryEntry(id, chords, result, timestamp, false)
      ensures history[1..] == old(history)[..|history| - 1]
      ensures favorites == old(favorites)
      ensures old(Valid()) && id !in old(favorites) ==> Valid()
    {
      var newEntry := HistoryEntry(id, chords, result, timestamp, false);
      var all := [newEntry] + history;
      history := SliceTo(all, HISTORY_CAP);
      assert history[1..] == all[1..|history|];
    }

    /** `removeFromHistory`: every entry with the id goes, the rest keep
        their order, and the id stops being a favourite. */
    method RemoveFromHistory(id: string)
      modifies this
      ensures history == WithoutId(old(history), id)
      ensures favorites == SeqUtil.RemoveAll(old(favorites), id)
      ensures old(Valid()) ==> Valid()
    {
      if Valid() {
        SeqUtil.RemoveAllKeepsDistinct(favorites, id);
        forall k | 0 <= k < |WithoutId(history, id)|
          ensures WithoutId(history, id)[k].isFavorite <==> WithoutId(history, id)[k].id in SeqUtil.RemoveAll(favorites, id)
        {
          var e := WithoutId(history, id)[k];
          assert e in WithoutId(history, id);
          SubsequenceMembers(WithoutId(history, id), history, e);
          var i :| 0 <= i < |history| && history[i] == e;
        }
      }
      history := WithoutId(history, id);
      favorites := SeqUtil.RemoveAll(favorites, id);
    }

    /** `toggleFavorite`: the id's favourite status flips (appended when it
        was not a favourite), the entries with that id take the new status,
        and every other entry is unchanged. */
    method ToggleFavorite(id: string)
      modifies this
      ensures favorites == SeqUtil.Toggle(old(favorites), id)
      ensures history == MarkFavorite(old(history), id, id !in old(favorites))
      ensures old(Valid()) ==> Valid()
    {
      var isFavorited := id in favorites;
      if Valid() {
        SeqUtil.ToggleKeepsDistinct(favorites, id);
      }
      favorites := SeqUtil.Toggle(favorites, id);
      history := MarkFavorite(history, id, !isFavorited);
    }

    /** `clearHistory` */
    method ClearHistory()
      modifies this
      ensures history == [] && favorites == []
      ensures Valid()
    {
      history := [];
      favorites := [];
    }

    /** `getRecentAnalyses(limit = 10)`: sorts the stored history newest
        first, in place, and returns its first `limit` entries. */
    method GetRecentAnalyses(limit: Option<int>) returns (recent: seq<HistoryEntry>)
      modifies this
      ensures history == SortByTimestamp(old(history))
      ensures multiset(history) == multiset(old(history)) && NewestFirst(history)
      ensures recent == SliceTo(history, limit.GetOr(DEFAULT_RECENT_LIMIT))
      ensures NewestFirst(recent)
      ensures limit.GetOr(DEFAULT_RECENT_LIMIT) >= 0 ==> |recent| <= limit.GetOr(DEFAULT_RECENT_LIMIT)
      ensures favorites == old(favorites)
      ensures old(Valid()) ==> Valid()
    {
      var old_history := history;
      history := SortByTimestamp(history);
      if FlagsMatch(old_history, favorites) {
        forall k | 0 <= k < |history| ensures history[k].isFavorite <==> history[k].id in favorites {
          assert history[k] in multiset(old_history);
        }
      }
      assert |history| == |multiset(history)| == |old_history|;
      recent := SliceTo(history, limit.GetOr(DEFAULT_RECENT_LIMIT));
    }
  }

  /** An element of a subsequence is an element of the list. */
  lemma {:induction false} SubsequenceMembers<T>(sub: seq<T>, s: seq<T>, x: T)
    requires SeqUtil.IsSubsequence(sub, s) && x in sub
    ensures x in s
    decreases |s|
  {
    if sub[0] == s[0] {
      if x != sub[0] {
        SubsequenceMembers(sub[1..], s[1..], x);
      }
    } else {
      SubsequenceMembers(sub, s[1..], x);
    }
  }
}
