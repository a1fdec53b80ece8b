/** The leaderboard screen: the request it makes, and the rows it picks out of the
    response (the top partner, the runner-up, the pool total and the listed five). */
module Leaderboard {
  import opened Base
  import opened Api
  import Query
  import PartnerService

  type Entry = PartnerService.LeaderboardEntry

  const RequestLimit := 10
  const ListedCount := 5
  const LoadFailedMessage := "Failed to load leaderboard"

  /** The screen's one request: the leaderboard, limited to ten rows. */
  function LeaderboardRequest(): (c: Call<Json.Json>)
    ensures c.verb == Get && c.endpoint == PartnerService.LeaderboardEndpoint && c.options.params.Some?
    ensures Query.Lookup(c.options.params.value, "limit") == Some("10")
    ensures Query.Lookup(c.options.params.value, "include_recent_transactions").None?
  {
    assert IntToString(RequestLimit) == "10";
    PartnerService.GetLeaderboard(PartnerService.GetLeaderboardParams(Some(RequestLimit), None))
  }

  // ---- Array.prototype.find ----

  /** `i` is the first index whose entry satisfies `p`. */
  predicate FirstWith(entries: seq<Entry>, p: Entry -> bool, i: int) {
    0 <= i < |entries| && p(entries[i]) && forall j :: 0 <= j < i ==> !p(entries[j])
  }

  /** The index `find` stops at, if any. */
  function FindIndex(entries: seq<Entry>, p: Entry -> bool): (r: Option<nat>)
    ensures r.Some? ==> FirstWith(entries, p, r.value)
    ensures r.None? <==> forall j :: 0 <= j < |entries| ==> !p(entries[j])
    decreases |entries|
  {
    if entries == [] then None
    else if p(entries[0]) then Some(0)
    else match FindIndex(entries[1..], p)
      case None => None
      case Some(i) =>
        assert entries[1..][i] == entries[i + 1];
        Some(i + 1)
  }

  /** `entries.find(p)`. */
  function Find(entries: seq<Entry>, p: Entry -> bool): (r: Option<Entry>)
    ensures r.None? <==> forall j :: 0 <= j < |entries| ==> !p(entries[j])
    ensures r.Some? ==> exists i :: FirstWith(entries, p, i) && entries[i] == r.value
  {
    match FindIndex(entries, p)
    case None => None
    case Some(i) => Some(entries[i])
  }

  predicate IsTop(e: Entry) {
    e.topContributor
  }

  predicate IsRunnerUp(e: Entry) {
    !e.topContributor && e.rank == 2
  }

  // ---- the picks ----

  /** `find(p => p.top_contributor) || leaderboard[0]`: the first flagged row, else the
      first row, else nothing. */
  function TopPartner(entries: seq<Entry>): (r: Option<Entry>)
    ensures r.None? <==> entries == []
    ensures (exists j :: 0 <= j < |entries| && IsTop(entries[j])) ==>
      exists i :: FirstWith(entries, IsTop, i) && r == Some(entries[i])
    ensures (forall j :: 0 <= j < |entries| ==> !IsTop(entries[j])) && entries != [] ==> r == Some(entries[0])
  {
    match Find(entries, IsTop)
    case Some(e) => Some(e)
    case None => if entries == [] then None else Some(entries[0])
  }

  /** `find(p => !p.top_contributor && p.rank === 2)`. */
  function SecondPartner(entries: seq<Entry>): (r: Option<Entry>)
    ensures r.None? <==> forall j :: 0 <= j < |entries| ==> !IsRunnerUp(entries[j])
    ensures r.Some? ==> exists i :: FirstWith(entries, IsRunnerUp, i) && entries[i] == r.value
  {
    Find(entries, IsRunnerUp)
  }

  /** When some row is flagged, the top partner and the runner-up are different rows. */
  lemma TopAndSecondDiffer(entries: seq<Entry>)
    requires exists j :: 0 <= j < |entries| && IsTop(entries[j])
    requires SecondPartner(entries).Some?
    ensures TopPartner(entries).value != SecondPartner(entries).value
  {
  }

  /** Without a flagged row the fallback can pick the runner-up as the top partner too:
      a single unflagged row of rank 2 is both. */
  lemma UnflaggedRunnerUpIsAlsoTop(e: Entry)
    requires !e.topContributor && e.rank == 2
    ensures TopPartner([e]) == SecondPartner([e]) == Some(e)
  {
    assert FirstWith([e], IsRunnerUp, 0);
  }

  /** `reduce((sum, p) => sum + p.total_contributed, 0)`, folding from the left. */
  function TotalPool(entries: seq<Entry>): (total: int)
    ensures (forall j :: 0 <= j < |entries| ==> entries[j].totalContributed >= 0) ==> total >= 0
    decreases |entries|
  {
    if entries == [] then 0
    else TotalPool(entries[..|entries| - 1]) + entries[|entries| - 1].totalContributed
  }

  /** The pool of two lists back to back is the sum of their pools. */
  lemma {:induction false} TotalPoolAppend(a: seq<Entry>, b: seq<Entry>)
    ensures TotalPool(a + b) == TotalPool(a) + TotalPool(b)
    decreases |b|
  {
    if b != [] {
      var init := b[..|b| - 1];
      assert (a + b)[..|a + b| - 1] == a + init;
      assert (a + b)[|a + b| - 1] == b[|b| - 1];
      TotalPoolAppend(a, init);
    } else {
      assert a + b == a;
    }
  }

  /** With no negative contributions, the pool is at least any one partner's total. */
  lemma {:induction false} TotalPoolCoversEach(entries: seq<Entry>, i: int)
    requires forall j :: 0 <= j < |entries| ==> entries[j].totalContributed >= 0
    requires 0 <= i < |entries|
    ensures TotalPool(entries) >= entries[i].totalContributed
    decreases |entries|
  {
    var init := entries[..|entries| - 1];
    if i < |entries| - 1 {
      assert init[i] == entries[i];
      TotalPoolCoversEach(init, i);
    } else {
      assert forall j :: 0 <= j < |init| ==> init[j].totalContributed >= 0 by {
        forall j | 0 <= j < |init| ensures init[j].totalContributed >= 0 {
          assert init[j] == entries[j];
        }
      }
    }
  }

  /** `slice(0, 5)`: the first five rows in their original order, or all of them when
      fewer. */
  function FirstFive(entries: seq<Entry>): (shown: seq<Entry>)
    ensures |shown| == if |entries| < ListedCount then |entries| else ListedCount
    ensures shown <= entries
  {
    if |entries| < ListedCount then entries else entries[..ListedCount]
  }

  /** The top partner is listed whenever the first flagged row is among the first five;
      the fallback (the first row) always is. */
  lemma TopPartnerListed(entries: seq<Entry>)
    requires TopPartner(entries).Some?
    requires forall j :: FirstWith(entries, IsTop, j) ==> j < ListedCount
    ensures TopPartner(entries).value in FirstFive(entries)
  {
    var shown := FirstFive(entries);
    if exists j :: 0 <= j < |entries| && IsTop(entries[j]) {
      var i :| FirstWith(entries, IsTop, i) && TopPartner(entries) == Some(entries[i]);
      assert shown[i] == entries[i];
    } else {
      assert shown[0] == entries[0];
    }
  }

  // ---- the screen's state ----

  datatype BoardState = BoardState(entries: seq<Entry>, loading: bool, error: Option<string>)

  const Initial := BoardState([], true, None)

  /** `fetchLeaderboard` once the request settles: the rows are replaced on success, the
      error message is set on any failure (keeping the old rows), and loading always ends. */
  function Settle(st: BoardState, outcome: Result<PartnerService.LeaderboardResponse, Thrown>): (t: BoardState)
    ensures !t.loading
    ensures outcome.Success? ==> t.entries == outcome.value.data && t.error.None?
    ensures outcome.Failure? ==> t.entries == st.entries && t.error == Some(LoadFailedMessage)
  {
    match outcome
    case Success(resp) => BoardState(resp.data, false, None)
    case Failure(_) => BoardState(st.entries, false, Some(LoadFailedMessage))
  }
}
