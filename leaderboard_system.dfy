/** Local leaderboards (`leaderboard_system.py`): one list per game mode plus a global list,
    each sorted by descending score and cut to the best 100. The JSON file is not modelled;
    the boards start empty, as on a first start. */
module LeaderboardSystem {
  import opened Common

  datatype Entry = Entry(playerName: string, score: int, level: int, mode: string, kills: int, timestamp: string)

  /** `LeaderboardEntry(...)`: a missing or empty timestamp is replaced by the current time. */
  function NewEntry(playerName: string, score: int, level: int, mode: string, kills: int,
                    timestamp: Option<string>, now: string): (e: Entry)
    ensures timestamp.Some? && timestamp.value != "" ==> e.timestamp == timestamp.value
    ensures (timestamp.None? || timestamp.value == "") ==> e.timestamp == now
    ensures e.playerName == playerName && e.score == score && e.level == level
    ensures e.mode == mode && e.kills == kills
  {
    var stamp := if timestamp.Some? && timestamp.value != "" then timestamp.value else now;
    Entry(playerName, score, level, mode, kills, stamp)
  }

  /** A JSON value as `to_dict` produces it. */
  datatype Field = Str(s: string) | Num(n: int)

  /** `to_dict`. */
  function ToDict(e: Entry): (d: map<string, Field>)
    ensures d.Keys == {"player_name", "score", "level", "mode", "kills", "timestamp"}
  {
    map["player_name" := Str(e.playerName), "score" := Num(e.score), "level" := Num(e.level),
        "mode" := Str(e.mode), "kills" := Num(e.kills), "timestamp" := Str(e.timestamp)]
  }

  /** `from_dict`: None where Python raises (a required key missing or holding the wrong kind
      of value); an absent timestamp means "now". */
  function FromDict(d: map<string, Field>, now: string): (r: Option<Entry>)
    ensures r.Some? <==>
      ("player_name" in d && d["player_name"].Str? && "score" in d && d["score"].Num?
       && "level" in d && d["level"].Num? && "mode" in d && d["mode"].Str?
       && "kills" in d && d["kills"].Num? && ("timestamp" in d ==> d["timestamp"].Str?))
  {
    if "player_name" in d && d["player_name"].Str? && "score" in d && d["score"].Num?
       && "level" in d && d["level"].Num? && "mode" in d && d["mode"].Str?
       && "kills" in d && d["kills"].Num? && ("timestamp" in d ==> d["timestamp"].Str?)
    then
      var stamp := if "timestamp" in d then Some(d["timestamp"].s) else None;
      Some(NewEntry(d["player_name"].s, d["score"].n, d["level"].n, d["mode"].s, d["kills"].n, stamp, now))
    else None
  }

  /** Every entry built by the constructor survives `to_dict` followed by `from_dict`. */
  lemma DictRoundTrip(playerName: string, score: int, level: int, mode: string, kills: int,
                      timestamp: Option<string>, now: string, later: string)
    requires now != ""
    ensures var e := NewEntry(playerName, score, level, mode, kills, timestamp, now);
      FromDict(ToDict(e), later) == Some(e)
  {
  }

  /** Whenever the stored timestamp is empty, the round trip stamps the entry anew: only
      non-empty timestamps are kept. */
  lemma DictRoundTripNeedsTimestamp(e: Entry, later: string)
    ensures FromDict(ToDict(e), later) == Some(e) <==> e.timestamp != "" || later == ""
  {
  }

  // ---------------------------------------------------------------------------
  // Sorted boards
  // ---------------------------------------------------------------------------

  const MaxEntries: nat := 100
  const ModeKeys: set<string> := {"arcade", "survival", "boss_rush", "time_attack", "global"}
  const Global: string := "global"

  ghost predicate Sorted(es: seq<Entry>)
  {
    forall i, j :: 0 <= i < j < |es| ==> es[i].score >= es[j].score
  }

  /** Where a stable descending sort puts an entry appended to a sorted list. */
  function InsertPos(es: seq<Entry>, score: int): (k: nat)
    ensures k <= |es|
    ensures forall i :: 0 <= i < k ==> es[i].score >= score
    ensures k < |es| ==> es[k].score < score
  {
    if es == [] || es[0].score < score then 0 else 1 + InsertPos(es[1..], score)
  }

  /** `append`, `sort(key=score, reverse=True)` and `[:max_entries]` on a sorted list. */
  function AddSorted(es: seq<Entry>, e: Entry): (r: seq<Entry>)
    ensures |r| == MinI(|es| + 1, MaxEntries)
  {
    var k := InsertPos(es, e.score);
    var all := es[..k] + [e] + es[k..];
    if |all| <= MaxEntries then all else all[..MaxEntries]
  }

  lemma AddSortedAt(es: seq<Entry>, e: Entry, i: nat)
    requires i < |AddSorted(es, e)|
    ensures var k := InsertPos(es, e.score);
      AddSorted(es, e)[i] == (if i < k then es[i] else if i == k then e else es[i - 1])
  {
  }

  /** Adding keeps a list sorted and within the bound, and keeps the new entry exactly when
      fewer than `MaxEntries` older entries score at least as high. */
  lemma AddSortedProperties(es: seq<Entry>, e: Entry)
    requires Sorted(es)
    ensures Sorted(AddSorted(es, e))
    ensures |AddSorted(es, e)| == MinI(|es| + 1, MaxEntries)
    ensures e in AddSorted(es, e) <== InsertPos(es, e.score) < MaxEntries
  {
    var k := InsertPos(es, e.score);
    var r := AddSorted(es, e);
    forall i, j | 0 <= i < j < |r|
      ensures r[i].score >= r[j].score
    {
      AddSortedAt(es, e, i);
      AddSortedAt(es, e, j);
      if i == k && j - 1 > k {
        assert es[k].score >= es[j - 1].score;
      }
    }
    if k < MaxEntries {
      AddSortedAt(es, e, k);
    }
  }

  /** Every entry of the new list comes from the old list or is the new entry, so the
      operation loses entries only by truncation. */
  lemma AddSortedFrom(es: seq<Entry>, e: Entry)
    ensures forall x :: x in AddSorted(es, e) ==> x in es || x == e
  {
    forall x | x in AddSorted(es, e)
      ensures x in es || x == e
    {
      var i :| 0 <= i < |AddSorted(es, e)| && AddSorted(es, e)[i] == x;
      AddSortedAt(es, e, i);
    }
  }

  /** Python's `xs[:n]`, where a negative `n` counts from the end. */
  function Prefix<T>(xs: seq<T>, n: int): (r: seq<T>)
    ensures |r| <= |xs| && r == xs[..|r|]
    ensures n >= 0 ==> |r| == MinI(n, |xs|)
    ensures n < 0 ==> |r| == MaxI(0, |xs| + n)
  {
    if n >= 0 then (if n <= |xs| then xs[..n] else xs)
    else if |xs| + n >= 0 then xs[..|xs| + n] else []
  }

  /** `get_player_rank` on one list: the 1-based position of the first entry the score
      reaches, or one past the end. */
  function RankIn(es: seq<Entry>, score: int): (rank: int)
    ensures 1 <= rank <= |es| + 1
    ensures forall i :: 0 <= i < rank - 1 ==> score < es[i].score
    ensures rank <= |es| ==> score >= es[rank - 1].score
  {
    if es == [] || score >= es[0].score then 1 else 1 + RankIn(es[1..], score)
  }

  /** On a sorted list the rank counts exactly the entries with a higher score. */
  lemma RankCountsHigher(es: seq<Entry>, score: int)
    requires Sorted(es)
    ensures forall i :: 0 <= i < |es| ==> (i < RankIn(es, score) - 1 <==> score < es[i].score)
  {
    var r := RankIn(es, score);
    forall i | r - 1 < i < |es|
      ensures score >= es[i].score
    {
      assert es[r - 1].score >= es[i].score;
    }
  }

  /** The result of `get_stats` on one list. */
  datatype Stats = Stats(totalEntries: nat, highestScore: int, averageScore: int, totalKills: int)

  function MaxScore(es: seq<Entry>): (m: int)
    requires es != []
    ensures forall i :: 0 <= i < |es| ==> es[i].score <= m
    ensures exists i :: 0 <= i < |es| && es[i].score == m
  {
    if |es| == 1 then es[0].score
    else
      var rest := MaxScore(es[1..]);
      assert forall i :: 1 <= i < |es| ==> es[i] == es[1..][i - 1];
      if es[0].score >= rest then es[0].score else rest
  }

  function SumScores(es: seq<Entry>): int
  {
    if es == [] then 0 else es[0].score + SumScores(es[1..])
  }

  function SumKills(es: seq<Entry>): int
  {
    if es == [] then 0 else es[0].kills + SumKills(es[1..])
  }

  /** The floor of the mean lies between the smallest and the largest score: it is at most
      the maximum. */
  lemma {:induction false} SumAtMostMax(es: seq<Entry>, m: int)
    requires forall i :: 0 <= i < |es| ==> es[i].score <= m
    ensures SumScores(es) <= |es| * m
  {
    if es != [] {
      SumAtMostMax(es[1..], m);
    }
  }

  function StatsOf(es: seq<Entry>): (s: Stats)
    ensures s.totalEntries == |es|
    ensures es == [] ==> s == Stats(0, 0, 0, 0)
    ensures es != [] ==> s.highestScore == MaxScore(es) && s.averageScore <= s.highestScore
    ensures es != [] ==> s.averageScore * |es| <= SumScores(es) < (s.averageScore + 1) * |es|
  {
    if es == [] then Stats(0, 0, 0, 0)
    else
      var avg := SumScores(es) / |es|;
      SumAtMostMax(es, MaxScore(es));
      AverageBelowMax(SumScores(es), |es|, MaxScore(es));
      Stats(|es|, MaxScore(es), avg, SumKills(es))
  }

  lemma AverageBelowMax(sum: int, n: int, m: int)
    requires n > 0 && sum <= n * m
    ensures sum / n <= m
    ensures (sum / n) * n <= sum < (sum / n + 1) * n
  {
    var q := sum / n;
    assert sum == q * n + sum % n;
  }

  /** Every list sorted and within the bound. */
  ghost predicate BoardsOk(b: map<string, seq<Entry>>)
  {
    forall m :: m in b ==> Sorted(b[m]) && |b[m]| <= MaxEntries
  }

  /** Replacing the list of a present key by a sorted, bounded one keeps the key set and the
      lists sorted and bounded. */
  lemma PutKeepsBoards(b: map<string, seq<Entry>>, k: string, v: seq<Entry>)
    requires k in b && BoardsOk(b) && Sorted(v) && |v| <= MaxEntries
    ensures b[k := v].Keys == b.Keys && BoardsOk(b[k := v])
  {
  }

  /** The boards after adding an entry: into the list of the lower-cased mode when that is a
      key, then into the global list. */
  function Added(b: map<string, seq<Entry>>, e: Entry): map<string, seq<Entry>>
    requires Global in b
  {
    var key := Lower(e.mode);
    var afterMode := if key in b then b[key := AddSorted(b[key], e)] else b;
    afterMode[Global := AddSorted(afterMode[Global], e)]
  }

  /** Only the mode's list and the global list change; a mode whose lower-case form is not a
      key (such as `BOSS RUSH`) reaches only the global list, and `global` itself receives
      the entry twice. */
  lemma AddedChanges(b: map<string, seq<Entry>>, e: Entry)
    requires Global in b
    ensures Added(b, e).Keys == b.Keys
    ensures forall m :: m in b && m != Global && m != Lower(e.mode) ==> Added(b, e)[m] == b[m]
    ensures Lower(e.mode) in b && Lower(e.mode) != Global ==>
      Added(b, e)[Lower(e.mode)] == AddSorted(b[Lower(e.mode)], e)
    ensures Lower(e.mode) !in b ==> Added(b, e)[Global] == AddSorted(b[Global], e)
    ensures Lower(e.mode) == Global ==> Added(b, e)[Global] == AddSorted(AddSorted(b[Global], e), e)
  {
  }

  class Leaderboards {
    var boards: map<string, seq<Entry>>

    /** The five lists exist, each is sorted and none exceeds the bound. */
    ghost predicate Valid()
      reads this
    {
      boards.Keys == ModeKeys && BoardsOk(boards)
    }

    constructor ()
      ensures Valid()
      ensures forall m :: m in ModeKeys ==> boards[m] == []
    {
      boards := map["arcade" := [], "survival" := [], "boss_rush" := [], "time_attack" := [], "global" := []];
    }

    /** `add_entry`: into the list of the lower-cased mode when there is one, then into the
        global list. */
    method AddEntry(e: Entry)
      requires Valid()
      modifies this
      ensures Valid()
      ensures boards == Added(old(boards), e)
    {
      var key := Lower(e.mode);
      if key in boards {
        AddSortedProperties(boards[key], e);
        PutKeepsBoards(boards, key, AddSorted(boards[key], e));
        boards := boards[key := AddSorted(boards[key], e)];
      }
      assert Global in ModeKeys;
      AddSortedProperties(boards[Global], e);
      PutKeepsBoards(boards, Global, AddSorted(boards[Global], e));
      boards := boards[Global := AddSorted(boards[Global], e)];
    }

    /** `get_top_entries`: a prefix of at most `limit` entries, or nothing for an unknown mode. */
    function TopEntries(mode: string, limit: int): (r: seq<Entry>)
      reads this
      ensures Lower(mode) in boards ==> r == Prefix(boards[Lower(mode)], limit)
      ensures Lower(mode) !in boards ==> r == []
      ensures limit >= 0 ==> |r| <= limit
    {
      var key := Lower(mode);
      if key in boards then Prefix(boards[key], limit) else []
    }

    /** `get_player_rank`: -1 for an unknown mode, else the rank the loop finds. */
    method PlayerRank(score: int, mode: string) returns (rank: int)
      ensures Lower(mode) !in boards ==> rank == -1
      ensures Lower(mode) in boards ==> rank == RankIn(boards[Lower(mode)], score)
    {
      var key := Lower(mode);
      if key !in boards {
        return -1;
      }
      var entries := boards[key];
      rank := 1;
      var i := 0;
      while i < |entries|
        invariant 0 <= i <= |entries| && rank == i + 1
        invariant RankIn(entries, score) == i + RankIn(entries[i..], score)
      {
        if score >= entries[i].score {
          return rank;
        }
        assert entries[i..][1..] == entries[i + 1..];
        rank := rank + 1;
        i := i + 1;
      }
    }

    /** `is_high_score`: True for an unknown mode or a list shorter than ten, else whether the
        score beats the tenth entry. */
    function IsHighScore(score: int, mode: string): (r: bool)
      reads this
      ensures Lower(mode) !in boards ==> r
      ensures Lower(mode) in boards ==>
        (r <==> |boards[Lower(mode)]| < 10 || score > boards[Lower(mode)][9].score)
    {
      var key := Lower(mode);
      if key !in boards then true
      else
        var entries := boards[key];
        if |entries| < 10 then true else score > entries[9].score
    }

    /** `get_stats`: None stands for the empty dictionary of an unknown mode. */
    function GetStats(mode: string): (r: Option<Stats>)
      reads this
      ensures r.Some? <==> Lower(mode) in boards
      ensures r.Some? ==> r.value == StatsOf(boards[Lower(mode)])
    {
      var key := Lower(mode);
      if key !in boards then None else Some(StatsOf(boards[key]))
    }
  }

  /** On a sorted list, a high score in the sense of `is_high_score` lands in the top ten. */
  lemma HighScoreReachesTopTen(es: seq<Entry>, score: int)
    requires Sorted(es) && (|es| < 10 || score > es[9].score)
    ensures InsertPos(es, score) < 10
  {
  }

  /** The mode names the game passes that contain a space are not board keys: the
      lower-cased name keeps the space where the key has an underscore. */
  lemma SpacedModesAreGlobalOnly()
    ensures Lower("BOSS RUSH") !in ModeKeys && Lower("TIME ATTACK") !in ModeKeys
  {
    assert "BOSS RUSH"[4] == ' ' && "TIME ATTACK"[4] == ' ';
    SpaceIsNoKey(Lower("BOSS RUSH"));
    SpaceIsNoKey(Lower("TIME ATTACK"));
  }

  /** No board key has a space as its fifth character. */
  lemma SpaceIsNoKey(s: string)
    requires |s| > 4 && s[4] == ' '
    ensures s !in ModeKeys
  {
    assert "arcade"[4] == 'd' && "survival"[4] == 'i' && "boss_rush"[4] == '_';
    assert "time_attack"[4] == '_' && "global"[4] == 'a';
  }
}
