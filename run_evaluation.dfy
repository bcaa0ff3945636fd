/** The modelled logic of scripts/run_evaluation.py: the score list and the
    fixed-order histogram of `get_metrics`, and the numbering of the run
    directory a new prediction run is saved in. */
module RunEvaluation {
  import opened Common
  import opened Retriever
  import opened Evaluation

  // ------------------------------------------------------------ scores

  /** Subscripting a JSON value by a string key: only a dict can be, and a
      missing key raises. */
  function Subscript(v: Value, key: string): (r: Result<Value>)
    ensures r.Ok? <==> v.VDict? && key in v.entries
    ensures r.Ok? ==> r.value == v.entries[key]
    ensures v.VDict? && key !in v.entries ==> r == Err(KeyError(key))
    ensures !v.VDict? ==> r == Err(TypeError)
  {
    match v
    case VDict(m) => if key in m then Ok(m[key]) else Err(KeyError(key))
    case _ => Err(TypeError)
  }

  /** `item["evaluation"]["score"]`. */
  function Score(item: Value): Result<Value>
  {
    var evaluation :- Subscript(item, "evaluation");
    Subscript(evaluation, "score")
  }

  /** The list comprehension over the items of a list, in order; the first
      item without a score raises. */
  function ScoresOf(items: seq<Value>): (r: Result<seq<Value>>)
    ensures r.Ok? <==> forall i :: 0 <= i < |items| ==> Score(items[i]).Ok?
    ensures r.Ok? ==> |r.value| == |items| && forall i :: 0 <= i < |items| ==> Score(items[i]) == Ok(r.value[i])
    ensures r.Err? ==>
              exists k :: 0 <= k < |items| && Score(items[k]) == Err(r.error)
                          && forall j :: 0 <= j < k ==> Score(items[j]).Ok?
  {
    if |items| == 0 then Ok([])
    else
      match Score(items[0])
      case Err(e) => Err(e)
      case Ok(first) =>
        assert forall j :: 1 <= j < |items| ==> items[1..][j - 1] == items[j];
        match ScoresOf(items[1..])
        case Err(e) => Err(e)
        case Ok(rest) => Ok([first] + rest)
  }

  /** `[item["evaluation"]["score"] for item in sampled_data]` on the loaded
      file.  Iterating a dict yields its keys and iterating a string its
      characters, both strings, which cannot be subscripted by a key; so
      those succeed only when empty.  Other scalars are not iterable. */
  function ExtractScores(data: Value): (r: Result<seq<Value>>)
    ensures data.VList? ==> r == ScoresOf(data.items)
    ensures data.VDict? ==> (r.Ok? <==> |data.entries| == 0)
    ensures data.VStr? ==> (r.Ok? <==> |data.s| == 0)
    ensures data.VNull? || data.VBool? || data.VInt? || data.VReal? ==> r == Err(TypeError)
    ensures r.Ok? && !data.VList? ==> r.value == []
  {
    match data
    case VList(items) => ScoresOf(items)
    case VDict(m) => if |m| == 0 then Ok([]) else Err(TypeError)
    case VStr(s) => if |s| == 0 then Ok([]) else Err(TypeError)
    case _ => Err(TypeError)
  }

  /** `score_order`. */
  const ScoreOrder: seq<string> := ["none", "few", "most", "all"]

  /** How many scores are the label: `Counter(scores).get(label, 0)`. */
  function Count(scores: seq<Value>, tag: string): (n: nat)
    ensures n == multiset(scores)[VStr(tag)]
    ensures n <= |scores|
    ensures n == 0 <==> VStr(tag) !in scores
  {
    if |scores| == 0 then 0
    else
      assert scores == [scores[0]] + scores[1..];
      (if scores[0] == VStr(tag) then 1 else 0) + Count(scores[1..], tag)
  }

  /** `Counter(scores)` needs every score hashable; then the counts are
      listed in the fixed order none, few, most, all. */
  function ScoreCounts(scores: seq<Value>): (r: Result<seq<nat>>)
    ensures r.Ok? <==> forall i :: 0 <= i < |scores| ==> Hashable(scores[i])
    ensures r.Err? ==> r.error == TypeError
    ensures r.Ok? ==>
              && |r.value| == |ScoreOrder|
              && forall j :: 0 <= j < |ScoreOrder| ==> r.value[j] == multiset(scores)[VStr(ScoreOrder[j])]
  {
    if forall i :: 0 <= i < |scores| ==> Hashable(scores[i]) then
      Ok(seq(|ScoreOrder|, j requires 0 <= j < |ScoreOrder| => Count(scores, ScoreOrder[j])))
    else Err(TypeError)
  }

  /** The modelled part of `get_metrics`: read the scores, count them. */
  function Metrics(data: Value): Result<seq<nat>>
  {
    var scores :- ExtractScores(data);
    ScoreCounts(scores)
  }

  predicate IsLabel(v: Value)
  {
    v.VStr? && v.s in ScoreOrder
  }

  /** Scores outside the four labels are counted nowhere: the counts add up
      to at most the number of scores, and to exactly that number when every
      score is a label. */
  lemma CountsTotal(scores: seq<Value>)
    requires ScoreCounts(scores).Ok?
    ensures var c := ScoreCounts(scores).value;
            && c[0] + c[1] + c[2] + c[3] <= |scores|
            && (c[0] + c[1] + c[2] + c[3] == |scores| <==> forall i :: 0 <= i < |scores| ==> IsLabel(scores[i]))
  {
    LabelCounts(scores);
  }

  /** The four counts, added up. */
  function LabelTotal(scores: seq<Value>): nat
  {
    Count(scores, "none") + Count(scores, "few") + Count(scores, "most") + Count(scores, "all")
  }

  /** A score adds one to the count of at most one label, and to one exactly
      when it is a label. */
  lemma HeadCounted(scores: seq<Value>)
    requires |scores| > 0
    ensures LabelTotal(scores) == LabelTotal(scores[1..]) + (if IsLabel(scores[0]) then 1 else 0)
  {
    var h := scores[0];
    assert IsLabel(h) <==> h == VStr("none") || h == VStr("few") || h == VStr("most") || h == VStr("all");
  }

  lemma {:induction false} LabelCounts(scores: seq<Value>)
    ensures LabelTotal(scores) <= |scores|
    ensures LabelTotal(scores) == |scores| <==> forall i :: 0 <= i < |scores| ==> IsLabel(scores[i])
  {
    if |scores| > 0 {
      HeadCounted(scores);
      LabelCounts(scores[1..]);
      assert forall i :: 1 <= i < |scores| ==> scores[1..][i - 1] == scores[i];
    }
  }

  /** An absent label counts zero, and a label that occurs is counted. */
  lemma AbsentLabelCountsZero(scores: seq<Value>, j: nat)
    requires j < |ScoreOrder| && ScoreCounts(scores).Ok?
    ensures ScoreCounts(scores).value[j] == 0 <==> VStr(ScoreOrder[j]) !in scores
  {
    assert ScoreCounts(scores).value[j] == Count(scores, ScoreOrder[j]);
  }

  /** The saved evaluation of a prediction run is `evaluate_prediction`'s
      None, so the metrics of such a run cannot be computed. */
  lemma MetricsOfStubEvaluation(sampled: seq<Evaluation.Record>)
    ensures Metrics(EvaluatePrediction(sampled)) == Err(TypeError)
  {
  }

  // ------------------------------------------------------------ run directories

  const RunPrefix: string := "run_"

  /** The entries `glob("run_*")` finds among the names in the evaluations
      directory (files and directories alike). */
  function RunEntries(names: set<string>): (r: set<string>)
    ensures r <= names
    ensures forall n :: n in names && StartsWith(n, RunPrefix) <==> n in r
  {
    set n | n in names && StartsWith(n, RunPrefix)
  }

  /** `f"run_{run_id}"`. */
  function RunDirName(id: nat): (r: string)
    ensures StartsWith(r, RunPrefix)
  {
    var r := RunPrefix + NatToString(id);
    assert r[..|RunPrefix|] == RunPrefix;
    r
  }

  lemma RunDirNameInjective(a: nat, b: nat)
    requires RunDirName(a) == RunDirName(b)
    ensures a == b
  {
    assert NatToString(a) == RunDirName(a)[|RunPrefix|..];
    assert NatToString(b) == RunDirName(b)[|RunPrefix|..];
    NatToStringInjective(a, b);
  }

  /** The id as written: one more than the number of `run_*` entries. */
  function RunId(names: set<string>): nat
  {
    |RunEntries(names)| + 1
  }

  /** The directory `main` saves a new run in, as written. */
  function RunDirAsWritten(names: set<string>): string
  {
    RunDirName(RunId(names))
  }

  /** After a run has saved into a directory that did not exist, the next
      run's id is one larger. */
  lemma NextRunId(names: set<string>, id: nat)
    requires RunDirName(id) !in names
    ensures RunId(names + {RunDirName(id)}) == RunId(names) + 1
  {
    assert RunEntries(names + {RunDirName(id)}) == RunEntries(names) + {RunDirName(id)};
  }

  /** With `run_1` gone and `run_2` kept, the id is 2 again and the new run
      lands in the existing `run_2` (`mkdir(exist_ok=True)`), overwriting
      its predictions. */
  lemma RunIdCollision()
    ensures RunId({"run_2"}) == 2
    ensures RunDirAsWritten({"run_2"}) == "run_2"
    ensures RunDirAsWritten({"run_2"}) in {"run_2"}
  {
    assert StartsWith("run_2", RunPrefix);
    assert RunEntries({"run_2"}) == {"run_2"};
    assert NatToString(2) == "2";
  }

  /** The smallest id from `from` on whose directory is not among `names`. */
  function FirstFree(names: set<string>, from: nat): (id: nat)
    ensures id >= from && RunDirName(id) !in names
    ensures forall m :: from <= m < id ==> RunDirName(m) in names
    decreases |names|
  {
    if RunDirName(from) in names then
      var id := FirstFree(names - {RunDirName(from)}, from + 1);
      assert RunDirName(id) != RunDirName(from) by {
        if RunDirName(id) == RunDirName(from) {
          RunDirNameInjective(id, from);
        }
      }
      id
    else from
  }

  /** The intended id: the smallest one from 1 whose directory is free, so a
      new run never reuses an existing directory. */
  function FreshRunId(names: set<string>): (id: nat)
    ensures id >= 1 && RunDirName(id) !in names
    ensures forall m :: 1 <= m < id ==> RunDirName(m) in names
  {
    FirstFree(names, 1)
  }

  /** The directory a new run is saved in, with the fresh id. */
  function NewRunDir(names: set<string>): (r: string)
    ensures r !in names && StartsWith(r, RunPrefix)
  {
    RunDirName(FreshRunId(names))
  }

  /** The directories of runs 1 to k. */
  function RunsUpTo(k: nat): set<string>
  {
    set m | 1 <= m <= k :: RunDirName(m)
  }

  lemma {:induction false} RunsUpToSize(k: nat)
    ensures |RunsUpTo(k)| == k
  {
    if k > 0 {
      RunsUpToSize(k - 1);
      assert RunsUpTo(k) == RunsUpTo(k - 1) + {RunDirName(k)};
      if RunDirName(k) in RunsUpTo(k - 1) {
        var m :| 1 <= m <= k - 1 && RunDirName(m) == RunDirName(k);
        RunDirNameInjective(m, k);
      }
    }
  }

  /** While the `run_*` entries are exactly the runs 1 to k, the count rule
      and the fresh id agree: both give k + 1. */
  lemma FreshAgreesWhenContiguous(names: set<string>, k: nat)
    requires RunEntries(names) == RunsUpTo(k)
    ensures RunId(names) == k + 1 && FreshRunId(names) == k + 1
  {
    RunsUpToSize(k);
    assert RunDirName(k + 1) !in names by {
      if RunDirName(k + 1) in RunsUpTo(k) {
        var m :| 1 <= m <= k && RunDirName(m) == RunDirName(k + 1);
        RunDirNameInjective(m, k + 1);
      }
    }
    var id := FreshRunId(names);
    assert id <= k + 1;
    assert forall m :: 1 <= m <= k ==> RunDirName(m) in RunsUpTo(k);
  }
}
