/**
 * The job-queue status route: a user's queued job applications, a count of
 * them per status, and their total.
 *
 * The database query is a parameter: `fetch(userId)` is the user's rows
 * (newest first) or `None` when the query reports an error. Only a row's
 * `status` enters the summary; the other columns are passed through in
 * `queue` untouched.
 */
module QueueStatus {
  import opened Wrappers

  /** One key of the summary record and its count; the record keeps its keys in insertion order. */
  datatype Entry = Entry(status: string, count: nat)

  /** `{ pending: 0, processing: 0, completed: 0, failed: 0 }`. */
  const Seeds: seq<Entry> := [Entry("pending", 0), Entry("processing", 0), Entry("completed", 0), Entry("failed", 0)]

  predicate HasKey(summary: seq<Entry>, s: string) {
    exists i :: 0 <= i < |summary| && summary[i].status == s
  }

  predicate DistinctKeys(summary: seq<Entry>) {
    forall i, j :: 0 <= i < j < |summary| ==> summary[i].status != summary[j].status
  }

  /** The number of rows with status `s`. */
  function CountOf(rows: seq<string>, s: string): (r: nat)
    ensures r <= |rows|
    ensures s !in rows ==> r == 0
  {
    if rows == [] then 0
    else CountOf(rows[..|rows| - 1], s) + (if rows[|rows| - 1] == s then 1 else 0)
  }

  function Sum(summary: seq<Entry>): nat {
    if summary == [] then 0 else Sum(summary[..|summary| - 1]) + summary[|summary| - 1].count
  }

  /** `acc[s]` as a position in the record. */
  function Find(summary: seq<Entry>, s: string): (r: Option<nat>)
    ensures r.Some? ==> r.value < |summary| && summary[r.value].status == s
    ensures r.None? ==> !HasKey(summary, s)
  {
    if summary == [] then None
    else if summary[|summary| - 1].status == s then Some(|summary| - 1)
    else Find(summary[..|summary| - 1], s)
  }

  /** `acc[s] = (acc[s] || 0) + 1`. */
  function Bump(summary: seq<Entry>, s: string): (r: seq<Entry>)
    ensures |summary| <= |r| <= |summary| + 1
    ensures forall i :: 0 <= i < |summary| ==> r[i].status == summary[i].status
    ensures HasKey(summary, s) ==> |r| == |summary|
    ensures |r| > |summary| ==> r[|summary|] == Entry(s, 1)
  {
    match Find(summary, s)
    case Some(i) => summary[i := Entry(s, summary[i].count + 1)]
    case None => summary + [Entry(s, 1)]
  }

  /** The `reduce` of lines 47-54: the seeded record, bumped once per row in order. */
  function Tally(rows: seq<string>): (r: seq<Entry>)
    ensures SeedsFirst(r) && |r| <= |Seeds| + |rows|
  {
    if rows == [] then Seeds else Bump(Tally(rows[..|rows| - 1]), rows[|rows| - 1])
  }

  /** The summary of `rows`: the four seeds first, one key per status, each counting its rows. */
  ghost predicate Summarizes(rows: seq<string>, summary: seq<Entry>) {
    && SeedsFirst(summary)
    && DistinctKeys(summary)
    && CountsRows(rows, summary)
    && (forall s :: HasKey(summary, s) <==> HasKey(Seeds, s) || s in rows)
    && Sum(summary) == |rows|
  }

  predicate SeedsFirst(summary: seq<Entry>) {
    |summary| >= 4 && forall i :: 0 <= i < 4 ==> summary[i].status == Seeds[i].status
  }

  ghost predicate CountsRows(rows: seq<string>, summary: seq<Entry>) {
    forall i :: 0 <= i < |summary| ==> summary[i].count == CountOf(rows, summary[i].status)
  }

  lemma {:induction false} SumUpdate(summary: seq<Entry>, i: nat, e: Entry)
    requires i < |summary|
    ensures Sum(summary[i := e]) == Sum(summary) - summary[i].count + e.count
    decreases |summary|
  {
    var last := |summary| - 1;
    if i < last {
      assert summary[i := e][..last] == summary[..last][i := e];
      SumUpdate(summary[..last], i, e);
    } else {
      assert summary[i := e][..last] == summary[..last];
    }
  }

  /**
   * `after` is `before` with `s` bumped: one more in total and for `s`, the
   * keys kept in order, and a key of its own for `s` at the end if it had none.
   */
  ghost predicate Bumped(before: seq<Entry>, after: seq<Entry>, s: string) {
    && Sum(after) == Sum(before) + 1
    && (forall t :: HasKey(after, t) <==> HasKey(before, t) || t == s)
    && |before| <= |after|
    && (forall i :: 0 <= i < |before| ==> after[i].status == before[i].status)
    && DistinctKeys(after)
    && (forall i :: 0 <= i < |before| && before[i].status != s ==> after[i].count == before[i].count)
    && (forall i :: 0 <= i < |before| && before[i].status == s ==> after[i].count == before[i].count + 1)
    && (forall i :: |before| <= i < |after| ==> after[i] == Entry(s, 1))
  }

  lemma BumpExisting(acc: seq<Entry>, s: string, i: nat)
    requires DistinctKeys(acc) && i < |acc| && acc[i].status == s
    ensures Bumped(acc, acc[i := Entry(s, acc[i].count + 1)], s)
  {
    var acc' := acc[i := Entry(s, acc[i].count + 1)];
    SumUpdate(acc, i, Entry(s, acc[i].count + 1));
    forall t ensures HasKey(acc', t) <==> HasKey(acc, t) || t == s {
      if HasKey(acc, t) {
        var j :| 0 <= j < |acc| && acc[j].status == t;
        assert acc'[j].status == t;
      }
      if HasKey(acc', t) {
        var j :| 0 <= j < |acc'| && acc'[j].status == t;
        assert acc[j].status == t;
      }
    }
  }

  lemma BumpFresh(acc: seq<Entry>, s: string)
    requires DistinctKeys(acc) && !HasKey(acc, s)
    ensures Bumped(acc, acc + [Entry(s, 1)], s)
  {
    var acc' := acc + [Entry(s, 1)];
    assert acc'[..|acc'| - 1] == acc;
    forall t ensures HasKey(acc', t) <==> HasKey(acc, t) || t == s {
      if HasKey(acc', t) {
        var j :| 0 <= j < |acc'| && acc'[j].status == t;
        if j < |acc| {
          assert acc[j].status == t;
        }
      }
      if HasKey(acc, t) {
        var j :| 0 <= j < |acc| && acc[j].status == t;
        assert acc'[j].status == t;
      }
      if t == s {
        assert acc'[|acc|].status == t;
      }
    }
  }

  /** Bumping a key adds one to the total and to that status's count, and keeps the keys and their order. */
  lemma {:induction false} BumpFacts(acc: seq<Entry>, s: string)
    requires DistinctKeys(acc)
    ensures Bumped(acc, Bump(acc, s), s)
  {
    match Find(acc, s)
    case Some(i) => BumpExisting(acc, s, i);
    case None => BumpFresh(acc, s);
  }

  lemma {:induction false} BumpSummarizes(rows: seq<string>, acc: seq<Entry>, s: string)
    requires Summarizes(rows, acc)
    ensures Summarizes(rows + [s], Bump(acc, s))
  {
    var rows' := rows + [s];
    assert rows'[..|rows'| - 1] == rows;
    BumpFacts(acc, s);
    forall t ensures HasKey(Bump(acc, s), t) <==> HasKey(Seeds, t) || t in rows' {
      assert t in rows' <==> t in rows || t == s;
    }
  }

  lemma {:induction false} SeedsSummarize()
    ensures Summarizes([], Seeds)
  {
    SumZeros(Seeds);
  }

  lemma {:induction false} SumZeros(summary: seq<Entry>)
    requires forall i :: 0 <= i < |summary| ==> summary[i].count == 0
    ensures Sum(summary) == 0
    decreases |summary|
  {
    if summary != [] {
      var init := summary[..|summary| - 1];
      assert forall i :: 0 <= i < |init| ==> init[i] == summary[i];
      SumZeros(init);
    }
  }

  /**
   * The summary always starts with the four seeded statuses, has one key per
   * status (a status outside the four gets its own), counts each status's
   * rows exactly, and its counts add up to the number of rows.
   */
  lemma {:induction false} TallySummarizes(rows: seq<string>)
    ensures Summarizes(rows, Tally(rows))
    decreases |rows|
  {
    if rows == [] {
      SeedsSummarize();
    } else {
      var init := rows[..|rows| - 1];
      TallySummarizes(init);
      BumpSummarizes(init, Tally(init), rows[|rows| - 1]);
      assert init + [rows[|rows| - 1]] == rows;
    }
  }

  /** A status with no rows that is one of the four seeds reads 0; any other status with no rows has no key. */
  lemma {:induction false} AbsentStatus(rows: seq<string>, s: string)
    requires s !in rows
    ensures HasKey(Tally(rows), s) <==> HasKey(Seeds, s)
    ensures forall i :: 0 <= i < |Tally(rows)| && Tally(rows)[i].status == s ==> Tally(rows)[i].count == 0
  {
    TallySummarizes(rows);
  }

  lemma TallyStep(rows: seq<string>, k: nat)
    requires k < |rows|
    ensures Tally(rows[..k + 1]) == Bump(Tally(rows[..k]), rows[k])
  {
    assert rows[..k + 1][..k] == rows[..k] && rows[..k + 1][k] == rows[k];
  }

  /** The `reduce` callback applied to each row in turn, mutating the accumulator. */
  method Summarize(rows: seq<string>) returns (summary: seq<Entry>)
    ensures summary == Tally(rows)
    ensures Summarizes(rows, summary)
  {
    summary := Seeds;
    for k := 0 to |rows|
      invariant summary == Tally(rows[..k])
    {
      var status := rows[k];
      TallyStep(rows, k);
      ghost var next := Bump(summary, status);
      var i := Find(summary, status);
      if i.Some? {
        summary := summary[i.value := Entry(status, summary[i.value].count + 1)];
      } else {
        summary := summary + [Entry(status, 1)];
      }
      assert summary == next;
    }
    assert rows[..|rows|] == rows;
    TallySummarizes(rows);
  }

  datatype QueueResponse =
    | Error(httpStatus: nat, message: string)
    | Success(queue: seq<string>, summary: seq<Entry>, total: nat)

  /**
   * `GET`: a missing or empty `user_id` is refused with 400 before any query;
   * a query error gives 500; otherwise the rows, their summary and their count.
   */
  method GetQueueStatus(userId: Option<string>, fetch: string -> Option<seq<string>>) returns (r: QueueResponse)
    ensures (userId.None? || userId.value == "") <==> r == Error(400, "user_id is required")
    ensures userId.Some? && userId.value != "" && fetch(userId.value).None? ==>
      r == Error(500, "Failed to fetch job queue status")
    ensures userId.Some? && userId.value != "" && fetch(userId.value).Some? ==>
      var rows := fetch(userId.value).value;
      r.Success? && r.queue == rows && r.total == |rows| && r.summary == Tally(rows) && Sum(r.summary) == r.total
  {
    if userId.None? || userId.value == "" {
      return Error(400, "user_id is required");
    }
    var queueJobs := fetch(userId.value);
    if queueJobs.None? {
      return Error(500, "Failed to fetch job queue status");
    }
    var queueSummary := Summarize(queueJobs.value);
    return Success(queueJobs.value, queueSummary, |queueJobs.value|);
  }
}
