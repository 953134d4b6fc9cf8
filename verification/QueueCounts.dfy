/** `ListQueues`: per-queue counters gathered from grouped rows. */
module QueueCounts {
  import opened Types

  /** A row of `SELECT queue, status, count(*) FROM jobs GROUP BY queue, status`. */
  datatype CountRow = CountRow(queue: string, status: Status, count: nat)

  datatype QueueInfo = QueueInfo(
    name: string, pending: nat, active: nat, scheduled: nat, retry: nat, archived: nat, paused: bool)

  /** The jobs of a queue with a status. */
  function With(jobs: map<nat, Job>, queue: string, status: Status): set<nat> {
    set j | j in jobs && jobs[j].queue == queue && jobs[j].status == status
  }

  ghost predicate Apart(rows: seq<CountRow>) {
    forall i, k :: 0 <= i < k < |rows| ==> rows[i].queue != rows[k].queue || rows[i].status != rows[k].status
  }

  /** What GROUP BY may answer: one row per combination that occurs, in any order. */
  ghost predicate Grouped(rows: seq<CountRow>, jobs: map<nat, Job>) {
    && (forall i :: 0 <= i < |rows| ==> rows[i].count == |With(jobs, rows[i].queue, rows[i].status)| > 0)
    && Apart(rows)
    && (forall j :: j in jobs ==>
          exists i :: 0 <= i < |rows| && rows[i].queue == jobs[j].queue && rows[i].status == jobs[j].status)
  }

  ghost predicate Listed(names: seq<(string, bool)>, queues: map<string, bool>) {
    && (forall i :: 0 <= i < |names| ==> names[i].0 in queues && queues[names[i].0] == names[i].1)
    && (forall q :: q in queues ==> exists i :: 0 <= i < |names| && names[i].0 == q)
  }

  /** A counter read from a map that may lack it. */
  function At(m: map<Status, nat>, status: Status): nat {
    if status in m then m[status] else 0
  }

  /** The entry of a queue tells the truth about the tables. */
  ghost predicate Truthful(info: QueueInfo, jobs: map<nat, Job>, queues: map<string, bool>) {
    && info.pending == |With(jobs, info.name, Pending)|
    && info.active == |With(jobs, info.name, Processing)|
    && info.scheduled == |With(jobs, info.name, Scheduled)|
    && info.retry == |With(jobs, info.name, Failed)|
    && info.archived == |With(jobs, info.name, Archived)|
    && info.paused == (info.name in queues && queues[info.name])
  }

  /** One truthful entry for each queue that has jobs or a row of its own, and no others. */
  ghost predicate Complete(infos: seq<QueueInfo>, jobs: map<nat, Job>, queues: map<string, bool>) {
    && (forall i :: 0 <= i < |infos| ==> Truthful(infos[i], jobs, queues))
    && (forall i, k :: 0 <= i < k < |infos| ==> infos[i].name != infos[k].name)
    && (forall i :: 0 <= i < |infos| ==> infos[i].name in queues || exists j :: j in jobs && jobs[j].queue == infos[i].name)
    && (forall j :: j in jobs ==> exists i :: 0 <= i < |infos| && infos[i].name == jobs[j].queue)
    && (forall q :: q in queues ==> exists i :: 0 <= i < |infos| && infos[i].name == q)
  }

  // ---- the totals ----

  /** The jobs the counters cover: all but the completed and the cancelled. */
  function Live(jobs: map<nat, Job>): set<nat> {
    set j | j in jobs && !jobs[j].status.Completed? && !jobs[j].status.Cancelled?
  }

  function Ended(jobs: map<nat, Job>, status: Status): set<nat> {
    set j | j in jobs && jobs[j].status == status
  }

  function Sum(info: QueueInfo): nat {
    info.pending + info.active + info.scheduled + info.retry + info.archived
  }

  function Total(infos: seq<QueueInfo>): nat {
    if infos == [] then 0 else Sum(infos[0]) + Total(infos[1..])
  }

  function In(jobs: map<nat, Job>, queue: string): set<nat> {
    set j | j in Live(jobs) && jobs[j].queue == queue
  }

  function Elsewhere(jobs: map<nat, Job>, names: seq<QueueInfo>): set<nat> {
    set j | j in Live(jobs) && forall i :: 0 <= i < |names| ==> names[i].name != jobs[j].queue
  }

  lemma FiveParts(whole: set<nat>, a: set<nat>, b: set<nat>, c: set<nat>, d: set<nat>, e: set<nat>)
    requires a !! b !! c !! d !! e
    requires forall j :: j in whole <==> j in a || j in b || j in c || j in d || j in e
    ensures |whole| == |a| + |b| + |c| + |d| + |e|
  {
    assert whole == a + b + c + d + e;
  }

  lemma ThreeParts(whole: set<nat>, a: set<nat>, b: set<nat>, c: set<nat>)
    requires a !! b !! c
    requires forall j :: j in whole <==> j in a || j in b || j in c
    ensures |whole| == |a| + |b| + |c|
  {
    assert whole == a + b + c;
  }

  /** One of the five counters covers the job. */
  ghost predicate Covered(jobs: map<nat, Job>, q: string, j: nat) {
    || j in With(jobs, q, Pending) || j in With(jobs, q, Processing) || j in With(jobs, q, Scheduled)
    || j in With(jobs, q, Failed) || j in With(jobs, q, Archived)
  }

  lemma InOneCounter(jobs: map<nat, Job>, q: string, j: nat)
    ensures j in In(jobs, q) <==> Covered(jobs, q, j)
  {
  }

  lemma EntrySum(info: QueueInfo, jobs: map<nat, Job>, queues: map<string, bool>)
    requires Truthful(info, jobs, queues)
    ensures Sum(info) == |In(jobs, info.name)|
  {
    var q := info.name;
    forall j ensures j in In(jobs, q) <==> Covered(jobs, q, j) { InOneCounter(jobs, q, j); }
    FiveParts(In(jobs, q), With(jobs, q, Pending), With(jobs, q, Processing), With(jobs, q, Scheduled),
              With(jobs, q, Failed), With(jobs, q, Archived));
  }

  lemma {:induction false} TotalIs(infos: seq<QueueInfo>, jobs: map<nat, Job>, queues: map<string, bool>)
    requires forall i :: 0 <= i < |infos| ==> Truthful(infos[i], jobs, queues)
    requires forall i, k :: 0 <= i < k < |infos| ==> infos[i].name != infos[k].name
    ensures Total(infos) + |Elsewhere(jobs, infos)| == |Live(jobs)|
  {
    if infos == [] {
      assert Elsewhere(jobs, infos) == Live(jobs);
    } else {
      TotalIs(infos[1..], jobs, queues);
      EntrySum(infos[0], jobs, queues);
      var here := In(jobs, infos[0].name);
      assert infos == [infos[0]] + infos[1..];
      ElsewhereSplits(jobs, infos[0], infos[1..]);
      assert Elsewhere(jobs, infos) !! here;
    }
  }

  lemma ElsewhereSplits(jobs: map<nat, Job>, first: QueueInfo, rest: seq<QueueInfo>)
    requires forall i :: 0 <= i < |rest| ==> rest[i].name != first.name
    ensures Elsewhere(jobs, rest) == Elsewhere(jobs, [first] + rest) + In(jobs, first.name)
  {
    var all := [first] + rest;
    forall j | j in Elsewhere(jobs, all)
      ensures j in Elsewhere(jobs, rest)
    {
      forall i | 0 <= i < |rest|
        ensures rest[i].name != jobs[j].queue
      {
        assert rest[i] == all[i + 1];
      }
    }
  }

  /** All counters together, with the completed and the cancelled jobs, make up the table. */
  lemma CountersAddUp(infos: seq<QueueInfo>, jobs: map<nat, Job>, queues: map<string, bool>)
    requires Complete(infos, jobs, queues)
    ensures Total(infos) + |Ended(jobs, Completed)| + |Ended(jobs, Cancelled)| == |jobs|
  {
    TotalIs(infos, jobs, queues);
    NoneElsewhere(infos, jobs, queues);
    WholeTable(jobs);
  }

  lemma NoneElsewhere(infos: seq<QueueInfo>, jobs: map<nat, Job>, queues: map<string, bool>)
    requires Complete(infos, jobs, queues)
    ensures |Elsewhere(jobs, infos)| == 0
  {
    assert Elsewhere(jobs, infos) == {};
  }

  lemma WholeTable(jobs: map<nat, Job>)
    ensures |Live(jobs)| + |Ended(jobs, Completed)| + |Ended(jobs, Cancelled)| == |jobs|
  {
    ThreeParts(jobs.Keys, Live(jobs), Ended(jobs, Completed), Ended(jobs, Cancelled));
  }

  // ---- the loops ----

  predicate Holds(counts: map<string, map<Status, nat>>, r: CountRow) {
    r.queue in counts && r.status in counts[r.queue] && counts[r.queue][r.status] == r.count
  }

  /** The nested map after the first `n` grouped rows have been read: their counts, and no others. */
  ghost predicate CountsOf(counts: map<string, map<Status, nat>>, rows: seq<CountRow>, n: nat)
    requires n <= |rows|
  {
    && (forall i :: 0 <= i < n ==> Holds(counts, rows[i]))
    && (forall q, st :: q in counts && st in counts[q] ==>
          exists i :: 0 <= i < n && rows[i].queue == q && rows[i].status == st)
  }

  /** The names are those of the first `m` grouped rows and the first `n` rows of the queues table. */
  ghost predicate NamesOf(names: set<string>, rows: seq<CountRow>, m: nat, pausedRows: seq<(string, bool)>, n: nat)
    requires m <= |rows| && n <= |pausedRows|
  {
    names == (set i | 0 <= i < m :: rows[i].queue) + (set i | 0 <= i < n :: pausedRows[i].0)
  }

  ghost predicate PausedOf(paused: map<string, bool>, pausedRows: seq<(string, bool)>, n: nat, queues: map<string, bool>)
    requires n <= |pausedRows|
  {
    && (forall q :: q in paused ==> q in queues && paused[q] == queues[q])
    && (forall i :: 0 <= i < n ==> pausedRows[i].0 in paused)
  }

  /** Reading a counter of the finished map gives the true count, zero where there was no row. */
  lemma CounterIsTrue(counts: map<string, map<Status, nat>>, rows: seq<CountRow>, jobs: map<nat, Job>, q: string, status: Status)
    requires Grouped(rows, jobs) && CountsOf(counts, rows, |rows|) && q in counts
    ensures At(counts[q], status) == |With(jobs, q, status)|
  {
    if status in counts[q] {
      var i :| 0 <= i < |rows| && rows[i].queue == q && rows[i].status == status;
    } else {
      assert With(jobs, q, status) == {};
    }
  }

  function WithRow(counts: map<string, map<Status, nat>>, r: CountRow): map<string, map<Status, nat>> {
    var inner: map<Status, nat> := if r.queue in counts then counts[r.queue] else map[];
    var inner': map<Status, nat> := inner[r.status := r.count];
    counts[r.queue := inner']
  }

  lemma RowRead(counts: map<string, map<Status, nat>>, rows: seq<CountRow>, n: nat)
    requires n < |rows| && CountsOf(counts, rows, n)
    requires Apart(rows)
    ensures CountsOf(WithRow(counts, rows[n]), rows, n + 1)
  {
    var counts' := WithRow(counts, rows[n]);
    forall i | 0 <= i < n + 1
      ensures Holds(counts', rows[i])
    {
      assert i < n ==> Holds(counts, rows[i]);
    }
    forall q, st | q in counts' && st in counts'[q]
      ensures exists i :: 0 <= i < n + 1 && rows[i].queue == q && rows[i].status == st
    {
      if q in counts && st in counts[q] {
        var i :| 0 <= i < n && rows[i].queue == q && rows[i].status == st;
      } else {
        assert rows[n].queue == q && rows[n].status == st;
      }
    }
  }

  lemma NameAdded(counts: map<string, map<Status, nat>>, name: string, rows: seq<CountRow>)
    requires CountsOf(counts, rows, |rows|) && name !in counts
    ensures CountsOf(counts[name := map[]], rows, |rows|)
  {
    var counts' := counts[name := map[]];
    forall i | 0 <= i < |rows|
      ensures Holds(counts', rows[i])
    {
      assert Holds(counts, rows[i]);
    }
    forall q, st | q in counts' && st in counts'[q]
      ensures exists i :: 0 <= i < |rows| && rows[i].queue == q && rows[i].status == st
    {
      assert q in counts && st in counts[q];
    }
  }

  lemma NameRead(names: set<string>, rows: seq<CountRow>, m: nat, pausedRows: seq<(string, bool)>, n: nat)
    requires m < |rows| && n <= |pausedRows| && NamesOf(names, rows, m, pausedRows, n)
    ensures NamesOf(names + {rows[m].queue}, rows, m + 1, pausedRows, n)
  {
  }

  lemma PauseRead(names: set<string>, rows: seq<CountRow>, pausedRows: seq<(string, bool)>, n: nat)
    requires n < |pausedRows| && NamesOf(names, rows, |rows|, pausedRows, n)
    ensures NamesOf(names + {pausedRows[n].0}, rows, |rows|, pausedRows, n + 1)
  {
  }

  /** One grouped row: the queue's inner map is made on first sight. */
  method ReadRow(counts: map<string, map<Status, nat>>, r: CountRow) returns (counts': map<string, map<Status, nat>>)
    ensures counts' == WithRow(counts, r) && counts'.Keys == counts.Keys + {r.queue}
  {
    counts' := counts;
    if r.queue !in counts' { counts' := counts'[r.queue := map[]]; }
    var inner: map<Status, nat> := counts'[r.queue][r.status := r.count];
    counts' := counts'[r.queue := inner];
    assert counts' == WithRow(counts, r);
  }

  method ReadCounts(rows: seq<CountRow>) returns (counts: map<string, map<Status, nat>>)
    requires Apart(rows)
    ensures CountsOf(counts, rows, |rows|) && NamesOf(counts.Keys, rows, |rows|, [], 0)
  {
    counts := map[];
    for i := 0 to |rows|
      invariant CountsOf(counts, rows, i)
      invariant NamesOf(counts.Keys, rows, i, [], 0)
    {
      RowRead(counts, rows, i);
      NameRead(counts.Keys, rows, i, [], 0);
      counts := ReadRow(counts, rows[i]);
    }
  }

  method AddName(counts: map<string, map<Status, nat>>, name: string, ghost rows: seq<CountRow>)
    returns (counts': map<string, map<Status, nat>>)
    requires CountsOf(counts, rows, |rows|)
    ensures CountsOf(counts', rows, |rows|) && counts'.Keys == counts.Keys + {name}
  {
    counts' := counts;
    if name !in counts' {
      NameAdded(counts, name, rows);
      counts' := counts'[name := map[]];
    }
  }

  method ReadPaused(counts0: map<string, map<Status, nat>>, pausedRows: seq<(string, bool)>, ghost rows: seq<CountRow>,
                    ghost queues: map<string, bool>)
    returns (counts: map<string, map<Status, nat>>, paused: map<string, bool>)
    requires CountsOf(counts0, rows, |rows|) && NamesOf(counts0.Keys, rows, |rows|, [], 0) && Listed(pausedRows, queues)
    ensures CountsOf(counts, rows, |rows|) && NamesOf(counts.Keys, rows, |rows|, pausedRows, |pausedRows|)
    ensures PausedOf(paused, pausedRows, |pausedRows|, queues)
  {
    counts, paused := counts0, map[];
    for i := 0 to |pausedRows|
      invariant CountsOf(counts, rows, |rows|) && NamesOf(counts.Keys, rows, |rows|, pausedRows, i)
      invariant PausedOf(paused, pausedRows, i, queues)
    {
      var (name, p) := pausedRows[i];
      PauseRead(counts.Keys, rows, pausedRows, i);
      FlagRead(paused, pausedRows, i, queues);
      paused := paused[name := p];
      counts := AddName(counts, name, rows);
    }
  }

  lemma FlagRead(paused: map<string, bool>, pausedRows: seq<(string, bool)>, n: nat, queues: map<string, bool>)
    requires n < |pausedRows| && PausedOf(paused, pausedRows, n, queues) && Listed(pausedRows, queues)
    ensures PausedOf(paused[pausedRows[n].0 := pausedRows[n].1], pausedRows, n + 1, queues)
  {
  }

  /** `rows` and `pausedRows` are what the two SELECTs brought. */
  method ListQueues(rows: seq<CountRow>, pausedRows: seq<(string, bool)>,
                    ghost jobs: map<nat, Job>, ghost queues: map<string, bool>)
    returns (out: seq<QueueInfo>)
    requires Grouped(rows, jobs) && Listed(pausedRows, queues)
    ensures Complete(out, jobs, queues)
  {
    var counts := ReadCounts(rows);
    var paused;
    counts, paused := ReadPaused(counts, pausedRows, rows, queues);
    out := BuildInfos(counts, paused, rows, pausedRows, jobs, queues);
    AllListed(out, counts.Keys, rows, pausedRows, jobs, queues);
  }

  /** Ranges over the map in any order. */
  method BuildInfos(counts: map<string, map<Status, nat>>, paused: map<string, bool>, ghost rows: seq<CountRow>,
                    ghost pausedRows: seq<(string, bool)>, ghost jobs: map<nat, Job>, ghost queues: map<string, bool>)
    returns (out: seq<QueueInfo>)
    requires Grouped(rows, jobs) && Listed(pausedRows, queues) && CountsOf(counts, rows, |rows|)
    requires PausedOf(paused, pausedRows, |pausedRows|, queues)
    ensures Entries(out, counts.Keys, jobs, queues)
  {
    out := [];
    var rest := counts.Keys;
    while rest != {}
      invariant rest <= counts.Keys && Entries(out, counts.Keys - rest, jobs, queues)
      decreases |rest|
    {
      var name :| name in rest;
      var st := counts[name];
      var info := QueueInfo(name, At(st, Pending), At(st, Processing), At(st, Scheduled), At(st, Failed), At(st, Archived),
                            name in paused && paused[name]);
      EntryIsTrue(info, counts, paused, rows, pausedRows, jobs, queues);
      EntryAdded(out, counts.Keys - rest, info, jobs, queues);
      assert counts.Keys - (rest - {name}) == counts.Keys - rest + {name};
      rest := rest - {name};
      out := out + [info];
    }
    assert counts.Keys - rest == counts.Keys;
  }

  /** One truthful entry for each of the names. */
  ghost predicate Entries(out: seq<QueueInfo>, names: set<string>, jobs: map<nat, Job>, queues: map<string, bool>) {
    && (forall i :: 0 <= i < |out| ==> out[i].name in names && Truthful(out[i], jobs, queues))
    && (forall i, k :: 0 <= i < k < |out| ==> out[i].name != out[k].name)
    && (forall q :: q in names ==> exists i :: 0 <= i < |out| && out[i].name == q)
  }

  lemma EntryAdded(out: seq<QueueInfo>, names: set<string>, info: QueueInfo, jobs: map<nat, Job>, queues: map<string, bool>)
    requires Entries(out, names, jobs, queues) && info.name !in names && Truthful(info, jobs, queues)
    ensures Entries(out + [info], names + {info.name}, jobs, queues)
  {
    var out' := out + [info];
    forall q | q in names + {info.name}
      ensures exists i :: 0 <= i < |out'| && out'[i].name == q
    {
      if q in names {
        var i :| 0 <= i < |out| && out[i].name == q;
        assert out'[i].name == q;
      } else {
        assert out'[|out|].name == q;
      }
    }
  }

  lemma EntryIsTrue(info: QueueInfo, counts: map<string, map<Status, nat>>, paused: map<string, bool>,
                    rows: seq<CountRow>, pausedRows: seq<(string, bool)>, jobs: map<nat, Job>, queues: map<string, bool>)
    requires Grouped(rows, jobs) && Listed(pausedRows, queues) && CountsOf(counts, rows, |rows|)
    requires PausedOf(paused, pausedRows, |pausedRows|, queues) && info.name in counts
    requires var st := counts[info.name];
             info == QueueInfo(info.name, At(st, Pending), At(st, Processing), At(st, Scheduled), At(st, Failed), At(st, Archived),
                               info.name in paused && paused[info.name])
    ensures Truthful(info, jobs, queues)
  {
    CounterIsTrue(counts, rows, jobs, info.name, Pending);
    CounterIsTrue(counts, rows, jobs, info.name, Processing);
    CounterIsTrue(counts, rows, jobs, info.name, Scheduled);
    CounterIsTrue(counts, rows, jobs, info.name, Failed);
    CounterIsTrue(counts, rows, jobs, info.name, Archived);
  }

  lemma AllListed(out: seq<QueueInfo>, names: set<string>, rows: seq<CountRow>, pausedRows: seq<(string, bool)>,
                  jobs: map<nat, Job>, queues: map<string, bool>)
    requires Grouped(rows, jobs) && Listed(pausedRows, queues) && NamesOf(names, rows, |rows|, pausedRows, |pausedRows|)
    requires Entries(out, names, jobs, queues)
    ensures Complete(out, jobs, queues)
  {
    forall i | 0 <= i < |out|
      ensures out[i].name in queues || exists j :: j in jobs && jobs[j].queue == out[i].name
    {
      if r :| 0 <= r < |rows| && rows[r].queue == out[i].name {
        assert With(jobs, rows[r].queue, rows[r].status) != {};
      }
    }
    forall j | j in jobs
      ensures jobs[j].queue in names
    {
      var r :| 0 <= r < |rows| && rows[r].queue == jobs[j].queue && rows[r].status == jobs[j].status;
    }
    forall q | q in queues
      ensures q in names
    {
      var r :| 0 <= r < |pausedRows| && pausedRows[r].0 == q;
    }
  }
}
