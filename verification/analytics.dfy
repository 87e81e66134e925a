/** components/AnalyticsPage.tsx: the chart labels, the pie colours, the
    medals of the top-workers list, and what one fetch leaves on the page. */
module Analytics {
  import opened Wrappers
  import opened Entities
  import Text

  /** One `{ _id, count }` row of the by-priority and by-status replies. */
  datatype CountEntry = CountEntry(id: string, count: int)

  /** One `{ name, value }` point of a chart. */
  datatype Slice = Slice(name: string, value: int)

  /** The priority label: the key with its first character upper-cased. */
  function PriorityLabel(id: string): (name: string)
    ensures |name| == |id|
    ensures id == "" ==> name == ""
    ensures |id| > 0 ==> name[0] == Text.UpperChar(id[0]) && name[1..] == id[1..]
  {
    Text.UpperFirst(id)
  }

  /** The status label: the first `_` becomes a space, then every word
      (split on single spaces) gets its first character upper-cased. */
  function StatusLabel(id: string): (name: string)
    ensures |name| == |id|
  {
    Text.CapitalizeWords(Text.ReplaceFirst(id, '_', ' '))
  }

  /** Character by character: a position is upper-cased exactly when it
      starts the text or follows a space of the text after the replacement. */
  lemma StatusLabelAt(id: string, k: nat)
    requires k < |id|
    ensures var s := Text.ReplaceFirst(id, '_', ' ');
      StatusLabel(id)[k] == if k == 0 || s[k - 1] == ' ' then Text.UpperChar(s[k]) else s[k]
  {
    Text.CapitalizeWordsAt(Text.ReplaceFirst(id, '_', ' '), k);
  }

  lemma ReplaceInProgress()
    ensures Text.ReplaceFirst("in_progress", '_', ' ') == "in progress"
  {
    var id := "in_progress";
    assert id[2] == '_' && id[0] != '_' && id[1] != '_';
    assert Text.IndexOf(id, '_') == 2;
  }

  lemma CapitalizeInProgress()
    ensures Text.CapitalizeAfterSpaces("in progress", true) == "In Progress"
  {
    var t := "in progress";
    var r := Text.CapitalizeAfterSpaces(t, true);
    forall k | 0 <= k < |t|
      ensures r[k] == "In Progress"[k]
    {
      Text.CapitalizeAfterSpacesAt(t, true, k);
    }
  }

  lemma StatusLabelInProgress()
    ensures StatusLabel("in_progress") == "In Progress"
  {
    ReplaceInProgress();
    CapitalizeInProgress();
  }

  /** Only the first underscore is replaced: a later one survives into the
      label, since upper-casing leaves `_` alone. */
  lemma StatusLabelKeepsLaterUnderscore(id: string, j: nat)
    requires j < |id| && id[j] == '_' && j != Text.IndexOf(id, '_')
    ensures StatusLabel(id)[j] == '_'
  {
    StatusLabelAt(id, j);
  }

  /** `priority.map(...)`: one point per row, in the server's order. */
  function PrioritySeries(rows: seq<CountEntry>): (r: seq<Slice>)
    ensures |r| == |rows|
    ensures forall k :: 0 <= k < |rows| ==> r[k].name == PriorityLabel(rows[k].id) && r[k].value == rows[k].count
  {
    seq(|rows|, k requires 0 <= k < |rows| => Slice(PriorityLabel(rows[k].id), rows[k].count))
  }

  /** `status.map(...)`: one point per row, in the server's order. */
  function StatusSeries(rows: seq<CountEntry>): (r: seq<Slice>)
    ensures |r| == |rows|
    ensures forall k :: 0 <= k < |rows| ==> r[k].name == StatusLabel(rows[k].id) && r[k].value == rows[k].count
  {
    seq(|rows|, k requires 0 <= k < |rows| => Slice(StatusLabel(rows[k].id), rows[k].count))
  }

  /** `COLORS.primary`. */
  const PRIMARY := ["#3b82f6", "#10b981", "#f59e0b", "#ef4444", "#8b5cf6"]

  /** The fill of the pie slice at `index`. */
  function PieColor(index: nat): (c: string)
    ensures c in PRIMARY
    ensures index < |PRIMARY| ==> c == PRIMARY[index]
  {
    PRIMARY[index % |PRIMARY|]
  }

  /** The fills repeat every five slices, and neighbouring slices never
      share a fill. */
  lemma PieColorsCycle(index: nat)
    ensures PieColor(index + 5) == PieColor(index)
    ensures PieColor(index) != PieColor(index + 1)
  {
    var i := index % 5;
    assert (index + 1) % 5 == (i + 1) % 5;
  }

  /** The badge in front of the worker at `rank` in the top-workers list. */
  function Medal(rank: nat): (m: string)
    ensures rank == 0 ==> m == "🥇"
    ensures rank == 1 ==> m == "🥈"
    ensures rank == 2 ==> m == "🥉"
    ensures rank >= 3 <==> m == "⭐"
  {
    if rank == 0 then "🥇" else if rank == 1 then "🥈" else if rank == 2 then "🥉" else "⭐"
  }

  /** The summary card figures, as the server sends them. */
  datatype Stats = Stats(
    totalOrders: int, completedOrders: int, pendingOrders: int, inProgressOrders: int,
    totalWorkers: int, activeWorkers: int, completionRate: string, totalRevenue: int)

  datatype TopWorker = TopWorker(id: string, name: string, email: string, completedJobs: int)

  /** A row of the orders timeline; `id` is the day the server grouped by. */
  datatype TimelineRow = TimelineRow(id: string, completed: int, pending: int, inProgress: int, total: int)
  datatype TimelinePoint = TimelinePoint(date: string, completed: int, pending: int, inProgress: int, total: int)

  /** A row of the revenue timeline. */
  datatype RevenueRow = RevenueRow(id: string, revenue: int, jobs: int)
  datatype RevenuePoint = RevenuePoint(date: string, revenue: int, jobs: int)

  /** What the six requests gave back. `Unreachable` is a rejected
      `Promise.all`; otherwise each body is `None` when reading it failed. */
  datatype Replies =
    | Unreachable
    | Replies(stats: Option<Stats>, timeline: Option<seq<TimelineRow>>, priority: Option<seq<CountEntry>>,
              status: Option<seq<CountEntry>>, workers: Option<seq<TopWorker>>, revenue: Option<seq<RevenueRow>>)

  /** How many of the six bodies, in the order they are read, were read
      before the first failure. */
  function ReadCount(r: Replies): (n: nat)
    ensures n <= 6
    ensures r.Unreachable? ==> n == 0
    ensures r.Replies? && n == 6 <==>
      r.Replies? && r.stats.Some? && r.timeline.Some? && r.priority.Some? &&
      r.status.Some? && r.workers.Some? && r.revenue.Some?
  {
    if r.Unreachable? || r.stats.None? then 0
    else if r.timeline.None? then 1
    else if r.priority.None? then 2
    else if r.status.None? then 3
    else if r.workers.None? then 4
    else if r.revenue.None? then 5
    else 6
  }

  function TimelineSeries(rows: seq<TimelineRow>, formatDate: string -> string): (r: seq<TimelinePoint>)
    ensures |r| == |rows|
    ensures forall k :: 0 <= k < |rows| ==>
      r[k] == TimelinePoint(formatDate(rows[k].id), rows[k].completed, rows[k].pending, rows[k].inProgress, rows[k].total)
  {
    seq(|rows|, k requires 0 <= k < |rows| =>
      TimelinePoint(formatDate(rows[k].id), rows[k].completed, rows[k].pending, rows[k].inProgress, rows[k].total))
  }

  function RevenueSeries(rows: seq<RevenueRow>, formatDate: string -> string): (r: seq<RevenuePoint>)
    ensures |r| == |rows|
    ensures forall k :: 0 <= k < |rows| ==>
      r[k] == RevenuePoint(formatDate(rows[k].id), rows[k].revenue, rows[k].jobs)
  {
    seq(|rows|, k requires 0 <= k < |rows| => RevenuePoint(formatDate(rows[k].id), rows[k].revenue, rows[k].jobs))
  }

  class AnalyticsView {
    var loading: bool
    var stats: Option<Stats>
    var timeline: seq<TimelinePoint>
    var priorityData: seq<Slice>
    var statusData: seq<Slice>
    var topWorkers: seq<TopWorker>
    var revenueTimeline: seq<RevenuePoint>

    constructor ()
      ensures loading && stats == None
      ensures timeline == [] && priorityData == [] && statusData == [] && topWorkers == [] && revenueTimeline == []
    {
      loading, stats := true, None;
      timeline, priorityData, statusData, topWorkers, revenueTimeline := [], [], [], [], [];
    }

    /** `fetchAnalytics`: the six states are set one after another, so a
        failure part-way keeps what was already set and leaves the rest as
        they were; `loading` is false afterwards in every case. The date
        formatting is the `formatDate` parameter. */
    method FetchAnalytics(replies: Replies, formatDate: string -> string)
      modifies this
      ensures !loading
      ensures stats == if ReadCount(replies) >= 1 then replies.stats else old(stats)
      ensures timeline ==
        if ReadCount(replies) >= 2 then TimelineSeries(replies.timeline.value, formatDate) else old(timeline)
      ensures priorityData ==
        if ReadCount(replies) >= 3 then PrioritySeries(replies.priority.value) else old(priorityData)
      ensures statusData ==
        if ReadCount(replies) >= 4 then StatusSeries(replies.status.value) else old(statusData)
      ensures topWorkers == if ReadCount(replies) >= 5 then replies.workers.value else old(topWorkers)
      ensures revenueTimeline ==
        if ReadCount(replies) == 6 then RevenueSeries(replies.revenue.value, formatDate) else old(revenueTimeline)
    {
      var n := ReadCount(replies);
      if n >= 1 { stats := replies.stats; }
      if n >= 2 { timeline := TimelineSeries(replies.timeline.value, formatDate); }
      if n >= 3 { priorityData := PrioritySeries(replies.priority.value); }
      if n >= 4 { statusData := StatusSeries(replies.status.value); }
      if n >= 5 { topWorkers := replies.workers.value; }
      if n == 6 { revenueTimeline := RevenueSeries(replies.revenue.value, formatDate); }
      loading := false;
    }
  }
}
