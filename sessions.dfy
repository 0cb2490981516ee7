/** The "My Workloads" page: selection and expansion of batch-job rows, the
    select-all header checkbox, the bulk-action bar, the job status badges and
    the limit on interactive sessions. */
module SessionsPage {
  import opened Wrappers
  import opened Strings

  // ---------------------------------------------------------------------------
  // Status badges

  datatype StatusIcon = CheckCircle | Spinner | Clock | AlertCircle | PauseIcon

  /** One entry of `statusConfig`: icon, text colour and badge variant. */
  datatype StatusConfig = StatusConfig(icon: StatusIcon, color: string, badge: string)

  const Completed := StatusConfig(CheckCircle, "text-green-500", "success")
  const Running := StatusConfig(Spinner, "text-primary", "secondary")
  const Queued := StatusConfig(Clock, "text-amber-500", "warning")
  const Failed := StatusConfig(AlertCircle, "text-red-500", "error")
  const Paused := StatusConfig(PauseIcon, "text-gray-500", "default")

  /** The statuses that have an entry of their own. */
  predicate KnownStatus(status: string) {
    status == "completed" || status == "running" || status == "queued" || status == "failed" || status == "paused"
  }

  /** `statusConfig[job.status] || statusConfig.queued` */
  function ConfigFor(status: string): (c: StatusConfig)
    ensures !KnownStatus(status) ==> c == Queued
    ensures c in {Completed, Running, Queued, Failed, Paused}
  {
    if status == "completed" then Completed
    else if status == "running" then Running
    else if status == "queued" then Queued
    else if status == "failed" then Failed
    else if status == "paused" then Paused
    else Queued
  }

  /** Each listed status has its own badge: two statuses share a badge only
      when one of them falls back to the queued one. */
  lemma ConfigForDistinguishesStatuses(s: string, t: string)
    requires KnownStatus(s) && KnownStatus(t) && s != t
    ensures ConfigFor(s) != ConfigFor(t)
  {
  }

  /** The spinner animates exactly the running jobs. */
  lemma SpinnerOnlyForRunning(status: string)
    ensures ConfigFor(status).icon == Spinner <==> status == "running"
  {
  }

  // ---------------------------------------------------------------------------
  // Selection of jobs

  /** The ids of the listed jobs, as a set (`new Set(recentJobs.map(j => j.id))`). */
  function IdSet(ids: seq<string>): (r: set<string>)
    ensures forall id :: id in r <==> id in ids
  {
    set id | id in ids
  }

  predicate Distinct(ids: seq<string>) {
    forall i, j :: 0 <= i < j < |ids| ==> ids[i] != ids[j]
  }

  /** A list without repeated ids has as many ids as entries. */
  lemma {:induction false} DistinctIdSetSize(ids: seq<string>)
    requires Distinct(ids)
    ensures |IdSet(ids)| == |ids|
  {
    if ids != [] {
      DistinctIdSetSize(ids[1..]);
      assert IdSet(ids) == {ids[0]} + IdSet(ids[1..]);
      assert ids[0] !in IdSet(ids[1..]);
    }
  }

  /** A repeated id makes the set smaller than the list. */
  lemma {:induction false} RepeatedIdSetSize(ids: seq<string>)
    requires !Distinct(ids)
    ensures |IdSet(ids)| < |ids|
  {
    var i, j :| 0 <= i < j < |ids| && ids[i] == ids[j];
    var rest := ids[..j] + ids[j + 1..];
    assert ids == ids[..j] + [ids[j]] + ids[j + 1..];
    assert IdSet(ids) == IdSet(rest) by {
      assert ids[j] == rest[i];
    }
    SetSizeAtMostLength(rest);
  }

  lemma {:induction false} SetSizeAtMostLength(ids: seq<string>)
    ensures |IdSet(ids)| <= |ids|
  {
    if ids != [] {
      SetSizeAtMostLength(ids[1..]);
      assert IdSet(ids) == {ids[0]} + IdSet(ids[1..]);
    }
  }

  /** A subset of a finite set with as many elements is the whole set. */
  lemma SubsetOfSameSize(a: set<string>, b: set<string>)
    requires a <= b && |a| == |b|
    ensures a == b
  {
    if a != b {
      var x :| x in b && x !in a;
      SubsetSize(a, b - {x});
    }
  }

  lemma {:induction false} SubsetSize(a: set<string>, b: set<string>)
    requires a <= b
    ensures |a| <= |b|
    decreases |a|
  {
    if a != {} {
      var y :| y in a;
      SubsetSize(a - {y}, b - {y});
    }
  }

  /** `toggleJobSelection` on sets: `id` changes membership, no other id does. */
  function ToggleMember(s: set<string>, id: string): (r: set<string>)
    ensures id in r <==> id !in s
    ensures forall other :: other != id ==> (other in r <==> other in s)
  {
    if id in s then s - {id} else s + {id}
  }

  /** Toggling the same id twice restores the selection. */
  lemma ToggleMemberTwice(s: set<string>, id: string)
    ensures ToggleMember(ToggleMember(s, id), id) == s
  {
  }

  /** `toggleAllJobs`: clear when the selection is as large as the job list,
      otherwise select every job. */
  function ToggleAll(selected: set<string>, ids: seq<string>): (r: set<string>)
    ensures r == {} || r == IdSet(ids)
  {
    if |selected| == |ids| then {} else IdSet(ids)
  }

  /** With distinct job ids and a selection among them, select-all clears
      exactly when every job is selected and otherwise selects them all. */
  lemma ToggleAllWithDistinctIds(selected: set<string>, ids: seq<string>)
    requires Distinct(ids) && selected <= IdSet(ids)
    ensures selected == IdSet(ids) ==> ToggleAll(selected, ids) == {}
    ensures selected != IdSet(ids) ==> ToggleAll(selected, ids) == IdSet(ids)
  {
    FullSelectionSize(selected, ids);
  }

  /** With a repeated job id, select-all is stuck: once every job is selected
      the header checkbox selects them all again instead of clearing. */
  lemma ToggleAllWithRepeatedIds(ids: seq<string>)
    requires !Distinct(ids)
    ensures ToggleAll(IdSet(ids), ids) == IdSet(ids)
  {
    RepeatedIdSetSize(ids);
  }

  /** The header checkbox: checked when the selection is as large as a
      non-empty job list, which with distinct ids and a selection among them
      means every job is selected. */
  function HeaderChecked(selected: set<string>, ids: seq<string>): (r: bool)
    ensures r ==> ids != []
    ensures Distinct(ids) && selected <= IdSet(ids) ==>
      (r <==> ids != [] && forall id :: id in ids ==> id in selected)
  {
    FullSelectionSize(selected, ids);
    |selected| == |ids| && |ids| > 0
  }

  /** With distinct ids, a selection among them is as large as the list iff it is all of it. */
  lemma FullSelectionSize(selected: set<string>, ids: seq<string>)
    ensures Distinct(ids) && selected <= IdSet(ids) ==> (|selected| == |ids| <==> selected == IdSet(ids))
  {
    if Distinct(ids) && selected <= IdSet(ids) {
      DistinctIdSetSize(ids);
      if |selected| == |ids| {
        SubsetOfSameSize(selected, IdSet(ids));
      }
    }
  }

  /** The bulk-action bar, with its "Cancel n Jobs" label, shows only with a selection. */
  function CancelLabel(selected: set<string>): (r: Option<string>)
    ensures r.Some? <==> |selected| > 0
  {
    if |selected| > 0 then Some("Cancel " + IntToString(|selected|) + " Jobs") else None
  }

  /** The label reports the selection size: two labels agree only for equal sizes. */
  lemma CancelLabelCountsSelection(a: set<string>, b: set<string>)
    requires CancelLabel(a).Some? && CancelLabel(a) == CancelLabel(b)
    ensures |a| == |b|
  {
    var x, y := IntToString(|a|), IntToString(|b|);
    assert ("Cancel " + x + " Jobs")[7..|x| + 7] == x;
    assert ("Cancel " + y + " Jobs")[7..|y| + 7] == y;
    assert |x| == |y|;
    IntToStringInjective(|a|, |b|);
  }

  // ---------------------------------------------------------------------------
  // The interactive-session limit

  const SessionLimit := 3

  /** `isSessionLimitReached`: shows the limit banner and disables "New Session". */
  datatype Toolbar = Toolbar(limitBanner: bool, newSessionEnabled: bool)

  function ToolbarFor(activeCount: nat): (t: Toolbar)
    ensures t.limitBanner <==> activeCount >= 3
    ensures t.newSessionEnabled <==> !t.limitBanner
  {
    var reached := activeCount >= SessionLimit;
    Toolbar(reached, !reached)
  }

  // ---------------------------------------------------------------------------
  // The page state

  class Sessions {
    /** The listed batch jobs' ids (`recentJobs`), fixed for the page. */
    const jobs: seq<string>
    var expandedJob: Option<string>
    var selectedJobs: set<string>

    /** Only listed jobs can be ticked. */
    predicate Valid()
      reads this
    {
      selectedJobs <= IdSet(jobs)
    }

    constructor (jobs: seq<string>)
      ensures Valid() && this.jobs == jobs
      ensures expandedJob == None && selectedJobs == {}
    {
      this.jobs := jobs;
      expandedJob := None;
      selectedJobs := {};
    }

    predicate IsExpanded(id: string)
      reads this
    {
      expandedJob == Some(id)
    }

    /** `toggleJobExpansion`: collapse the row if open, else open it alone. */
    method ToggleJobExpansion(id: string)
      requires Valid()
      modifies this`expandedJob
      ensures Valid()
      ensures IsExpanded(id) <==> !old(IsExpanded(id))
      ensures forall other :: other != id ==> !IsExpanded(other)
    {
      expandedJob := if expandedJob == Some(id) then None else Some(id);
    }

    /** `toggleJobSelection`: copy the set, add or delete `id`, store the copy.
        The checkbox exists only on listed rows. */
    method ToggleJobSelection(id: string)
      requires Valid() && id in jobs
      modifies this`selectedJobs
      ensures Valid()
      ensures selectedJobs == ToggleMember(old(selectedJobs), id)
    {
      var newSelected := selectedJobs;
      if id in newSelected {
        newSelected := newSelected - {id};
      } else {
        newSelected := newSelected + {id};
      }
      selectedJobs := newSelected;
    }

    /** `toggleAllJobs`, on the header checkbox. */
    method ToggleAllJobs()
      requires Valid()
      modifies this`selectedJobs
      ensures Valid()
      ensures selectedJobs == ToggleAll(old(selectedJobs), jobs)
    {
      if |selectedJobs| == |jobs| {
        selectedJobs := {};
      } else {
        selectedJobs := IdSet(jobs);
      }
    }
  }
}
