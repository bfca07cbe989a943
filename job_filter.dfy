/**
 * The job recommendations page's filter buttons: "all" keeps every job,
 * "remote" the jobs whose lower-cased location contains "remote", "onsite"
 * the others, and any other filter value keeps every job.
 */
module JobFilter {
  import opened Js

  /** A recommended job as the page shows it. */
  datatype Job = Job(title: string, company: string, location: string)

  /** The location, lower-cased, mentions "remote". */
  predicate IsRemote(j: Job) {
    Includes(ToLowerAscii(j.location), "remote")
  }

  /** The filter callback for one job. */
  predicate Keeps(filter: string, j: Job) {
    if filter == "all" then true
    else if filter == "remote" then IsRemote(j)
    else if filter == "onsite" then !IsRemote(j)
    else true
  }

  /** `jobs.filter(...)`: the jobs the filter keeps, in their order. */
  function FilterJobs(jobs: seq<Job>, filter: string): (r: seq<Job>)
    ensures |r| <= |jobs|
    decreases |jobs|
  {
    if jobs == [] then []
    else (if Keeps(filter, jobs[0]) then [jobs[0]] else []) + FilterJobs(jobs[1..], filter)
  }

  /** The filtered list holds exactly the jobs the filter keeps. */
  lemma {:induction false} FilterMembers(jobs: seq<Job>, filter: string)
    ensures forall j :: j in FilterJobs(jobs, filter) <==> j in jobs && Keeps(filter, j)
    decreases |jobs|
  {
    if jobs != [] {
      FilterMembers(jobs[1..], filter);
      assert jobs == [jobs[0]] + jobs[1..];
    }
  }

  /** The two location filters keep the remote jobs and the others. */
  lemma LocationFilters(j: Job)
    ensures Keeps("remote", j) == IsRemote(j)
    ensures Keeps("onsite", j) == !IsRemote(j)
  {
    assert "remote"[0] != "all"[0];
    assert "onsite"[0] != "all"[0] && "onsite"[0] != "remote"[0];
  }

  /** Filters other than "remote" and "onsite" keep the list as it is. */
  lemma {:induction false} OtherFiltersKeepAll(jobs: seq<Job>, filter: string)
    requires filter != "remote" && filter != "onsite"
    ensures FilterJobs(jobs, filter) == jobs
    decreases |jobs|
  {
    if jobs != [] {
      OtherFiltersKeepAll(jobs[1..], filter);
      assert jobs == [jobs[0]] + jobs[1..];
    }
  }

  /** Filtering works piecewise, so the kept jobs stay in the order they came in. */
  lemma {:induction false} FilterConcat(a: seq<Job>, b: seq<Job>, filter: string)
    ensures FilterJobs(a + b, filter) == FilterJobs(a, filter) + FilterJobs(b, filter)
    decreases |a|
  {
    if a == [] {
      assert a + b == b;
    } else {
      FilterConcat(a[1..], b, filter);
      assert (a + b)[1..] == a[1..] + b;
    }
  }

  /** Every job is either remote or onsite, never both: the two filters split the list. */
  lemma {:induction false} RemoteOnsitePartition(jobs: seq<Job>)
    ensures multiset(FilterJobs(jobs, "remote")) + multiset(FilterJobs(jobs, "onsite")) == multiset(jobs)
    ensures |FilterJobs(jobs, "remote")| + |FilterJobs(jobs, "onsite")| == |jobs|
    decreases |jobs|
  {
    if jobs != [] {
      var rest := jobs[1..];
      RemoteOnsitePartition(rest);
      var remote, onsite := FilterJobs(rest, "remote"), FilterJobs(rest, "onsite");
      LocationFilters(jobs[0]);
      if IsRemote(jobs[0]) {
        assert FilterJobs(jobs, "remote") == [jobs[0]] + remote;
        assert FilterJobs(jobs, "onsite") == onsite;
      } else {
        assert FilterJobs(jobs, "remote") == remote;
        assert FilterJobs(jobs, "onsite") == [jobs[0]] + onsite;
      }
      assert jobs == [jobs[0]] + rest;
    }
  }

  /** No job is both remote and onsite. */
  lemma RemoteOnsiteDisjoint(jobs: seq<Job>, j: Job)
    ensures !(j in FilterJobs(jobs, "remote") && j in FilterJobs(jobs, "onsite"))
  {
    FilterMembers(jobs, "remote");
    FilterMembers(jobs, "onsite");
    LocationFilters(j);
  }
}
