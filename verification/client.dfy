/**
  The orchestrator: a job store keyed by job ID and a registry of providers
  keyed by provider name.  Every operation on a job goes to the provider
  whose name the job records.  Listing by parent reads the store only.
*/
module Orchestrator {
  import opened Wrappers
  import opened Errors
  import opened Jobs
  import opened Providers

  /**
    `job` merged with a status report of its provider: the provider's status
    replaces the stored one; a report of ready marks the job done and gives
    every output its URL.  Nothing else about the job changes.
  */
  function Refresh(job: Job, report: Report, basePath: string): (r: Job)
    requires !job.done
    ensures r.id == job.id && r.parentID == job.parentID && r.mediaURL == job.mediaURL
    ensures r.provider == job.provider && r.providerParams == job.providerParams
    ensures r.createdAt == job.createdAt
    ensures r.status == report.status && r.done == report.done
    ensures |r.outputs| == |job.outputs|
    ensures forall i :: 0 <= i < |r.outputs| ==>
      r.outputs[i].format == job.outputs[i].format && r.outputs[i].filename == job.outputs[i].filename
    ensures forall i :: 0 <= i < |r.outputs| ==>
      r.outputs[i].url == if report.done then OutputURL(basePath, job.provider, job.outputs[i].filename)
                          else job.outputs[i].url
  {
    var outputs := if report.done then Delivered(job.outputs, basePath, job.provider) else job.outputs;
    job.(status := report.status, done := report.done, outputs := outputs)
  }

  /** The outputs with their URLs filled in. */
  function Delivered(outputs: seq<Output>, basePath: string, provider: string): (r: seq<Output>)
    ensures |r| == |outputs|
    ensures forall i :: 0 <= i < |r| ==>
      r[i] == outputs[i].(url := OutputURL(basePath, provider, outputs[i].filename))
  {
    if outputs == [] then []
    else
      [outputs[0].(url := OutputURL(basePath, provider, outputs[0].filename))]
        + Delivered(outputs[1..], basePath, provider)
  }

  /** Gives each output the URL of its file, one output at a time. */
  method FillURLs(outputs: seq<Output>, basePath: string, provider: string) returns (r: seq<Output>)
    ensures r == Delivered(outputs, basePath, provider)
  {
    r := outputs;
    var i := 0;
    while i < |r|
      invariant 0 <= i <= |r| == |outputs|
      invariant r[..i] == Delivered(outputs[..i], basePath, provider)
      invariant r[i..] == outputs[i..]
    {
      r := r[i := r[i].(url := OutputURL(basePath, provider, r[i].filename))];
      i := i + 1;
    }
    assert r == r[..i];
    assert outputs == outputs[..i];
  }

  /**
    The answer to a request for job `id` given the store, the registry and
    the base path of output URLs.  A finished job is answered from the store
    without asking its provider; an unfinished one is merged with its
    provider's report, and a failing report is passed on unchanged.
  */
  function Fetch(jobs: map<string, Job>, providers: map<string, Provider>, basePath: string, id: string)
    : (r: Result<Job, Error>)
    ensures id !in jobs ==> r == Failure(JobNotFound)
    ensures id in jobs && jobs[id].done ==> r == Success(jobs[id])
    ensures id in jobs && !jobs[id].done && jobs[id].provider !in providers ==> r == Failure(ProviderNotFound)
    ensures id in jobs && !jobs[id].done && jobs[id].provider in providers ==>
      match providers[jobs[id].provider].poll(VendorID(jobs[id]))
      case Failure(reason) => r == Failure(ProviderError(reason))
      case Success(report) =>
        r == Success(Refresh(jobs[id], report, basePath))
    ensures r.Success? ==>
      id in jobs && r.value.id == jobs[id].id && r.value.mediaURL == jobs[id].mediaURL
      && r.value.parentID == jobs[id].parentID && r.value.provider == jobs[id].provider
      && r.value.createdAt == jobs[id].createdAt && (jobs[id].done ==> r.value.done)
    ensures r.Success? && !jobs[id].done && r.value.done ==>
      |r.value.outputs| == |jobs[id].outputs| &&
      forall i :: 0 <= i < |r.value.outputs| ==>
        r.value.outputs[i].filename == jobs[id].outputs[i].filename &&
        r.value.outputs[i].url == OutputURL(basePath, r.value.provider, r.value.outputs[i].filename)
  {
    if id !in jobs then Failure(JobNotFound)
    else
      var job := jobs[id];
      if job.done then Success(job)
      else if job.provider !in providers then Failure(ProviderNotFound)
      else
        match providers[job.provider].poll(VendorID(job))
        case Failure(reason) => Failure(ProviderError(reason))
        case Success(report) => Success(Refresh(job, report, basePath))
  }

  /**
    Once a read finds a job ready and stores it, every later read of that job
    gives the same answer, whatever providers are registered by then: the
    provider is not consulted again and the job never leaves the done state.
  */
  lemma ReadyJobIsStable(jobs: map<string, Job>, providers: map<string, Provider>, later: map<string, Provider>,
                         basePath: string, id: string, job: Job)
    requires Fetch(jobs, providers, basePath, id) == Success(job) && job.done
    ensures Fetch(jobs[id := job], later, basePath, id) == Success(job)
  {
  }

  /** Jobs in order of creation, oldest first. */
  predicate SortedByCreation(s: seq<Job>) {
    forall i, j :: 0 <= i < j < |s| ==> s[i].createdAt <= s[j].createdAt
  }

  /** No two jobs of `s` share an ID. */
  predicate DistinctIDs(s: seq<Job>) {
    forall i, j :: 0 <= i < j < |s| ==> s[i].id != s[j].id
  }

  /**
    `job` placed into the sorted `s` after every job created no later than
    it: the result is sorted, holds exactly the jobs of `s` and `job`, and
    keeps the IDs distinct when `job`'s ID is new.
  */
  function InsertByCreation(s: seq<Job>, job: Job): (r: seq<Job>)
    requires SortedByCreation(s)
    ensures SortedByCreation(r)
    ensures multiset(r) == multiset(s) + multiset{job}
    ensures forall x :: x in r <==> x in s || x == job
    ensures DistinctIDs(s) && (forall x :: x in s ==> x.id != job.id) ==> DistinctIDs(r)
  {
    if s == [] then [job]
    else if job.createdAt < s[0].createdAt then
      InsertFirst(s, job);
      [job] + s
    else
      var rest := InsertByCreation(s[1..], job);
      InsertAfterFirst(s, job, rest);
      [s[0]] + rest
  }

  /** The case where `job` goes in front. */
  lemma InsertFirst(s: seq<Job>, job: Job)
    requires SortedByCreation(s) && s != [] && job.createdAt < s[0].createdAt
    ensures SortedByCreation([job] + s)
    ensures DistinctIDs(s) && (forall x :: x in s ==> x.id != job.id) ==> DistinctIDs([job] + s)
  {
    ConsSorted(job, s);
    if DistinctIDs(s) && (forall x :: x in s ==> x.id != job.id) {
      ConsDistinct(job, s);
    }
  }

  /** The case where `job` goes after the first job of `s`, into the sorted `rest`. */
  lemma InsertAfterFirst(s: seq<Job>, job: Job, rest: seq<Job>)
    requires SortedByCreation(s) && s != [] && s[0].createdAt <= job.createdAt
    requires SortedByCreation(rest)
    requires multiset(rest) == multiset(s[1..]) + multiset{job}
    requires forall x :: x in rest <==> x in s[1..] || x == job
    requires DistinctIDs(s[1..]) && (forall x :: x in s[1..] ==> x.id != job.id) ==> DistinctIDs(rest)
    ensures SortedByCreation([s[0]] + rest)
    ensures multiset([s[0]] + rest) == multiset(s) + multiset{job}
    ensures forall x :: x in [s[0]] + rest <==> x in s || x == job
    ensures DistinctIDs(s) && (forall x :: x in s ==> x.id != job.id) ==> DistinctIDs([s[0]] + rest)
  {
    TailFollowsHead(s);
    ConsSorted(s[0], rest);
    assert s == [s[0]] + s[1..];
    if DistinctIDs(s) && (forall x :: x in s ==> x.id != job.id) {
      TailIDsDiffer(s);
      ConsDistinct(s[0], rest);
    }
  }

  lemma TailFollowsHead(s: seq<Job>)
    requires SortedByCreation(s) && s != []
    ensures forall x :: x in s[1..] ==> s[0].createdAt <= x.createdAt
  {
    forall x | x in s[1..] ensures s[0].createdAt <= x.createdAt {
      var k :| 0 <= k < |s[1..]| && s[1..][k] == x;
      assert x == s[k + 1];
    }
  }

  lemma TailIDsDiffer(s: seq<Job>)
    requires DistinctIDs(s) && s != []
    ensures DistinctIDs(s[1..])
    ensures forall x :: x in s[1..] ==> s[0].id != x.id
  {
    forall x | x in s[1..] ensures s[0].id != x.id {
      var k :| 0 <= k < |s[1..]| && s[1..][k] == x;
      assert x == s[k + 1];
    }
  }

  lemma ConsSorted(x: Job, rest: seq<Job>)
    requires SortedByCreation(rest)
    requires forall y :: y in rest ==> x.createdAt <= y.createdAt
    ensures SortedByCreation([x] + rest)
  {
    var r := [x] + rest;
    forall i, j | 0 <= i < j < |r|
      ensures r[i].createdAt <= r[j].createdAt
    {
      if i > 0 {
        assert r[i] == rest[i - 1] && r[j] == rest[j - 1];
      } else {
        assert r[j] in rest;
      }
    }
  }

  lemma ConsDistinct(x: Job, rest: seq<Job>)
    requires DistinctIDs(rest)
    requires forall y :: y in rest ==> x.id != y.id
    ensures DistinctIDs([x] + rest)
  {
    var r := [x] + rest;
    forall i, j | 0 <= i < j < |r|
      ensures r[i].id != r[j].id
    {
      if i > 0 {
        assert r[i] == rest[i - 1] && r[j] == rest[j - 1];
      } else {
        assert r[j] in rest;
      }
    }
  }

  class Client {
    var jobs: map<string, Job>
    var providers: map<string, Provider>
    const basePath: string

    /** Jobs are stored under their own ID, providers under their own name. */
    ghost predicate Valid()
      reads this
    {
      && (forall id :: id in jobs ==> jobs[id].id == id)
      && (forall name :: name in providers ==> providers[name].name == name)
    }

    constructor (basePath: string)
      ensures Valid()
      ensures jobs == map[] && providers == map[] && this.basePath == basePath
    {
      jobs := map[];
      providers := map[];
      this.basePath := basePath;
    }

    /** Registers `p` under its name; a later registration under the same name wins. */
    method AddProvider(p: Provider)
      requires Valid()
      modifies this
      ensures Valid()
      ensures providers == old(providers)[p.name := p] && jobs == old(jobs)
    {
      providers := providers[p.name := p];
    }

    /** Saves `job` under its ID, replacing any job stored there. */
    method StoreJob(job: Job)
      requires Valid()
      modifies this
      ensures Valid()
      ensures jobs == old(jobs)[job.id := job] && providers == old(providers)
    {
      jobs := jobs[job.id := job];
    }

    /**
      Hands `job` to the provider it names and, once that provider accepts
      it, stores it with the provider's identifier for it.  Nothing is stored
      when the provider is unknown or refuses.
    */
    method DispatchJob(job: Job) returns (err: Option<Error>)
      requires Valid()
      modifies this
      ensures Valid() && providers == old(providers)
      ensures job.provider !in providers ==> err == Some(ProviderNotFound) && jobs == old(jobs)
      ensures job.provider in providers ==>
        match providers[job.provider].dispatch(job)
        case Failure(reason) => err == Some(ProviderError(reason)) && jobs == old(jobs)
        case Success(vendorID) => err == None && jobs == old(jobs)[job.id := WithVendorID(job, vendorID)]
    {
      if job.provider !in providers {
        return Some(ProviderNotFound);
      }
      var accepted := providers[job.provider].dispatch(job);
      if accepted.Failure? {
        return Some(ProviderError(accepted.error));
      }
      var stored := WithVendorID(job, accepted.value);
      jobs := jobs[job.id := stored];
      err := None;
    }

    /**
      Loads job `id`; when it is not finished, asks its provider for a report,
      merges it, and stores the merged job.  On any failure the store is left
      as it was.
    */
    method GetJob(id: string) returns (r: Result<Job, Error>)
      requires Valid()
      modifies this
      ensures Valid() && providers == old(providers)
      ensures r == Fetch(old(jobs), providers, basePath, id)
      ensures jobs == if r.Success? then old(jobs)[id := r.value] else old(jobs)
    {
      if id !in jobs {
        return Failure(JobNotFound);
      }
      var job := jobs[id];
      if job.done {
        assert jobs[id := job] == jobs;
        return Success(job);
      }
      if job.provider !in providers {
        return Failure(ProviderNotFound);
      }
      var reply := providers[job.provider].poll(VendorID(job));
      if reply.Failure? {
        return Failure(ProviderError(reply.error));
      }
      var report := reply.value;
      var outputs := job.outputs;
      if report.done {
        outputs := FillURLs(job.outputs, basePath, job.provider);
      }
      job := job.(status := report.status, done := report.done, outputs := outputs);
      jobs := jobs[id := job];
      r := Success(job);
    }

    /**
      The jobs sharing `parentID`, oldest first.  Only the store is read;
      no provider is consulted.
    */
    method GetJobs(parentID: string) returns (r: seq<Job>)
      requires Valid()
      ensures SortedByCreation(r) && DistinctIDs(r)
      ensures forall job :: job in r ==> job.parentID == parentID && job.id in jobs && jobs[job.id] == job
      ensures forall id :: id in jobs && jobs[id].parentID == parentID ==> jobs[id] in r
    {
      r := [];
      var unseen := jobs.Keys;
      while unseen != {}
        invariant unseen <= jobs.Keys
        invariant SortedByCreation(r) && DistinctIDs(r)
        invariant forall job :: job in r ==>
          job.parentID == parentID && job.id in jobs && jobs[job.id] == job && job.id !in unseen
        invariant forall id :: id in jobs && id !in unseen && jobs[id].parentID == parentID ==> jobs[id] in r
        decreases unseen
      {
        var id :| id in unseen;
        unseen := unseen - {id};
        if jobs[id].parentID == parentID {
          r := InsertByCreation(r, jobs[id]);
        }
      }
    }

    /**
      Cancels job `id` with its provider.  A finished job is not cancelled and
      that is no error; an unknown job is.  Reports whether a cancellation
      took place.
    */
    method CancelJob(id: string) returns (canceled: bool, err: Option<Error>)
      requires Valid()
      ensures id !in jobs ==> !canceled && err == Some(JobNotFound)
      ensures id in jobs && jobs[id].done ==> !canceled && err == None
      ensures id in jobs && !jobs[id].done && jobs[id].provider !in providers ==>
        !canceled && err == Some(ProviderNotFound)
      ensures id in jobs && !jobs[id].done && jobs[id].provider in providers ==>
        match providers[jobs[id].provider].cancel(VendorID(jobs[id]))
        case Some(reason) => !canceled && err == Some(ProviderError(reason))
        case None => canceled && err == None
    {
      if id !in jobs {
        return false, Some(JobNotFound);
      }
      var job := jobs[id];
      if job.done {
        return false, None;
      }
      if job.provider !in providers {
        return false, Some(ProviderNotFound);
      }
      var refused := providers[job.provider].cancel(VendorID(job));
      if refused.Some? {
        return false, Some(ProviderError(refused.value));
      }
      canceled, err := true, None;
    }

    /** The caption file of job `id` in `format`, exactly as its provider hands it out. */
    method DownloadCaption(id: string, format: string) returns (r: Result<string, Error>)
      requires Valid()
      ensures id !in jobs ==> r == Failure(JobNotFound)
      ensures id in jobs && jobs[id].provider !in providers ==> r == Failure(ProviderNotFound)
      ensures id in jobs && jobs[id].provider in providers ==>
        match providers[jobs[id].provider].download(VendorID(jobs[id]), format)
        case Success(caption) => r == Success(caption)
        case Failure(reason) => r == Failure(ProviderError(reason))
    {
      if id !in jobs {
        return Failure(JobNotFound);
      }
      var job := jobs[id];
      if job.provider !in providers {
        return Failure(ProviderNotFound);
      }
      var caption := providers[job.provider].download(VendorID(job), format);
      if caption.Failure? {
        return Failure(ProviderError(caption.error));
      }
      r := Success(caption.value);
    }
  }
}
