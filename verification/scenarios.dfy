/**
  The client's behaviour on the situations its tests set up: a fresh client
  with base path "somepath", one registered test double, one or two stored
  jobs, and one or two calls.  What the test doubles do beyond what these
  situations observe is a parameter (`base`, `idleStatus`).
*/
module Scenarios {
  import opened Wrappers
  import opened Text
  import opened Errors
  import opened Jobs
  import opened Providers
  import opened Orchestrator
  import Transcript

  const BASE_PATH := "somepath"
  const MEDIA_URL := "http://vp.nyt.com/video.mp4"

  /** A job given only its ID, media URL and provider; every other field is empty. */
  function BareJob(id: string, mediaURL: string, provider: string): (job: Job)
    ensures job.id == id && job.mediaURL == mediaURL && job.provider == provider
    ensures !job.done && job.outputs == [] && VendorID(job) == ""
  {
    Job(id, "", mediaURL, provider, map[], "", false, [], 0)
  }

  /** A fresh client with `p` registered and `job` stored. */
  method ClientWith(p: Provider, job: Job) returns (c: Client)
    ensures fresh(c) && c.Valid()
    ensures c.basePath == BASE_PATH
    ensures c.providers == map[p.name := p] && c.jobs == map[job.id := job]
  {
    c := new Client(BASE_PATH);
    c.AddProvider(p);
    c.StoreJob(job);
  }

  /** A stored job is read back with its own ID and media URL. */
  method GetJobKeepsIdentity(base: Provider, idleStatus: string) returns (r: Result<Job, Error>)
    ensures r.Success? && r.value.id == "123" && r.value.mediaURL == MEDIA_URL
  {
    var fake := FakeProvider(base, NO_FLAGS, idleStatus, Transcript.IOWA_CAPTION);
    var c := ClientWith(fake, BareJob("123", MEDIA_URL, TEST_PROVIDER));
    r := c.GetJob("123");
  }

  /** Dispatching to a provider nobody registered fails with "Provider not found". */
  method DispatchToUnknownProvider(job: Job) returns (err: Option<Error>)
    requires job.provider == "wrong-provider"
    ensures err.Some? && Message(err.value) == "Provider not found"
  {
    var c := new Client(BASE_PATH);
    err := c.DispatchJob(job);
  }

  lemma SomepathURL(filename: string)
    ensures OutputURL(BASE_PATH, TEST_PROVIDER, filename) == "somepath/test-provider/" + filename
  {
    assert BASE_PATH + "/" + TEST_PROVIDER + "/" == "somepath/test-provider/";
  }

  /**
    A job whose provider reports it ready comes back done, each of its two
    outputs (WebVTT and SubRip) at "somepath/test-provider/" followed by its
    file name.  The job's ID and the file names are generated elsewhere and
    are parameters here.
  */
  method GetReadyJob(base: Provider, idleStatus: string, id: string, vttName: string, srtName: string)
    returns (r: Result<Job, Error>)
    ensures r.Success? && r.value.done && |r.value.outputs| == 2
    ensures r.value.outputs[0].filename == vttName && r.value.outputs[1].filename == srtName
    ensures r.value.outputs[0].url == "somepath/test-provider/" + r.value.outputs[0].filename
    ensures r.value.outputs[1].url == "somepath/test-provider/" + r.value.outputs[1].filename
  {
    var fake := FakeProvider(base, FakeFlags(false, false, true), idleStatus, Transcript.IOWA_CAPTION);
    var outputs := [Output("vtt", vttName, ""), Output("srt", srtName, "")];
    var job := Job(id, "123", MEDIA_URL, TEST_PROVIDER, map[], "delivered", false, outputs, 0);
    var c := ClientWith(fake, job);
    r := c.GetJob(id);
    SomepathURL(vttName);
    SomepathURL(srtName);
  }

  /** Two jobs that differ in ID are the only members of a list without repeated IDs holding both. */
  lemma PairListing(r: seq<Job>, a: Job, b: Job)
    requires a.id != b.id && a in r && b in r
    requires forall x :: x in r ==> x == a || x == b
    requires DistinctIDs(r)
    ensures |r| == 2
  {
    var i :| 0 <= i < |r| && r[i] == a;
    var j :| 0 <= j < |r| && r[j] == b;
    assert i != j;
    forall k | 0 <= k < |r|
      ensures (r[k] == a || r[k] == b) && (r[k] == a ==> k == i) && (r[k] == b ==> k == j)
    {
      assert r[k] in r;
    }
    // were there a third element, indices 0, 1 and 2 would all be i or j
    var k1, k2 := if |r| > 1 then 1 else 0, if |r| > 2 then 2 else 0;
    assert r[0] in r && r[k1] in r && r[k2] in r;
  }

  /**
    Listing by parent finds both jobs of the parent, yesterday's first, though
    neither job's provider is registered.
  */
  method ListByParent(base: Provider, idleStatus: string, today: int) returns (r: seq<Job>)
    ensures |r| == 2 && r[0].id == "456" && r[1].id == "123"
  {
    var fake := FakeProvider(base, NO_FLAGS, idleStatus, Transcript.IOWA_CAPTION);
    var yesterday := today - 86400;
    var job1 := Job("123", "Mom", "http://vp.nyt.com/video1.mp4", "test-provider1", map[], "", false, [], today);
    var job2 := Job("456", "Mom", "http://vp.nyt.com/video2.mp4", "test-provider2", map[], "", false, [], yesterday);
    var c := ClientWith(fake, job1);
    c.StoreJob(job2);
    assert c.jobs["123"] == job1 && c.jobs["456"] == job2;
    r := c.GetJobs("Mom");
    assert "123" != "456";
    PairListing(r, job1, job2);
    assert r[0] != r[1] by {
      assert r[0].id != r[1].id;
    }
    assert r[0].createdAt <= r[1].createdAt;
  }

  /** A failing status call reaches the caller with the provider's own message. */
  method PollFailure(base: Provider, idleStatus: string) returns (r: Result<Job, Error>)
    ensures r.Failure? && Message(r.error) == "oh no"
  {
    var fake := FakeProvider(base, FakeFlags(true, false, false), idleStatus, Transcript.IOWA_CAPTION);
    var c := ClientWith(fake, BareJob("123", MEDIA_URL, TEST_PROVIDER));
    r := c.GetJob("123");
  }

  /** The provider's status replaces the stored one. */
  method PollStatus(base: Provider, idleStatus: string) returns (r: Result<Job, Error>)
    ensures r.Success? && r.value.status == "My status"
  {
    var fake := FakeProvider(base, FakeFlags(false, true, false), idleStatus, Transcript.IOWA_CAPTION);
    var c := ClientWith(fake, BareJob("123", MEDIA_URL, TEST_PROVIDER));
    r := c.GetJob("123");
  }

  /** A job still in progress is cancelled without error. */
  method CancelLiveJob(base: Provider, idleStatus: string) returns (canceled: bool, err: Option<Error>)
    ensures canceled && err == None
  {
    var fake := FakeProvider(base, NO_FLAGS, idleStatus, Transcript.IOWA_CAPTION);
    var c := ClientWith(fake, BareJob("123", MEDIA_URL, TEST_PROVIDER));
    var job := c.GetJob("123");
    canceled, err := c.CancelJob(job.value.id);
  }

  /** A finished job stays finished across a read, and cancelling it does nothing and is no error. */
  method CancelFinishedJob(base: Provider, idleStatus: string) returns (canceled: bool, err: Option<Error>)
    ensures !canceled && err == None
  {
    var fake := FakeProvider(base, NO_FLAGS, idleStatus, Transcript.IOWA_CAPTION);
    var c := ClientWith(fake, BareJob("123", MEDIA_URL, TEST_PROVIDER).(done := true));
    var job := c.GetJob("123");
    canceled, err := c.CancelJob(job.value.id);
  }

  /** Cancelling an unknown job fails with "Job doesn't exist". */
  method CancelUnknownJob(base: Provider, idleStatus: string) returns (canceled: bool, err: Option<Error>)
    ensures !canceled && err.Some? && Message(err.value) == "Job doesn't exist"
  {
    var fake := FakeProvider(base, NO_FLAGS, idleStatus, Transcript.IOWA_CAPTION);
    var c := new Client(BASE_PATH);
    c.AddProvider(fake);
    canceled, err := c.CancelJob("404");
  }

  /** Downloading hands out the provider's caption file unchanged. */
  method DownloadVtt(base: Provider, idleStatus: string) returns (r: Result<string, Error>)
    ensures r == Success(Transcript.IOWA_CAPTION)
  {
    var fake := FakeProvider(base, NO_FLAGS, idleStatus, Transcript.IOWA_CAPTION);
    var c := ClientWith(fake, BareJob("123", MEDIA_URL, TEST_PROVIDER));
    r := c.DownloadCaption("123", "vtt");
  }

  /** Downloading for an unknown job fails with "Job doesn't exist". */
  method DownloadUnknownJob(base: Provider, idleStatus: string) returns (r: Result<string, Error>)
    ensures r.Failure? && Message(r.error) == "Job doesn't exist"
  {
    var fake := FakeProvider(base, NO_FLAGS, idleStatus, Transcript.IOWA_CAPTION);
    var c := ClientWith(fake, BareJob("123", MEDIA_URL, TEST_PROVIDER));
    r := c.DownloadCaption("404", "vtt");
  }

  /** A provider whose download fails passes its message on. */
  method DownloadFailure(base: Provider) returns (r: Result<string, Error>)
    ensures r.Failure? && Message(r.error) == "download error"
  {
    var c := ClientWith(BrokenProvider(base), BareJob("123", MEDIA_URL, BROKEN_PROVIDER));
    r := c.DownloadCaption("123", "vtt");
  }

  /** The downloaded WebVTT caption turns into its one cue's text. */
  method TranscribeVtt(base: Provider, idleStatus: string, parsers: Transcript.CaptionParsers)
    returns (r: Result<string, Error>)
    ensures r == Success("We're all talking about the Iowa caucuses")
  {
    var fake := FakeProvider(base, NO_FLAGS, idleStatus, Transcript.IOWA_CAPTION);
    var c := ClientWith(fake, BareJob("123", MEDIA_URL, TEST_PROVIDER));
    var caption := c.DownloadCaption("123", "vtt");
    r := Transcript.GenerateTranscript(caption.value, "vtt", parsers);
    Transcript.IowaTranscript(parsers);
  }

  /** An unknown format tag fails with a message naming the tag. */
  method TranscribeWrongFormat(base: Provider, idleStatus: string, parsers: Transcript.CaptionParsers)
    returns (r: Result<string, Error>)
    ensures r.Failure? && Message(r.error) == "Unable to generate a transcript for caption format: wrong"
  {
    var fake := FakeProvider(base, NO_FLAGS, idleStatus, Transcript.IOWA_CAPTION);
    var c := ClientWith(fake, BareJob("123", MEDIA_URL, TEST_PROVIDER));
    var caption := c.DownloadCaption("123", "vtt");
    r := Transcript.GenerateTranscript(caption.value, "wrong", parsers);
  }
}
