/**
  Captioning providers.  A provider is seen only through its capabilities,
  each modelled as the response it gives: accept a job (answering with its
  own identifier for it), report a job's status, cancel a job, and hand out
  a caption file in a requested format.  Every failure is a message.
*/
module Providers {
  import opened Wrappers
  import opened Jobs

  /** What a provider reports about a job: its own status text and whether it is ready. */
  datatype Report = Report(status: string, done: bool)

  datatype Provider = Provider(
    name: string,
    // accept a job; the answer is the provider's identifier for it
    dispatch: Job -> Result<string, string>,
    // report on the job with this provider identifier
    poll: string -> Result<Report, string>,
    // cancel the job with this provider identifier; None when it worked
    cancel: string -> Option<string>,
    // the caption file of a job (provider identifier, caption format)
    download: (string, string) -> Result<string, string>)

  // -------------------------------------------------------------------
  // The two test doubles the client's tests register.

  const TEST_PROVIDER := "test-provider"
  const BROKEN_PROVIDER := "broken-provider"
  const JOB_ERROR := "oh no"
  const FAKE_STATUS := "My status"
  const DOWNLOAD_ERROR := "download error"

  /** The fake provider's switches: fail the status call, report a status, report ready. */
  datatype FakeFlags = FakeFlags(jobError: bool, jobStatus: bool, jobDone: bool)

  const NO_FLAGS := FakeFlags(false, false, false)

  /**
    The fake provider.  What it does beyond what the tests observe comes from
    `base`: its dispatch, the status it reports when asked for no particular
    status (`idleStatus`), and its caption files other than WebVTT.
  */
  function FakeProvider(base: Provider, flags: FakeFlags, idleStatus: string, vttCaption: string): (p: Provider)
    ensures p.name == TEST_PROVIDER && p.dispatch == base.dispatch
    // the status call fails with "oh no" exactly when asked to
    ensures forall v :: flags.jobError ==> p.poll(v) == Failure(JOB_ERROR)
    ensures forall v :: !flags.jobError ==> p.poll(v).Success? && p.poll(v).value.done == flags.jobDone
    ensures forall v :: !flags.jobError ==>
      p.poll(v).value.status == (if flags.jobStatus then FAKE_STATUS else idleStatus)
    // every cancellation succeeds
    ensures forall v :: p.cancel(v) == None
    // the WebVTT caption is `vttCaption`, whatever the job
    ensures forall v :: p.download(v, "vtt") == Success(vttCaption)
    ensures forall v, f :: f != "vtt" ==> p.download(v, f) == base.download(v, f)
  {
    base.(
      name := TEST_PROVIDER,
      poll := (vendorID: string) =>
        if flags.jobError then Failure(JOB_ERROR)
        else Success(Report(if flags.jobStatus then FAKE_STATUS else idleStatus, flags.jobDone)),
      cancel := (vendorID: string) => None,
      download := (vendorID: string, format: string) =>
        if format == "vtt" then Success(vttCaption) else base.download(vendorID, format))
  }

  /** The broken provider: every download fails; the rest comes from `base`. */
  function BrokenProvider(base: Provider): (p: Provider)
    ensures p.name == BROKEN_PROVIDER
    ensures forall v, f :: p.download(v, f) == Failure(DOWNLOAD_ERROR)
    ensures p.dispatch == base.dispatch && p.poll == base.poll && p.cancel == base.cancel
  {
    base.(
      name := BROKEN_PROVIDER,
      download := (vendorID: string, format: string) => Failure(DOWNLOAD_ERROR))
  }
}
