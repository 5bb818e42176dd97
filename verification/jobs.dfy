/**
  The job record the orchestrator stores, and the derivations that depend
  on one job only: the vendor's identifier kept among the provider
  parameters, and the URL of each caption output.
*/
module Jobs {
  import opened Text

  /** One requested caption output: its format, its file name and, once delivered, its URL. */
  datatype Output = Output(format: string, filename: string, url: string)

  /**
    One captioning job.  `createdAt` is a timestamp in seconds; `outputs`
    holds one entry per requested caption format.
  */
  datatype Job = Job(
    id: string,
    parentID: string,
    mediaURL: string,
    provider: string,
    providerParams: map<string, string>,
    status: string,
    done: bool,
    outputs: seq<Output>,
    createdAt: int)

  /** The provider parameter under which a provider records its own job identifier. */
  const PROVIDER_ID_KEY := "ProviderID"

  /** The vendor's identifier of `job`; the empty string when none was recorded. */
  function VendorID(job: Job): string {
    if PROVIDER_ID_KEY in job.providerParams then job.providerParams[PROVIDER_ID_KEY] else ""
  }

  /** `job` after its provider accepted it under the identifier `vendorID`. */
  function WithVendorID(job: Job, vendorID: string): (r: Job)
    ensures VendorID(r) == vendorID
    ensures r.(providerParams := job.providerParams) == job
    ensures forall k :: k in job.providerParams && k != PROVIDER_ID_KEY ==>
      k in r.providerParams && r.providerParams[k] == job.providerParams[k]
    ensures r.providerParams.Keys == job.providerParams.Keys + {PROVIDER_ID_KEY}
  {
    job.(providerParams := job.providerParams[PROVIDER_ID_KEY := vendorID])
  }

  /**
    Where a delivered caption file can be fetched: the configured base path,
    the provider's name and the file name, separated by slashes.
  */
  function OutputURL(basePath: string, provider: string, filename: string): (url: string)
    ensures StartsWith(url, basePath + "/" + provider + "/")
    ensures url[|basePath| + |provider| + 2..] == filename
  {
    var prefix := basePath + "/" + provider + "/";
    assert |prefix| == |basePath| + |provider| + 2;
    assert (prefix + filename)[..|prefix|] == prefix;
    prefix + filename
  }

  /** Under one base path and one provider, an output URL determines its file name. */
  lemma OutputURLInjective(basePath: string, provider: string, a: string, b: string)
    requires OutputURL(basePath, provider, a) == OutputURL(basePath, provider, b)
    ensures a == b
  {
  }
}
