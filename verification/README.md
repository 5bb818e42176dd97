# Caption-job orchestrator and transcript generator

This project models the core of a captioning-job broker. The broker has
two parts.

The orchestrator (the `service` Client) keeps a store of jobs keyed by job
ID and a registry of captioning providers keyed by provider name. It:
- dispatches a job to the provider the job names;
- reads a job back, polling the provider while the job is not done;
- lists the jobs that share a parent;
- cancels a job;
- downloads a caption file from the job's provider.

The transcript generator turns a caption file, tagged `vtt`, `srt`, `sbv`
or `ssa`, into one line of plain text.

The implementing file of the client is not part of this model. Most of its
behaviour is pinned down by the client's tests in `service/client_test.go`.
The scenario methods, the test doubles, `GetJobs`' order and the WebVTT
transcript come from those tests' assertions. The other contracts state
the client's intended behaviour in cases no test reaches:
- `ProviderNotFound` from `GetJob`, `CancelJob` and `DownloadCaption` when
  the job's provider is not registered;
- a failed read leaves the store unchanged;
- a provider's refusal of a dispatch or a cancellation reaches the caller
  as its message;
- a job that is already done is returned without polling its provider.

The WebVTT reading
follows the file structure of section 4.1 of the W3C WebVTT specification:
- an optional `WEBVTT` header block;
- `NOTE` comment blocks;
- cue blocks made of an optional identifier, a timing line holding `-->`,
  and text lines.

Blocks are separated by blank lines.

Module layout:
- `Wrappers`: `Option` and `Result`.
- `Text`: lines, joining and the other string helpers.
- `Errors`: the four error kinds and their messages.
- `Jobs`: the job record, the vendor identifier and output URLs.
- `Providers`: a provider as a value of scripted responses, plus the two
  test doubles.
- `WebVtt`: cue extraction and the renderer it is proved against.
- `Transcript`: the transcript generator.
- `Orchestrator`: the specification functions and the `Client` class.
- `Scenarios`: one method per client test, except the SubRip, SubViewer
  and SubStation Alpha transcript tests (see "Left out"). Each method builds
  the client state the test sets up and states the test's assertions as its
  postcondition.

The test at `service/client_test.go:90-91` requires yesterday's job before
today's, so `GetJobs` returns the jobs oldest first.

## Model

| member | source | states |
|---|---|---|
| Errors.UnsupportedFormatNamesTag | service/client_test.go:306 | the message of an unsupported-format error is the fixed prefix followed by the rejected tag |
| Errors.UnsupportedFormatMessageInjective | service/client_test.go:304-306 | two unsupported-format messages are equal only for the same tag |
| Jobs.WithVendorID | providers/threeplay.go:117 | an accepted job records the provider's identifier under "ProviderID"; every other field and every other provider parameter is kept, and no other parameter is added |
| Jobs.OutputURL | service/client_test.go:55-56 | an output URL is the base path, "/", the provider name, "/" and then the file name |
| Jobs.OutputURLInjective | service/client_test.go:55-56 | under one base path and one provider, the URL determines the file name |
| Providers.FakeProvider | service/client_test.go:36-43 | the test double is registered under "test-provider"; its status call fails with "oh no" exactly when `jobError` is set, and otherwise reports `jobDone` and, when `jobStatus` is set, the status "My status"; every cancellation succeeds; its WebVTT caption is the same file for every job |
| Providers.BrokenProvider | service/client_test.go:217 | the failing test double is registered under "broken-provider" and every download from it fails with "download error" |
| WebVtt.CuesOfRender | service/client_test.go:245-259 | for a well-formed WebVTT file (a header block starting with "WEBVTT", then any sequence of NOTE blocks and cues, each cue with or without an identifier), the extracted cues are exactly the text lines of its cues, in order; the header, the NOTE blocks, the identifiers and the timing lines are dropped |
| WebVtt.CuesHaveNoNewline | service/client_test.go:256-258 | no extracted cue line contains a line feed |
| Transcript.FormatOfTag | service/client_test.go:240 | each of the four formats is selected by its own tag |
| Transcript.GenerateTranscript | service/client_test.go:293-307 | generation fails exactly when the tag names no format, and then with an unsupported-format error naming the tag; each of "vtt", "srt", "sbv" and "ssa" reads the file with its own parser and joins the text lines of all cues, in order, by single spaces; a WebVTT transcript always exists, contains no line feed, and is empty for an empty file |
| Transcript.VttTranscriptOfRender | service/client_test.go:245-259 | the transcript of a well-formed WebVTT file (header block, NOTE blocks anywhere, cues with or without identifiers) is its cues' text lines joined by single spaces |
| Transcript.IowaTranscript | service/client_test.go:255-258 | the test double's WebVTT caption gives "We're all talking about the Iowa caucuses" |
| Orchestrator.Refresh | service/client_test.go:117-136 | a merged job carries the provider's status and done flag and keeps its identity, parameters and creation time; when ready, every output keeps its format and file name and gets its URL; otherwise the outputs are unchanged |
| Orchestrator.FillURLs | service/client_test.go:53-56 | the loop that fills output URLs yields exactly `Delivered` of the outputs |
| Orchestrator.Delivered | service/client_test.go:53-56 | every output gets the URL built from the provider and its own file name; nothing else about it changes |
| Orchestrator.Fetch | service/client_test.go:12-25 | reading an unknown job fails with JobNotFound; a done job comes back unchanged without a provider call; a missing provider gives ProviderNotFound; a provider failure is returned verbatim; a successful poll gives the job merged with the report as `Refresh` states; a success keeps the job's ID, media URL, parent, provider and creation time, never clears done, and gives each output of a newly ready job its URL |
| Orchestrator.ReadyJobIsStable | service/client_test.go:155-171 | after a read that finds a job ready, every later read returns the same job whatever providers are registered |
| Orchestrator.InsertByCreation | service/client_test.go:84-91 | insertion into a list sorted by creation time keeps it sorted, is a permutation of the list plus the new job, and keeps IDs distinct when the new ID is fresh |
| Orchestrator.Client.constructor | service/client_test.go:13 | a new client has no jobs and no providers |
| Orchestrator.Client.AddProvider | service/client_test.go:15 | a provider is registered under its name and a later registration under that name wins; jobs are untouched |
| Orchestrator.Client.StoreJob | service/client_test.go:21 | a job is stored under its ID; providers are untouched |
| Orchestrator.Client.DispatchJob | service/client_test.go:27-31 | an unknown provider gives ProviderNotFound and stores nothing; a refusal gives the provider's message and stores nothing; an accepted job is stored with the provider's identifier |
| Orchestrator.Client.GetJob | service/client_test.go:22 | the answer is the one `Fetch` specifies; a successful read stores the merged job and a failed one leaves the store as it was |
| Orchestrator.Client.GetJobs | service/client_test.go:59-92 | the result holds exactly the stored jobs with that parent, with no repeated ID, oldest first; no provider is consulted |
| Orchestrator.Client.CancelJob | service/client_test.go:138-182 | an unknown ID gives (false, JobNotFound); a done job gives (false, no error) without a provider call; a missing provider gives ProviderNotFound; a provider refusal gives its message; otherwise (true, no error) |
| Orchestrator.Client.DownloadCaption | service/client_test.go:184-227 | an unknown ID gives JobNotFound; a missing provider gives ProviderNotFound; otherwise the provider's caption or its failure message passes through unchanged |
| Scenarios.GetJobKeepsIdentity | service/client_test.go:12-25 | a stored job is read back with ID "123" and its media URL |
| Scenarios.DispatchToUnknownProvider | service/client_test.go:27-31 | dispatching to "wrong-provider" fails with "Provider not found" |
| Scenarios.GetReadyJob | service/client_test.go:33-57 | a job reported ready comes back done, with both outputs at "somepath/test-provider/" followed by their file names |
| Scenarios.ListByParent | service/client_test.go:59-92 | listing parent "Mom" gives two jobs, "456" (yesterday) before "123" (today), though neither provider is registered |
| Scenarios.PollFailure | service/client_test.go:94-115 | a failing status call gives the error "oh no" |
| Scenarios.PollStatus | service/client_test.go:117-136 | the read job's status is "My status" |
| Scenarios.CancelLiveJob | service/client_test.go:138-153 | cancelling a job in progress gives (true, no error) |
| Scenarios.CancelFinishedJob | service/client_test.go:155-171 | cancelling a job stored done, after a read, gives (false, no error) |
| Scenarios.CancelUnknownJob | service/client_test.go:173-182 | cancelling "404" gives false and "Job doesn't exist" |
| Scenarios.DownloadVtt | service/client_test.go:184-197 | the downloaded WebVTT caption is exactly the test double's file, the seven lines "WEBVTT", "", "NOTE Paragraph", "", the timing line and the two text lines joined by line feeds |
| Scenarios.DownloadUnknownJob | service/client_test.go:199-212 | downloading for "404" fails with "Job doesn't exist" |
| Scenarios.DownloadFailure | service/client_test.go:214-227 | a broken provider's download fails with "download error" |
| Scenarios.TranscribeVtt | service/client_test.go:245-259 | the downloaded caption's transcript is "We're all talking about the Iowa caucuses" |
| Scenarios.TranscribeWrongFormat | service/client_test.go:293-307 | tag "wrong" fails with "Unable to generate a transcript for caption format: wrong" |

## Left out

- The SubRip, SubViewer and SubStation Alpha parsers are parameters (`Transcript.CaptionParsers`). Their input files belong to the fake provider, which is not part of this model, so the expected transcripts at `service/client_test.go:242`, `:274` and `:290` cannot be tied to an input. For them `Transcript.GenerateTranscript` states only which parser each tag selects and that the parser's cue lines are joined by single spaces.
- Orchestrator.Refresh: the requested outputs, each with its format and file name, exist from the moment the job is created, and completion only sets their URLs. A client in which the outputs stay empty until the job is done, and are then created by pairing each requested format with a derived file name and its URL, is not modelled. The tests observe only the finished outputs, which are the same in both. `Scenarios.GetReadyJob` therefore stores an unfinished job that already holds its two outputs.
- `newJobFromParams`, including its generated job ID and file names, is not part of this model. `Scenarios.GetReadyJob` takes the ID and the two file names as parameters.
- The database backend, logging, the HTTP layer and concurrency are left out. The store is a map and every call is sequential.
- `time.Now()` is replaced by an integer count of seconds passed in. "Yesterday" is modelled as 86400 seconds earlier; only its order relative to "today" matters.
- Caption files are modelled as character strings, not bytes. WebVTT reading handles line-feed line endings only. Carriage returns, byte-order marks and cue settings after the timing are not given special treatment.
- Orchestrator.Client.GetJobs: returns whole jobs rather than the summaries of `service/client_test.go:84`. The summary type is not part of this model; the test reads only the IDs, which a job carries too.
- Orchestrator.Client.DispatchJob: only the stored copy of an accepted job carries the provider's identifier. In Go the adapter writes it through the caller's pointer (`providers/threeplay.go:117`), so the caller's job changes too; the model passes jobs by value and does not capture that aliasing.
- Jobs.WithVendorID: records the identifier even when the job has no parameter map. In Go, `providers/threeplay.go:117` writes into a nil map for a job built without `ProviderParams`, as the tests build theirs (`service/client_test.go:16-20`), and that write panics. The model does not capture the panic.
- WebVTT STYLE and REGION blocks are not part of the rendered files `WebVtt.CuesOfRender` covers. The reader drops such a block unless one of its first two lines holds "-->", but no lemma states that.
- Orchestrator.Client.CancelJob: does not change the store after a successful cancellation. The representation of the cancelled state is not part of this model.
- The fake provider's behaviour that the tests do not observe comes from parameters: its dispatch, its idle status, and its non-WebVTT captions. This covers `base` and `idleStatus` in `Providers.FakeProvider`.
- A provider's status report is reduced to a status text and a done flag. How the client derives the done flag from a vendor's status is not part of this model.
- The 3Play adapter (`providers/threeplay.go`) is a client of an HTTP API that is not part of this model. Only the key under which it records the vendor identifier is used. Its batch lookup keeps only the last file ID, because `Set` inside the loop at `providers/threeplay.go:59-62` overwrites the previous one. That lookup is not modelled, because the orchestrator never calls it.
- `GenerateTranscript` is a function of the caption, the tag and the parsers. In the client it is a method, but it reads no client state.
