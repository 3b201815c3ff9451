/** `GetCriticalFiles.DownloadCriticalCudaFiles`: makes sure the CUDA provider
    library is on disk, fetching it at most once per process. The whole attempt
    runs under one lock, so a caller either finds the flag set, finds the
    completion source already resolved, or runs the attempt itself: the model
    is a sequential state machine, one step per call. */
module CriticalFiles {
  import opened Wrappers
  import opened Exceptions
  import opened Platform

  /** The shared completion source, once created: `SetResult(true)` or
      `SetException(ex)`. */
  datatype Completion = Succeeded | Faulted(ex: Exception)

  /** The process-wide statics `_cudaFilesDownloaded` and
      `_downloadTaskCompletionSource` (None while null). */
  datatype FetcherState = FetcherState(downloaded: bool, source: Option<Completion>)

  const Initial := FetcherState(false, None)

  /** The HEAD request: the advertised Content-Length (-1 when the header is
      absent), or the exception it raised. */
  datatype Probe = ContentLength(length: int) | ProbeFailed(ex: Exception)

  /** What the outside world does during one attempt: the OS, the file system
      and the network. */
  datatype World = World(
    isWindows: bool,
    baseDirectory: Path,
    directoryExists: bool,
    createDirectory: Option<Exception>,   // the failure of Directory.CreateDirectory, if any
    fileExists: bool,
    localLength: nat,
    probe: Probe,
    download: Option<Exception>)           // the failure of WebClient.DownloadFile, if any

  /** How one call ends for its caller. */
  datatype CallOutcome = Returned | Threw(ex: Exception)

  /** One call: the state afterwards, how the call ended, whether it started
      the attempt (created the completion source) and whether it started the
      network transfer of the file (one that fails part-way counts). */
  datatype Step = Step(state: FetcherState, outcome: CallOutcome, startedAttempt: bool, fetched: bool)

  /** The folder of the provider builds for release 0.4.0; both download URLs
      are this folder, a slash and the file name. */
  const ProvidersFolderUrl := "https://huggingface.co/datasets/magiccodingman/MagicOnnxRuntimeGenAI/resolve/main/cuda_providers/0.4.0"

  /** The provider library's file name, for Windows and for every other OS. */
  function FileName(isWindows: bool): string {
    if isWindows then "onnxruntime_providers_cuda.dll" else "libonnxruntime_providers_cuda.so"
  }

  /** The provider library's download URL, for Windows and for every other OS. */
  function DownloadUrl(isWindows: bool): string {
    ProvidersFolderUrl + "/" + FileName(isWindows)
  }

  /** The URL and the target file follow the same OS choice: the file is saved
      under the name the URL's last segment gives it. */
  lemma UrlNamesTargetFile(isWindows: bool, baseDirectory: Path)
    ensures var file := TargetFile(isWindows, baseDirectory);
            var url := DownloadUrl(isWindows);
            var name := file[|file| - 1];
            |name| < |url| && url[|url| - |name| - 1..] == "/" + name
  {
    var file := TargetFile(isWindows, baseDirectory);
    assert file[|file| - 1] == FileName(isWindows);
    LastSegment(ProvidersFolderUrl, FileName(isWindows));
  }

  /** The text after the last added slash is what was appended. */
  lemma LastSegment(folder: string, name: string)
    ensures var url := folder + "/" + name;
            |name| < |url| && url[|url| - |name| - 1..] == "/" + name
  {
    var url := folder + "/" + name;
    assert url[|url| - |name| - 1..] == url[|folder|..];
  }

  /** The provider library's path below the application base directory. */
  function TargetFile(isWindows: bool, baseDirectory: Path): (r: Path)
    ensures isWindows ==> r == baseDirectory + ["cuda", "runtimes", "win-x64", "native", "onnxruntime_providers_cuda.dll"]
    ensures !isWindows ==> r == baseDirectory + ["cuda", "runtimes", "linux-x64", "native", "libonnxruntime_providers_cuda.so"]
  {
    var targetDirectory := if isWindows then Combine(baseDirectory, ["cuda", "runtimes", "win-x64", "native"])
                           else Combine(baseDirectory, ["cuda", "runtimes", "linux-x64", "native"]);
    Combine(targetDirectory, [FileName(isWindows)])
  }

  /** `IsFileComplete`: a missing file is incomplete, a failed probe counts as
      incomplete, otherwise the local length must equal the remote one. A
      response without a Content-Length header (-1) never matches. */
  function IsFileComplete(fileExists: bool, localLength: nat, probe: Probe): (r: bool)
    ensures r ==> fileExists && probe.ContentLength? && probe.length >= 0
    ensures probe.ContentLength? && probe.length < 0 ==> !r
  {
    if !fileExists then false
    else match probe
      case ProbeFailed(_) => false
      case ContentLength(remote) => localLength == remote
  }

  /** The download-or-skip rule of the attempt. */
  function NeedsDownload(world: World): bool {
    !world.fileExists || !IsFileComplete(world.fileExists, world.localLength, world.probe)
  }

  /** The attempt proper: prepare the directory, then download unless the file
      on disk is complete. Returns whether the network transfer ran, or the
      exception that ended the attempt. */
  function Attempt(world: World): (r: Result<bool, Exception>)
    ensures r.Success? <==> (world.directoryExists || world.createDirectory.None?)
                            && (NeedsDownload(world) ==> world.download.None?)
    ensures r.Success? ==> r.value == NeedsDownload(world)
  {
    if !world.directoryExists && world.createDirectory.Some? then Failure(world.createDirectory.value)
    else if !world.fileExists || !IsFileComplete(world.fileExists, world.localLength, world.probe) then
      if world.download.Some? then Failure(world.download.value) else Success(true)
    else Success(false)
  }

  /** One call of `DownloadCriticalCudaFiles`. Once the flag is set a call
      changes nothing; an attempt starts only when no completion source exists;
      an existing source is never reset or replaced; the state stays
      consistent; and a call returns normally exactly when the flag ends up set. */
  function DownloadCriticalCudaFiles(s: FetcherState, world: World): (step: Step)
    ensures s.downloaded ==> step == Step(s, Returned, false, false)
    ensures step.startedAttempt <==> !s.downloaded && s.source.None?
    ensures step.fetched <==> (step.startedAttempt && (world.directoryExists || world.createDirectory.None?)
                               && NeedsDownload(world))
    ensures s.source.Some? ==> step.state == s
    ensures Consistent(s) ==> step.state.source.Some?
    ensures Consistent(s) ==> Consistent(step.state)
    ensures Consistent(s) ==> (step.outcome.Returned? <==> step.state.downloaded)
  {
    if s.downloaded then Step(s, Returned, false, false)   // fast path, and the re-check under the lock
    else if s.source.None? then
      match Attempt(world)
      case Success(fetched) => Step(FetcherState(true, Some(Succeeded)), Returned, true, fetched)
      case Failure(ex) => Step(FetcherState(false, Some(Faulted(ex))), Threw(ex), true,
                                     (world.directoryExists || world.createDirectory.None?) && NeedsDownload(world))
    else
      // an earlier attempt exists and the flag is clear: wait on its task
      match s.source.value
      case Succeeded => Step(s, Returned, false, false)
      case Faulted(ex) => Step(s, Threw(Aggregate(ex)), false, false)
  }

  /** The flag is set exactly when the completion source succeeded. */
  predicate Consistent(s: FetcherState) {
    s.downloaded <==> s.source == Some(Succeeded)
  }

  /** A successful first attempt transfers the file exactly when it is missing
      or its size differs from the advertised one (or the size probe failed). */
  lemma DownloadIffIncomplete(world: World)
    requires world.directoryExists || world.createDirectory.None?
    requires world.download.None?
    ensures DownloadCriticalCudaFiles(Initial, world).fetched
            <==> !world.fileExists || world.probe.ProbeFailed? || world.localLength != world.probe.length
    ensures DownloadCriticalCudaFiles(Initial, world).state == FetcherState(true, Some(Succeeded))
  {
  }

  /** Runs a sequence of calls, one per world, and reports each step. */
  function Run(s: FetcherState, worlds: seq<World>): (steps: seq<Step>)
    ensures |steps| == |worlds|
    decreases |worlds|
  {
    if |worlds| == 0 then []
    else
      var first := DownloadCriticalCudaFiles(s, worlds[0]);
      [first] + Run(first.state, worlds[1..])
  }

  function AttemptsStarted(steps: seq<Step>): nat {
    if |steps| == 0 then 0 else (if steps[0].startedAttempt then 1 else 0) + AttemptsStarted(steps[1..])
  }

  /** From a state that already has a completion source, no call starts an
      attempt, every call ends the same way, and the state never changes. */
  lemma {:induction false} SettledRun(s: FetcherState, worlds: seq<World>)
    requires Consistent(s) && s.source.Some?
    ensures AttemptsStarted(Run(s, worlds)) == 0
    ensures forall i | 0 <= i < |worlds| ::
              Run(s, worlds)[i].state == s && !Run(s, worlds)[i].fetched && !Run(s, worlds)[i].startedAttempt
              && Run(s, worlds)[i].outcome == DownloadCriticalCudaFiles(s, worlds[0]).outcome
    decreases |worlds|
  {
    if |worlds| > 0 {
      SettledRun(s, worlds[1..]);
      var steps := Run(s, worlds);
      forall i | 0 <= i < |worlds|
        ensures steps[i].state == s && !steps[i].fetched && !steps[i].startedAttempt
                && steps[i].outcome == DownloadCriticalCudaFiles(s, worlds[0]).outcome
      {
        if i > 0 {
          assert steps[i] == Run(s, worlds[1..])[i - 1];
          assert worlds[1..][0] == worlds[1];
          assert DownloadCriticalCudaFiles(s, worlds[1]).outcome == DownloadCriticalCudaFiles(s, worlds[0]).outcome;
        }
      }
    }
  }

  /** At most one attempt per process: from the initial state, however many
      calls are made and whatever the world does, at most one of them starts
      the download attempt. */
  lemma {:induction false} AtMostOneAttempt(worlds: seq<World>)
    ensures AttemptsStarted(Run(Initial, worlds)) <= 1
  {
    if |worlds| > 0 {
      var first := DownloadCriticalCudaFiles(Initial, worlds[0]);
      SettledRun(first.state, worlds[1..]);
    }
  }

  /** No retry after a failure: when the first attempt fails with `ex`, its
      caller gets `ex` itself and every later caller gets `ex` wrapped by
      `Task.Wait`, with no further transfer. */
  lemma {:induction false} FailureIsFinal(worlds: seq<World>, ex: Exception)
    requires |worlds| > 0 && Attempt(worlds[0]) == Failure(ex)
    ensures Run(Initial, worlds)[0].outcome == Threw(ex)
    ensures forall i | 1 <= i < |worlds| ::
              Run(Initial, worlds)[i].outcome == Threw(Aggregate(ex)) && !Run(Initial, worlds)[i].fetched
  {
    var first := DownloadCriticalCudaFiles(Initial, worlds[0]);
    assert first.state == FetcherState(false, Some(Faulted(ex)));
    SettledRun(first.state, worlds[1..]);
    forall i | 1 <= i < |worlds|
      ensures Run(Initial, worlds)[i].outcome == Threw(Aggregate(ex)) && !Run(Initial, worlds)[i].fetched
    {
      assert Run(Initial, worlds)[i] == Run(first.state, worlds[1..])[i - 1];
    }
  }

  /** Once the download succeeded every later call returns at once and
      changes nothing. */
  lemma {:induction false} SuccessIsFinal(worlds: seq<World>)
    requires |worlds| > 0 && Attempt(worlds[0]).Success?
    ensures forall i | 0 <= i < |worlds| :: Run(Initial, worlds)[i].outcome == Returned
    ensures forall i | 1 <= i < |worlds| ::
              Run(Initial, worlds)[i].state == FetcherState(true, Some(Succeeded))
              && !Run(Initial, worlds)[i].startedAttempt
  {
    var first := DownloadCriticalCudaFiles(Initial, worlds[0]);
    SettledRun(first.state, worlds[1..]);
    forall i | 1 <= i < |worlds|
      ensures Run(Initial, worlds)[i].outcome == Returned
              && Run(Initial, worlds)[i].state == FetcherState(true, Some(Succeeded))
              && !Run(Initial, worlds)[i].startedAttempt
    {
      assert Run(Initial, worlds)[i] == Run(first.state, worlds[1..])[i - 1];
    }
  }
}
