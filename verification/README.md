# MagicOnnxRuntimeGenAi in Dafny

A Dafny model of the decision logic inside MagicOnnxRuntimeGenAi, a .NET
wrapper around the ONNX Runtime GenAI native library. There is one module per
component of the library:

- `CodeTransformer` models the binding generator. It turns the `[DllImport]`
  methods of a `NativeMethods` class into a `MagicNativeMethods` class. For
  each import the new class has a private delegate type and a public
  forwarder that binds that delegate at run time. Input and output are
  abstract syntax trees.
- `NativeLibraryLoader` models the `runtimes/<os>[-<arch>]/native` folder of
  the running host.
- `NativeMethodsHelper` models `SetLibraryPath`: the backend folder, the
  per-OS library file name, and the order in which its errors surface.
- `CriticalFiles` models the CUDA provider fetcher as a sequential state
  machine. The state is the `downloaded` flag plus an optional completion
  source.
- `MagicStringUtils` and `Utf8` model zero-terminated UTF-8 buffers (C
  strings). The UTF-8 codec follows section 3 of RFC 3629.
- `MagicModel` models the choice of compute backend from `genai_config.json`,
  with the JSON document as a tree.
- `ChatTemplate` models the Gemma 2, Phi-3 mini and Llama 3.1 prompt formats.
- `CallAi` models token counting and the history budget of
  `GenerateAIResponseV6`. Its `ulong` and `int` arithmetic is written out.

The shared modules are:

- `Wrappers`: `Option` for a nullable reference, `Result` for "returns or
  throws".
- `Exceptions`: the .NET exception kinds.
- `Platform`: OS, architecture, backend and paths. A path is the list of
  segments `Path.Combine` joins.
- `Text`: `Trim`, `Contains` and `EndsWith`.

The outside world is passed in as parameters:

- the file-existence oracle;
- the HTTP probe and download outcomes;
- the tokenizer (`encode`);
- the generator (`generate`).

## Model

| member | source | states |
|---|---|---|
| NativeLibraryLoader.GetNativeDllPath | MagicOnnxRuntimeGenAi/Helpers/NativeLibraryLoader.cs:42-66 | Succeeds exactly for the five known platforms with an x64, x86 or arm64 architecture. An unknown OS fails with "Unsupported platform". A known OS with an unknown architecture fails with "Unsupported architecture", on mobile too. A result is the base path plus `runtimes`, the runtime identifier and `native`, so it always extends the base by exactly three segments. |
| NativeLibraryLoader.RuntimeIdentifierSpelling | MagicOnnxRuntimeGenAi/Helpers/NativeLibraryLoader.cs:45-65 | On desktop the folder name is the platform probe's name, a dash and the architecture probe's name. |
| NativeLibraryLoader.NativeDllPathIdentifiesHost | MagicOnnxRuntimeGenAi/Helpers/NativeLibraryLoader.cs:42-66 | Two hosts that resolve to the same folder run the same OS, and on desktop the same architecture too. |
| NativeLibraryLoader.MobileIgnoresArchitecture | MagicOnnxRuntimeGenAi/Helpers/NativeLibraryLoader.cs:53-62 | On iOS and Android, any two supported architectures give the same folder, and that folder resolves. |
| NativeMethodsHelper.SetLibraryPath | MagicOnnxRuntimeGenAi/Helpers/MagicNativeMethodsHelper.cs:15-69 | Errors come in a fixed order: unknown hardware, then unsupported platform, then unsupported architecture, then a mobile OS in a default build. Once all of these pass, the result is the path `<base>/<cpu or cuda or dml>/runtimes/<rid>/native/<file>` if that file exists, and `DllNotFound` for that path otherwise. |
| NativeMethodsHelper.LibraryPathIdentifiesBackend | MagicOnnxRuntimeGenAi/Helpers/MagicNativeMethodsHelper.cs:20-33 | Two backends that resolve to the same library path are the same backend. |
| NativeMethodsHelper.DefaultBuildRejectsMobile | MagicOnnxRuntimeGenAi/Helpers/MagicNativeMethodsHelper.cs:48-63 | A build without the mobile symbols rejects iOS and Android, although their native folder resolves. |
| CriticalFiles.TargetFile | MagicOnnxRuntimeGenAi/Helpers/GetCriticalFiles.cs:44-64 | The provider library lies under `cuda/runtimes/win-x64/native` on Windows and under `cuda/runtimes/linux-x64/native` on every other OS. Each OS has its own file name. |
| CriticalFiles.Attempt | MagicOnnxRuntimeGenAi/Helpers/GetCriticalFiles.cs:57-73 | The attempt succeeds exactly when the directory exists or can be created, and the download does not fail whenever one is needed. On success, it reports a transfer exactly when the file was missing or incomplete. |
| CriticalFiles.DownloadCriticalCudaFiles | MagicOnnxRuntimeGenAi/Helpers/GetCriticalFiles.cs:17-92 | With the flag set, a call changes nothing. A call starts an attempt exactly when the flag is clear and no completion source exists. It starts the network transfer exactly in an attempt it started, when the directory step succeeded and the file was missing or incomplete, whether or not the transfer then fails. An existing completion source is never replaced. Consistency (flag set exactly when the source succeeded) is preserved. A call returns normally exactly when the flag ends up set. |
| CriticalFiles.UrlNamesTargetFile | MagicOnnxRuntimeGenAi/Helpers/GetCriticalFiles.cs:43-65 | The download URL and the target file follow the same OS choice: the file is saved under the name that the URL's last segment gives it. |
| CriticalFiles.IsFileComplete | MagicOnnxRuntimeGenAi/Helpers/GetCriticalFiles.cs:95-129 | A file counts as complete only if it exists and the probe returned a non-negative Content-Length, so a missing header (-1) never matches. Its exact behaviour inside an attempt is stated by CriticalFiles.DownloadIffIncomplete. |
| CriticalFiles.DownloadIffIncomplete | MagicOnnxRuntimeGenAi/Helpers/GetCriticalFiles.cs:95-129 | A successful first call transfers the file exactly when it is missing, the size probe failed, or the local size differs from the remote Content-Length. Afterwards the state is "downloaded, source succeeded". |
| CriticalFiles.SettledRun | MagicOnnxRuntimeGenAi/Helpers/GetCriticalFiles.cs:20-91 | Once a completion source exists, no call starts an attempt or transfers anything, the state never changes, and every call ends the way the first one did. |
| CriticalFiles.AtMostOneAttempt | MagicOnnxRuntimeGenAi/Helpers/GetCriticalFiles.cs:28-30 | From the initial state, at most one of any sequence of calls starts an attempt. |
| CriticalFiles.FailureIsFinal | MagicOnnxRuntimeGenAi/Helpers/GetCriticalFiles.cs:79-91 | When the first attempt fails with `ex`, its caller gets `ex`. Every later caller gets `ex` wrapped by `Task.Wait`, and nothing is transferred again. |
| CriticalFiles.SuccessIsFinal | MagicOnnxRuntimeGenAi/Helpers/GetCriticalFiles.cs:20-77 | After a successful first attempt, every call returns normally, the state stays "downloaded", and no call starts another attempt. |
| MagicStringUtils.ToUtf8 | MagicOnnxRuntimeGenAi/Helpers/MagicStringUtils.cs:10-21 | Null and "" give the shared one-zero-byte buffer. Any other string gives its UTF-8 bytes followed by a single zero, one byte longer than the encoding. The buffer always ends in zero. |
| MagicStringUtils.TerminatorIndex | MagicOnnxRuntimeGenAi/Helpers/MagicStringUtils.cs:25-28 | The scan stops at the first zero byte: the byte there is zero and every byte before it is not. |
| MagicStringUtils.FromUtf8 | MagicOnnxRuntimeGenAi/Helpers/MagicStringUtils.cs:23-36 | The loop reads exactly the bytes before the first zero, with no others. An immediately terminated buffer reads as "". |
| MagicStringUtils.CStringRoundTrip | MagicOnnxRuntimeGenAi/Helpers/MagicStringUtils.cs:10-36 | A string without U+0000 comes back unchanged from its C-string buffer. |
| MagicStringUtils.CStringRereads | MagicOnnxRuntimeGenAi/Helpers/MagicStringUtils.cs:10-36 | The other direction: re-encoding the string read from a buffer with a well-formed prefix reproduces the buffer up to and including its terminator. |
| Utf8.EncodeScalar | MagicOnnxRuntimeGenAi/Helpers/MagicStringUtils.cs:17-19 | One scalar takes one to four bytes, and only U+0000 yields a zero byte. |
| Utf8.Encode | MagicOnnxRuntimeGenAi/Helpers/MagicStringUtils.cs:17-19 | An encoding is at least as long as the string, and has no zero byte when the string has no U+0000. |
| Utf8.DecodeEncode | MagicOnnxRuntimeGenAi/Helpers/MagicStringUtils.cs:17-35 | Strict decoding inverts encoding on every string. |
| Utf8.EncodeDecode | MagicOnnxRuntimeGenAi/Helpers/MagicStringUtils.cs:17-35 | Encoding inverts decoding on every well-formed byte sequence. |
| MagicModel.GetHardwareType | MagicOnnxRuntimeGenAi/Models/MagicModel.cs:31-68 | A missing file throws `FileNotFoundException` with the library's message. A root that is not an object fails. A success is always one of the three named backends. |
| MagicModel.BackendFollowsFirstEntry | MagicOnnxRuntimeGenAi/Models/MagicModel.cs:46-67 | For any document, `dml` is chosen exactly when the first provider entry, reached through objects along `model.decoder.session_options.provider_options`, is an object naming `dml`. `cuda` is chosen exactly when it names `cuda` but not `dml`. A null dereference happens exactly when the options have values but their first child is not an object. CPU is chosen exactly when every value met on the path is an object and the options are missing, hold no values, or start with an object naming neither key. |
| MagicModel.NullOnPathThrows | MagicOnnxRuntimeGenAi/Models/MagicModel.cs:49 | A JSON `null` where the path expects an object, such as `"session_options": null`, throws `InvalidOperationException` instead of selecting CPU. |
| MagicModel.ProviderOptionsFollowPath | MagicOnnxRuntimeGenAi/Models/MagicModel.cs:49 | The chain of null-conditional lookups finds options exactly where the path through objects leads, and finds those very options. |
| MagicModel.FirstEntryDecides | MagicOnnxRuntimeGenAi/Models/MagicModel.cs:54-67 | With an object as first provider entry, whatever other keys sit beside the path at each level, `dml` wins over `cuda`, and an entry with neither key means CPU. |
| MagicModel.LaterEntriesIgnored | MagicOnnxRuntimeGenAi/Models/MagicModel.cs:54 | Entries after the first never change the result, in any document. |
| MagicModel.NonObjectFirstEntryFails | MagicOnnxRuntimeGenAi/Models/MagicModel.cs:54-56 | A first list entry that is not an object gives a null dereference, not CPU. So does a non-empty object given in place of the list. |
| MagicModel.MissingOptionsMeanCpu | MagicOnnxRuntimeGenAi/Models/MagicModel.cs:49-67 | When any key of the path (`model`, `decoder`, `session_options` or `provider_options`) is missing, whatever else the document holds, the backend is CPU. |
| MagicModel.EmptyOptionsMeanCpu | MagicOnnxRuntimeGenAi/Models/MagicModel.cs:52-67 | Provider options without values (an empty list or object, a scalar or `null`) mean CPU. |
| MagicModel.CreateModel | MagicOnnxRuntimeGenAi/Models/MagicModel.cs:19-23 | The constructor fails with `GetHardwareType`'s exception when that fails. Otherwise it succeeds exactly when `SetLibraryPath` for the chosen backend succeeds, fails with that call's exception otherwise, and on success binds exactly the path that call returned. The backend is the one `GetHardwareType` chose, the library lies in that backend's folder, and the hardware-range error never comes out. |
| ChatTemplate.GemmaTurns | Test.MagicAiLogic/Helpers/ChatTemplate.cs:20-51 | The turn loop succeeds exactly when the alternation holds. On success, every message is rendered in order. On failure, it throws the alternation `InvalidOperationException`. |
| ChatTemplate.ChatTemplateGemma9b2 | Test.MagicAiLogic/Helpers/ChatTemplate.cs:12-60 | Fails exactly when some message at an even position is neither user nor system. Otherwise the output is the BOS token, the rendered turns and, when asked for, the opening of the model's turn. |
| ChatTemplate.GemmaGenerationPromptIff | Test.MagicAiLogic/Helpers/ChatTemplate.cs:53-57 | With the default BOS token, an accepted prompt ends with `<start_of_turn>model\n` exactly when a generation prompt was requested. |
| ChatTemplate.GemmaToleratesOddUser | Test.MagicAiLogic/Helpers/ChatTemplate.cs:29-41 | A second user-side message in a row, at an odd position, is accepted. |
| ChatTemplate.ChatTemplatePhiMini3 | Test.MagicAiLogic/Helpers/ChatTemplate.cs:62-98 | The output starts with the rendered messages. It ends with the assistant tag when a generation prompt is asked for and with the EOS token otherwise, and holds nothing else. |
| ChatTemplate.PhiIgnoresSkipped | Test.MagicAiLogic/Helpers/ChatTemplate.cs:66-86 | The prompt equals the prompt of the emitted messages alone: system messages with content, user and assistant messages. |
| ChatTemplate.PhiSkippedInsertion | Test.MagicAiLogic/Helpers/ChatTemplate.cs:66-86 | Inserting, anywhere, a message of another role or an empty system message leaves the prompt unchanged. |
| ChatTemplate.ChatTemplateLlama31 | Test.MagicAiLogic/Helpers/ChatTemplate.cs:100-146 | A leading system message goes, trimmed, into the header and is not rendered again. Without one, the header's system text is empty and every message is rendered. |
| ChatTemplate.LlamaLeadingSystemOnlyFillsHeader | Test.MagicAiLogic/Helpers/ChatTemplate.cs:113-130 | Adding a leading system message changes the prompt only by inserting its trimmed text at a fixed place in the header. |
| ChatTemplate.LlamaLaterSystemIsATurn | Test.MagicAiLogic/Helpers/ChatTemplate.cs:132-137 | A system message that is not first is rendered as an ordinary turn, with its role verbatim, after the others. |
| ChatTemplate.LlamaIgnoresTools | Test.MagicAiLogic/Helpers/ChatTemplate.cs:109-111 | `toolsInUserMessage` has no effect on the prompt. |
| Text.TrimShape | Test.MagicAiLogic/Helpers/ChatTemplate.cs:47 | `Trim` yields the slice of the content between its leading and trailing white space. The slice starts and ends with non-white-space. Everything cut off is white space. |
| Text.TrimIdempotent | Test.MagicAiLogic/Helpers/ChatTemplate.cs:47 | Trimming twice is trimming once. |
| CallAi.CountTokens | Test.MagicOnnxRuntimeGenAi.CLI.4Framework/Helpers/CallAi.cs:18-33 | The count is the exact total length of all encoded sequences modulo 2^64. It equals that total when the total is below 2^64. |
| CallAi.AddU64 | Test.MagicOnnxRuntimeGenAi.CLI.4Framework/Helpers/CallAi.cs:87 | `ulong` addition is the exact sum modulo 2^64. |
| CallAi.ToULong | Test.MagicOnnxRuntimeGenAi.CLI.4Framework/Helpers/CallAi.cs:47 | `(ulong)tokenLimit` is the limit modulo 2^64, so a negative limit becomes huge. |
| CallAi.ToInt32 | Test.MagicOnnxRuntimeGenAi.CLI.4Framework/Helpers/CallAi.cs:140 | `(int)totalInputTokens` keeps the low 32 bits read as signed: the result agrees with the total modulo 2^32, and equals it below 2^31. |
| CallAi.Scan | Test.MagicOnnxRuntimeGenAi.CLI.4Framework/Helpers/CallAi.cs:67-88 | The kept turns are the newest ones, newest first. The running total never exceeds the limit. If the scan stops early, the next older turn overflows the final total. |
| CallAi.ScanTotalIsExact | Test.MagicOnnxRuntimeGenAi.CLI.4Framework/Helpers/CallAi.cs:76-87 | With no wrap-around, the final total is the prompt's tokens plus the exact cost of the kept turns. |
| CallAi.ScanStopsAtFirstMisfit | Test.MagicOnnxRuntimeGenAi.CLI.4Framework/Helpers/CallAi.cs:76-79 | With no wrap-around, the scan stops only where one more turn would exceed the limit. |
| CallAi.KeptIsMaximal | Test.MagicOnnxRuntimeGenAi.CLI.4Framework/Helpers/CallAi.cs:67-88 | With no wrap-around, the newest `k` turns fit the budget exactly when `k` is at most the number kept. The kept turns are the longest fitting run of newest turns, and an older turn that would fit after a misfit is not taken. |
| CallAi.PairMessagesNewestFirst | Test.MagicOnnxRuntimeGenAi.CLI.4Framework/Helpers/CallAi.cs:82-84 | Each kept turn becomes a user message followed by an assistant message, newest turn first. |
| CallAi.SelectMessages | Test.MagicOnnxRuntimeGenAi.CLI.4Framework/Helpers/CallAi.cs:44-90 | Fails, with the prompt-too-long error, exactly when the prompt's tokens exceed `(ulong)tokenLimit`. Otherwise the messages are the system prompt, the kept pairs newest first and the user prompt last. The total is within the limit, and the list omits history only because the next older turn would overflow. Without wrap-around, the total is exactly the prompt's tokens plus the exact cost of the kept turns. |
| CallAi.GenerateAIResponse | Test.MagicOnnxRuntimeGenAi.CLI.4Framework/Helpers/CallAi.cs:44-140 | An error is set exactly when the prompt is too long, and then the response is otherwise default. Without an error, the updated history is the whole original history plus one new turn: the user prompt, and the text the generator produced from the Phi-3 prompt of the selected messages with the generation prompt on. The reported input total is the `(int)` cast of the selection's total, so with a non-negative limit it lies between 0 and the limit. |
| CallAi.MinusOneLimitKeepsEverything | Test.MagicOnnxRuntimeGenAi.CLI.4Framework/Helpers/CallAi.cs:47-76 | A limit of -1 rejects no prompt and keeps the whole history. |
| CodeTransformer.FirstNamed | OnnxLibraryConverter/Logic/CodeTransformer.cs:21-22 | Null exactly when no class has the name. Otherwise the result is the first class with that name. |
| CodeTransformer.DllImports | OnnxLibraryConverter/Logic/CodeTransformer.cs:30-34 | Keeps every method with an attribute whose name contains `DllImport`, and only those. |
| CodeTransformer.DllImportsAppend | OnnxLibraryConverter/Logic/CodeTransformer.cs:30-34 | The selection distributes over concatenation and maps one method to itself or to nothing, so the selected methods keep their source order. |
| CodeTransformer.MagicNativeMethodsConstructor | OnnxLibraryConverter/Logic/CodeTransformer.cs:132-151 | A public `MagicNativeMethods(HardwareType hardwareType)` constructor. It assigns `_hardwareType` first and calls `SetLibraryPath` second. |
| CodeTransformer.RefKindOf | OnnxLibraryConverter/Logic/CodeTransformer.cs:67-74 | `out` is forwarded exactly when the parameter has `out`. `ref` is forwarded exactly when it has `ref` and not `out`. Otherwise there is no modifier. |
| CodeTransformer.ForwardedArguments | OnnxLibraryConverter/Logic/CodeTransformer.cs:67-74 | Every parameter is forwarded by name, in order, with its ref kind. |
| CodeTransformer.DelegateFor | OnnxLibraryConverter/Logic/CodeTransformer.cs:50-64 | The delegate is named `<name>Delegate` and is private. It copies the return type and parameters. It is `unsafe` exactly when some type text contains `*`. |
| CodeTransformer.UnsafeIffPointerCharacter | OnnxLibraryConverter/Logic/CodeTransformer.cs:50 | The `Contains("*")` test holds exactly when the return type or some parameter type contains the pointer character. |
| CodeTransformer.ForwarderFor | OnnxLibraryConverter/Logic/CodeTransformer.cs:77-121 | The forwarder is public and keeps the method's name, return type and parameters. It is `unsafe` exactly when the delegate is. It binds `GetNativeMethod<<name>Delegate>("<name>")`. It then calls the delegate with the forwarded arguments, as an expression statement exactly for `void` and as a return otherwise. |
| CodeTransformer.TransformDllImports | OnnxLibraryConverter/Logic/CodeTransformer.cs:14-129 | Fails exactly when no class is named `NativeMethods`, with the library's `InvalidOperationException` message. Otherwise the output is a public partial `MagicNativeMethods` class: the constructor followed by two members per selected method. |
| CodeTransformer.TransformedMemberAt | OnnxLibraryConverter/Logic/CodeTransformer.cs:37-124 | Member `1 + 2i` is the delegate and member `2 + 2i` the forwarder of the `i`-th selected method. The selection keeps source order, by CodeTransformer.DllImportsAppend. |
| CodeTransformer.LookupMatchesDelegate | OnnxLibraryConverter/Logic/CodeTransformer.cs:53-118 | Every forwarder looks up the delegate declared right before it. That delegate has the forwarder's return type, parameters and `unsafe` marking. |
| CodeTransformer.TransformPreservesSignatures | OnnxLibraryConverter/Logic/CodeTransformer.cs:43-124 | The public methods of the generated class have exactly the signatures of the selected methods, in order: nothing is lost, added or reordered. |
| CodeTransformer.SampleTransform | MagicOnnxRuntimeGenAi/Helpers/MagicNativeMethods.cs:43-48 | On an `OgaCreateModel` import beside a plain helper method, the output is the constructor, the delegate and the forwarder, with `out model` forwarded as `out`. |

## Left out

- Library loading (`UseDllDirectory`, `NativeLibraryLoaderHelper`) and `GetNativeMethod` are foreign calls into the OS loader.
- Roslyn parsing, `SyntaxFactory` and `NormalizeWhitespace` are left out; the generator works on abstract syntax trees and no output text is produced.
- Type texts are compared without comment trivia, so a `*` inside a comment does not make a method unsafe.
- The fetcher's lock, thread blocking, `Task.Wait`, `WebClient` and `HttpWebRequest` are replaced by a sequential state machine. It takes the directory, probe and download outcomes as inputs. Its `Console.WriteLine` is dropped.
- JSON parsing and file reading in `GetHardwareType` (Newtonsoft) are replaced by a JSON tree. A root that is not an object fails with an external error.
- The native model creation (`OgaCreateModel`) at the end of the `MagicModel` constructor is a foreign call.
- .NET's UTF-16 strings, surrogates and U+FFFD replacement of malformed input are left out. Strings are sequences of Unicode scalar values, and the strict decoder returns None where .NET would substitute characters.
- `AiMessage` roles and contents are never null. A null content would throw in the Gemma and Llama templates.
- The token generation loop, `Console` output and `Task.Delay` in `GenerateAIResponseV6` are left out. The generator is a parameter returning the text and the output-token count.
- Sequence lengths are not bounded by `int`, and the `int` output-token counter is not modelled as wrapping.
- The source assigns `_libraryPath` before its existence check, so the field holds the missing path when `DllNotFoundException` is thrown. Only the returned path or error is modelled.
- No size check runs after the download: the file `DownloadFile` writes at GetCriticalFiles.cs:71 is trusted as is.
- CriticalFiles.IsFileComplete: reading `fileInfo.Length` at GetCriticalFiles.cs:105 lies outside the `try`, so a failure there would propagate out of the attempt. The model takes the local length as a given input and cannot express that failure.
- CallAi.PairMessages: its contract states only the length. The positions of each turn are stated by CallAi.PairMessagesAt and CallAi.PairMessagesNewestFirst.
- CallAi.ScanTotalIsExact: stated only when no sum exceeds 2^64. With wrap-around the total is the modular sum, which CallAi.Scan's own contract still bounds by the limit.
- CallAi.KeptIsMaximal: stated only when no sum exceeds 2^64, for the same reason.
- CallAi.GenerateAIResponse: says nothing about the output-token count, which comes from the generator.
- CodeTransformer.DllImports: its own contract states membership in both directions only. Source order is stated separately by CodeTransformer.DllImportsAppend.
- CodeTransformer.ForwardingPairs: its contract states only the length. The positions are stated by CodeTransformer.ForwardingPairsAt.
