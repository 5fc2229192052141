# Upload-file assistant client, modelled in Dafny

This project models the Go example client in `go/upload-file`. The client:

1. looks up an assistant by the id given with `-a`;
2. uploads every file of the `testdata` directory to the assistant's store;
3. starts a run of the assistant on the query "Write me a story.";
4. polls the run until it reaches a terminal state;
5. prints the text of the run's messages.

Each upload is a two-phase exchange:

- an `UploadFileUnary` call returns a ticket, which holds a URL and headers;
- a PUT of the file's bytes to that URL, carrying those headers, must then be answered 200.

Every API call goes through `callAPI`. It accepts only status 200 and decodes the body only after the status check.

The network is a class, `Network.Network`. It holds three things:

- one scripted queue of replies per endpoint (`Script`);
- the log of the calls issued so far;
- a clock that counts the milliseconds slept.

Its constructor starts the service from a given script, with an empty log and a zero clock. The program has no counterpart for it.

Each client operation is a method that updates that object. Its contract says the method did exactly what a pure step function over the script computes: the result, the replies left, the calls issued (in order) and the number of sleeps. The step functions are the specification, and the lemmas state the client's behaviour in terms of them:

- state classification in any casing;
- the poll loop stopping at the first terminal reply, with k + 1 calls;
- fail-fast uploads, with each PUT sent under its own ticket;
- the aggregation of the messages' text;
- the order of the program's stages and where it stops on a failure.

An endpoint whose queue is empty answers nothing. The operation then fails with `ScriptExhausted` and no call is logged. This is what makes the otherwise unbounded poll loop finite.

Modules, one file each:

- `Types`: the wire datatypes of `types.go`.
- `Errors`: the errors, with their texts.
- `Transport`: `callAPI`'s decision.
- `RunState`: ASCII lower-casing and state classification.
- `Paths`: `filepath.Base`.
- `Network`: the scripted service.
- `Client`: GetAssistant and CreateThreadAndRun.
- `Polling`: the poll loop.
- `Upload`: the upload loop.
- `Messages`: ListMessages and the text aggregation.
- `Orchestrator`: `main`'s sequence.

## Model

| member | source | states |
|---|---|---|
| Errors.Error.Message | go/upload-file/main.go:133-259 | each error's text in the program's wording; the cause, failure reason or status code it carries ends the text, and a PUT error names the URL after "Do(PUT " |
| Errors.StatusTextDenotesCode | go/upload-file/main.go:251 | the digits ending a status error's text, for the API call and the upload PUT alike, denote the status code |
| Errors.NatDecimal | go/upload-file/main.go:251 | the `%d` text of a status code is a non-empty string of decimal digits, starting with '0' only for zero itself |
| Errors.NatDecimalUnique | go/upload-file/main.go:251 | a digit string without a leading zero is exactly what `%d` prints for the number it denotes: the printed text is the number's only canonical spelling |
| Errors.LeadingDigitBound | go/upload-file/main.go:251 | a digit string that does not start with '0' denotes at least 1 |
| Errors.NatDecimalRoundTrip | go/upload-file/main.go:251 | the digits printed for a status code denote that status code |
| Errors.DigitChar | go/upload-file/main.go:251 | each printed digit is the character of its value |
| Transport.CallAPI | go/upload-file/main.go:240-262 | success exactly when the exchange was answered with the expected status and a decodable body, and the value is the decoded body; a failed round trip gives a `callAPI:Do` error; any other status gives `UnexpectedStatus` with that status, whatever the body |
| Transport.StatusMismatchDecodesNothing | go/upload-file/main.go:250-252 | on a status mismatch the body is never looked at: two different bodies give the same error |
| RunState.ToLower | go/upload-file/main.go:192 | lower-casing keeps the length, and it maps each character to its lower-case form (ASCII) |
| RunState.Classify | go/upload-file/main.go:192-206 | a state is classified as succeeded, failed or tool_response_required exactly when it is a casing of that word; every other state is pending |
| RunState.LowerCharMatches | go/upload-file/main.go:192 | a character lower-cases to a lower-case letter exactly when it is that letter or its capital |
| RunState.LowerMatchesCasing | go/upload-file/main.go:192-199 | the lower-cased state equals a lower-case word exactly when the state is a casing of that word |
| RunState.ClassifyIgnoresCase | go/upload-file/main.go:192 | lower-casing is idempotent, and the class of a state does not change when the state is lower-cased first |
| Paths.Base | go/upload-file/main.go:109 | `filepath.Base` of a file's name: never empty, and it holds a separator only when it is "/" itself |
| Paths.TrimTrailingFacts | go/upload-file/main.go:109 | dropping trailing separators gives a prefix of the path that does not end in a separator, and everything dropped is a separator |
| Paths.AfterLastSeparatorFacts | go/upload-file/main.go:109 | the part after the last separator is a separator-free suffix of the path |
| Paths.BaseIsLastElement | go/upload-file/main.go:109 | `filepath.Base` is never empty: "." for the empty path, "/" for a path of separators only, otherwise the last separator-free element of the path |
| Paths.BaseOfJoin | go/upload-file/main.go:61 | the base of a directory joined with a separator-free name is that name |
| Paths.AfterJoin | go/upload-file/main.go:61 | the part after the last separator of a directory joined with a separator-free name is the name |
| Network.Logged | go/upload-file/main.go:244 | a POST adds exactly one entry to the log, the call itself, when its endpoint has a reply for it, and nothing when none is left |
| Network.Network.PostGetAssistant | go/upload-file/main.go:97-102 | the next GetAssistant reply is consumed and judged; the POST is logged; nothing else changes |
| Network.Network.PostUploadFile | go/upload-file/main.go:116-124 | the next ticket reply is consumed and judged; the POST is logged; nothing else changes |
| Network.Network.PutFile | go/upload-file/main.go:126-135 | the next PUT reply is consumed; the PUT is logged with its URL, headers and bytes; nothing else changes |
| Network.Network.PostCreateThreadAndRun | go/upload-file/main.go:161-166 | the next CreateThreadAndRun reply is consumed and judged; the POST is logged; nothing else changes |
| Network.Network.PostGetRun | go/upload-file/main.go:182-190 | the next GetRun reply is consumed and judged; the POST is logged; nothing else changes |
| Network.Network.PostListMessages | go/upload-file/main.go:220-227 | the next ListMessages reply is consumed and judged; the POST is logged; nothing else changes |
| Network.Network.Sleep | go/upload-file/main.go:204 | sleeping advances the clock by the given milliseconds and changes nothing else |
| Client.GetAssistant | go/upload-file/main.go:91-103 | the lookup issues one GetAssistant POST with the id and returns `callAPI`'s verdict on its reply |
| Client.RunAssistant | go/upload-file/main.go:144-172 | starting a run issues one CreateThreadAndRun POST and returns `callAPI`'s verdict on its reply |
| Client.NewRunRequest | go/upload-file/main.go:145-155 | the run request names the given assistant and holds a new thread with exactly one message: the query, with role "USER" |
| Client.RunAssistantSendsOneUserMessage | go/upload-file/main.go:145-155 | the run request names the given assistant and carries exactly one message, the query, with role "USER"; only the creation reply is consumed |
| Polling.Judge | go/upload-file/main.go:187-206 | a reply keeps the loop going exactly when the call succeeded and the state is not terminal; a failed call stops the loop with that same error |
| Polling.WaitForRunCompletion | go/upload-file/main.go:174-208 | the poll loop (invariant: calls done plus the rest of the loop make the whole loop) returns, logs, consumes and sleeps exactly as the poll specification says |
| Polling.PollContinues | go/upload-file/main.go:202-205 | after a non-terminal reply the loop has done one more call and one more sleep and goes on with the next reply |
| Polling.PollUnfold | go/upload-file/main.go:202-205 | after a non-terminal reply, the rest of the loop is one call and one sleep followed by the loop on the next reply |
| Polling.PollShape | go/upload-file/main.go:181-207 | every poll issues n GetRun calls for the same run and consumes exactly n replies; every reply but the last was non-terminal; if the last stopped the loop, its verdict is the result after n - 1 sleeps; otherwise the script ran out |
| Polling.PollFirstStop | go/upload-file/main.go:181-207 | with the first stopping reply at index k, the result is that reply's verdict, after exactly k + 1 GetRun calls and k sleeps |
| Polling.PollExhausts | go/upload-file/main.go:202-205 | while no reply is terminal the loop keeps calling and sleeping (it has no iteration bound of its own) |
| Polling.PollSucceedsInAnyCasing | go/upload-file/main.go:192-195 | a "succeeded" state in any casing ends the wait without error after k + 1 calls |
| Polling.PollFailsWithReason | go/upload-file/main.go:196-198 | a "failed" state in any casing ends the wait with an error whose text ends with the run's failure reason |
| Polling.PollStopsOnToolResponse | go/upload-file/main.go:199-201 | a "tool_response_required" state in any casing ends the wait with the tool-response error |
| Polling.PollErrorIsNotRetried | go/upload-file/main.go:187-190 | a failed GetRun call ends the wait with that call's error; the call is not retried |
| Polling.PollNeverAsksForId | go/upload-file/main.go:181-207 | the poll loop never reports a missing assistant id |
| Upload.UploadFile | go/upload-file/main.go:106-139 | one file: negotiate a ticket, then PUT the bytes under it; only a 200 answer to the PUT is a success |
| Upload.UploadFiles | go/upload-file/main.go:105-142 | the upload loop returns, logs and consumes exactly as the batch specification says (invariant: the calls done so far plus the rest of the batch make the whole batch) |
| Upload.UploadTurn | go/upload-file/main.go:106-140 | one turn of the loop: a failed file ends the batch with its error, and a successful one extends the calls done by its own calls |
| Upload.UploadDone | go/upload-file/main.go:141 | past the last file the batch succeeds with the calls done |
| Upload.UploadStepCons | go/upload-file/main.go:106 | a batch is its first file's upload, followed by the rest of the batch only if that upload succeeded |
| Upload.UploadAdvance | go/upload-file/main.go:106 | the same from any position in the batch |
| Upload.UploadOneGoesThrough | go/upload-file/main.go:120-139 | a file whose ticket is answered 200 and whose PUT is answered 200 costs one ticket and one PUT reply, and logs its negotiation and its transfer under that ticket |
| Upload.UploadOneFails | go/upload-file/main.go:120-139 | a file whose ticket or PUT does not go through fails: with the ticket call's own error when the negotiation fails; after a good ticket, with `PutFailed` naming the ticket's URL and the cause when the PUT is not sent, or with `PutUnexpectedStatus` and the PUT's status when it is answered other than 200; at most the negotiation and the PUT are logged |
| Upload.UploadConsGoesThrough | go/upload-file/main.go:106-140 | after a first file that went through, the batch goes on with the rest of the files on the remaining replies |
| Upload.PrefixShift | go/upload-file/main.go:106 | once one file went through, the remaining replies still let the next files through |
| Upload.UploadFailsFirst | go/upload-file/main.go:120-139 | a batch whose first file does not go through is that file's failure |
| Upload.PairCalls | go/upload-file/main.go:106-140 | each file contributes exactly two calls |
| Upload.PairCallsAt | go/upload-file/main.go:107-134 | file j's calls are at positions 2j and 2j + 1: its negotiation, then its PUT under its own ticket |
| Upload.UploadPrefix | go/upload-file/main.go:106-140 | after k files that went through, the batch has logged their pairs of calls and goes on with file k on the remaining replies |
| Upload.UploadAllPairs | go/upload-file/main.go:105-142 | when every file goes through, the batch is exactly their pairs of calls |
| Upload.UploadAllSucceed | go/upload-file/main.go:105-142 | when every file goes through: success after exactly 2n calls, and for every file, in order, its negotiation under its base name and its PUT to its own ticket's URL with that ticket's headers |
| Upload.UploadFailFast | go/upload-file/main.go:120-139 | when file k is the first that does not go through, the batch fails with file k's own error (its ticket call's error, `PutFailed` with its ticket's URL and the cause, or `PutUnexpectedStatus` with the PUT's status); the first k files were uploaded in order (k completed PUTs), file k's PUT, if issued, was not answered 200, and no later file is touched |
| Upload.UploadKeepsOtherReplies | go/upload-file/main.go:105-142 | uploading consumes only ticket and PUT replies |
| Upload.UploadNeverAsksForId | go/upload-file/main.go:105-142 | the upload loop never reports a missing assistant id |
| Messages.ContentTexts | go/upload-file/main.go:231-235 | a message keeps at most one text per content part |
| Messages.Lines | go/upload-file/main.go:233 | each part followed by a newline, in order: at least one character per part, and a newline at the end when there is any part |
| Messages.Aggregated | go/upload-file/main.go:229-237 | the answer text, every non-empty text part of every message in order followed by a newline; a non-empty text ends with a newline |
| Messages.FlattenText | go/upload-file/main.go:229-237 | the nested loop builds exactly the aggregated text (invariant: the lines of the messages so far plus the lines of the current message's parts so far) |
| Messages.ContentStep | go/upload-file/main.go:232-234 | one more content part adds its text and a newline exactly when the text is not empty |
| Messages.MessageStep | go/upload-file/main.go:230-236 | one more message adds the lines of its content parts |
| Messages.LinesAppend | go/upload-file/main.go:233 | the lines of two lists of parts are the lines of the first followed by those of the second |
| Messages.TextPartsAppend | go/upload-file/main.go:230-236 | the parts of two lists of messages are the parts of the first followed by those of the second |
| Messages.AggregatedConcat | go/upload-file/main.go:229-237 | aggregating two lists of messages gives the two texts one after the other |
| Messages.AggregatedSingle | go/upload-file/main.go:231-235 | a single message contributes one line per non-empty content part |
| Messages.ContentTextsExactly | go/upload-file/main.go:232 | every kept part is a non-empty text of the message, and every non-empty text is kept |
| Messages.ContentTextsEmptyIff | go/upload-file/main.go:232 | a message keeps nothing exactly when all its parts have empty text |
| Messages.LinesEmptyIff | go/upload-file/main.go:233 | the lines of a list of parts are empty exactly when the list is |
| Messages.AggregatedEmptyIff | go/upload-file/main.go:229-237 | the answer text is empty exactly when no content part of any message has text |
| Messages.AggregatedExample | go/upload-file/main.go:229-237 | messages "a", (no content), "b" give "a\nb\n" |
| Messages.GetResponseMessages | go/upload-file/main.go:210-238 | one ListMessages call for the thread and run; a failed call returns its error, and a successful one returns the aggregated text |
| Messages.ResponseReadsOnce | go/upload-file/main.go:210-238 | the answer is read with exactly one ListMessages call naming the thread and the run; a failed call's error is returned as is, and otherwise the text is the aggregation of the listed messages |
| Orchestrator.DataFileAnnouncedByEntryName | go/upload-file/main.go:59-66 | a file opened from the data directory is announced to the store under its entry name alone |
| Orchestrator.MainStep | go/upload-file/main.go:39-88 | the program against a script, stage by stage, with the first failure ending it; without an assistant id nothing is called, consumed or slept |
| Orchestrator.IdRequiredExactlyWithoutId | go/upload-file/main.go:39-41 | the program ends with the missing-id error exactly when no assistant id was given; no later stage reports it |
| Orchestrator.FollowsThen | go/upload-file/main.go:44-88 | two operations run one after the other follow the composition of their steps |
| Orchestrator.FollowsAbort | go/upload-file/main.go:44-88 | an operation that failed ends the sequence with its error |
| Orchestrator.Orchestrate | go/upload-file/main.go:29-89 | `main`'s sequence returns, logs, consumes and sleeps exactly as the program specification says |
| Orchestrator.PrependPhase | go/upload-file/main.go:44-88 | calls of one stage put before calls of the same or later stages keep the stage order |
| Orchestrator.UploadInPhase | go/upload-file/main.go:105-142 | every call of an upload batch belongs to the upload stage |
| Orchestrator.LookupInPhase | go/upload-file/main.go:91-103 | the lookup's calls belong to the lookup stage |
| Orchestrator.StartInPhase | go/upload-file/main.go:144-172 | the run creation's calls belong to its stage |
| Orchestrator.PollInPhase | go/upload-file/main.go:174-208 | the poll loop's calls belong to the polling stage |
| Orchestrator.ReadInPhase | go/upload-file/main.go:210-238 | the answer's calls belong to the reading stage |
| Orchestrator.AfterStartOrder | go/upload-file/main.go:78-87 | from the wait on, calls come in stage order |
| Orchestrator.AfterUploadOrder | go/upload-file/main.go:71-87 | from the run's creation on, calls come in stage order |
| Orchestrator.AfterLookupOrder | go/upload-file/main.go:67-87 | from the uploads on, calls come in stage order |
| Orchestrator.MainCallOrder | go/upload-file/main.go:44-88 | the program's calls come in stage order: GetAssistant, then uploads, then CreateThreadAndRun, then GetRun, then ListMessages |
| Orchestrator.AfterUploadSucceeds | go/upload-file/main.go:71-87 | a run that is created, polled to success after k non-terminal replies and then listed gives the aggregated text, after one creation, k + 1 GetRun calls and one ListMessages call |
| Orchestrator.MainSucceeds | go/upload-file/main.go:29-89 | a complete run returns the aggregated text after exactly these calls: the lookup, a negotiation and a PUT per file in order, the creation with the looked-up assistant's id and the fixed query, k + 1 GetRun calls for the created run, and ListMessages for its thread; it slept k times |
| Orchestrator.MainAfterLookup | go/upload-file/main.go:44-48 | a lookup answered with an assistant hands over to the rest of the program, with that reply consumed and its call logged |
| Orchestrator.MainStopsAtLookup | go/upload-file/main.go:44-48 | a failed lookup ends the program with its error; only the lookup's reply is consumed |
| Orchestrator.MainStopsAtUpload | go/upload-file/main.go:67-69 | when file k is the first that does not go through, the program ends with that file's error after at most 2k + 3 calls; no run is created, polled or read |
| Orchestrator.MainStopsAtStart | go/upload-file/main.go:71-76 | a run that cannot be created ends the program with that error, after the lookup and all uploads; nothing is polled or read |
| Orchestrator.AfterUploadStopsWhilePolling | go/upload-file/main.go:71-81 | once the files are uploaded, a poll that stops with an error ends the program with that error after the creation and k + 1 GetRun calls, with k sleeps and nothing read |
| Orchestrator.MainStopsWhilePolling | go/upload-file/main.go:78-81 | a poll that stops with an error after k non-terminal replies ends the program with that error after k + 1 GetRun calls and k sleeps; the messages are never read |

## Left out

- HTTP, JSON and the network are not modelled. Each exchange is a scripted reply, and a body is already decoded, unreadable or malformed. `json.Marshal` of the request structs cannot fail and is not modelled.
- The `Authorization` header, built from the `R2G2_TOKEN` environment variable, is not modelled. Neither is the `Content-Type` header. The debug log and all other logging are not modelled either.
- Flag parsing and the signal-cancelled context are not modelled. The assistant id is a parameter.
- `log.Fatal` is modelled as the error the program ends with. Its context messages ("error getting assistant", and so on) and the process exit are not modelled. Printing the text with `fmt.Println` is not modelled: the text is the program's result.
- `os.Getwd`, `os.ReadDir` and `os.Open` are not modelled, nor their failures. The files are a parameter: a name and the bytes the PUT sends, in listing order. `Orchestrator.DataFilePath` joins the working directory, the data directory and the entry name with separators; `filepath.Join` also cleans the path (a working directory of "/" gives "/testdata/x", not "//testdata/x"), which is not modelled. Only the base name of that path is used, and it is the same either way. Closing files is not modelled: a file that is PUT is closed by the HTTP client as the request body, while files after a failure, or whose upload request cannot be built, stay open. The PUT's response body is never closed. None of this changes a result or a call.
- Network.Network.Sleep: time only advances a millisecond counter. No real waiting happens.
- Polling.WaitForRunCompletion: the loop is unbounded in the program. In the model it ends when the script of GetRun replies runs out, with `ScriptExhausted`, which the program has no counterpart for.
- RunState.ToLower: only ASCII letters are lower-cased. `strings.ToLower` is Unicode-aware and also maps some non-ASCII characters to ASCII letters (U+212A KELVIN SIGN to 'k', for example). Such a state is classified as pending here.
- Network.Network.PutFile: the header names are logged as the ticket gives them. `Header.Set` canonicalises them, which is not modelled. A ticket URL that `http.NewRequestWithContext` rejects (main.go:126-129) is not modelled separately: the attempt is treated as a PUT that the script answers.
- Paths.BaseIsLastElement: only `/` separators are modelled, as on Unix; the Windows volume names and `\` separators that `filepath.Base` handles are not.
- The `Message` texts of PutFailed and CallFailed wrap the cause as a string. Go's `%w` error wrapping and unwrapping are not modelled.
- The other programs of the repository (auth-serviceaccount, transcribe-audio, the MCP server and the generated types) are not part of this model.
