# Poly Slimmer decision core in Dafny

Poly Slimmer is a web service that shrinks 3D models. A browser uploads a
`.glb`, `.gltf` or `.fbx` file. Anyone can ask for a free preview. A paying
customer asks for an optimization to a triangle target. An arq worker runs
`gltfpack` on the file and records the outcome in an `OptimizationJob` row.
Customers pay through Stripe, and their entitlement lives in a `UserPlan` row:
a single-export plan with a quota of credits, or a creator plan with an
expiry date.

This project models the deterministic decisions under that plumbing:

- **`Worker`** (`worker.dfy`) is one run of the worker's `optimize` over one
  job record: `pending -> processing -> completed | failed`. The download, the
  two `gltfpack -v` probes, the optimizer run and the upload are outcome
  parameters.
- **`Probe`** (`probe.dfy`) reads a vertex count out of a probe's standard
  output. It takes the first line holding `vertices:`, cuts the text between
  that marker and the next one, strips it, takes the first word and converts
  it as Python's `int()` does.
- **`Api`** (`api.dfy`) covers the `/api` routes:
  - the bearer-token gate;
  - upload validation (`os.path.splitext`, lower-casing, size and target bounds);
  - preview and paid job creation, including the fallback that completes a
    preview when it cannot be queued;
  - the status projection with its `or` defaults and its choice of `preview_url`;
  - the ordered download guards.
- **`Billing`** (`billing.dfy`) covers the product table, the routing of
  `/checkout/...` requests, the token claims of the checkout success page,
  and the Stripe webhook's plan and quota update. As declared, the
  parameterised checkout route shadows the success page, so that page is
  modelled both as routed (unreachable) and with the literal routes first
  (see Findings).
- **`Maintenance`** (`maintenance.dfy`) covers the two scripts that force a
  job to `completed`.
- **`Diagnostic`** (`diagnostic.dfy`) covers the worker diagnostic script's
  decisions: worker lines in `ps` output, stuck jobs, minutes and the summary.
- **`Lifecycle`** (`lifecycle.dfy`) holds properties across modules. Examples:
  a purchase followed by optimizations, a queued preview later reported by the
  status route, and a job the worker leaves stuck that the fix script then repairs.
- **Support modules:**
  - `Models`: the two records, their defaults and Python truthiness.
  - `Text`, `Numbers` and `Paths`: the Python string, `int()` and path
    functions the code relies on.
  - `Maybe`: `Option` and `Result`.

The tables are maps: jobs by id and plans by e-mail. Every operation takes the
current time `now` in whole seconds and stamps `updated_at` with it when it
writes. External calls appear as parameters:

- B2 upload, download and signing;
- the Redis queue;
- file existence and copying;
- the `ps` output;
- the Stripe session lookup and signature check;
- the decoded JWT.

## The worker's honest gap

The worker's outer handler (`worker/gltf_worker.py:137-139`) answers `"error"`
without touching the record, so any exception that reaches it leaves the job
in `processing`. This covers a failed bucket lookup or download, and also an
input count that is unset or zero. The simplification ratio
`target_triangles / vertex_count` is built at lines 87-93, before the inner
`try` opens at line 95. An unset count (an `UnboundLocalError`) or a zero
count (a `ZeroDivisionError`) therefore escapes to the outer handler instead
of failing the job. `Worker.Process` and `Worker.LeftProcessing` state that
the job stays in `processing`.

## Model

| member | source | states |
|---|---|---|
| Models.StatusTextInjective | app/models.py:29 | the four stored status texts are pairwise distinct |
| Models.NewJob | app/models.py:19-35 | a new job row is `pending`, has no output, preview, error or counts, and carries the id, owner, input, target, paid flag, expiry and creation time it was given |
| Models.NewPlan | app/models.py:7-17 | a new plan row is a single-export plan with quota 0 and no expiry |
| Models.OrDefault | app/routes/api.py:260-261 | Python `x or d` on a nullable count: an unset or zero value yields the default, any other value is kept |
| Text.IndexOf | worker/gltf_worker.py:68 | the first occurrence of a pattern; none exactly when the pattern does not occur (`in`) |
| Text.Words | worker/gltf_worker.py:69 | `str.split()` yields non-empty words with no whitespace in them |
| Text.WordsEmpty | worker/gltf_worker.py:69 | `split()` yields nothing exactly when the text is all whitespace, which is when `[0]` raises |
| Text.JoinSplit | scripts/worker_diagnostic.py:54 | `split('\n')` loses nothing: joining the parts with the separator rebuilds the text |
| Text.SplitConcat | scripts/worker_diagnostic.py:54 | splitting text joined at a separator gives the parts of each side in order |
| Text.PartBetweenSeparators | scripts/worker_diagnostic.py:54 | a separator-free line between two newlines is one of the `split('\n')` parts |
| Text.LinesUnlines | worker/gltf_worker.py:67 | `splitlines()` of newline-terminated break-free lines gives back exactly those lines |
| Text.Lower | app/routes/api.py:61 | `lower()` keeps the length and lower-cases each character |
| Numbers.ParseIntToString | worker/gltf_worker.py:69 | `int(str(n)) == n` for every integer, negative ones included |
| Numbers.IntToStringInjective | worker/gltf_worker.py:185 | different integers print differently |
| Paths.SplitExt | app/routes/api.py:61 | `os.path.splitext` cuts the path into stem and extension that concatenate back; the extension is non-empty exactly when the last component has a dot preceded by some non-dot, and it then starts with its only dot and holds no slash |
| Paths.ExtensionMeansCut | app/routes/api.py:61 | when the last component has a dot after a non-dot, `splitext` cuts at the last dot |
| Paths.SplitExtOfNamed | app/routes/api.py:61 | a name with a non-dot character in its last component, followed by a dotted suffix without further dots or slashes, splits exactly at that suffix |
| Paths.NameInDirectory | app/routes/api.py:270-273 | `Path(dir + "/" + f).name` is `f` for a slash-free file name other than `""` and `.` |
| Probe.FirstMarkerLine | worker/gltf_worker.py:67-68 | picks the first line containing `vertices:` and none before it contains one; none when no line does |
| Probe.CutAtMarker | worker/gltf_worker.py:69 | `split("vertices:")[1]` is a prefix of the rest that holds no marker and ends at the end or where the next marker starts |
| Probe.ReadProbe | worker/gltf_worker.py:67-72 | the probe reports no marker exactly when no line of the output contains `vertices:` |
| Probe.ReadPrintedLine | worker/gltf_worker.py:69 | a marker line printing ` n` after the marker reads back as `n`, even when a second marker follows directly |
| Probe.ReadPrintedCount | worker/gltf_worker.py:67-72 | round trip: marker-free lines, then a line printing `vertices: n`, then any lines, read back as `n` |
| Probe.LaterLinesIgnored | worker/gltf_worker.py:67-72 | once some line holds the marker, appending more lines never changes the reading (the loop breaks at the first) |
| Worker.RunCommand | worker/gltf_worker.py:160-173 | a command yields its exit code and output when it exits, the timeout text naming the limit and command when it times out, or the raised error |
| Worker.UpdateJobStatus | worker/gltf_worker.py:151-158 | sets the status and `updated_at`, writes the error message only when a non-empty one is given, and changes no other field |
| Worker.EnqueueKeyInjective | worker/gltf_worker.py:185 | two jobs share an arq job key exactly when they are the same job |
| Worker.InputCount | worker/gltf_worker.py:60-74 | the input probe yields a count exactly when the command exited and its output holds a readable marker line; every failure is swallowed |
| Worker.OptimizeBlock | worker/gltf_worker.py:95-135 | each way the inner block ends: an optimizer that times out or raises, or exits non-zero, fails the job with the `Error optimizing model: ` text or `gltfpack failed with code` and stderr; a failed or unparsable output probe fails it with that error; after a clean optimizer run and output probe, a failed upload fails it with the upload error and a successful one completes it with the output key `outputs/<owner>/<id>.glb`; `vertex_count_after` becomes the probed count, or is kept when the probe printed no marker; a failure keeps the old output; preview and before-count are untouched |
| Worker.FullRunFailures | worker/gltf_worker.py:86-135 | a full run with a usable input count fails with the optimizer's timeout, raised error or exit code and stderr, or with the output probe's error, when that step fails |
| Worker.FullRunCompletes | worker/gltf_worker.py:104-135 | a full run whose optimizer and output probe succeed completes with the output key and the probed after-count when the upload succeeds, and fails with the upload error, after-count still stored, when it does not |
| Worker.Process | worker/gltf_worker.py:41-139 | a run stamps the record and keeps its identity; the reply kind matches the final status; the before-count is stored exactly when the input probe read one; a storage failure, an unset count or a zero count leaves the job `processing`; only a failure writes an error message; a fetched preview always completes, with the input as preview and the output untouched (the outcomes of a full run past the input probe are `Worker.FullRunFailures` and `Worker.FullRunCompletes`) |
| Worker.Optimize | worker/gltf_worker.py:29-39 | a missing job is answered `"error"` with no record written; otherwise only that job's record changes |
| Worker.PreviewIgnoresOptimizer | worker/gltf_worker.py:77-84 | a preview run's result does not depend on the optimizer, output probe or upload outcomes |
| Worker.ProbeAsymmetry | worker/gltf_worker.py:63-113 | an unreadable input probe is swallowed and a preview still completes with the old count, while an unreadable output probe fails the job with the parse error |
| Worker.OptimizerFailures | worker/gltf_worker.py:95-135 | an optimizer timeout and a non-zero exit both fail the job, with the timeout text or `gltfpack failed with code` and stderr respectively |
| Worker.LeftProcessing | worker/gltf_worker.py:137-139 | a storage failure, or an unset or zero input count on a full run, leaves the job `processing` |
| Worker.RerunReopensCompletedJob | worker/gltf_worker.py:42 | the prior status is never read: a completed job whose rerun fails to download goes back to `processing` |
| Api.GetCurrentUser | app/routes/api.py:18-49 | admits exactly a known user who is entitled (independent predicate `Api.Entitled`: a creator not past expiry, a single plan with credit); for a bearer token that reaches the gate, refuses with 403 exactly when the user exists, else 401; a missing header gets 403 `Not authenticated` and a non-Bearer scheme 403 `Invalid authentication credentials` from `HTTPBearer()` before the gate runs |
| Api.AcceptedExtension | app/routes/api.py:61-63 | a name whose last component has a non-dot before a `.glb`, `.fbx` or `.gltf` suffix, in any letter case, is accepted |
| Api.AcceptedNameEndsInExtension | app/routes/api.py:61-63 | an accepted name ends, case aside, in an allowed extension |
| Api.TextFileRejected | tests/test_api.py:26-35 | `test.txt` is refused as an invalid file type |
| Api.ValidatePreview | app/routes/api.py:61-70 | a preview upload passes exactly with an allowed extension and at most 100 MiB; a bad type is reported first |
| Api.ValidateOptimize | app/routes/api.py:179-192 | an upload passes exactly with an allowed extension, a target in [1000, 100000] and at most 100 MiB, checked in that order |
| Api.SizeBoundary | app/routes/api.py:69-70 | exactly 100 MiB is accepted, one byte more is refused |
| Api.InputReferenceChoiceMoot | app/routes/api.py:73-79 | the B2 key and the local path of a preview upload are the same text |
| Api.CreatePreview | app/routes/api.py:52-167 | a refused upload changes nothing; otherwise exactly one anonymous unpaid job with target 10000 and a 24-hour expiry is added; it stays `pending` when queued, and otherwise is completed with the local copy as preview and counts 100000/10000; the message matches the status |
| Api.Admit | app/routes/api.py:212-227 | the commit adds one paid pending job for the owner and charges a single-plan user exactly one credit, never below zero; plan and expiry are kept |
| Api.OptimizeModel | app/routes/api.py:170-241 | a gate refusal is passed on and changes nothing; past the gate a rejected upload gets its 400 reply and a failed storage upload a 500, both changing nothing, while an accepted, stored upload always creates the paid pending job under the owner's key and charges a single-plan user one credit; it is served exactly when the job was created and queued, so a queueing failure still leaves a charged pending job |
| Api.PreviewUrl | app/routes/api.py:263-313 | no preview gives `#`; an existing local file under `uploads` gives `/uploads/` plus its name; an existing file elsewhere gives `/uploads/` plus its name when the copy into `uploads` worked and `#` when it failed; a missing file gives the signed URL or `#`; nothing else is ever returned |
| Api.GetJobStatus | app/routes/api.py:244-321 | unknown id gives 404; a completed job reports non-zero counts with the 100000/10000 defaults and a preview URL; a failed job reports its non-empty message or `Unknown error`; other states report neither |
| Api.FallbackPreviewServedLocally | app/routes/api.py:149-157 | a preview completed on the spot is then reported with `/uploads/<uuid><ext>` and the mock counts |
| Api.DownloadGuard | app/routes/api.py:330-344 | the file is released exactly for the owner of a completed job with an output file; otherwise 404, 403 and 400 in that order |
| Api.DownloadAfterGate | app/routes/api.py:330-363 | past its gate the route passes on a gate or guard refusal, redirects a released job to its signed URL, and answers 500 when signing fails |
| Api.DownloadOptimizedModel | app/routes/api.py:323-363 | as written, behind the full gate: a redirect happens exactly for an entitled owner of a released job with a signed URL, and goes to that URL; a gate refusal and a guard refusal are passed on; a signing failure is a 500 |
| Api.GateExtendsIdentify | app/routes/api.py:24-49 | the full gate refuses whatever the identity check refuses, in the same words, and otherwise admits the same user or refuses with 403 |
| Api.DownloadPaidExport | app/routes/api.py:323-363 | corrected: a redirect happens exactly for a known owner of a released job with a signed URL, whatever the plan's state; refusals are 400, 401, 403, 404 or a signing 500 |
| Api.ReleasedJobDownloads | app/routes/api.py:323-363 | a job released to a known user is served by the corrected route, and by the route as written exactly when the user's plan passes the gate |
| Api.SpentBuyerLockedOut | app/routes/api.py:44-45 | as written, a single-plan owner with no credit left is refused `No export credits remaining` for a job whose guards all pass; the corrected route serves it |
| Api.DownloadAgreesWhenEntitled | app/routes/api.py:323-363 | wherever the full gate admits, the route as written and the corrected route answer alike |
| Billing.CheckoutProduct | app/routes/public.py:29-43 | `EXPORT_1` costs 400 cents, `CREATOR_MONTH` 2500; any other id is refused with `Invalid product ID` |
| Billing.CheckoutAsWritten | app/routes/public.py:42-43 | the route as written answers an unknown product with an error body |
| Billing.UnknownProductAnsweredOk | tests/test_api.py:43-45 | that error body goes out with status 200, outside the 400/404 the test expects |
| Billing.Checkout | app/routes/public.py:42-43 | the corrected route refuses exactly the unknown ids, with 400, and otherwise charges the catalogue price |
| Billing.CheckoutClaims | app/routes/public.py:98-102 | the token's plan is creator exactly for `CREATOR_MONTH`; its quota is 1 exactly for `EXPORT_1` and 0 otherwise |
| Billing.CheckoutSuccess | app/routes/public.py:71-118 | the success page never changes the plan table; it shows a token exactly when the session was retrieved |
| Billing.RouteCheckoutAsWritten | app/routes/public.py:19-20 | as declared, every `GET /checkout/<segment>` reaches the checkout route, which errors exactly on ids outside the catalogue |
| Billing.SuccessPageShadowed | app/routes/public.py:65-71 | the `/checkout/success` return address Stripe is given, and `/checkout/cancel`, both get the checkout route's `Invalid product ID` body with status 200 |
| Billing.RouteCheckout | app/routes/public.py:19-122 | corrected: `success` reaches the success page and `cancel` the cancel page, and every other segment the corrected checkout route |
| Billing.ReturningBuyerSeesToken | app/routes/public.py:71-118 | with the literal routes first, a buyer returning with a retrieved session sees the token with the claims of the purchase, and every product id is still checked out as before |
| Billing.Credit | app/main.py:82 | `quota += 1` succeeds exactly on a set quota, adding one |
| Billing.NewCustomerExportCrashes | app/main.py:75-82 | the webhook as written raises on a first single-export purchase |
| Billing.ApplyPayment | app/main.py:64-87 | the corrected update touches only the buyer's row; `EXPORT_1` adds one credit keeping plan and expiry; `CREATOR_MONTH` makes a creator until 30 days on, keeping the quota; any other id leaves an existing row alone and gives a new customer the default row |
| Billing.AsWrittenAgreesElsewhere | app/main.py:73-87 | outside the crashing case the code as written and the corrected update agree |
| Billing.ClaimsMatchFirstPayment | app/routes/public.py:98-102 | the success page's claims describe the row the webhook creates for a first-time buyer |
| Billing.PaymentKeepsQuotasNonNegative | app/main.py:81-85 | no purchase makes any quota negative |
| Billing.StripeWebhookAsWritten | app/main.py:37-87 | as written, the webhook raises (an unhandled 500, nothing stored) exactly for a payment event on which the payment update raises; otherwise it answers as the corrected webhook does |
| Billing.NewBuyerWebhookFails | app/main.py:58-82 | as written, a new customer's `EXPORT_1` payment event fails the webhook and leaves the plan table unchanged |
| Billing.StripeWebhook | app/main.py:37-62 | with the corrected payment update: only a `checkout.session.completed` event changes plans, by that update; bad payloads and signatures are answered with their error texts; every parsed event is acknowledged |
| Maintenance.ForceComplete | scripts/admin_utils.py:57-61 | completes a job with the given preview and mock counts, keeping id, owner, input, output, target, error message, paid flag and dates |
| Maintenance.CompleteJob | scripts/admin_utils.py:40-72 | succeeds exactly for a known job with a non-empty input; a refusal changes nothing; success completes it with the input as preview |
| Maintenance.FixJob | scripts/fix_job.py:12-55 | exits 0 exactly when an argument is given, parses as an integer, the database exists and the job exists; exit 1 changes nothing; success completes the job with the input, possibly unset, as preview, the mock counts and `updated_at` set to now |
| Maintenance.FixJobAgreesWithCompleteJob | scripts/fix_job.py:44-55 | given the id as printed, the script does what `complete_job` does for a job with an input |
| Maintenance.FixJobSkipsInputCheck | scripts/fix_job.py:33-55 | a job without input is refused by `complete_job` but completed by the script with no preview |
| Maintenance.FailedJobForcedComplete | scripts/admin_utils.py:44-63 | a failed job becomes completed and keeps its error message and lack of output |
| Maintenance.CompletedJobRewritten | scripts/admin_utils.py:57-60 | a completed job's preview and counts are overwritten with the input and mock values |
| Diagnostic.Filter | scripts/worker_diagnostic.py:54 | a list comprehension with a condition keeps exactly the accepted elements, each as many times as it occurs |
| Diagnostic.FilterConcat | scripts/worker_diagnostic.py:54 | filtering a concatenation filters each part and keeps them in order, so kept elements stay in their original order |
| Diagnostic.WorkerLines | scripts/worker_diagnostic.py:54 | keeps exactly the `ps` lines containing `run_worker.py` and not `grep`, each as often as it occurs |
| Diagnostic.WorkerRunning | scripts/worker_diagnostic.py:41-68 | the worker counts as running exactly when `ps` ran and some line is a worker line |
| Diagnostic.WorkerLineFound | scripts/worker_diagnostic.py:47-60 | a worker line anywhere in the `ps` output is found |
| Diagnostic.StuckJobs | scripts/worker_diagnostic.py:127-132 | a job is reported exactly when it is processing and more than 300 seconds passed since its update |
| Diagnostic.PendingNeverStuck | scripts/worker_diagnostic.py:112-132 | a pending job is never reported stuck |
| Diagnostic.StuckBoundary | scripts/worker_diagnostic.py:131 | at exactly 300 seconds a job is not stuck; at 301 it is |
| Diagnostic.Minutes | scripts/worker_diagnostic.py:138 | whole minutes truncated toward zero, which is the floor for non-negative times |
| Diagnostic.StuckMinutes | scripts/worker_diagnostic.py:134-139 | a stuck job is reported at no less than 5 minutes, and the figure is the floor of its elapsed minutes |
| Diagnostic.Summarize | scripts/worker_diagnostic.py:169-179 | healthy exactly with Redis and worker up; the pending warning exactly when healthy, something is pending and nothing is processing |
| Diagnostic.Diagnose | scripts/worker_diagnostic.py:108-173 | stuck jobs come from the table read (none if it failed); a pending warning means the read showed a pending job and no processing one |
| Lifecycle.OptimizeKeepsQuotasNonNegative | app/routes/api.py:224-225 | an optimization request never makes any quota negative |
| Lifecycle.SingleExportBuysOneOptimization | app/main.py:81-82 | under the corrected payment update, a first single-export purchase admits the buyer once; after one accepted upload the gate refuses with `No export credits remaining` |
| Lifecycle.FirstExportLostAsWritten | app/main.py:58-82 | with the code as written the same first purchase fails the webhook, stores no plan row, and the buyer's token is refused with `User not found` |
| Lifecycle.CreatorPassWindow | app/main.py:83-85 | a creator pass admits its holder exactly until 30 days after payment |
| Lifecycle.QueuedPreviewReported | worker/gltf_worker.py:77-84 | a queued preview, once run, is reported completed with the uploaded input as preview, the probed before-count or its default, and the default after-count |
| Lifecycle.CompletedRunReleased | worker/gltf_worker.py:116-126 | a completed full run passes every download guard for its owner, releasing the key the worker uploaded to |
| Lifecycle.CompletedRunDownloadable | worker/gltf_worker.py:116-126 | a completed full run passes every download guard for its owner; the corrected download serves it whatever the owner's plan, while the route as written serves it exactly when the owner's plan still passes the gate |
| Lifecycle.SingleExportUndeliverable | app/routes/api.py:323-326 | as written end to end: a returning single-plan customer with no credit buys one export through the payment update as written, is admitted, and once the worker completes the job is refused its download with `No export credits remaining`, since the upload spent the only credit; the corrected route serves it |
| Lifecycle.StuckJobRecovered | scripts/worker_diagnostic.py:127-140 | a job the worker left in `processing` is reported stuck after 300 seconds, and the fix script then completes it |

## Left out

- B2, Redis, Stripe, JWT, the database session and the subprocess machinery are outcome parameters: they are foreign libraries and I/O.
- Database failures in the scripts' and routes' `except` branches are not modelled: every read and commit is taken to succeed.
- Concurrency is not modelled: several requests or worker runs on one job, arq de-duplication, `max_jobs` and `job_timeout`.
- The float simplification ratio and its text are not modelled; only whether it can be computed (count set and non-zero).
- Timestamps are whole seconds and one operation reads the clock once. The diagnostic script reads the clock twice and uses fractional seconds.
- Api.GetCurrentUser: the texts and the 403 status of `HTTPBearer()`'s own refusals follow FastAPI's `HTTPBearer` of this code's era; FastAPI is not part of this model.
- Form and query parsing are not modelled, including FastAPI's 422 for a non-integer `target_triangles` or a missing `session_id`, a missing file name and the temporary-file clean-up.
- The preview image generation the worker leaves as a TODO is not modelled; neither are templates, static mounts, CORS, health and landing pages, and the other scripts.
- Api.RejectionReply: the 400 detail texts stop after `Invalid file type` and `File too large`. The list of allowed types follows set iteration order and the size is printed as a float.
- Worker.AbortMessage: the outer handler's message is CPython 3.11's wording of `UnboundLocalError` for an unset count; other interpreter versions word it differently.
- Numbers.ParseInt: accepts ASCII digits only. Python's `int()` also accepts other Unicode decimal digits and refuses literals longer than 4300 digits.
- Text.Lower: lower-cases ASCII letters only. No other character lower-cases to a letter of the allowed extensions, so acceptance is unaffected; only the Kelvin sign maps to `k`, which none of them contains.
- Probe.ReadMarkerLine: the text of the `int()` error quotes the word with plain single quotes; Python's `repr` switches quotes or escapes for words containing them.
- Api.PreviewUrl: the `uploads` test is made on the stored text, where the code tests `str(Path(p))`. Normalising only drops empty and `.` components, so the outcome is the same.
- Diagnostic.WorkerRunning: a `ps` that runs but fails still yields its (possibly empty) output, as `subprocess.run` does not check the exit code.

## Findings

| source | as written | input that shows it | evidently intended | confidence | as-written member | corrected member |
|---|---|---|---|---|---|---|
| app/main.py:75-82 | a plan row created for a new customer has no quota until it is inserted, so `ent.quota += 1` raises `TypeError` and the purchase is lost | a `checkout.session.completed` event for `EXPORT_1` from an e-mail with no plan row | the new row starts at the column default 0 and the purchase leaves quota 1, as the success page's token already claims | high; not executed | Billing.ApplyPaymentAsWritten (shown by Billing.NewCustomerExportCrashes) | Billing.ApplyPayment (Billing.ClaimsMatchFirstPayment, used by Billing.StripeWebhook) |
| app/routes/public.py:42-43 | an unknown product id is answered with an error dictionary, which goes out with status 200 | `GET /checkout/INVALID`, for which the repository's test expects 400 or 404 | refuse an unknown product with 400 | medium; not executed | Billing.CheckoutAsWritten (shown by Billing.UnknownProductAnsweredOk) | Billing.Checkout |
| app/routes/public.py:19-20 | `/checkout/{product_id}` is declared before `/checkout/success` and `/checkout/cancel`; routes are tried in declaration order, so it takes `success` and `cancel` as product ids | `GET /checkout/success?session_id=...`, the return address given to Stripe at line 65 | the literal routes reach the success and cancel pages | high; not executed | Billing.RouteCheckoutAsWritten (shown by Billing.SuccessPageShadowed) | Billing.RouteCheckout (Billing.ReturningBuyerSeesToken) |
| app/routes/api.py:326 | the download sits behind `get_current_user`, which refuses a single-plan user at quota 0 (lines 44-45); the upload that paid for the job spent that credit (line 225) | a single-export buyer downloading the completed job of their one optimization | a paid, completed job stays downloadable by its owner | medium; not executed | Api.DownloadOptimizedModel (shown by Api.SpentBuyerLockedOut and Lifecycle.SingleExportUndeliverable) | Api.DownloadPaidExport (Api.ReleasedJobDownloads, Lifecycle.CompletedRunDownloadable) |
