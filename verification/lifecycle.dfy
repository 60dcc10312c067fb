/** Properties that span the routes, the worker, the webhook and the
    maintenance scripts: how a job and a plan move through the system. */
module Lifecycle {
  import opened Maybe
  import opened Numbers
  import opened Models
  import Api
  import Worker
  import Billing
  import Diagnostic
  import Maintenance

  /** Optimizing never drives a quota below zero: the gate admits a
      single-plan user only with credit left, and creators are not charged. */
  lemma OptimizeKeepsQuotasNonNegative(jobs: JobStore, plans: PlanStore, token: Api.Token, filename: string,
                                       size: nat, target: int, uuid: string, newId: int,
                                       uploaded: bool, queued: bool, now: int)
    requires newId !in jobs && Billing.QuotasNonNegative(plans)
    ensures Billing.QuotasNonNegative(Api.OptimizeModel(jobs, plans, token, filename, size, target, uuid,
                                                        newId, uploaded, queued, now).1)
  {
    var r := Api.OptimizeModel(jobs, plans, token, filename, size, target, uuid, newId, uploaded, queued, now);
    if newId in r.0 {
      var email := token.sub.value;
      forall e | e in r.1
        ensures r.1[e].quota >= 0
      {
        if e != email {
          assert r.1[e] == plans[e];
        }
      }
    }
  }

  /** Under the corrected payment update, a first single-export purchase
      buys exactly one optimization: the buyer passes the gate, and after
      one accepted upload no longer does. */
  lemma SingleExportBuysOneOptimization(jobs: JobStore, plans: PlanStore, email: string, filename: string,
                                        size: nat, target: int, uuid: string, newId: int,
                                        queued: bool, paidAt: int, now: int)
    requires email !in plans && newId !in jobs
    requires Api.ValidateOptimize(filename, target, size).None?
    ensures var bought := Billing.ApplyPayment(plans, email, Some(Billing.Export1), paidAt);
      && Api.GetCurrentUser(bought, Api.Claims(Some(email)), now).Served?
      && var r := Api.OptimizeModel(jobs, bought, Api.Claims(Some(email)), filename, size, target, uuid,
                                    newId, true, queued, now);
         newId in r.0 && Api.GetCurrentUser(r.1, Api.Claims(Some(email)), now) == Api.Refused(403, "No export credits remaining")
  {
    var bought := Billing.ApplyPayment(plans, email, Some(Billing.Export1), paidAt);
    assert bought[email].quota == 1 && bought[email].plan == Single;
    var r := Api.OptimizeModel(jobs, bought, Api.Claims(Some(email)), filename, size, target, uuid, newId, true, queued, now);
    assert Api.GetCurrentUser(bought, Api.Claims(Some(email)), now).Served?;
    assert newId in r.0;
    assert r.1[email].quota == 0 && r.1[email].plan == Single;
  }

  /** As written, the same first purchase admits nobody: the webhook fails,
      no plan row is stored, and the buyer's token is refused as unknown. */
  lemma FirstExportLostAsWritten(plans: PlanStore, email: string, paidAt: int, now: int)
    requires email !in plans
    ensures var after := Billing.StripeWebhookAsWritten(plans, Billing.Event(Billing.PaymentEvent, email, Some(Billing.Export1)), paidAt);
      && after.1.WebhookRaised?
      && Api.GetCurrentUser(after.0, Api.Claims(Some(email)), now) == Api.Refused(401, "User not found")
  {
    Billing.NewBuyerWebhookFails(plans, email, paidAt);
  }

  /** A creator pass admits its holder exactly until thirty days after payment. */
  lemma CreatorPassWindow(plans: PlanStore, email: string, paidAt: int, now: int)
    ensures var u := Billing.ApplyPayment(plans, email, Some(Billing.CreatorMonth), paidAt)[email];
      Api.Entitled(u, now) <==> now <= paidAt + 30 * Day
  {
  }

  /** A preview that was queued is reported complete once the worker has run
      it: the preview is the uploaded input, the before-count is what the
      probe read (or the mock default), the after-count the mock default. */
  lemma QueuedPreviewReported(jobs: JobStore, filename: string, size: nat, uuid: string, newId: int,
                              uploaded: bool, now: int, probeIn: Worker.RunOutcome,
                              o: Worker.RunOutcome, p: Worker.RunOutcome, u: Worker.UploadOutcome,
                              later: int, io: Api.PreviewIo)
    requires newId !in jobs && Api.ValidatePreview(filename, size).None?
    ensures var created := Api.CreatePreview(jobs, filename, size, uuid, newId, uploaded, Api.Queued, now).0;
      var ran := Worker.Optimize(created, newId, true, Worker.Fetched, probeIn, o, p, u, later);
      var input := Api.PreviewInputFile(uuid, Api.FileExtension(filename), uploaded);
      && ran.1 == Worker.CompletedReply(newId)
      && Api.GetJobStatus(ran.0, newId, io)
         == Api.Served(Api.StatusBody(Completed, now,
                                      Some((OrDefault(Worker.InputCount(probeIn), MockVertexBefore), MockVertexAfter)),
                                      Some(Api.PreviewUrl(Some(input), io)), None))
  {
    var created := Api.CreatePreview(jobs, filename, size, uuid, newId, uploaded, Api.Queued, now).0;
    var job := created[newId];
    assert job.vertexCountBefore.None? && job.vertexCountAfter.None? && job.createdAt == now;
    var ran := Worker.Optimize(created, newId, true, Worker.Fetched, probeIn, o, p, u, later);
    var after := ran.0[newId];
    assert (after, ran.1) == Worker.Process(job, newId, true, Worker.Fetched, probeIn, o, p, u, later);
    assert after.status == Completed && after.vertexCountAfter.None?;
    assert after.vertexCountBefore == Worker.InputCount(probeIn);
  }

  /** A full run that completes leaves its output at the key the worker
      uploaded to: the corrected download serves it to its owner whatever
      the owner's plan, the route as written exactly while the owner's plan
      still passes the gate. */
  lemma CompletedRunDownloadable(store: JobStore, plans: PlanStore, email: string, jobId: int,
                                 probeIn: Worker.RunOutcome, o: Worker.RunOutcome, p: Worker.RunOutcome,
                                 u: Worker.UploadOutcome, url: string, now: int, later: int)
    requires jobId in store && email in plans && plans[email].email == store[jobId].userEmail
    ensures var r := Worker.Optimize(store, jobId, false, Worker.Fetched, probeIn, o, p, u, now);
      r.1.CompletedReply? ==>
        && Api.DownloadGuard(r.0, jobId, store[jobId].userEmail) == Api.Served(Worker.OutputKey(store[jobId].userEmail, jobId))
        && Api.DownloadPaidExport(r.0, plans, Api.Claims(Some(email)), jobId, Some(url)) == Api.Served(url)
        && (Api.Entitled(plans[email], later) <==>
              Api.DownloadOptimizedModel(r.0, plans, Api.Claims(Some(email)), jobId, Some(url), later) == Api.Served(url))
  {
    var r := Worker.Optimize(store, jobId, false, Worker.Fetched, probeIn, o, p, u, now);
    CompletedRunReleased(store, jobId, probeIn, o, p, u, now);
    if r.1.CompletedReply? {
      Api.ReleasedJobDownloads(r.0, plans, email, jobId, url, later);
    }
  }

  /** A completed full run passes every guard of the download for its owner. */
  lemma CompletedRunReleased(store: JobStore, jobId: int, probeIn: Worker.RunOutcome,
                             o: Worker.RunOutcome, p: Worker.RunOutcome, u: Worker.UploadOutcome, now: int)
    requires jobId in store
    ensures var r := Worker.Optimize(store, jobId, false, Worker.Fetched, probeIn, o, p, u, now);
      r.1.CompletedReply? ==>
        Api.DownloadGuard(r.0, jobId, store[jobId].userEmail) == Api.Served(Worker.OutputKey(store[jobId].userEmail, jobId))
  {
    var r := Worker.Optimize(store, jobId, false, Worker.Fetched, probeIn, o, p, u, now);
    if r.1.CompletedReply? {
      var key := Worker.OutputKey(store[jobId].userEmail, jobId);
      assert key == "outputs/" + store[jobId].userEmail + "/" + IntToString(jobId) + ".glb";
      assert key != [];
    }
  }

  /** As written, the buyer of a single export never receives it. A
      returning single-plan customer with no credit left buys one export:
      the payment update as written credits it, the accepted upload spends
      it, and once the worker completes the job the download gate refuses
      them. The corrected route serves it. */
  lemma SingleExportUndeliverable(jobs: JobStore, plans: PlanStore, email: string, filename: string,
                                  size: nat, target: int, uuid: string, newId: int, queued: bool,
                                  paidAt: int, now: int, probeIn: Worker.RunOutcome, o: Worker.RunOutcome,
                                  p: Worker.RunOutcome, u: Worker.UploadOutcome, ranAt: int, url: string, later: int)
    requires email in plans && plans[email].plan == Single && plans[email].quota == 0 && newId !in jobs
    requires Api.ValidateOptimize(filename, target, size).None?
    ensures var bought := Billing.ApplyPaymentAsWritten(plans, email, Some(Billing.Export1), paidAt);
      && bought.Ok?
      && Api.GetCurrentUser(bought.value, Api.Claims(Some(email)), now).Served?
      && var r := Api.OptimizeModel(jobs, bought.value, Api.Claims(Some(email)), filename, size, target, uuid,
                                    newId, true, queued, now);
         var ran := Worker.Optimize(r.0, newId, false, Worker.Fetched, probeIn, o, p, u, ranAt);
         && newId in r.0
         && (ran.1.CompletedReply? ==>
               && Api.DownloadOptimizedModel(ran.0, r.1, Api.Claims(Some(email)), newId, Some(url), later)
                    == Api.Refused(403, "No export credits remaining")
               && Api.DownloadPaidExport(ran.0, r.1, Api.Claims(Some(email)), newId, Some(url)) == Api.Served(url))
  {
    Billing.AsWrittenAgreesElsewhere(plans, email, Some(Billing.Export1), paidAt);
    var bought := Billing.ApplyPayment(plans, email, Some(Billing.Export1), paidAt);
    assert bought[email].quota == 1 && bought[email].plan == Single;
    assert Api.GetCurrentUser(bought, Api.Claims(Some(email)), now).Served?;
    var r := Api.OptimizeModel(jobs, bought, Api.Claims(Some(email)), filename, size, target, uuid, newId, true, queued, now);
    assert newId in r.0 && r.0[newId].userEmail == bought[email].email;
    assert email in r.1 && r.1[email].email == bought[email].email && r.1[email].plan == Single && r.1[email].quota == 0;
    var ran := Worker.Optimize(r.0, newId, false, Worker.Fetched, probeIn, o, p, u, ranAt);
    if ran.1.CompletedReply? {
      CompletedRunDownloadable(r.0, r.1, email, newId, probeIn, o, p, u, url, ranAt, later);
      Api.SpentBuyerLockedOut(ran.0, r.1, email, newId, url, later);
    }
  }

  /** The gap and its repair: a job the worker leaves in `processing` is
      reported stuck once five minutes pass without an update, and the fix
      script then completes it with its input as preview. */
  lemma StuckJobRecovered(store: JobStore, jobId: int, previewOnly: bool, error: string,
                          probeIn: Worker.RunOutcome, o: Worker.RunOutcome, p: Worker.RunOutcome,
                          u: Worker.UploadOutcome, ranAt: int, now: int, later: int, rows: seq<JobRecord>, script: string)
    requires jobId in store && now > ranAt + Diagnostic.StuckAfter
    ensures var left := Worker.Optimize(store, jobId, previewOnly, Worker.FetchFailed(error), probeIn, o, p, u, ranAt).0;
      && (left[jobId] in rows ==> left[jobId] in Diagnostic.StuckJobs(rows, now))
      && var fixed := Maintenance.FixJob([script, IntToString(jobId)], true, left, later);
         fixed.exitCode == 0 && fixed.store[jobId].status == Completed
         && fixed.store[jobId].previewFile == store[jobId].inputFile
  {
    var left := Worker.Optimize(store, jobId, previewOnly, Worker.FetchFailed(error), probeIn, o, p, u, ranAt).0;
    assert left[jobId].status == Processing && left[jobId].updatedAt == ranAt;
    assert left[jobId].inputFile == store[jobId].inputFile;
    ParseIntToString(jobId);
    assert [script, IntToString(jobId)][1] == IntToString(jobId);
  }
}
