/** Exactly what each ending of a generation job bills, told from what the provider sent
    (src/generation.rs:225-251, 296-380, 904-952, 967-1173, 1569-1653). */
module GenerationEndings {
  import opened Json
  import opened Limits
  import opened GenerationBilling
  import Staging
  import Text
  import WorkflowTree

  // ------------------------------------------------------------- what was sent

  predicate HasStatus(body: Value, statuses: set<string>)
  {
    body.Object? && exists s | s in statuses :: Find(body.fields, "status") == Some(String(s))
  }

  predicate NoStatus(body: Value)
  {
    !body.Object? || Find(body.fields, "status").None? || !Find(body.fields, "status").value.String?
  }

  /** The value stands for this number: as a 64-bit integer or as text that parses. */
  predicate Reads(v: Value, n: int, parse: string -> Option<int>)
  {
    (v == Number(n) && -0x8000_0000_0000_0000 <= n <= 0x7fff_ffff_ffff_ffff)
    || (v.String? && parse(v.s) == Some(n))
  }

  /** The reply states a duration that is not one from one to the estimate. */
  ghost predicate OverUsed(body: Value, estimated: int, parse: string -> Option<int>)
  {
    body.Object? && Find(body.fields, "duration").Some?
    && forall n | Reads(Find(body.fields, "duration").value, n, parse) :: !(1 <= n <= estimated)
  }

  /** The units of a successful reply: the stated duration, or the estimate. */
  predicate StatedUnits(body: Value, estimated: int, parse: string -> Option<int>, units: int)
  {
    if body.Object? && Find(body.fields, "duration").Some?
    then Reads(Find(body.fields, "duration").value, units, parse) && 1 <= units <= estimated
    else units == estimated
  }

  predicate HasVideo(body: Value)
  {
    && body.Object? && Find(body.fields, "content").Some? && Find(body.fields, "content").value.Object?
    && var url := Find(Find(body.fields, "content").value.fields, "video_url");
       url.Some? && url.value.String?
  }

  /** The one video of a SiliconFlow reply, with its URL. */
  predicate HasOneVideo(body: Value)
  {
    && body.Object? && Find(body.fields, "results").Some? && Find(body.fields, "results").value.Object?
    && var videos := Find(Find(body.fields, "results").value.fields, "videos");
       && videos.Some? && videos.value.Array? && |videos.value.items| == 1
       && var video := videos.value.items[0];
          video.Object? && Find(video.fields, "url").Some? && Find(video.fields, "url").value.String?
  }

  /** The asset could be referred to and fetched; it could not be fetched; or asking
      failed, and the attempt is repeated. */
  predicate Delivered(delivery: Delivery)
  {
    delivery.referenceBuilt && delivery.obtainable == Ok(true)
  }

  predicate Unobtainable(delivery: Delivery)
  {
    delivery.referenceBuilt && delivery.obtainable == Ok(false)
  }

  predicate Unanswered(delivery: Delivery)
  {
    !delivery.referenceBuilt || delivery.obtainable.Err?
  }

  // ------------------------------------------------------------------- Seedance

  lemma {:induction false} DurationReads(body: Value, estimated: int, parse: string -> Option<int>)
    ensures SeedanceUnits(body, estimated, parse).None? <==> OverUsed(body, estimated, parse)
    ensures forall n :: SeedanceUnits(body, estimated, parse) == Some(n) ==> StatedUnits(body, estimated, parse, n)
    ensures forall n :: StatedUnits(body, estimated, parse, n) ==> SeedanceUnits(body, estimated, parse) == Some(n)
  {
    var duration := Get(body, "duration");
    if duration.Some? {
      forall n ensures Reads(duration.value, n, parse) <==> JsonI64(duration.value, parse) == Some(n) {}
    }
  }

  /** A Seedance job, from the reply alone: waiting, failed for nothing, failed for the
      whole estimate exactly when the stated duration is out of bounds, delivered for
      exactly what was stated, or an error to be retried. */
  lemma {:induction false} SeedanceExactly(body: Value, delivery: Delivery, estimated: int,
                                           parse: string -> Option<int>)
    requires estimated >= 1
    ensures var d := Settle(Seedance(body, delivery), estimated, parse);
            var succeeded := HasStatus(body, {"succeeded"});
            var over, video := OverUsed(body, estimated, parse), HasVideo(body);
            && (d == Reschedule <==> NoStatus(body) || HasStatus(body, {"queued", "running"}))
            && (d == Failure(estimated) <==> succeeded && over)
            && (d == Failure(0) <==>
                  || HasStatus(body, {"failed", "cancelled"})
                  || (succeeded && !over && (!video || !delivery.originAllowed || Unobtainable(delivery))))
            && (d.Failure? ==> d.billed in {0, estimated})
            && (d.Success? <==> succeeded && !over && video && delivery.originAllowed && Delivered(delivery))
            && (d.Success? ==> StatedUnits(body, estimated, parse, d.billed))
            && (d == Error <==>
                  || !(NoStatus(body) || HasStatus(body, {"queued", "running", "failed", "cancelled", "succeeded"}))
                  || (succeeded && !over && video && delivery.originAllowed && Unanswered(delivery)))
  {
    DurationReads(body, estimated, parse);
    if body.Object? && Find(body.fields, "status").Some? && Find(body.fields, "status").value.String? {
      var s := Find(body.fields, "status").value.s;
      assert forall statuses :: HasStatus(body, statuses) <==> s in statuses;
    }
  }

  /** A SiliconFlow job bills one unit when its one video is delivered, and nothing
      otherwise. */
  lemma {:induction false} SiliconFlowExactly(body: Value, delivery: Delivery, estimated: int,
                                              parse: string -> Option<int>)
    requires estimated >= 1
    ensures var d := Settle(SiliconFlow(body, delivery), estimated, parse);
            var succeeded, video := HasStatus(body, {"Succeed"}), HasOneVideo(body);
            && (d == Reschedule <==> HasStatus(body, {"InQueue", "InProgress"}))
            && (d == Failure(0) <==>
                  || HasStatus(body, {"Failed"})
                  || (succeeded && (!video || !delivery.originAllowed || Unobtainable(delivery))))
            && (d == Success(1) <==> succeeded && video && delivery.originAllowed && Delivered(delivery))
            && (d == Error <==>
                  || NoStatus(body) || !HasStatus(body, {"InQueue", "InProgress", "Failed", "Succeed"})
                  || (succeeded && video && delivery.originAllowed && Unanswered(delivery)))
            && (d.Failure? || d.Success? ==> d in {Failure(0), Success(1)})
  {
    if body.Object? && Find(body.fields, "status").Some? && Find(body.fields, "status").value.String? {
      var s := Find(body.fields, "status").value.s;
      assert forall statuses :: HasStatus(body, statuses) <==> s in statuses;
    }
  }

  // --------------------------------------------------------------------- ComfyUI

  predicate IntegerIn(fields: Fields, name: string, n: int, most: int)
  {
    Find(fields, name) == Some(Number(n)) && 1 <= n <= most
  }

  /** The outputs asked for: the first of the three names that is there, or one. */
  predicate OutputsAre(fields: Fields, n: int)
  {
    if Find(fields, "batch_size").Some? then IntegerIn(fields, "batch_size", n, 16)
    else if Find(fields, "n").Some? then IntegerIn(fields, "n", n, 16)
    else if Find(fields, "images").Some? then IntegerIn(fields, "images", n, 16)
    else n == 1
  }

  /** The input asks for this many outputs of this size. */
  predicate ContractIs(input: Value, width: int, height: int, outputs: int)
  {
    && input.Object? && Find(input.fields, "parameters").Some? && Find(input.fields, "parameters").value.Object?
    && var fields := Find(input.fields, "parameters").value.fields;
       IntegerIn(fields, "width", width, 32_768) && IntegerIn(fields, "height", height, 32_768)
       && OutputsAre(fields, outputs)
  }

  ghost predicate HasContract(input: Value)
  {
    exists width, height, outputs :: ContractIs(input, width, height, outputs)
  }

  /** The contract is read exactly as the input states it. */
  lemma {:induction false} ContractExactly(input: Value, width: int, height: int, outputs: int)
    requires ContractIs(input, width, height, outputs)
    ensures PixelContract(input) == Ok((width * height, outputs))
    ensures RequestedPixels(input) == Ok(width * height * outputs)
  {
    MulBounds(width, height, 32_768, 32_768);
    ContractBounds(input);
  }

  lemma {:induction false} ContractIsThere(input: Value)
    ensures PixelContract(input).Ok? <==> HasContract(input)
  {
    if PixelContract(input).Ok? {
      var fields := Find(input.fields, "parameters").value.fields;
      var outputs := PixelContract(input).value.1;
      assert ContractIs(input, Find(fields, "width").value.n, Find(fields, "height").value.n, outputs);
    } else if width, height, outputs :| ContractIs(input, width, height, outputs) {
      ContractExactly(input, width, height, outputs);
    }
  }

  /** What this many assets bill: one for a job, their pixels for megapixels when the
      count was asked for and the reservation covers them. */
  ghost predicate ComfyUnits(unit: string, input: Value, assets: nat, estimated: int, units: int)
  {
    || (unit == "job" && units == 1)
    || (unit == "megapixel" &&
          exists width, height, outputs ::
            && ContractIs(input, width, height, outputs)
            && assets <= outputs && units == width * height * assets && units <= estimated)
  }

  /** More outputs than were asked for, or more pixels than were reserved. */
  ghost predicate ComfyRefused(unit: string, input: Value, assets: nat, estimated: int)
  {
    unit == "megapixel" &&
    exists width, height, outputs ::
      ContractIs(input, width, height, outputs) && (assets > outputs || width * height * assets > estimated)
  }

  lemma {:induction false} ContractUnique(input: Value, w: int, h: int, n: int, x: int, y: int, m: int)
    requires ContractIs(input, w, h, n) && ContractIs(input, x, y, m)
    ensures w == x && h == y && n == m
  {
  }

  lemma {:induction false} ComfyBills(unit: string, input: Value, assets: nat, estimated: int)
    requires estimated >= 1 && 1 <= assets <= MAX_COMFY_ASSETS
    ensures var billed := BilledPixels(unit, input, assets);
            && (billed.Err? <==> unit != "job" && (unit != "megapixel" || !HasContract(input)))
            && (ComfyRefused(unit, input, assets, estimated) <==>
                  billed.Ok? && !(billed.value.Some? && 0 < billed.value.value <= estimated))
            && (forall units :: ComfyUnits(unit, input, assets, estimated, units) <==>
                  billed == Ok(Some(units)) && 0 < units <= estimated)
  {
    ContractIsThere(input);
    if unit != "job" && unit == "megapixel" && HasContract(input) {
      var width, height, outputs :| ContractIs(input, width, height, outputs);
      ContractExactly(input, width, height, outputs);
      MulBounds(width, height, 32_768, 32_768);
      MulBounds(width * height, assets, 0x4000_0000, MAX_COMFY_ASSETS);
      forall w, h, n | ContractIs(input, w, h, n) ensures w == width && h == height && n == outputs {
        ContractUnique(input, w, h, n, width, height, outputs);
      }
    }
  }

  /** The finished entry of the task. */
  predicate EntryIs(reply: ComfyReply, entry: Value)
  {
    if reply.history.Object? && Find(reply.history.fields, reply.task).Some?
    then entry == Find(reply.history.fields, reply.task).value
    else reply.cloud && entry == reply.history
  }

  predicate Completed(reply: ComfyReply)
  {
    !reply.cloud || HasStatus(reply.status, {"completed"})
  }

  ghost predicate Waiting(reply: ComfyReply)
  {
    || (reply.cloud && (NoStatus(reply.status) || HasStatus(reply.status, {"pending", "in_progress"})))
    || (Completed(reply) && forall entry :: !EntryIs(reply, entry))
  }

  predicate ExecutionFailed(entry: Value)
  {
    && entry.Object? && Find(entry.fields, "status").Some? && Find(entry.fields, "status").value.Object?
    && Find(Find(entry.fields, "status").value.fields, "status_str") == Some(String("error"))
  }

  /** The task finished with this many assets. */
  ghost predicate Counted(reply: ComfyReply, assets: nat)
  {
    Completed(reply) && exists entry :: EntryIs(reply, entry) && !ExecutionFailed(entry)
                                        && assets == |WorkflowTree.AllAssets(entry)|
  }

  ghost predicate FailedRemotely(reply: ComfyReply)
  {
    || (reply.cloud && HasStatus(reply.status, {"failed", "cancelled"}))
    || (Completed(reply) && exists entry :: EntryIs(reply, entry) && ExecutionFailed(entry))
  }

  lemma {:induction false} StatusIs(body: Value, statuses: set<string>)
    ensures NoStatus(body) <==> GetStr(body, "status").None?
    ensures HasStatus(body, statuses) <==> GetStr(body, "status").Some? && GetStr(body, "status").value in statuses
  {
  }

  lemma {:induction false} EntryExactly(reply: ComfyReply)
    ensures forall entry :: EntryIs(reply, entry) <==> ComfyEntry(reply) == Some(entry)
  {
  }

  lemma {:induction false} ComfyStages(reply: ComfyReply, unit: string, input: Value, delivery: Delivery,
                                       estimated: int)
    ensures var d := PollComfy(reply, unit, input, estimated, delivery);
            && (Waiting(reply) ==> d == Reschedule)
            && (FailedRemotely(reply) ==> d == Failure(0) && !Waiting(reply))
            && (forall assets :: Counted(reply, assets) ==>
                  d == SettleComfy(unit, input, assets, estimated, delivery)
                  && !Waiting(reply) && !FailedRemotely(reply))
            && (!Waiting(reply) && !FailedRemotely(reply) && (forall assets :: !Counted(reply, assets)) ==> d == Error)
  {
    StatusIs(reply.status, {"pending", "in_progress"});
    StatusIs(reply.status, {"failed", "cancelled"});
    StatusIs(reply.status, {"completed"});
    EntryExactly(reply);
    var entry := ComfyEntry(reply);
    if entry.Some? && Completed(reply) && !ExecutionFailed(entry.value) {
      assert Counted(reply, |WorkflowTree.AllAssets(entry.value)|);
    }
  }

  /** A ComfyUI job: it waits for its entry; it fails for the whole estimate exactly when
      its pixels are refused and for nothing without assets, with too many, or when they
      cannot be had; and it is delivered for exactly its units. */
  lemma {:induction false} ComfyExactly(reply: ComfyReply, unit: string, input: Value, delivery: Delivery,
                                        estimated: int, parse: string -> Option<int>)
    requires estimated >= 1
    ensures var d := Settle(Comfy(reply, unit, input, delivery), estimated, parse);
            && (Waiting(reply) ==> d == Reschedule)
            && (FailedRemotely(reply) ==> d == Failure(0))
            && (forall assets | Counted(reply, assets) ::
                  if assets == 0 || assets > 16 then d == Failure(0)
                  else if ComfyRefused(unit, input, assets, estimated) then d == Failure(estimated)
                  else if forall units :: !ComfyUnits(unit, input, assets, estimated, units) then d == Error
                  else if !delivery.originAllowed || Unanswered(delivery) then d == Error
                  else if Unobtainable(delivery) then d == Failure(0)
                  else forall units :: d == Success(units) <==> ComfyUnits(unit, input, assets, estimated, units))
            && (!Waiting(reply) && !FailedRemotely(reply) && (forall assets :: !Counted(reply, assets)) ==> d == Error)
  {
    ComfyStages(reply, unit, input, delivery, estimated);
    forall assets: nat | Counted(reply, assets) && 1 <= assets <= MAX_COMFY_ASSETS
      ensures var billed := BilledPixels(unit, input, assets);
              && (ComfyRefused(unit, input, assets, estimated) <==>
                    billed.Ok? && !(billed.value.Some? && 0 < billed.value.value <= estimated))
              && (forall units :: ComfyUnits(unit, input, assets, estimated, units) <==>
                    billed == Ok(Some(units)) && 0 < units <= estimated)
    {
      ComfyBills(unit, input, assets, estimated);
    }
  }

  // ------------------------------------------------------------------ every ending

  /** The whole estimate is charged for a job that failed. */
  ghost predicate ChargedWhole(e: Ending, estimated: int, parse: string -> Option<int>)
  {
    match e
    case Seedance(body, _) => HasStatus(body, {"succeeded"}) && OverUsed(body, estimated, parse)
    case Comfy(reply, unit, input, _) =>
      exists assets :: 1 <= assets <= 16 && Counted(reply, assets) && ComfyRefused(unit, input, assets, estimated)
    case _ => false
  }

  /** What a job that succeeded is charged. */
  ghost predicate Owed(e: Ending, estimated: int, parse: string -> Option<int>, units: int)
  {
    match e
    case Abandoned => false
    case Staged(_, _, manifest, sizesAgree) => sizesAgree && units == manifest.billedUnits
    case Seedance(body, _) => HasStatus(body, {"succeeded"}) && StatedUnits(body, estimated, parse, units)
    case SiliconFlow(body, _) => HasStatus(body, {"Succeed"}) && units == 1
    case Comfy(reply, unit, input, _) =>
      exists assets :: 1 <= assets <= 16 && Counted(reply, assets) && ComfyUnits(unit, input, assets, estimated, units)
  }

  /** Every ending: a failure costs nothing, but for the two that cost the whole
      estimate, and a success exactly what it owes. */
  lemma {:induction false} ExactBill(e: Ending, estimated: int, parse: string -> Option<int>)
    requires estimated >= 1
    ensures var d := Settle(e, estimated, parse);
            && (d.Failure? ==> d.billed == if ChargedWhole(e, estimated, parse) then estimated else 0)
            && (ChargedWhole(e, estimated, parse) ==> d == Failure(estimated))
            && (d.Success? ==> Owed(e, estimated, parse, d.billed))
  {
    match e
    case Seedance(body, delivery) => SeedanceExactly(body, delivery, estimated, parse);
    case SiliconFlow(body, delivery) => SiliconFlowExactly(body, delivery, estimated, parse);
    case Comfy(reply, unit, input, delivery) => ComfyBill(reply, unit, input, delivery, estimated, parse);
    case _ =>
  }

  lemma {:induction false} ComfyBill(reply: ComfyReply, unit: string, input: Value, delivery: Delivery, estimated: int,
                                     parse: string -> Option<int>)
    requires estimated >= 1
    ensures var e := Comfy(reply, unit, input, delivery); var d := Settle(e, estimated, parse);
            && (d.Failure? ==> d.billed == if ChargedWhole(e, estimated, parse) then estimated else 0)
            && (ChargedWhole(e, estimated, parse) ==> d == Failure(estimated))
            && (d.Success? ==> Owed(e, estimated, parse, d.billed))
  {
    ComfyExactly(reply, unit, input, delivery, estimated, parse);
    var e := Comfy(reply, unit, input, delivery);
    var d := Settle(e, estimated, parse);
    EntryExactly(reply);
    forall a, b | Counted(reply, a) && Counted(reply, b) ensures a == b {}
    if assets: nat :| Counted(reply, assets) {
      assert ChargedWhole(e, estimated, parse) <==> 1 <= assets <= 16 && ComfyRefused(unit, input, assets, estimated);
      if assets == 0 || assets > 16 {
        assert d == Failure(0);
      } else if ComfyRefused(unit, input, assets, estimated) {
        assert d == Failure(estimated);
      } else {
        assert d.Failure? ==> d == Failure(0) by {
          if units :| ComfyUnits(unit, input, assets, estimated, units) {
            assert Delivered(delivery) ==> d == Success(units) || !delivery.originAllowed;
          }
        }
        if d.Success? { assert ComfyUnits(unit, input, assets, estimated, d.billed); }
      }
    } else {
      assert !ChargedWhole(e, estimated, parse);
      assert d in {Reschedule, Failure(0), Error};
    }
  }

  function Bytes(assets: seq<Staging.StagedAsset>): int
  {
    if assets == [] then 0 else Bytes(assets[..|assets| - 1]) + assets[|assets| - 1].sizeBytes
  }

  /** The manifest bills within the estimate, and its assets are as many as the driver
      delivers, none empty, half a GiB at most together, and each under its own name below
      the prefix of this job and attempt. */
  predicate Deliverable(jobId: Staging.Uuid, driver: string, estimated: int, m: Staging.Manifest)
  {
    && 1 <= m.billedUnits <= estimated
    && (if driver == "comfyui" then 1 <= |m.assets| <= 16
        else (driver == "volcengine-seedance" || driver == "http-json")
             && |m.assets| == 1 && "video/" <= m.assets[0].mimeType)
    && (forall i | 0 <= i < |m.assets| ::
          && m.assets[i].index == i && m.assets[i].sizeBytes > 0
          && m.assets[i].objectLocator
             == "staging/generation/" + Staging.Format(jobId) + "/assets/" + Staging.Format(m.attemptNonce) + "/asset-"
                + Text.Decimal(i))
    && Bytes(m.assets) <= 0x2000_0000
  }

  lemma {:induction false} TotalIsBytes(assets: seq<Staging.StagedAsset>)
    requires forall i | 0 <= i < |assets| :: assets[i].sizeBytes > 0
    ensures Bytes(assets) >= 0
    ensures Staging.TotalSize(assets) == if Bytes(assets) < U64_LIMIT then Some(Bytes(assets)) else None
  {
    if assets != [] { TotalIsBytes(assets[..|assets| - 1]); }
  }

  lemma {:induction false} DeliverableIs(jobId: Staging.Uuid, driver: string, estimated: int, m: Staging.Manifest)
    ensures Staging.ManifestWellFormed(jobId, driver, estimated, m) <==> Deliverable(jobId, driver, estimated, m)
  {
    if forall i | 0 <= i < |m.assets| :: m.assets[i].sizeBytes > 0 { TotalIsBytes(m.assets); }
  }

  /** A staged job is delivered for its manifest's units exactly when the manifest and
      the objects are what was staged; an abandoned one costs nothing. */
  lemma {:induction false} StagedExactly(jobId: Staging.Uuid, driver: string, manifest: Staging.Manifest,
                                         sizesAgree: bool, estimated: int, parse: string -> Option<int>)
    ensures Settle(Staged(jobId, driver, manifest, sizesAgree), estimated, parse)
            == if Deliverable(jobId, driver, estimated, manifest) && sizesAgree
               then Success(manifest.billedUnits) else Failure(0)
    ensures Settle(Abandoned, estimated, parse) == Failure(0)
  {
    DeliverableIs(jobId, driver, estimated, manifest);
  }
}
