/** What a generation job is billed: the pixel contract, the decisions of the ComfyUI,
    Seedance and SiliconFlow pollers, and the endings without a poll
    (src/generation.rs:225-251, 296-433, 857-1173, 1426-1653, 1814-1818). */
module GenerationBilling {
  import opened Json
  import opened Limits
  import Staging
  import WorkflowTree

  const MAX_SILICONFLOW_VIDEO_ASSETS := 1

  datatype Result<+T> = Ok(value: T) | Err

  /** `Value::as_i64`. */
  function AsI64(v: Option<Value>): Option<int>
  {
    if v.Some? && v.value.Number? && MIN_I64 <= v.value.n <= MAX_I64 then Some(v.value.n) else None
  }

  /** `i64::checked_mul`. */
  function CheckedMul(a: int, b: int): Option<int>
  {
    if MIN_I64 <= a * b <= MAX_I64 then Some(a * b) else None
  }

  // ----------------------------------------------------------- pixel contract

  function Dimension(parameters: Value, name: string): Result<int>
  {
    var value := AsI64(Get(parameters, name));
    if value.Some? && 1 <= value.value <= 32_768 then Ok(value.value) else Err
  }

  /** The first of the three names that is present, or one output. */
  function RequestedOutputs(parameters: Value): Result<int>
  {
    var named := OrElse(OrElse(Get(parameters, "batch_size"), Get(parameters, "n")), Get(parameters, "images"));
    if named.None? then Ok(1)
    else if AsI64(named).Some? && 1 <= AsI64(named).value <= MAX_COMFY_ASSETS then Ok(AsI64(named).value)
    else Err
  }

  /** `comfyui_pixel_contract`: pixels of one output, and outputs reserved. */
  function PixelContract(input: Value): Result<(int, int)>
  {
    var parameters := Get(input, "parameters");
    if parameters.None? || !parameters.value.Object? then Err
    else
      var width, height := Dimension(parameters.value, "width"), Dimension(parameters.value, "height");
      var outputs := RequestedOutputs(parameters.value);
      if width.Err? || height.Err? || outputs.Err? then Err
      else
        var pixels := CheckedMul(width.value, height.value);
        if pixels.None? then Err else Ok((pixels.value, outputs.value))
  }

  /** `comfyui_requested_pixels`, the reservation of a megapixel job. */
  function RequestedPixels(input: Value): Result<int>
  {
    var contract := PixelContract(input);
    if contract.Err? then Err
    else
      var pixels := CheckedMul(contract.value.0, contract.value.1);
      if pixels.None? then Err else Ok(pixels.value)
  }

  /** `comfyui_billed_pixels`; nothing when more came than was reserved. */
  function BilledPixels(unit: string, input: Value, actual: nat): Result<Option<int>>
  {
    if unit == "job" then Ok(Some(1))
    else if unit != "megapixel" || PixelContract(input).Err? || actual > MAX_I64 then Err
    else
      var (pixels, reserved) := PixelContract(input).value;
      if actual > reserved then Ok(None)
      else if CheckedMul(pixels, actual).None? then Err
      else Ok(CheckedMul(pixels, actual))
  }

  lemma {:induction false} MulBounds(a: int, b: int, x: int, y: int)
    requires 1 <= a <= x && 1 <= b <= y
    ensures 1 <= a * b <= x * y && a * b >= a
  {
    assert a * b <= x * b <= x * y;
  }

  /** The contract never overflows: one output is at most 2^30 pixels. */
  lemma {:induction false} ContractBounds(input: Value)
    requires PixelContract(input).Ok?
    ensures var (pixels, outputs) := PixelContract(input).value;
            && 1 <= pixels <= 0x4000_0000 && 1 <= outputs <= MAX_COMFY_ASSETS
            && RequestedPixels(input) == Ok(pixels * outputs)
  {
    var parameters := Get(input, "parameters").value;
    MulBounds(Dimension(parameters, "width").value, Dimension(parameters, "height").value, 32_768, 32_768);
    MulBounds(PixelContract(input).value.0, PixelContract(input).value.1, 0x4000_0000, MAX_COMFY_ASSETS);
  }

  /** For a job reserved with `RequestedPixels`, every output count from one to
      the reserved number bills without overflow and within the reservation; any
      larger count is refused. */
  lemma {:induction false} MegapixelWithinReservation(input: Value, actual: nat)
    requires RequestedPixels(input).Ok? && 1 <= actual <= MAX_I64
    ensures var (pixels, reserved) := PixelContract(input).value;
            var billed := BilledPixels("megapixel", input, actual);
            if actual <= reserved
            then billed == Ok(Some(pixels * actual)) && 1 <= pixels * actual <= RequestedPixels(input).value
                 && (pixels * actual == RequestedPixels(input).value <==> actual == reserved)
            else billed == Ok(None)
  {
    ContractBounds(input);
    var (pixels, reserved) := PixelContract(input).value;
    if actual <= reserved {
      MulBounds(pixels, actual, pixels, reserved);
      assert pixels * reserved - pixels * actual == pixels * (reserved - actual);
      if actual < reserved { MulBounds(pixels, reserved - actual, pixels, reserved); }
    }
  }

  // ---------------------------------------------------------------- decisions

  /** How a poll ends. */
  datatype Decision =
    | Reschedule
    | Failure(billed: int)
    | Success(billed: int)
    | Error

  /** What the poller learns about the asset it would deliver. */
  datatype Delivery = Delivery(originAllowed: bool, referenceBuilt: bool, obtainable: Result<bool>)

  /** `terminal_provider_success`: an asset that cannot be had fails unbilled. */
  function Deliver(delivery: Delivery, billed: int): Decision
  {
    if !delivery.referenceBuilt || delivery.obtainable.Err? then Error
    else if delivery.obtainable.value then Success(billed)
    else Failure(0)
  }

  /** `json_i64`: a number, or a string that parses as one. */
  function JsonI64(v: Value, parse: string -> Option<int>): Option<int>
  {
    if AsI64(Some(v)).Some? then AsI64(Some(v))
    else if v.String? then parse(v.s)
    else None
  }

  function SeedanceUnits(body: Value, estimated: int, parse: string -> Option<int>): Option<int>
  {
    var duration := Get(body, "duration");
    if duration.None? then Some(estimated)
    else
      var units := JsonI64(duration.value, parse);
      if units.Some? && 1 <= units.value <= estimated then units else None
  }

  /** `poll_seedance` on a successful reply. */
  function PollSeedance(body: Value, estimated: int, delivery: Delivery, parse: string -> Option<int>): Decision
  {
    var status := GetStr(body, "status");
    if status.None? || status.value in {"queued", "running"} then Reschedule
    else if status.value in {"failed", "cancelled"} then Failure(0)
    else if status.value != "succeeded" then Error
    else
      var units := SeedanceUnits(body, estimated, parse);
      if units.None? then Failure(estimated)
      else if AsStr(Then(Get(body, "content"), "video_url")).None? then Failure(0)
      else if !delivery.originAllowed then Failure(0)
      else Deliver(delivery, units.value)
  }

  /** `poll_siliconflow_video` on a successful reply. */
  function PollSiliconFlow(body: Value, delivery: Delivery): Decision
  {
    var status := GetStr(body, "status");
    if status.None? then Error
    else if status.value in {"InQueue", "InProgress"} then Reschedule
    else if status.value == "Failed" then Failure(0)
    else if status.value != "Succeed" then Error
    else
      var videos := AsArray(Then(Child(body, "results"), "videos"));
      if videos.None? || |videos.value| > MAX_SILICONFLOW_VIDEO_ASSETS || videos.value == [] then Failure(0)
      else if GetStr(videos.value[0], "url").None? then Failure(0)
      else if !delivery.originAllowed then Failure(0)
      else Deliver(delivery, 1)
  }

  /** `poll_comfy` once the assets of a finished entry are counted. An asset of a
      foreign origin is an error here, not a failure. */
  function SettleComfy(unit: string, input: Value, assets: nat, estimated: int, delivery: Delivery): Decision
  {
    if assets == 0 || assets > MAX_COMFY_ASSETS then Failure(0)
    else
      var units := BilledPixels(unit, input, assets);
      if units.Err? then Error
      else if units.value.Some? && 0 < units.value.value <= estimated then
        if delivery.originAllowed then Deliver(delivery, units.value.value) else Error
      else Failure(estimated)
  }

  /** What ComfyUI answered: the cloud service is asked for a status first. */
  datatype ComfyReply = ComfyReply(cloud: bool, status: Value, history: Value, task: string)

  /** The entry of the task in the history; the cloud service may answer with it alone. */
  function ComfyEntry(reply: ComfyReply): Option<Value>
  {
    if Get(reply.history, reply.task).Some? then Get(reply.history, reply.task)
    else if reply.cloud then Some(reply.history)
    else None
  }

  /** `poll_comfy` on successful replies. */
  function PollComfy(reply: ComfyReply, unit: string, input: Value, estimated: int, delivery: Delivery): Decision
  {
    var status := GetStr(reply.status, "status");
    if reply.cloud && (status.None? || status.value in {"pending", "in_progress"}) then Reschedule
    else if reply.cloud && status.value in {"failed", "cancelled"} then Failure(0)
    else if reply.cloud && status.value != "completed" then Error
    else
      var entry := ComfyEntry(reply);
      if entry.None? then Reschedule
      else if AsStr(Then(Child(entry.value, "status"), "status_str")) == Some("error") then Failure(0)
      else SettleComfy(unit, input, |WorkflowTree.AllAssets(entry.value)|, estimated, delivery)
  }

  /** Within the reservation, and a success is never free. */
  predicate Within(d: Decision, estimated: int)
  {
    match d
    case Failure(billed) => 0 <= billed <= estimated
    case Success(billed) => 1 <= billed <= estimated
    case _ => true
  }

  /** How an attempt can end a job. Abandoned are the endings that bill nothing:
      retries exhausted, the job too old, its submission outcome unknown, or its
      cancellation confirmed. */
  datatype Ending =
    | Abandoned
    | Staged(jobId: Staging.Uuid, driver: string, manifest: Staging.Manifest, sizesAgree: bool)
    | Seedance(body: Value, delivery: Delivery)
    | SiliconFlow(body: Value, delivery: Delivery)
    | Comfy(reply: ComfyReply, unit: string, input: Value, delivery: Delivery)

  /** What the ending settles. Staged assets are delivered for the units their manifest
      names, unless the manifest or an object of it is not what was staged. */
  function Settle(e: Ending, estimated: int, parse: string -> Option<int>): Decision
  {
    match e
    case Abandoned => Failure(0)
    case Staged(jobId, driver, manifest, sizesAgree) =>
      if Staging.ManifestWellFormed(jobId, driver, estimated, manifest) && sizesAgree
      then Success(manifest.billedUnits) else Failure(0)
    case Seedance(body, delivery) => PollSeedance(body, estimated, delivery, parse)
    case SiliconFlow(body, delivery) => PollSiliconFlow(body, delivery)
    case Comfy(reply, unit, input, delivery) => PollComfy(reply, unit, input, estimated, delivery)
  }

  /** The worker reserved at least one unit: no ending bills outside of it. */
  lemma {:induction false} BilledWithinReservation(e: Ending, estimated: int, parse: string -> Option<int>)
    requires estimated >= 1
    ensures Within(Settle(e, estimated, parse), estimated)
  {
  }

  /** A megapixel job is charged the whole reservation for too many outputs and, when
      its assets can be had, its exact pixels otherwise; it never fails on arithmetic. */
  lemma {:induction false} ComfyMegapixelDecision(input: Value, assets: nat, delivery: Delivery)
    requires RequestedPixels(input).Ok? && 1 <= assets <= MAX_COMFY_ASSETS
    ensures var (pixels, reserved) := PixelContract(input).value;
            SettleComfy("megapixel", input, assets, RequestedPixels(input).value, delivery)
            == if assets > reserved then Failure(RequestedPixels(input).value)
               else if !delivery.originAllowed then Error
               else Deliver(delivery, pixels * assets)
  {
    MegapixelWithinReservation(input, assets);
  }
}
