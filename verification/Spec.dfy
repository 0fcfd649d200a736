/** What a workflow file asks for: src/workflow/spec.rs. */
module Spec {

  type u32 = n: nat | n < 0x1_0000_0000
  type u64 = n: nat | n < 0x1_0000_0000_0000_0000

  datatype JobId = JobId(name: string)

  /** `gpu == 0` with `vramMb > 0` leaves the card count to the scheduler. */
  datatype ResourceSpec = ResourceSpec(cpu: u32, memoryMb: u64, gpu: u32, vramMb: u64)

  datatype JobSpec = JobSpec(id: JobId, dependsOn: seq<JobId>, resources: ResourceSpec)

  datatype WorkflowSpec = WorkflowSpec(jobs: seq<JobSpec>)

  const GPU_COUNTS: seq<u32> := [1, 2, 4, 8]

  /** The requests tried for a job, fewest cards first. */
  function GpuOptions(spec: ResourceSpec): seq<ResourceSpec> {
    if spec.gpu > 0 || spec.vramMb == 0 then
      [spec]
    else
      seq(|GPU_COUNTS|, i requires 0 <= i < |GPU_COUNTS| => spec.(gpu := GPU_COUNTS[i]))
  }

  /** How much of a job's VRAM goes on one card when it is split evenly, in whole megabytes. */
  function VramPerGpu(spec: ResourceSpec): nat {
    if spec.gpu == 0 then 0 else (spec.vramMb + spec.gpu - 1) / spec.gpu
  }

  /** The smallest share that covers the request. */
  lemma SharesCover(spec: ResourceSpec)
    requires spec.gpu > 0
    ensures spec.gpu * VramPerGpu(spec) >= spec.vramMb
    ensures VramPerGpu(spec) > 0 ==> spec.gpu * (VramPerGpu(spec) - 1) < spec.vramMb
  {
  }

  /** The same VRAM on more cards is no more on each. */
  lemma ShareFalls(few: ResourceSpec, many: ResourceSpec)
    requires 0 < few.gpu <= many.gpu && few.vramMb == many.vramMb
    ensures VramPerGpu(many) <= VramPerGpu(few)
  {
    SharesCover(few);
    SharesCover(many);
    if VramPerGpu(few) < VramPerGpu(many) {
      ProductsRise(few.gpu, many.gpu, VramPerGpu(few), VramPerGpu(many) - 1);
    }
  }

  lemma ProductsRise(a: nat, b: nat, m: nat, n: nat)
    requires a <= b && m <= n
    ensures a * m <= b * n
  {
    assert a * m <= b * m <= b * n;
  }

  /** A job that asks for VRAM and names no card count is tried on 1, 2, 4 and 8 cards, any other as it is. */
  lemma OptionsAre(spec: ResourceSpec)
    ensures GpuOptions(spec) == if spec.gpu == 0 && spec.vramMb > 0
                                then [spec.(gpu := 1), spec.(gpu := 2), spec.(gpu := 4), spec.(gpu := 8)] else [spec]
  {
    assert GPU_COUNTS == [1, 2, 4, 8];
  }

  /** Every option holds all of the job's VRAM, and each asks for more cards than the one before and no more of each. */
  lemma OptionsTrade(spec: ResourceSpec)
    ensures forall option | option in GpuOptions(spec) ::
              && option.gpu * VramPerGpu(option) >= spec.vramMb
              && option.cpu == spec.cpu && option.memoryMb == spec.memoryMb && (spec.gpu > 0 ==> option.gpu == spec.gpu)
    ensures forall i, j | 0 <= i < j < |GpuOptions(spec)| ::
              && GpuOptions(spec)[i].gpu < GpuOptions(spec)[j].gpu
              && VramPerGpu(GpuOptions(spec)[j]) <= VramPerGpu(GpuOptions(spec)[i])
  {
    var options := GpuOptions(spec);
    forall option | option in options ensures option.gpu * VramPerGpu(option) >= spec.vramMb {
      if option.gpu > 0 {
        SharesCover(option);
      }
    }
    forall i, j | 0 <= i < j < |options| ensures VramPerGpu(options[j]) <= VramPerGpu(options[i]) {
      ShareFalls(options[i], options[j]);
    }
  }
}
