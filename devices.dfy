// Device selection for the legged-robot policies: which ONNX Runtime
// execution providers to ask for, which torch device to use and which GPU
// backend is present. The torch and onnxruntime queries are parameters.

module Devices {
  import opened Core
  import opened Strings

  const MIGraphXProvider: string := "MIGraphXExecutionProvider"
  const CudaProvider: string := "CUDAExecutionProvider"
  const CpuProvider: string := "CPUExecutionProvider"

  /** `(device or "").lower() in ("gpu", "cuda")`. */
  predicate WantsGpu(device: Option<string>)
  {
    var d := Lower(device.GetOr(""));
    d == "gpu" || d == "cuda"
  }

  /** The providers for an inference session. `query` is onnxruntime's
      report of the available providers, `Raised` when importing or asking
      it fails. */
  method OnnxProviders(device: Option<string>, query: Outcome<seq<string>>) returns (providers: seq<string>)
    ensures |providers| > 0 && providers[|providers| - 1] == CpuProvider
    ensures CpuProvider !in providers[..|providers| - 1]
    ensures !WantsGpu(device) ==> providers == [CpuProvider]
    ensures MIGraphXProvider in providers <==>
            WantsGpu(device) && query.Returned? && MIGraphXProvider in query.value
    ensures CudaProvider in providers <==>
            WantsGpu(device) && query.Returned? && CudaProvider in query.value
    ensures forall i, j :: (0 <= i < |providers| && 0 <= j < |providers| &&
                            providers[i] == MIGraphXProvider && providers[j] == CudaProvider) ==> i < j
    ensures forall i, j :: 0 <= i < j < |providers| ==> providers[i] != providers[j]
  {
    if !WantsGpu(device) {
      return [CpuProvider];
    }
    var available: seq<string>;
    if query.Returned? {
      available := query.value;
    } else {
      available := [];
    }
    providers := [];
    if MIGraphXProvider in available {
      providers := providers + [MIGraphXProvider];
    }
    if CudaProvider in available {
      providers := providers + [CudaProvider];
    }
    providers := providers + [CpuProvider];
  }

  /** What torch reports: whether it imported, `torch.cuda.is_available()`
      and `torch.version.hip` ("" when absent). */
  datatype Torch = NoTorch | Torch(cudaAvailable: bool, hip: string)

  datatype TorchDevice = CudaDevice | CpuDevice

  /** `is_gpu_available()`. */
  predicate GpuAvailable(t: Torch)
  {
    t.Torch? && t.cudaAvailable
  }

  /** `get_torch_device(prefer_gpu)`: `None` without torch. */
  function TorchDeviceFor(t: Torch, preferGpu: bool): (r: Option<TorchDevice>)
    ensures r.None? <==> t.NoTorch?
    ensures r == Some(CudaDevice) <==> preferGpu && GpuAvailable(t)
  {
    if t.NoTorch? then None
    else if preferGpu && t.cudaAvailable then Some(CudaDevice)
    else Some(CpuDevice)
  }

  /** `get_gpu_backend_name()`: "rocm" for a HIP build, "cuda" otherwise,
      "none" without a usable GPU. */
  function GpuBackendName(t: Torch): (r: string)
    ensures r == "none" <==> !GpuAvailable(t)
    ensures r == "rocm" <==> GpuAvailable(t) && t.hip != ""
    ensures r == "cuda" <==> GpuAvailable(t) && t.hip == ""
  {
    if !GpuAvailable(t) then "none"
    else if t.hip != "" then "rocm"
    else "cuda"
  }
}
