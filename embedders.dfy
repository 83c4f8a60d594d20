/**
 * Choosing an embedder and the devices it runs on. The CUDA queries become parameters:
 * whether CUDA is available, and how many CUDA devices there are. The embedder classes
 * themselves are external; an embedder is represented by the arguments it is built with.
 */
module Embedders {
  import opened Common
  import opened Text

  /** What the CUDA runtime reports: `cuda.is_available()` and `cuda.device_count()`. */
  datatype Cuda = Cuda(available: bool, deviceCount: nat)

  datatype EmbedderName = SBERT | HUGGINGFACE | HUGGINGFACE_ENSEMBLE

  /** A model name argument: a single string, or a list of strings. */
  datatype ModelName = Single(name: string) | Many(names: seq<string>)

  datatype Embedder =
    | SbertEmbedder(modelName: string, device: string, batchSize: int)
    | HuggingfaceEmbedder(path: string, device: string, batchSize: int)
    | EnsembleEmbedder(embedders: seq<Embedder>)

  /** `EmbedderName.lookup(name)`, taken as a match on the members' values. */
  function LookupEmbedderName(name: string): Option<EmbedderName>
  {
    if name == "SBERT" then Some(SBERT)
    else if name == "HUGGINGFACE" then Some(HUGGINGFACE)
    else if name == "HUGGINGFACE_ENSEMBLE" then Some(HUGGINGFACE_ENSEMBLE)
    else None
  }

  /**
   * `auto_device(device)`: "auto" is always resolved; the result is the device asked for,
   * the default CUDA device, or the CPU, and it is the CPU exactly when CUDA is unavailable
   * or the CPU was asked for. With CUDA, an explicit device is honoured.
   */
  function AutoDevice(device: string, cudaAvailable: bool): (r: string)
    ensures r != "auto"
    ensures r == device || r == "cuda" || r == "cpu"
    ensures r == "cpu" <==> !cudaAvailable || device == "cpu"
    ensures cudaAvailable && device != "auto" ==> r == device
  {
    if cudaAvailable then (if device == "auto" then "cuda" else device) else "cpu"
  }

  /** The name of CUDA device `k`. */
  function CudaDevice(k: nat): string
  {
    "cuda:" + NatToDecimal(k)
  }

  /** The device a CUDA device name refers to, when it is one. */
  function CudaIndex(device: string): Option<nat>
  {
    if |device| > 5 && device[..5] == "cuda:" && IsDigits(device[5..]) then Some(ParseDecimal(device[5..])) else None
  }

  /** The name of CUDA device `k` refers to device `k`. */
  lemma CudaDeviceIndex(k: nat)
    ensures CudaIndex(CudaDevice(k)) == Some(k)
  {
    var d := CudaDevice(k);
    assert d[5..] == NatToDecimal(k);
    assert d[..5] == "cuda:";
    ParseNatToDecimal(k);
  }

  /**
   * `auto_device_list(device, num_models)`: one device per model, none of them "auto".
   * Each is the device asked for, the CPU, or a numbered CUDA device; every CUDA device
   * the list picks itself (rather than one the caller named) exists.
   */
  function AutoDeviceList(device: string, numModels: int, deviceCount: nat): (r: seq<string>)
    ensures |r| == Max0(numModels)
    ensures forall i :: 0 <= i < |r| ==> r[i] != "auto"
    ensures forall i :: 0 <= i < |r| ==> r[i] == device || r[i] == "cpu" || CudaIndex(r[i]).Some?
    ensures forall i :: 0 <= i < |r| && r[i] != device && CudaIndex(r[i]).Some? ==> CudaIndex(r[i]).value < deviceCount
  {
    assert forall k: nat :: CudaIndex(CudaDevice(k)) == Some(k) by {
      forall k: nat
        ensures CudaIndex(CudaDevice(k)) == Some(k)
      {
        CudaDeviceIndex(k);
      }
    }
    if deviceCount > 0 then
      if device == "auto" then seq(Max0(numModels), i => CudaDevice(i % deviceCount))
      else seq(Max0(numModels), _ => device)
    else seq(Max0(numModels), _ => "cpu")
  }

  /** With "auto" and CUDA devices present, model `i` runs on device `i mod deviceCount`, which exists. */
  lemma AutoDeviceListInRange(numModels: int, deviceCount: nat, i: nat)
    requires deviceCount > 0 && i < Max0(numModels)
    ensures CudaIndex(AutoDeviceList("auto", numModels, deviceCount)[i]) == Some(i % deviceCount)
    ensures i % deviceCount < deviceCount
  {
    CudaDeviceIndex(i % deviceCount);
  }

  /** The first `deviceCount` models get pairwise different devices, and the assignment repeats after that. */
  lemma AutoDeviceListRoundRobin(numModels: int, deviceCount: nat, i: nat, j: nat)
    requires deviceCount > 0 && i < Max0(numModels) && j < Max0(numModels)
    ensures var r := AutoDeviceList("auto", numModels, deviceCount);
      r[i] == r[j] <==> i % deviceCount == j % deviceCount
  {
    var r := AutoDeviceList("auto", numModels, deviceCount);
    if r[i] == r[j] {
      AutoDeviceListInRange(numModels, deviceCount, i);
      AutoDeviceListInRange(numModels, deviceCount, j);
    }
  }

  /** Without CUDA devices every model gets the CPU; with devices and an explicit device, every model gets that device. */
  lemma AutoDeviceListFixed(device: string, numModels: int, deviceCount: nat, i: nat)
    requires i < Max0(numModels)
    requires deviceCount == 0 || device != "auto"
    ensures AutoDeviceList(device, numModels, deviceCount)[i] == if deviceCount == 0 then "cpu" else device
  {
  }

  /** Without CUDA devices, or with an explicit device, every model gets what `auto_device` gives one model. */
  lemma AutoDeviceListAgreesWithAutoDevice(device: string, numModels: int, cuda: Cuda, i: nat)
    requires i < Max0(numModels)
    requires cuda.available <==> cuda.deviceCount > 0
    requires device != "auto" || cuda.deviceCount == 0
    ensures AutoDeviceList(device, numModels, cuda.deviceCount)[i] == AutoDevice(device, cuda.available)
  {
  }

  /** `zip(xs, ys)` paired up by `f`: as many items as the shorter list. */
  function Zip<X, Y, Z>(xs: seq<X>, ys: seq<Y>, f: (X, Y) -> Z): (r: seq<Z>)
    ensures |r| == if |xs| <= |ys| then |xs| else |ys|
    ensures forall i :: 0 <= i < |r| ==> r[i] == f(xs[i], ys[i])
  {
    if xs == [] || ys == [] then [] else [f(xs[0], ys[0])] + Zip(xs[1..], ys[1..], f)
  }

  /** Whether the model name argument has the shape the named embedder needs. */
  predicate ModelNameFits(name: EmbedderName, modelName: ModelName)
  {
    if name == HUGGINGFACE_ENSEMBLE then modelName.Many? else modelName.Single?
  }

  /**
   * `embedder(name, model_name=..., device=..., batch_size=...)`: an unknown name is a
   * value error, a model name of the wrong shape a type error; an ensemble pairs model
   * name `i` with entry `i` of the device list.
   */
  function MakeEmbedder(name: string, modelName: ModelName, device: string, batchSize: int, cuda: Cuda): (r: Result<Embedder, Error>)
    ensures LookupEmbedderName(name).None? ==> r == Failure(ValueError("Unknown embedder name: " + name))
    ensures r.Failure? && r.error.TypeError? <==>
      LookupEmbedderName(name).Some? && !ModelNameFits(LookupEmbedderName(name).value, modelName)
    ensures r.Success? <==> LookupEmbedderName(name).Some? && ModelNameFits(LookupEmbedderName(name).value, modelName)
    ensures r.Success? && LookupEmbedderName(name) == Some(SBERT) ==>
      r.value == SbertEmbedder(modelName.name, AutoDevice(device, cuda.available), batchSize)
    ensures r.Success? && LookupEmbedderName(name) == Some(HUGGINGFACE) ==>
      r.value == HuggingfaceEmbedder(modelName.name, AutoDevice(device, cuda.available), batchSize)
    ensures r.Success? && LookupEmbedderName(name) == Some(HUGGINGFACE_ENSEMBLE) ==>
      && r.value.EnsembleEmbedder?
      && |r.value.embedders| == |modelName.names|
      && forall i :: 0 <= i < |modelName.names| ==>
           r.value.embedders[i] == HuggingfaceEmbedder(modelName.names[i], AutoDeviceList(device, |modelName.names|, cuda.deviceCount)[i], batchSize)
  {
    match LookupEmbedderName(name)
    case Some(SBERT) =>
      if !modelName.Single? then
        Failure(TypeError("SbertEmbedder requires a single model name."))
      else
        Success(SbertEmbedder(modelName.name, AutoDevice(device, cuda.available), batchSize))
    case Some(HUGGINGFACE) =>
      if !modelName.Single? then
        Failure(TypeError("HuggingfaceEmbedder requires a single model name."))
      else
        Success(HuggingfaceEmbedder(modelName.name, AutoDevice(device, cuda.available), batchSize))
    case Some(HUGGINGFACE_ENSEMBLE) =>
      if !modelName.Many? then
        Failure(TypeError("HuggingfaceEnsembleEmbedder requires a list of model names."))
      else
        var deviceList := AutoDeviceList(device, |modelName.names|, cuda.deviceCount);
        Success(EnsembleEmbedder(Zip(modelName.names, deviceList, (model, dev) => HuggingfaceEmbedder(model, dev, batchSize))))
    case None =>
      Failure(ValueError("Unknown embedder name: " + name))
  }

  /** With "auto" and CUDA devices present, ensemble member `i` runs on CUDA device `i mod deviceCount`. */
  lemma EnsembleDevicesRoundRobin(names: seq<string>, batchSize: int, cuda: Cuda, i: nat)
    requires cuda.deviceCount > 0 && i < |names|
    ensures var r := MakeEmbedder("HUGGINGFACE_ENSEMBLE", Many(names), "auto", batchSize, cuda);
      && r.Success?
      && r.value.embedders[i].path == names[i]
      && CudaIndex(r.value.embedders[i].device) == Some(i % cuda.deviceCount)
  {
    AutoDeviceListInRange(|names|, cuda.deviceCount, i);
  }
}
