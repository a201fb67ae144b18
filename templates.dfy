/**
 * The workload templates of the command-line tool: the template table,
 * parameter validation, default filling and the Kubernetes documents each
 * template produces.
 *
 * Documents are YAML values; their text form is not modelled, so the
 * dump-then-load the extended templates do is the identity here.
 */
module Templates {
  import opened Wrappers
  import opened PyStr
  import opened Yaml
  import opened Dicts

  datatype ParamSpec = ParamSpec(name: string, required: bool, default: Option<string>)

  datatype Template = Template(name: string, description: string, params: seq<ParamSpec>)

  const QuickstartParams: seq<ParamSpec> := [
    ParamSpec("model_name", true, None),
    ParamSpec("model_path", false, Some("deepseek-ai/DeepSeek-R1-Distill-Llama-8B")),
    ParamSpec("replicas", false, Some("1")),
    ParamSpec("gpu_count", false, Some("1")),
    ParamSpec("max_model_len", false, Some("12288"))]

  const AutoscalingParams: seq<ParamSpec> := [
    ParamSpec("model_name", true, None),
    ParamSpec("model_path", true, None),
    ParamSpec("min_replicas", false, Some("1")),
    ParamSpec("max_replicas", false, Some("10")),
    ParamSpec("target_cpu", false, Some("70"))]

  const KvcacheParams: seq<ParamSpec> := [
    ParamSpec("model_name", true, None),
    ParamSpec("model_path", true, None),
    ParamSpec("cache_type", false, Some("l1cache")),
    ParamSpec("cache_size", false, Some("10Gi"))]

  /** The built-in template table. */
  const SourceTemplates: seq<Template> := [
    Template("quickstart", "Quick start template for LLM deployment", QuickstartParams),
    Template("autoscaling", "Template with autoscaling enabled", AutoscalingParams),
    Template("kvcache", "Template with KV cache disaggregation", KvcacheParams)
  ]

  /** The parameters the quickstart documents read, with the quickstart defaults. */
  const BaseDefaults: seq<ParamSpec> := [
    ParamSpec("replicas", false, Some("1")),
    ParamSpec("gpu_count", false, Some("1")),
    ParamSpec("max_model_len", false, Some("12288"))]

  /**
   * The table with the extended templates also declaring the quickstart
   * parameters they build on (see the finding in the README).
   */
  const CorrectedTemplates: seq<Template> := [
    Template("quickstart", "Quick start template for LLM deployment", QuickstartParams),
    Template("autoscaling", "Template with autoscaling enabled", AutoscalingParams + BaseDefaults),
    Template("kvcache", "Template with KV cache disaggregation", KvcacheParams + BaseDefaults)
  ]

  function ParamNames(specs: seq<ParamSpec>): (names: seq<string>)
    ensures |names| == |specs| && forall i :: 0 <= i < |specs| ==> names[i] == specs[i].name
  {
    if specs == [] then [] else ParamNames(specs[..|specs| - 1]) + [specs[|specs| - 1].name]
  }

  /** `templates.get(name)`. */
  function FindTemplate(templates: seq<Template>, name: string): (r: Option<Template>)
    ensures r.None? <==> forall i :: 0 <= i < |templates| ==> templates[i].name != name
    ensures r.Some? ==> r.value.name == name && r.value in templates
  {
    if templates == [] then None
    else if templates[0].name == name then Some(templates[0])
    else FindTemplate(templates[1..], name)
  }

  /** The parameters validated as positive integers. */
  const IntegerParams: seq<string> := ["replicas", "min_replicas", "max_replicas", "gpu_count"]

  /** Missing-required errors, in the template's parameter order. */
  function MissingRequired(specs: seq<ParamSpec>, values: map<string, string>): seq<string>
  {
    if specs == [] then []
    else
      var p := specs[|specs| - 1];
      MissingRequired(specs[..|specs| - 1], values)
        + (if p.required && p.name !in values then ["Required parameter missing: " + p.name] else [])
  }

  /** The errors for one supplied parameter. */
  function ValueErrors(t: Template, k: string, v: string): seq<string>
  {
    if k !in ParamNames(t.params) then ["Unknown parameter: " + k]
    else if k in IntegerParams then
      match ParseInt(v)
      case None => ["Parameter " + k + " must be integer"]
      case Some(n) => if n < 1 then ["Parameter " + k + " must be positive integer"] else []
    else []
  }

  /** The errors for the supplied parameters, in insertion order. */
  function SuppliedErrors(t: Template, keys: seq<string>, values: map<string, string>): seq<string>
    requires forall i :: 0 <= i < |keys| ==> keys[i] in values
  {
    if keys == [] then []
    else
      var k := keys[|keys| - 1];
      SuppliedErrors(t, keys[..|keys| - 1], values) + ValueErrors(t, k, values[k])
  }

  /** What `validate_parameters` returns. */
  function ValidationErrors(templates: seq<Template>, name: string, d: DictState): seq<string>
    requires WellFormed(d)
  {
    match FindTemplate(templates, name)
    case None => ["Unknown template: " + name]
    case Some(t) => MissingRequired(t.params, d.values) + SuppliedErrors(t, d.keys, d.values)
  }

  /** A supplied value is acceptable for parameter `k`. */
  predicate ValueOk(specs: seq<ParamSpec>, k: string, v: string)
  {
    && k in ParamNames(specs)
    && (k in IntegerParams ==> ParseInt(v).Some? && ParseInt(v).value >= 1)
  }

  /** The acceptance condition stated directly. */
  ghost predicate Accepted(templates: seq<Template>, name: string, d: DictState)
  {
    && FindTemplate(templates, name).Some?
    && var t := FindTemplate(templates, name).value;
    && (forall i :: 0 <= i < |t.params| && t.params[i].required ==> t.params[i].name in d.values)
    && (forall k :: k in d.values ==> ValueOk(t.params, k, d.values[k]))
  }

  lemma {:induction false} MissingRequiredEmpty(specs: seq<ParamSpec>, values: map<string, string>)
    ensures MissingRequired(specs, values) == []
        <==> forall i :: 0 <= i < |specs| && specs[i].required ==> specs[i].name in values
  {
    if specs != [] {
      var init := specs[..|specs| - 1];
      MissingRequiredEmpty(init, values);
      assert forall i :: 0 <= i < |init| ==> init[i] == specs[i];
    }
  }

  lemma {:induction false} SuppliedErrorsEmpty(t: Template, keys: seq<string>, values: map<string, string>)
    requires forall i :: 0 <= i < |keys| ==> keys[i] in values
    ensures SuppliedErrors(t, keys, values) == []
        <==> forall i :: 0 <= i < |keys| ==> ValueOk(t.params, keys[i], values[keys[i]])
  {
    if keys != [] {
      var init := keys[..|keys| - 1];
      SuppliedErrorsEmpty(t, init, values);
      assert forall i :: 0 <= i < |init| ==> init[i] == keys[i];
    }
  }

  /** `validate_parameters` returns no error exactly when the parameters are acceptable. */
  lemma ValidationAcceptsIff(templates: seq<Template>, name: string, d: DictState)
    requires WellFormed(d)
    ensures ValidationErrors(templates, name, d) == [] <==> Accepted(templates, name, d)
  {
    match FindTemplate(templates, name)
    case None =>
    case Some(t) =>
      MissingRequiredEmpty(t.params, d.values);
      SuppliedErrorsEmpty(t, d.keys, d.values);
      if SuppliedErrors(t, d.keys, d.values) == [] {
        forall k | k in d.values
          ensures ValueOk(t.params, k, d.values[k])
        {
          var i :| 0 <= i < |d.keys| && d.keys[i] == k;
        }
      }
  }

  /** An unknown template name is the only error reported. */
  lemma UnknownTemplateOnlyError(templates: seq<Template>, name: string, d: DictState)
    requires WellFormed(d)
    requires forall i :: 0 <= i < |templates| ==> templates[i].name != name
    ensures ValidationErrors(templates, name, d) == ["Unknown template: " + name]
  {
  }

  /** The first loop of `validate_parameters`: missing required parameters. */
  method CollectMissing(specs: seq<ParamSpec>, values: map<string, string>) returns (errors: seq<string>)
    ensures errors == MissingRequired(specs, values)
  {
    errors := [];
    var i := 0;
    while i < |specs|
      invariant 0 <= i <= |specs|
      invariant errors == MissingRequired(specs[..i], values)
    {
      assert specs[..i + 1][..i] == specs[..i];
      if specs[i].required && specs[i].name !in values {
        errors := errors + ["Required parameter missing: " + specs[i].name];
      }
      i := i + 1;
    }
    assert specs[..i] == specs;
  }

  /** The second loop of `validate_parameters`: one check per supplied parameter, in insertion order. */
  method CollectValueErrors(t: Template, keys: seq<string>, values: map<string, string>) returns (errors: seq<string>)
    requires forall i :: 0 <= i < |keys| ==> keys[i] in values
    ensures errors == SuppliedErrors(t, keys, values)
  {
    errors := [];
    var j := 0;
    while j < |keys|
      invariant 0 <= j <= |keys|
      invariant errors == SuppliedErrors(t, keys[..j], values)
    {
      assert keys[..j + 1][..j] == keys[..j];
      var k := keys[j];
      var v := values[k];
      if k !in ParamNames(t.params) {
        errors := errors + ["Unknown parameter: " + k];
      } else if k in IntegerParams {
        match ParseInt(v)
        case None =>
          errors := errors + ["Parameter " + k + " must be integer"];
        case Some(n) =>
          if n < 1 {
            errors := errors + ["Parameter " + k + " must be positive integer"];
          }
      }
      j := j + 1;
    }
    assert keys[..j] == keys;
  }

  /** `TemplateManager.validate_parameters`. */
  method ValidateParameters(templates: seq<Template>, name: string, parameters: StrDict) returns (errors: seq<string>)
    requires parameters.Valid()
    ensures errors == ValidationErrors(templates, name, parameters.State())
  {
    var found := FindTemplate(templates, name);
    if found.None? {
      return ["Unknown template: " + name];
    }
    var missing := CollectMissing(found.value.params, parameters.values);
    var invalid := CollectValueErrors(found.value, parameters.keys, parameters.values);
    errors := missing + invalid;
  }

  /** Writes a parameter's default when the parameter is absent and has one. */
  function Fill(d: DictState, p: ParamSpec): (r: DictState)
    requires WellFormed(d)
    ensures WellFormed(r)
  {
    if p.name !in d.values && p.default.Some? then Assign(d, p.name, p.default.value) else d
  }

  /** The default-filling loop of `generate_manifest`, over the template's parameters in order. */
  function WithDefaults(specs: seq<ParamSpec>, d: DictState): (r: DictState)
    requires WellFormed(d)
    ensures WellFormed(r)
  {
    if specs == [] then d else Fill(WithDefaults(specs[..|specs| - 1], d), specs[|specs| - 1])
  }

  /**
   * Defaults never overwrite a supplied parameter; an absent parameter
   * receives the default of the first declaration that has one; nothing
   * else is added.
   */
  lemma {:induction false} WithDefaultsValues(specs: seq<ParamSpec>, d: DictState, k: string)
    requires WellFormed(d)
    ensures k in d.values ==> k in WithDefaults(specs, d).values && WithDefaults(specs, d).values[k] == d.values[k]
    ensures k !in d.values ==> match DefaultOf(specs, k)
      case None => k !in WithDefaults(specs, d).values
      case Some(v) => k in WithDefaults(specs, d).values && WithDefaults(specs, d).values[k] == v
  {
    if specs != [] {
      var init := specs[..|specs| - 1];
      WithDefaultsValues(init, d, k);
      DefaultOfSnoc(init, specs[|specs| - 1], k);
      assert init + [specs[|specs| - 1]] == specs;
    }
  }

  /** The default of the first declaration of `k` that has one. */
  function DefaultOf(specs: seq<ParamSpec>, k: string): Option<string>
  {
    if specs == [] then None
    else if specs[0].name == k && specs[0].default.Some? then specs[0].default
    else DefaultOf(specs[1..], k)
  }

  lemma {:induction false} DefaultOfSnoc(specs: seq<ParamSpec>, p: ParamSpec, k: string)
    ensures DefaultOf(specs + [p], k)
         == if DefaultOf(specs, k).Some? then DefaultOf(specs, k)
            else if p.name == k && p.default.Some? then p.default
            else None
  {
    if specs != [] {
      assert (specs + [p])[1..] == specs[1..] + [p];
      DefaultOfSnoc(specs[1..], p, k);
    }
  }

  /** Why generation fails: the exceptions `generate_manifest` and the builders raise. */
  datatype GenError =
    | ValueError(message: string)   // unknown template, missing required parameter, unsupported template
    | KeyError(key: string)         // a parameter the documents read is absent
    | IntError(text: string)        // `int()` of a value that is not an integer

  function Param(values: map<string, string>, key: string): (r: Result<string, GenError>)
    ensures r.Ok? <==> key in values
    ensures r.Ok? ==> r.value == values[key]
    ensures r.Err? ==> r.error == KeyError(key)
  {
    if key in values then Ok(values[key]) else Err(KeyError(key))
  }

  function IntParam(values: map<string, string>, key: string): (r: Result<int, GenError>)
    ensures r.Ok? <==> key in values && ParseInt(values[key]).Some?
    ensures r.Ok? ==> r.value == ParseInt(values[key]).value
  {
    var text :- Param(values, key);
    match ParseInt(text)
    case None => Err(IntError(text))
    case Some(n) => Ok(n)
  }

  /** The version part shared by the AIBrix API groups, `<group>.aibrix.ai/v1alpha1`. */
  const AibrixApiSuffix: string := ".aibrix.ai/v1alpha1"

  /** Kind, name and namespace of a generated document. */
  predicate Names(doc: Value, apiVersion: string, kind: string, name: string)
  {
    && Lookup(doc, ["apiVersion"]) == Some(Str(apiVersion))
    && Lookup(doc, ["kind"]) == Some(Str(kind))
    && Lookup(doc, ["metadata", "name"]) == Some(Str(name))
    && Lookup(doc, ["metadata", "namespace"]) == Some(Str("default"))
  }

  function Labels(modelName: string): Value
  {
    Dict(map["model.aibrix.ai/name" := Str(modelName)])
  }

  function HealthProbe(failureThreshold: int): Value
  {
    Dict(map[
      "httpGet" := Dict(map["path" := Str("/health"), "port" := Int(8000), "scheme" := Str("HTTP")]),
      "failureThreshold" := Int(failureThreshold),
      "periodSeconds" := Int(5),
      "successThreshold" := Int(1),
      "timeoutSeconds" := Int(1)])
  }

  function ServingContainer(modelName: string, modelPath: string, maxModelLen: string, gpuCount: string): Value
  {
    Dict(map[
      "command" := List([
        Str("python3"), Str("-m"), Str("vllm.entrypoints.openai.api_server"),
        Str("--host"), Str("0.0.0.0"),
        Str("--port"), Str("8000"),
        Str("--uvicorn-log-level"), Str("warning"),
        Str("--model"), Str(modelPath),
        Str("--served-model-name"), Str(modelName),
        Str("--max-model-len"), Str(maxModelLen)]),
      "image" := Str("vllm/vllm-openai:v0.7.1"),
      "imagePullPolicy" := Str("IfNotPresent"),
      "name" := Str("vllm-openai"),
      "ports" := List([Dict(map["containerPort" := Int(8000), "protocol" := Str("TCP")])]),
      "resources" := Dict(map[
        "limits" := Dict(map["nvidia.com/gpu" := Str(gpuCount)]),
        "requests" := Dict(map["nvidia.com/gpu" := Str(gpuCount)])]),
      "livenessProbe" := HealthProbe(3),
      "readinessProbe" := HealthProbe(5)])
  }

  function DeploymentDoc(modelName: string, replicas: int, modelPath: string, maxModelLen: string, gpuCount: string): (doc: Value)
    ensures Names(doc, "apps/v1", "Deployment", modelName)
    ensures Lookup(doc, ["spec", "replicas"]) == Some(Int(replicas))
  {
    Dict(map[
      "apiVersion" := Str("apps/v1"),
      "kind" := Str("Deployment"),
      "metadata" := Dict(map[
        "labels" := Dict(map["model.aibrix.ai/name" := Str(modelName), "model.aibrix.ai/port" := Str("8000")]),
        "name" := Str(modelName),
        "namespace" := Str("default")]),
      "spec" := Dict(map[
        "replicas" := Int(replicas),
        "selector" := Dict(map["matchLabels" := Labels(modelName)]),
        "template" := Dict(map[
          "metadata" := Dict(map["labels" := Labels(modelName)]),
          "spec" := Dict(map["containers" := List([ServingContainer(modelName, modelPath, maxModelLen, gpuCount)])])])])])
  }

  function ServiceDoc(modelName: string): (doc: Value)
    ensures Names(doc, "v1", "Service", modelName)
  {
    Dict(map[
      "apiVersion" := Str("v1"),
      "kind" := Str("Service"),
      "metadata" := Dict(map[
        "labels" := Dict(map["model.aibrix.ai/name" := Str(modelName), "prometheus-discovery" := Str("true")]),
        "annotations" := Dict(map["prometheus.io/scrape" := Str("true"), "prometheus.io/port" := Str("8080")]),
        "name" := Str(modelName),
        "namespace" := Str("default")]),
      "spec" := Dict(map[
        "ports" := List([Dict(map[
          "name" := Str("serve"), "port" := Int(8000), "protocol" := Str("TCP"), "targetPort" := Int(8000)])]),
        "selector" := Labels(modelName),
        "type" := Str("ClusterIP")])])
  }

  function AutoscalerDoc(modelName: string, minReplicas: int, maxReplicas: int, targetCpu: string): (doc: Value)
    ensures Names(doc, "autoscaling" + AibrixApiSuffix, "PodAutoscaler", modelName + "-autoscaler")
    ensures Lookup(doc, ["spec", "minReplicas"]) == Some(Int(minReplicas))
    ensures Lookup(doc, ["spec", "maxReplicas"]) == Some(Int(maxReplicas))
  {
    Dict(map[
      "apiVersion" := Str("autoscaling" + AibrixApiSuffix),
      "kind" := Str("PodAutoscaler"),
      "metadata" := Dict(map["name" := Str(modelName + "-autoscaler"), "namespace" := Str("default")]),
      "spec" := Dict(map[
        "scaleTargetRef" := Dict(map[
          "apiVersion" := Str("apps/v1"), "kind" := Str("Deployment"), "name" := Str(modelName)]),
        "minReplicas" := Int(minReplicas),
        "maxReplicas" := Int(maxReplicas),
        "targetMetric" := Str("CPU"),
        "targetValue" := Str(targetCpu),
        "scalingStrategy" := Str("HPA")])])
  }

  function KvcacheDoc(modelName: string, cacheType: string, cacheSize: string): (doc: Value)
    ensures Names(doc, "orchestration" + AibrixApiSuffix, "KVCache", modelName + "-kvcache")
    ensures Lookup(doc, ["spec", "cacheType"]) == Some(Str(cacheType))
    ensures Lookup(doc, ["spec", "cacheSize"]) == Some(Str(cacheSize))
  {
    Dict(map[
      "apiVersion" := Str("orchestration" + AibrixApiSuffix),
      "kind" := Str("KVCache"),
      "metadata" := Dict(map["name" := Str(modelName + "-kvcache"), "namespace" := Str("default")]),
      "spec" := Dict(map[
        "cacheType" := Str(cacheType),
        "cacheSize" := Str(cacheSize),
        "targetDeployment" := Str(modelName)])])
  }

  /**
   * `_generate_quickstart_manifest`: a Deployment and a Service, both named
   * after the model. Parameters are read in the order the document literal
   * evaluates them, so the first absent one is the one reported.
   */
  function QuickstartManifest(values: map<string, string>): (r: Result<seq<Value>, GenError>)
    ensures r.Ok? <==> && "model_name" in values && "replicas" in values && ParseInt(values["replicas"]).Some?
                       && "model_path" in values && "max_model_len" in values && "gpu_count" in values
    ensures "model_name" !in values ==> r == Err(KeyError("model_name"))
    ensures "model_name" in values && "replicas" !in values ==> r == Err(KeyError("replicas"))
    ensures ("model_name" in values && "replicas" in values && ParseInt(values["replicas"]).None?) ==>
      r == Err(IntError(values["replicas"]))
    ensures ("model_name" in values && "replicas" in values && ParseInt(values["replicas"]).Some?
             && "model_path" !in values) ==>
      r == Err(KeyError("model_path"))
    ensures ("model_name" in values && "replicas" in values && ParseInt(values["replicas"]).Some?
             && "model_path" in values && "max_model_len" !in values) ==>
      r == Err(KeyError("max_model_len"))
    ensures ("model_name" in values && "replicas" in values && ParseInt(values["replicas"]).Some?
             && "model_path" in values && "max_model_len" in values && "gpu_count" !in values) ==>
      r == Err(KeyError("gpu_count"))
    ensures r.Ok? ==>
      && |r.value| == 2
      && Names(r.value[0], "apps/v1", "Deployment", values["model_name"])
      && Lookup(r.value[0], ["spec", "replicas"]) == Some(Int(ParseInt(values["replicas"]).value))
      && Names(r.value[1], "v1", "Service", values["model_name"])
  {
    var modelName :- Param(values, "model_name");
    var replicas :- IntParam(values, "replicas");
    var modelPath :- Param(values, "model_path");
    var maxModelLen :- Param(values, "max_model_len");
    var gpuCount :- Param(values, "gpu_count");
    Ok([DeploymentDoc(modelName, replicas, modelPath, maxModelLen, gpuCount), ServiceDoc(modelName)])
  }

  /** `_generate_autoscaling_manifest`: the quickstart documents and a PodAutoscaler. */
  function AutoscalingManifest(values: map<string, string>): (r: Result<seq<Value>, GenError>)
    ensures QuickstartManifest(values).Err? ==> r == QuickstartManifest(values)
    ensures r.Ok? <==> && QuickstartManifest(values).Ok?
                       && "min_replicas" in values && ParseInt(values["min_replicas"]).Some?
                       && "max_replicas" in values && ParseInt(values["max_replicas"]).Some?
                       && "target_cpu" in values
    ensures QuickstartManifest(values).Ok? && "min_replicas" !in values ==> r == Err(KeyError("min_replicas"))
    ensures r.Ok? ==>
      && |r.value| == 3 && r.value[..2] == QuickstartManifest(values).value
      && Names(r.value[2], "autoscaling" + AibrixApiSuffix, "PodAutoscaler", values["model_name"] + "-autoscaler")
      && Lookup(r.value[2], ["spec", "minReplicas"]) == Some(Int(ParseInt(values["min_replicas"]).value))
      && Lookup(r.value[2], ["spec", "maxReplicas"]) == Some(Int(ParseInt(values["max_replicas"]).value))
  {
    var documents :- QuickstartManifest(values);
    var modelName := values["model_name"];
    var minReplicas :- IntParam(values, "min_replicas");
    var maxReplicas :- IntParam(values, "max_replicas");
    var targetCpu :- Param(values, "target_cpu");
    var autoscaler := AutoscalerDoc(modelName, minReplicas, maxReplicas, targetCpu);
    Ok(documents + [autoscaler])
  }

  /** `_generate_kvcache_manifest`: the quickstart documents and a KVCache. */
  function KvcacheManifest(values: map<string, string>): (r: Result<seq<Value>, GenError>)
    ensures QuickstartManifest(values).Err? ==> r == QuickstartManifest(values)
    ensures r.Ok? <==> QuickstartManifest(values).Ok? && "cache_type" in values && "cache_size" in values
    ensures QuickstartManifest(values).Ok? && "cache_type" !in values ==> r == Err(KeyError("cache_type"))
    ensures r.Ok? ==>
      && |r.value| == 3 && r.value[..2] == QuickstartManifest(values).value
      && Names(r.value[2], "orchestration" + AibrixApiSuffix, "KVCache", values["model_name"] + "-kvcache")
      && Lookup(r.value[2], ["spec", "cacheType"]) == Some(Str(values["cache_type"]))
      && Lookup(r.value[2], ["spec", "cacheSize"]) == Some(Str(values["cache_size"]))
  {
    var documents :- QuickstartManifest(values);
    var modelName := values["model_name"];
    var cacheType :- Param(values, "cache_type");
    var cacheSize :- Param(values, "cache_size");
    var kvcache := KvcacheDoc(modelName, cacheType, cacheSize);
    Ok(documents + [kvcache])
  }

  /** The dispatch at the end of `generate_manifest`. */
  function Build(name: string, values: map<string, string>): Result<seq<Value>, GenError>
  {
    if name == "quickstart" then QuickstartManifest(values)
    else if name == "autoscaling" then AutoscalingManifest(values)
    else if name == "kvcache" then KvcacheManifest(values)
    else Err(ValueError("Template generation not implemented: " + name))
  }

  /** The first required parameter that is absent, in the template's order. */
  function FirstMissing(specs: seq<ParamSpec>, values: map<string, string>): (r: Option<string>)
    ensures r.None? <==> forall i :: 0 <= i < |specs| && specs[i].required ==> specs[i].name in values
    ensures r.Some? ==> r.value !in values
  {
    if specs == [] then None
    else if specs[0].required && specs[0].name !in values then Some(specs[0].name)
    else
      var rest := FirstMissing(specs[1..], values);
      assert forall i :: 1 <= i < |specs| ==> specs[i] == specs[1..][i - 1];
      rest
  }

  /**
   * `generate_manifest` on the parameters `d`: the result, and the
   * parameters afterwards (the defaults are written into the caller's dict).
   */
  function Generate(templates: seq<Template>, name: string, d: DictState): (r: (Result<seq<Value>, GenError>, DictState))
    requires WellFormed(d)
    ensures WellFormed(r.1)
  {
    match FindTemplate(templates, name)
    case None => (Err(ValueError("Unknown template: " + name)), d)
    case Some(t) =>
      match FirstMissing(t.params, d.values)
      case Some(p) => (Err(ValueError("Required parameter missing: " + p)), d)
      case None =>
        var filled := WithDefaults(t.params, d);
        (Build(name, filled.values), filled)
  }

  /** `TemplateManager.generate_manifest`. */
  method GenerateManifest(templates: seq<Template>, name: string, parameters: StrDict)
    returns (r: Result<seq<Value>, GenError>)
    requires parameters.Valid()
    modifies parameters
    ensures parameters.Valid()
    ensures (r, parameters.State()) == Generate(templates, name, old(parameters.State()))
  {
    var found := FindTemplate(templates, name);
    if found.None? {
      return Err(ValueError("Unknown template: " + name));
    }
    var specs := found.value.params;
    var i := 0;
    while i < |specs|
      invariant 0 <= i <= |specs|
      invariant FirstMissing(specs, parameters.values) == FirstMissing(specs[i..], parameters.values)
    {
      if specs[i].required && specs[i].name !in parameters.values {
        return Err(ValueError("Required parameter missing: " + specs[i].name));
      }
      assert specs[i..][1..] == specs[i + 1..];
      i := i + 1;
    }
    ghost var supplied := parameters.State();
    i := 0;
    while i < |specs|
      invariant 0 <= i <= |specs|
      invariant parameters.Valid()
      invariant parameters.State() == WithDefaults(specs[..i], supplied)
    {
      assert specs[..i + 1][..i] == specs[..i];
      var p := specs[i];
      if p.name !in parameters.values && p.default.Some? {
        parameters.Set(p.name, p.default.value);
      }
      i := i + 1;
    }
    assert specs[..i] == specs;
    r := Build(name, parameters.values);
  }

  /** `generate_manifest` rejects an unknown template and a missing required parameter before writing anything. */
  lemma GenerateChecksFirst(templates: seq<Template>, name: string, d: DictState)
    requires WellFormed(d)
    ensures FindTemplate(templates, name).None? ==>
      Generate(templates, name, d) == (Err(ValueError("Unknown template: " + name)), d)
    ensures FindTemplate(templates, name).Some? && MissingRequired(FindTemplate(templates, name).value.params, d.values) != [] ==>
      Generate(templates, name, d).0.Err? && Generate(templates, name, d).0.error.ValueError? && Generate(templates, name, d).1 == d
  {
    if FindTemplate(templates, name).Some? {
      MissingRequiredEmpty(FindTemplate(templates, name).value.params, d.values);
    }
  }

  /**
   * After generation the caller's parameters keep every supplied value, and
   * gain exactly the declared defaults of the absent parameters.
   */
  lemma GenerateWritesDefaults(templates: seq<Template>, name: string, d: DictState, k: string)
    requires WellFormed(d)
    requires FindTemplate(templates, name).Some?
    ensures var after := Generate(templates, name, d).1;
      && (k in d.values ==> k in after.values && after.values[k] == d.values[k])
      && (k !in d.values && k in after.values ==> Some(after.values[k]) == DefaultOf(FindTemplate(templates, name).value.params, k))
  {
    WithDefaultsValues(FindTemplate(templates, name).value.params, d, k);
  }

  /**
   * The `key=value` items of the command line, split at the first `=`;
   * None when some item has no `=`.
   */
  function ParseAssignments(items: seq<string>): (r: Option<seq<(string, string)>>)
    ensures r.None? <==> exists i :: 0 <= i < |items| && '=' !in items[i]
    ensures r.Some? ==> |r.value| == |items|
    ensures r.Some? ==> forall i :: 0 <= i < |items| ==> '=' !in r.value[i].0 && r.value[i].0 + "=" + r.value[i].1 == items[i]
  {
    if items == [] then Some([])
    else
      var init := items[..|items| - 1];
      match ParseAssignments(init)
      case None =>
        assert exists i :: 0 <= i < |init| && '=' !in init[i];
        None
      case Some(pairs) =>
        assert forall i :: 0 <= i < |init| ==> init[i] == items[i];
        match SplitOnce(items[|items| - 1], '=')
        case None => None
        case Some(kv) => Some(pairs + [kv])
  }

  /** What `handle_generate_template` produces: the documents it writes out, or None for exit code 1. */
  function GenerateTemplate(templates: seq<Template>, name: string, items: seq<string>): Option<seq<Value>>
  {
    match ParseAssignments(items)
    case None => None
    case Some(pairs) =>
      var d := AssignAll(Empty, pairs);
      if ValidationErrors(templates, name, d) != [] then None
      else match Generate(templates, name, d).0
        case Ok(documents) => Some(documents)
        case Err(_) => None
  }

  /**
   * `handle_generate_template` without the output file: parse the items,
   * validate, generate; exit code 0 with the documents, or 1.
   */
  method HandleGenerateTemplate(templates: seq<Template>, name: string, items: seq<string>)
    returns (exitCode: int, manifest: Option<seq<Value>>)
    ensures exitCode == 0 <==> manifest.Some?
    ensures exitCode == 0 || exitCode == 1
    ensures manifest == GenerateTemplate(templates, name, items)
  {
    var parameters := new StrDict();
    ghost var pairs: seq<(string, string)> := [];
    var i := 0;
    while i < |items|
      invariant 0 <= i <= |items|
      invariant parameters.Valid()
      invariant ParseAssignments(items[..i]) == Some(pairs)
      invariant parameters.State() == AssignAll(Empty, pairs)
    {
      assert items[..i + 1][..i] == items[..i];
      match SplitOnce(items[i], '=')
      case None =>
        return 1, None;
      case Some(kv) =>
        parameters.Set(kv.0, kv.1);
        pairs := pairs + [kv];
      i := i + 1;
    }
    assert items[..i] == items;
    var errors := ValidateParameters(templates, name, parameters);
    if errors != [] {
      return 1, None;
    }
    var r := GenerateManifest(templates, name, parameters);
    match r
    case Ok(documents) =>
      return 0, Some(documents);
    case Err(_) =>
      return 1, None;
  }

  lemma {:induction false} DefaultOfUndeclared(specs: seq<ParamSpec>, k: string)
    requires forall i :: 0 <= i < |specs| ==> specs[i].name != k
    ensures DefaultOf(specs, k) == None
  {
    if specs != [] {
      DefaultOfUndeclared(specs[1..], k);
    }
  }

  /** The source table declares no `replicas` for the extended templates, and so gives it no default. */
  lemma ExtendedTemplateLacksReplicas(name: string)
    requires name == "autoscaling" || name == "kvcache"
    ensures FindTemplate(SourceTemplates, name).Some?
    ensures var specs := FindTemplate(SourceTemplates, name).value.params;
      && |specs| >= 1 && specs[0] == ParamSpec("model_name", true, None)
      && "replicas" !in ParamNames(specs)
      && DefaultOf(specs, "replicas") == None
  {
    var specs := if name == "autoscaling" then AutoscalingParams else KvcacheParams;
    assert FindTemplate(SourceTemplates, name) == Some(if name == "autoscaling" then SourceTemplates[1] else SourceTemplates[2]);
    assert forall i :: 0 <= i < |specs| ==> |specs[i].name| != |"replicas"|;
    DefaultOfUndeclared(specs, "replicas");
  }

  /**
   * With the source table, the autoscaling and kvcache templates never
   * generate from parameters that validation accepts: the quickstart
   * documents they start from read `replicas`, which they neither accept
   * nor default.
   */
  lemma SourceExtendedNeverGenerate(name: string, d: DictState)
    requires name == "autoscaling" || name == "kvcache"
    requires WellFormed(d)
    requires ValidationErrors(SourceTemplates, name, d) == []
    ensures Generate(SourceTemplates, name, d).0 == Err(KeyError("replicas"))
  {
    ExtendedTemplateLacksReplicas(name);
    ValidationAcceptsIff(SourceTemplates, name, d);
    var specs := FindTemplate(SourceTemplates, name).value.params;
    assert "model_name" in d.values by { assert specs[0].required; }
    UndeclaredRejected(specs, d, "replicas");
    MissingReplicasFails(name, specs, d);
  }

  lemma UndeclaredRejected(specs: seq<ParamSpec>, d: DictState, k: string)
    requires forall key :: key in d.values ==> ValueOk(specs, key, d.values[key])
    requires k !in ParamNames(specs)
    ensures k !in d.values
  {
  }

  /** The extended builders report the missing `replicas` when it is neither supplied nor defaulted. */
  lemma MissingReplicasFails(name: string, specs: seq<ParamSpec>, d: DictState)
    requires name == "autoscaling" || name == "kvcache"
    requires WellFormed(d)
    requires "model_name" in d.values && "replicas" !in d.values
    requires DefaultOf(specs, "replicas") == None
    ensures Build(name, WithDefaults(specs, d).values) == Err(KeyError("replicas"))
  {
    WithDefaultsValues(specs, d, "replicas");
    WithDefaultsValues(specs, d, "model_name");
  }

  /** So `handle_generate_template` exits with 1 for these templates whatever the command line holds. */
  lemma SourceExtendedHandlerFails(name: string, items: seq<string>)
    requires name == "autoscaling" || name == "kvcache"
    ensures GenerateTemplate(SourceTemplates, name, items) == None
  {
    match ParseAssignments(items)
    case None =>
    case Some(pairs) =>
      var d := AssignAll(Empty, pairs);
      if ValidationErrors(SourceTemplates, name, d) == [] {
        SourceExtendedNeverGenerate(name, d);
      }
  }

  /** A parameter that is supplied, or has a default, is present after filling. */
  lemma FilledParam(specs: seq<ParamSpec>, d: DictState, k: string)
    requires WellFormed(d)
    requires k in d.values || DefaultOf(specs, k).Some?
    ensures k in WithDefaults(specs, d).values
  {
    WithDefaultsValues(specs, d, k);
  }

  /** An integer parameter that validation accepted, or whose default is an integer, is an integer after filling. */
  lemma FilledIntParam(specs: seq<ParamSpec>, d: DictState, k: string, default: string)
    requires WellFormed(d)
    requires forall key :: key in d.values ==> ValueOk(specs, key, d.values[key])
    requires k in IntegerParams
    requires DefaultOf(specs, k) == Some(default) && ParseInt(default).Some?
    ensures k in WithDefaults(specs, d).values && ParseInt(WithDefaults(specs, d).values[k]).Some?
  {
    WithDefaultsValues(specs, d, k);
    if k in d.values {
      assert ValueOk(specs, k, d.values[k]);
    }
  }

  /** The quickstart documents build from the filled parameters of an accepted template that defaults the integer ones. */
  lemma QuickstartReady(specs: seq<ParamSpec>, d: DictState)
    requires WellFormed(d)
    requires forall key :: key in d.values ==> ValueOk(specs, key, d.values[key])
    requires "model_name" in d.values
    requires "model_path" in d.values || DefaultOf(specs, "model_path").Some?
    requires DefaultOf(specs, "replicas") == Some("1") && DefaultOf(specs, "gpu_count") == Some("1")
    requires DefaultOf(specs, "max_model_len").Some?
    ensures QuickstartManifest(WithDefaults(specs, d).values).Ok?
  {
    DefaultReplicaCounts();
    FilledParam(specs, d, "model_name");
    FilledIntParam(specs, d, "replicas", "1");
    FilledParam(specs, d, "model_path");
    FilledParam(specs, d, "max_model_len");
    FilledParam(specs, d, "gpu_count");
  }

  lemma {:induction false} DefaultOfAppend(a: seq<ParamSpec>, b: seq<ParamSpec>, k: string)
    ensures DefaultOf(a + b, k) == if DefaultOf(a, k).Some? then DefaultOf(a, k) else DefaultOf(b, k)
  {
    if a == [] {
      assert a + b == b;
    } else {
      assert (a + b)[0] == a[0] && (a + b)[1..] == a[1..] + b;
      DefaultOfAppend(a[1..], b, k);
    }
  }

  /** The defaults of the corrected autoscaling template: its own, then the quickstart ones. */
  lemma CorrectedAutoscalingDefaults()
    ensures var specs := AutoscalingParams + BaseDefaults;
      && DefaultOf(specs, "replicas") == Some("1") && DefaultOf(specs, "gpu_count") == Some("1")
      && DefaultOf(specs, "max_model_len").Some?
      && DefaultOf(specs, "min_replicas") == Some("1") && DefaultOf(specs, "max_replicas") == Some("10")
      && DefaultOf(specs, "target_cpu").Some?
  {
    DefaultOfAppend(AutoscalingParams, BaseDefaults, "replicas");
    DefaultOfAppend(AutoscalingParams, BaseDefaults, "gpu_count");
    DefaultOfAppend(AutoscalingParams, BaseDefaults, "max_model_len");
    DefaultOfAppend(AutoscalingParams, BaseDefaults, "min_replicas");
    DefaultOfAppend(AutoscalingParams, BaseDefaults, "max_replicas");
    DefaultOfAppend(AutoscalingParams, BaseDefaults, "target_cpu");
  }

  /** The defaults of the corrected kvcache template: its own, then the quickstart ones. */
  lemma CorrectedKvcacheDefaults()
    ensures var specs := KvcacheParams + BaseDefaults;
      && DefaultOf(specs, "replicas") == Some("1") && DefaultOf(specs, "gpu_count") == Some("1")
      && DefaultOf(specs, "max_model_len").Some?
      && DefaultOf(specs, "cache_type").Some? && DefaultOf(specs, "cache_size").Some?
  {
    DefaultOfAppend(KvcacheParams, BaseDefaults, "replicas");
    DefaultOfAppend(KvcacheParams, BaseDefaults, "gpu_count");
    DefaultOfAppend(KvcacheParams, BaseDefaults, "max_model_len");
    DefaultOfAppend(KvcacheParams, BaseDefaults, "cache_type");
    DefaultOfAppend(KvcacheParams, BaseDefaults, "cache_size");
  }

  lemma DefaultReplicaCounts()
    ensures ParseInt("1") == Some(1) && ParseInt("10") == Some(10)
  {
    assert DigitsValue("1") == 1;
    assert DigitsValue("10") == 10 by { assert "10"[..1] == "1"; }
  }

  /** What the corrected table's entries require and default. */
  lemma CorrectedTable(name: string)
    ensures FindTemplate(CorrectedTemplates, name).Some? ==>
      && (name == "quickstart" || name == "autoscaling" || name == "kvcache")
      && var specs := FindTemplate(CorrectedTemplates, name).value.params;
      && |specs| >= 2 && specs[0] == ParamSpec("model_name", true, None)
      && DefaultOf(specs, "replicas") == Some("1") && DefaultOf(specs, "gpu_count") == Some("1")
      && DefaultOf(specs, "max_model_len").Some?
      && (name == "quickstart" ==> DefaultOf(specs, "model_path").Some?)
      && (name != "quickstart" ==> specs[1] == ParamSpec("model_path", true, None))
      && (name == "autoscaling" ==>
            && DefaultOf(specs, "min_replicas") == Some("1") && DefaultOf(specs, "max_replicas") == Some("10")
            && DefaultOf(specs, "target_cpu").Some?)
      && (name == "kvcache" ==> DefaultOf(specs, "cache_type").Some? && DefaultOf(specs, "cache_size").Some?)
  {
    if name == "quickstart" {
      assert FindTemplate(CorrectedTemplates, name) == Some(CorrectedTemplates[0]);
    } else if name == "autoscaling" {
      assert FindTemplate(CorrectedTemplates, name) == Some(CorrectedTemplates[1]);
      CorrectedAutoscalingDefaults();
    } else if name == "kvcache" {
      assert FindTemplate(CorrectedTemplates, name) == Some(CorrectedTemplates[2]);
      CorrectedKvcacheDefaults();
    }
  }

  lemma AutoscalingReady(specs: seq<ParamSpec>, d: DictState)
    requires WellFormed(d)
    requires forall key :: key in d.values ==> ValueOk(specs, key, d.values[key])
    requires "model_name" in d.values && "model_path" in d.values
    requires DefaultOf(specs, "replicas") == Some("1") && DefaultOf(specs, "gpu_count") == Some("1")
    requires DefaultOf(specs, "max_model_len").Some?
    requires DefaultOf(specs, "min_replicas") == Some("1") && DefaultOf(specs, "max_replicas") == Some("10")
    requires DefaultOf(specs, "target_cpu").Some?
    ensures AutoscalingManifest(WithDefaults(specs, d).values).Ok?
  {
    QuickstartReady(specs, d);
    DefaultReplicaCounts();
    FilledIntParam(specs, d, "min_replicas", "1");
    FilledIntParam(specs, d, "max_replicas", "10");
    FilledParam(specs, d, "target_cpu");
  }

  lemma KvcacheReady(specs: seq<ParamSpec>, d: DictState)
    requires WellFormed(d)
    requires forall key :: key in d.values ==> ValueOk(specs, key, d.values[key])
    requires "model_name" in d.values && "model_path" in d.values
    requires DefaultOf(specs, "replicas") == Some("1") && DefaultOf(specs, "gpu_count") == Some("1")
    requires DefaultOf(specs, "max_model_len").Some?
    requires DefaultOf(specs, "cache_type").Some? && DefaultOf(specs, "cache_size").Some?
    ensures KvcacheManifest(WithDefaults(specs, d).values).Ok?
  {
    QuickstartReady(specs, d);
    FilledParam(specs, d, "cache_type");
    FilledParam(specs, d, "cache_size");
  }

  /** Each corrected template's documents build from the filled parameters it accepts. */
  lemma CorrectedBuilds(name: string, d: DictState)
    requires WellFormed(d)
    requires FindTemplate(CorrectedTemplates, name).Some?
    requires var specs := FindTemplate(CorrectedTemplates, name).value.params;
      && (forall i :: 0 <= i < |specs| && specs[i].required ==> specs[i].name in d.values)
      && (forall key :: key in d.values ==> ValueOk(specs, key, d.values[key]))
    ensures Build(name, WithDefaults(FindTemplate(CorrectedTemplates, name).value.params, d).values).Ok?
  {
    CorrectedTable(name);
    var specs := FindTemplate(CorrectedTemplates, name).value.params;
    assert "model_name" in d.values by { assert specs[0].required; }
    if name == "quickstart" {
      QuickstartReady(specs, d);
    } else {
      assert "model_path" in d.values by { assert specs[1].required; }
      if name == "autoscaling" {
        AutoscalingReady(specs, d);
      } else {
        KvcacheReady(specs, d);
      }
    }
  }

  /** With the corrected table every template generates from any parameters validation accepts. */
  lemma CorrectedTemplatesGenerate(name: string, d: DictState)
    requires WellFormed(d)
    requires ValidationErrors(CorrectedTemplates, name, d) == []
    ensures Generate(CorrectedTemplates, name, d).0.Ok?
  {
    ValidationAcceptsIff(CorrectedTemplates, name, d);
    CorrectedBuilds(name, d);
  }

  /** So `handle_generate_template` with the corrected table succeeds whenever the items parse and validate. */
  lemma CorrectedHandlerSucceeds(name: string, items: seq<string>)
    requires ParseAssignments(items).Some?
    requires ValidationErrors(CorrectedTemplates, name, AssignAll(Empty, ParseAssignments(items).value)) == []
    ensures GenerateTemplate(CorrectedTemplates, name, items).Some?
  {
    CorrectedTemplatesGenerate(name, AssignAll(Empty, ParseAssignments(items).value));
  }
}
