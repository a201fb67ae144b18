/**
 * Workload management commands: manifest validation, the classification
 * of each manifest document when it is applied, deployment dispatch and
 * the `key=value` parameters of `deploy`.
 *
 * Reading the manifest file is outside the model: the loaded documents are
 * a parameter, None when the file is missing or is not valid YAML. The
 * Kubernetes client is outside it too; applying a custom resource is
 * recorded as the call the client would receive.
 */
module Management {
  import opened Wrappers
  import opened PyStr
  import opened Yaml
  import opened Dicts
  import Templates

  /** `_get_plural_name`: the fixed plurals of the known kinds, else lower case plus "s". */
  function PluralName(kind: string): (plural: string)
    ensures kind !in KnownPlurals ==> plural == Lower(kind) + "s"
    ensures kind in KnownPlurals ==> plural == KnownPlurals[kind]
  {
    if kind in KnownPlurals then KnownPlurals[kind] else Lower(kind) + "s"
  }

  const KnownPlurals: map<string, string> := map[
    "PodAutoscaler" := "podautoscalers",
    "ModelAdapter" := "modeladapters",
    "StormService" := "stormservices",
    "KVCache" := "kvcaches",
    "RayClusterFleet" := "rayclusterfleets",
    "RayClusterReplicaSet" := "rayclusterreplicasets",
    "RoleSet" := "rolesets"
  ]

  /** What `_apply_resource` does with a document, once it has read its fields. */
  datatype Applied =
    | DeploymentCreated                                          // apps/v1 Deployment (creation is left undone)
    | ServiceCreated                                             // v1 Service (creation is left undone)
    | CustomResource(group: string, version: string, plural: string)  // an AIBrix custom resource
    | Unsupported                                                // any other type: False
    | Failed                                                     // an exception inside the handler: False

  predicate Succeeded(a: Applied)
  {
    a.DeploymentCreated? || a.ServiceCreated? || a.CustomResource?
  }

  /** `api_version.split("/")[0]`. */
  function Group(apiVersion: string): (group: string)
    ensures '/' in apiVersion ==> group + "/" <= apiVersion && '/' !in group
    ensures '/' !in apiVersion ==> group == apiVersion
  {
    match SplitOnce(apiVersion, '/')
    case None => apiVersion
    case Some(parts) => parts.0
  }

  /** The branches of `_apply_resource`, on the `apiVersion` and `kind` it read. */
  function Classify(apiVersion: Value, kind: Value): (a: Applied)
    ensures a == DeploymentCreated <==> apiVersion == Str("apps/v1") && kind == Str("Deployment")
    ensures a == ServiceCreated <==> apiVersion == Str("v1") && kind == Str("Service")
    ensures a.CustomResource? <==> && apiVersion.Str? && EndsWith(apiVersion.s, Templates.AibrixApiSuffix) && kind.Str?
                                   && !(apiVersion.s == "apps/v1" || apiVersion.s == "v1")
    ensures a.CustomResource? ==> a == CustomResource(Group(apiVersion.s), "v1alpha1", PluralName(kind.s))
    ensures a == Unsupported <==> apiVersion.Str? && !EndsWith(apiVersion.s, Templates.AibrixApiSuffix)
                                  && !(apiVersion == Str("apps/v1") && kind == Str("Deployment"))
                                  && !(apiVersion == Str("v1") && kind == Str("Service"))
  {
    if apiVersion == Str("apps/v1") && kind == Str("Deployment") then DeploymentCreated
    else if apiVersion == Str("v1") && kind == Str("Service") then ServiceCreated
    else match apiVersion
      case Str(version) =>
        if EndsWith(version, Templates.AibrixApiSuffix) then
          assert version != "apps/v1" && version != "v1";
          match kind
          case Str(k) => CustomResource(Group(version), "v1alpha1", PluralName(k))
          case _ => Failed  // `kind.lower()` on a value that is not a string
        else Unsupported
      case _ => Failed  // `endswith` on a value that is not a string
  }

  /**
   * `_apply_resource` on one document: None when reading the document
   * raises (it is not a mapping, or its `metadata` is not one), which
   * escapes to the caller; otherwise what it did.
   */
  function ApplyResource(resource: Value): (r: Option<Applied>)
    ensures r.None? <==> !resource.Dict? || !Get(resource.fields, "metadata", Dict(map[])).Dict?
    ensures r.Some? ==> r.value == Classify(Get(resource.fields, "apiVersion", Str("")), Get(resource.fields, "kind", Str("")))
  {
    match resource
    case Dict(fields) =>
      if Get(fields, "metadata", Dict(map[])).Dict? then
        Some(Classify(Get(fields, "apiVersion", Str("")), Get(fields, "kind", Str(""))))
      else None
    case _ => None
  }

  /**
   * `_deploy_from_manifest` on the loaded documents: empty documents are
   * skipped; the result of each application is ignored; only an exception
   * escaping `_apply_resource` makes it fail.
   */
  function DeployFromManifest(loaded: Option<seq<Value>>): (r: Option<seq<Applied>>)
    ensures loaded.None? ==> r.None?
    ensures loaded.Some? ==> (r.Some? <==> forall i :: 0 <= i < |loaded.value| && Truthy(loaded.value[i]) ==> ApplyResource(loaded.value[i]).Some?)
  {
    match loaded
    case None => None
    case Some(docs) => ApplyAll(docs)
  }

  function ApplyAll(docs: seq<Value>): (r: Option<seq<Applied>>)
    ensures r.Some? <==> forall i :: 0 <= i < |docs| && Truthy(docs[i]) ==> ApplyResource(docs[i]).Some?
  {
    if docs == [] then Some([])
    else
      var init := docs[..|docs| - 1];
      var last := docs[|docs| - 1];
      assert forall i :: 0 <= i < |init| ==> init[i] == docs[i];
      match ApplyAll(init)
      case None => None
      case Some(done) =>
        if !Truthy(last) then Some(done)
        else match ApplyResource(last)
          case None => None
          case Some(a) => Some(done + [a])
  }

  /** How `deploy_workload` was asked to deploy. */
  function DeployWorkload(manifestFile: Option<string>, template: Option<string>, loaded: Option<seq<Value>>): (ok: bool)
    ensures manifestFile.Some? && manifestFile.value != "" ==> ok == DeployFromManifest(loaded).Some?
    ensures (manifestFile.None? || manifestFile.value == "") && template.Some? && template.value != "" ==> ok
    ensures (manifestFile.None? || manifestFile.value == "") && (template.None? || template.value == "") ==> !ok
  {
    if manifestFile.Some? && manifestFile.value != "" then DeployFromManifest(loaded).Some?
    else if template.Some? && template.value != "" then true  // `_deploy_from_template` only logs and succeeds
    else false
  }

  /** `Document {i}: ` */
  function Prefix(i: nat): string
  {
    "Document " + NatDigits(i) + ": "
  }

  const RequiredFields: seq<string> := ["apiVersion", "kind", "metadata"]

  /** The missing-field errors for one mapping, in the order of `fields`. */
  function MissingFields(i: nat, doc: map<string, Value>, fields: seq<string>): seq<string>
  {
    if fields == [] then []
    else
      var f := fields[|fields| - 1];
      MissingFields(i, doc, fields[..|fields| - 1])
        + (if f !in doc then [Prefix(i) + "Missing required field '" + f + "'"] else [])
  }

  /**
   * The errors `validate_manifest` logs for document `i`, or None when
   * `metadata.get` raises because `metadata` is not a mapping.
   */
  function DocumentErrors(i: nat, doc: Value): Option<seq<string>>
  {
    if !Truthy(doc) then Some([])
    else match doc
      case Dict(fields) =>
        var missing := MissingFields(i, fields, RequiredFields);
        (match Get(fields, "metadata", Dict(map[]))
         case Dict(metadata) =>
           Some(missing + (if Truthy(Get(metadata, "name", Null)) then [] else [Prefix(i) + "Missing metadata.name"]))
         case _ => None)
      case _ => Some([Prefix(i) + "Not a valid YAML object"])
  }

  /** The errors for all documents, in order; None once one raises. */
  function ManifestErrors(docs: seq<Value>): Option<seq<string>>
  {
    if docs == [] then Some([])
    else match ManifestErrors(docs[..|docs| - 1])
      case None => None
      case Some(errors) =>
        match DocumentErrors(|docs| - 1, docs[|docs| - 1])
        case None => None
        case Some(more) => Some(errors + more)
  }

  /** What `validate_manifest` returns. */
  function ManifestValid(loaded: Option<seq<Value>>): bool
  {
    match loaded
    case None => false
    case Some(docs) => ManifestErrors(docs) == Some([])
  }

  /** The per-document conditions stated directly. */
  predicate DocumentOk(doc: Value)
  {
    !Truthy(doc) ||
      (&& doc.Dict?
       && "apiVersion" in doc.fields && "kind" in doc.fields && "metadata" in doc.fields
       && doc.fields["metadata"].Dict?
       && Truthy(Get(doc.fields["metadata"].fields, "name", Null)))
  }

  lemma {:induction false} MissingFieldsEmpty(i: nat, doc: map<string, Value>, fields: seq<string>)
    ensures MissingFields(i, doc, fields) == [] <==> forall j :: 0 <= j < |fields| ==> fields[j] in doc
  {
    if fields != [] {
      var init := fields[..|fields| - 1];
      MissingFieldsEmpty(i, doc, init);
      assert forall j :: 0 <= j < |init| ==> init[j] == fields[j];
    }
  }

  lemma DocumentErrorsEmpty(i: nat, doc: Value)
    ensures DocumentErrors(i, doc) == Some([]) <==> DocumentOk(doc)
  {
    if Truthy(doc) && doc.Dict? {
      MissingFieldsEmpty(i, doc.fields, RequiredFields);
      assert RequiredFields[0] == "apiVersion" && RequiredFields[1] == "kind" && RequiredFields[2] == "metadata";
    }
  }

  /** A manifest is valid exactly when every non-empty document passes every check. */
  lemma {:induction false} ManifestValidIff(docs: seq<Value>)
    ensures ManifestValid(Some(docs)) <==> forall i :: 0 <= i < |docs| ==> DocumentOk(docs[i])
  {
    if docs != [] {
      var init := docs[..|docs| - 1];
      ManifestValidIff(init);
      DocumentErrorsEmpty(|docs| - 1, docs[|docs| - 1]);
      assert forall i :: 0 <= i < |init| ==> init[i] == docs[i];
      assert (forall i :: 0 <= i < |docs| ==> DocumentOk(docs[i]))
        <==> (forall i :: 0 <= i < |init| ==> DocumentOk(init[i])) && DocumentOk(docs[|docs| - 1]);
      match ManifestErrors(init)
      case None =>
      case Some(errors) =>
        match DocumentErrors(|docs| - 1, docs[|docs| - 1])
        case None =>
        case Some(more) =>
          assert ManifestErrors(docs) == Some(errors + more);
          assert errors + more == [] <==> errors == [] && more == [];
    }
  }

  /** Every message for document `i` names document `i`. */
  lemma {:induction false} MissingFieldsNamed(i: nat, doc: map<string, Value>, fields: seq<string>)
    ensures forall m :: m in MissingFields(i, doc, fields) ==> Prefix(i) <= m
  {
    if fields != [] {
      MissingFieldsNamed(i, doc, fields[..|fields| - 1]);
    }
  }

  /**
   * Checking goes on past a bad document: when no document raises, every
   * document that fails a check has an error naming it, and the errors of
   * the earlier documents come first, unchanged.
   */
  lemma {:induction false} EveryBadDocumentReported(docs: seq<Value>, k: nat)
    requires k < |docs|
    requires ManifestErrors(docs).Some?
    ensures DocumentErrors(k, docs[k]).Some?
    ensures ManifestErrors(docs[..k + 1]).Some? && ManifestErrors(docs[..k + 1]).value <= ManifestErrors(docs).value
    ensures !DocumentOk(docs[k]) ==> exists m :: m in ManifestErrors(docs).value && Prefix(k) <= m
  {
    var init := docs[..|docs| - 1];
    assert ManifestErrors(init).Some? && DocumentErrors(|docs| - 1, docs[|docs| - 1]).Some?;
    var errors := ManifestErrors(init).value;
    assert ManifestErrors(docs).value == errors + DocumentErrors(|docs| - 1, docs[|docs| - 1]).value;
    if k == |docs| - 1 {
      assert docs[..k + 1] == docs;
      DocumentErrorsEmpty(k, docs[k]);
      var more := DocumentErrors(k, docs[k]).value;
      if !DocumentOk(docs[k]) {
        assert more != [];
        if docs[k].Dict? {
          var missing := MissingFields(k, docs[k].fields, RequiredFields);
          MissingFieldsNamed(k, docs[k].fields, RequiredFields);
          if missing != [] {
            assert more[0] == missing[0] && missing[0] in missing;
          } else {
            assert more[0] == Prefix(k) + "Missing metadata.name";
          }
        } else {
          assert more[0] == Prefix(k) + "Not a valid YAML object";
        }
        assert (errors + more)[|errors|] == more[0];
        assert more[0] in ManifestErrors(docs).value && Prefix(k) <= more[0];
      }
    } else {
      EveryBadDocumentReported(init, k);
      assert init[k] == docs[k] && init[..k + 1] == docs[..k + 1];
      if !DocumentOk(docs[k]) {
        var m :| m in errors && Prefix(k) <= m;
        assert m in ManifestErrors(docs).value;
      }
    }
  }

  /** The inner loop of `validate_manifest`: one error per required field the document lacks. */
  method CheckRequiredFields(i: nat, doc: map<string, Value>) returns (missing: seq<string>)
    ensures missing == MissingFields(i, doc, RequiredFields)
  {
    missing := [];
    var j := 0;
    while j < |RequiredFields|
      invariant 0 <= j <= |RequiredFields|
      invariant missing == MissingFields(i, doc, RequiredFields[..j])
    {
      assert RequiredFields[..j + 1][..j] == RequiredFields[..j];
      var field := RequiredFields[j];
      if field !in doc {
        missing := missing + [Prefix(i) + "Missing required field '" + field + "'"];
      }
      j := j + 1;
    }
    assert RequiredFields[..j] == RequiredFields;
  }

  /**
   * `validate_manifest`: the loop over the documents with its `valid`
   * flag; also returns the error messages it logs.
   */
  method ValidateManifest(loaded: Option<seq<Value>>) returns (valid: bool, log: seq<string>)
    ensures valid == ManifestValid(loaded)
    ensures loaded.Some? && ManifestErrors(loaded.value).Some? ==> log == ManifestErrors(loaded.value).value
  {
    log := [];
    if loaded.None? {
      return false, log;
    }
    var docs := loaded.value;
    valid := true;
    var i := 0;
    while i < |docs|
      invariant 0 <= i <= |docs|
      invariant ManifestErrors(docs[..i]) == Some(log)
      invariant valid <==> log == []
    {
      assert docs[..i + 1][..i] == docs[..i];
      var doc := docs[i];
      if !Truthy(doc) {
        assert log + [] == log;
        i := i + 1;
        continue;
      }
      if !doc.Dict? {
        assert DocumentErrors(i, doc) == Some([Prefix(i) + "Not a valid YAML object"]);
        log := log + [Prefix(i) + "Not a valid YAML object"];
        valid := false;
        i := i + 1;
        continue;
      }
      ghost var before := log;
      var missing := CheckRequiredFields(i, doc.fields);
      log := log + missing;
      valid := valid && missing == [];
      var metadata := Get(doc.fields, "metadata", Dict(map[]));
      if !metadata.Dict? {
        // `metadata.get` raises; the handler reports the exception and returns False
        ManifestErrorsStop(docs, i);
        return false, log;
      }
      if !Truthy(Get(metadata.fields, "name", Null)) {
        log := log + [Prefix(i) + "Missing metadata.name"];
        valid := false;
        assert log == before + (missing + [Prefix(i) + "Missing metadata.name"]);
      } else {
        assert log == before + (missing + []);
      }
      i := i + 1;
    }
    assert docs[..i] == docs;
  }

  /** Once a document raises, the whole manifest is invalid. */
  lemma {:induction false} ManifestErrorsStop(docs: seq<Value>, k: nat)
    requires k < |docs|
    requires DocumentErrors(k, docs[k]).None?
    ensures ManifestErrors(docs).None?
  {
    if k < |docs| - 1 {
      var init := docs[..|docs| - 1];
      assert init[k] == docs[k];
      ManifestErrorsStop(init, k);
    } else {
      assert docs[..|docs| - 1] + [docs[k]] == docs;
    }
  }

  /**
   * The `key=value` items of `deploy`, split at the first `=`; items
   * without `=` are dropped.
   */
  function KeepAssignments(items: seq<string>): (pairs: seq<(string, string)>)
    ensures |pairs| <= |items|
    ensures forall j :: 0 <= j < |pairs| ==> '=' !in pairs[j].0
  {
    if items == [] then []
    else
      var init := KeepAssignments(items[..|items| - 1]);
      match SplitOnce(items[|items| - 1], '=')
      case None => init
      case Some(kv) => init + [kv]
  }

  /**
   * A later item for the same key overwrites an earlier one: a key maps to
   * the value of its last item.
   */
  lemma {:induction false} DeployParamLastWins(items: seq<string>, i: nat, key: string, value: string)
    requires i < |items| && items[i] == key + "=" + value && '=' !in key
    requires forall j :: i < j < |items| ==> !(key + "=" <= items[j])
    ensures var params := AssignAll(Empty, KeepAssignments(items));
      key in params.values && params.values[key] == value
  {
    var init := items[..|items| - 1];
    var pairs := KeepAssignments(items);
    var earlier := KeepAssignments(init);
    if i == |items| - 1 {
      SplitOnceJoin(key, '=', value);
      assert pairs == earlier + [(key, value)];
      assert pairs[..|pairs| - 1] == earlier;
    } else {
      DeployParamLastWins(init, i, key, value);
      match SplitOnce(items[|items| - 1], '=')
      case None =>
        assert pairs == earlier;
      case Some(kv) =>
        assert kv.0 != key;
        assert pairs == earlier + [kv];
        assert pairs[..|pairs| - 1] == earlier;
    }
  }

  /** The parameter loop of `handle_deploy`. */
  method ParseDeployParams(items: seq<string>) returns (params: StrDict)
    ensures fresh(params) && params.Valid()
    ensures params.State() == AssignAll(Empty, KeepAssignments(items))
  {
    params := new StrDict();
    var i := 0;
    while i < |items|
      invariant 0 <= i <= |items|
      invariant fresh(params) && params.Valid()
      invariant params.State() == AssignAll(Empty, KeepAssignments(items[..i]))
    {
      KeepOneMore(items, i);
      match SplitOnce(items[i], '=') {
        case None =>
        case Some(kv) =>
          AssignAllSnoc(Empty, KeepAssignments(items[..i]), kv);
          params.Set(kv.0, kv.1);
      }
      i := i + 1;
    }
    assert items[..i] == items;
  }

  /** Keeping the assignments of one more item. */
  lemma KeepOneMore(items: seq<string>, i: nat)
    requires i < |items|
    ensures KeepAssignments(items[..i + 1])
         == match SplitOnce(items[i], '=')
            case None => KeepAssignments(items[..i])
            case Some(kv) => KeepAssignments(items[..i]) + [kv]
  {
    assert items[..i + 1][..i] == items[..i];
  }

  /**
   * `handle_deploy` once the client is built: exit code 0 when the
   * deployment succeeds, else 1. The parsed parameters only reach the
   * template deployment, which ignores them.
   */
  method HandleDeploy(items: seq<string>, manifestFile: Option<string>, template: Option<string>, loaded: Option<seq<Value>>)
    returns (exitCode: int)
    ensures exitCode == (if DeployWorkload(manifestFile, template, loaded) then 0 else 1)
  {
    var params := ParseDeployParams(items);
    var ok := DeployWorkload(manifestFile, template, loaded);
    exitCode := if ok then 0 else 1;
  }

  lemma EndsWithAppend(a: string, b: string)
    ensures EndsWith(a + b, b)
  {
    assert (a + b)[|a|..] == b;
  }

  /** What a document carrying the fields the templates write looks like to `_apply_resource` and `validate_manifest`. */
  lemma NamedDocument(doc: Value, apiVersion: string, kind: string, name: string)
    requires Templates.Names(doc, apiVersion, kind, name)
    ensures Truthy(doc)
    ensures ApplyResource(doc) == Some(Classify(Str(apiVersion), Str(kind)))
    ensures DocumentOk(doc) <==> name != ""
  {
    assert doc.Dict? && "apiVersion" in doc.fields && "kind" in doc.fields && "metadata" in doc.fields;
    assert Lookup(doc.fields["apiVersion"], []) == Some(Str(apiVersion));
    assert Lookup(doc.fields["kind"], []) == Some(Str(kind));
    var metadata := doc.fields["metadata"];
    assert ["metadata", "name"][1..] == ["name"];
    assert Lookup(metadata, ["name"]) == Some(Str(name));
    assert metadata.Dict? && "name" in metadata.fields;
    assert Lookup(metadata.fields["name"], []) == Some(Str(name));
  }

  /** Every application succeeds when every non-empty document is applied successfully. */
  lemma {:induction false} ApplyAllSucceeded(docs: seq<Value>)
    requires forall i :: 0 <= i < |docs| && Truthy(docs[i]) ==>
      ApplyResource(docs[i]).Some? && Succeeded(ApplyResource(docs[i]).value)
    ensures ApplyAll(docs).Some?
    ensures forall j :: 0 <= j < |ApplyAll(docs).value| ==> Succeeded(ApplyAll(docs).value[j])
  {
    if docs != [] {
      var init := docs[..|docs| - 1];
      assert forall i :: 0 <= i < |init| ==> init[i] == docs[i];
      ApplyAllSucceeded(init);
    }
  }

  /** A generated document: applied without raising, as a resource type `_apply_resource` handles. */
  predicate Deployable(doc: Value)
  {
    Truthy(doc) && ApplyResource(doc).Some? && Succeeded(ApplyResource(doc).value)
  }

  lemma QuickstartDocuments(values: map<string, string>)
    requires Templates.QuickstartManifest(values).Ok?
    ensures var documents := Templates.QuickstartManifest(values).value;
      && (forall i :: 0 <= i < |documents| ==> Deployable(documents[i]))
      && (forall i :: 0 <= i < |documents| ==> (DocumentOk(documents[i]) <==> values["model_name"] != ""))
  {
    var documents := Templates.QuickstartManifest(values).value;
    NamedPair(documents, values["model_name"]);
  }

  /** A Deployment and a Service named after the model: deployable, and valid iff the name is not empty. */
  lemma NamedPair(documents: seq<Value>, model: string)
    requires |documents| == 2
    requires Templates.Names(documents[0], "apps/v1", "Deployment", model)
    requires Templates.Names(documents[1], "v1", "Service", model)
    ensures forall i :: 0 <= i < |documents| ==> Deployable(documents[i])
    ensures forall i :: 0 <= i < |documents| ==> (DocumentOk(documents[i]) <==> model != "")
  {
    NamedDocument(documents[0], "apps/v1", "Deployment", model);
    NamedDocument(documents[1], "v1", "Service", model);
  }

  /** An AIBrix resource named after the model: always deployable and always valid. */
  lemma AibrixDocument(doc: Value, group: string, kind: string, name: string)
    requires Templates.Names(doc, group + Templates.AibrixApiSuffix, kind, name) && name != ""
    requires group + Templates.AibrixApiSuffix != "apps/v1" && group + Templates.AibrixApiSuffix != "v1"
    ensures Deployable(doc) && DocumentOk(doc)
  {
    NamedDocument(doc, group + Templates.AibrixApiSuffix, kind, name);
    EndsWithAppend(group, Templates.AibrixApiSuffix);
  }

  /** The extended templates' documents: the quickstart ones and one AIBrix resource. */
  lemma ExtendedDocuments(quickstart: seq<Value>, extra: Value, model: string)
    requires forall i :: 0 <= i < |quickstart| ==> Deployable(quickstart[i])
    requires forall i :: 0 <= i < |quickstart| ==> (DocumentOk(quickstart[i]) <==> model != "")
    requires Deployable(extra) && DocumentOk(extra)
    ensures var documents := quickstart + [extra];
      && (forall i :: 0 <= i < |documents| ==> Deployable(documents[i]))
      && (|quickstart| > 0 ==> ((forall i :: 0 <= i < |documents| ==> DocumentOk(documents[i])) <==> model != ""))
  {
    var documents := quickstart + [extra];
    assert forall i :: 0 <= i < |quickstart| ==> documents[i] == quickstart[i];
    assert documents[|quickstart|] == extra;
    if |quickstart| > 0 && model == "" {
      assert !DocumentOk(documents[0]);
    }
  }

  lemma AutoscalingDocuments(values: map<string, string>)
    requires Templates.AutoscalingManifest(values).Ok?
    ensures var documents := Templates.AutoscalingManifest(values).value;
      && (forall i :: 0 <= i < |documents| ==> Deployable(documents[i]))
      && ((forall i :: 0 <= i < |documents| ==> DocumentOk(documents[i])) <==> values["model_name"] != "")
  {
    var quickstart := Templates.QuickstartManifest(values).value;
    QuickstartDocuments(values);
    var model := values["model_name"];
    var documents := Templates.AutoscalingManifest(values).value;
    assert documents == quickstart + [documents[2]];
    AibrixDocument(documents[2], "autoscaling", "PodAutoscaler", model + "-autoscaler");
    ExtendedDocuments(quickstart, documents[2], model);
  }

  lemma KvcacheDocuments(values: map<string, string>)
    requires Templates.KvcacheManifest(values).Ok?
    ensures var documents := Templates.KvcacheManifest(values).value;
      && (forall i :: 0 <= i < |documents| ==> Deployable(documents[i]))
      && ((forall i :: 0 <= i < |documents| ==> DocumentOk(documents[i])) <==> values["model_name"] != "")
  {
    var quickstart := Templates.QuickstartManifest(values).value;
    QuickstartDocuments(values);
    var model := values["model_name"];
    var documents := Templates.KvcacheManifest(values).value;
    assert documents == quickstart + [documents[2]];
    AibrixDocument(documents[2], "orchestration", "KVCache", model + "-kvcache");
    ExtendedDocuments(quickstart, documents[2], model);
  }

  /** The documents of one template, given the filled parameters. */
  lemma BuiltDocuments(name: string, values: map<string, string>)
    requires Templates.Build(name, values).Ok?
    ensures "model_name" in values
    ensures var documents := Templates.Build(name, values).value;
      && (forall i :: 0 <= i < |documents| ==> Deployable(documents[i]))
      && ((forall i :: 0 <= i < |documents| ==> DocumentOk(documents[i])) <==> values["model_name"] != "")
  {
    if name == "quickstart" {
      QuickstartDocuments(values);
    } else if name == "autoscaling" {
      AutoscalingDocuments(values);
    } else {
      KvcacheDocuments(values);
    }
  }

  /**
   * Deploying what the templates generate: every document is a Deployment,
   * a Service or an AIBrix custom resource, so applying never raises and
   * nothing is unsupported; and `validate_manifest` accepts the documents
   * exactly when the model name is not empty.
   */
  lemma GeneratedManifestDeploys(templates: seq<Templates.Template>, name: string, d: DictState)
    requires WellFormed(d)
    requires Templates.Generate(templates, name, d).0.Ok?
    ensures var documents := Templates.Generate(templates, name, d).0.value;
      && DeployFromManifest(Some(documents)).Some?
      && (forall j :: 0 <= j < |DeployFromManifest(Some(documents)).value| ==> Succeeded(DeployFromManifest(Some(documents)).value[j]))
    ensures var filled := Templates.Generate(templates, name, d).1;
      && "model_name" in filled.values
      && (ManifestValid(Some(Templates.Generate(templates, name, d).0.value)) <==> filled.values["model_name"] != "")
  {
    var filled := Templates.Generate(templates, name, d).1;
    var documents := Templates.Generate(templates, name, d).0.value;
    assert Templates.Build(name, filled.values) == Ok(documents);
    BuiltDocuments(name, filled.values);
    ApplyAllSucceeded(documents);
    ManifestValidIff(documents);
  }
}
