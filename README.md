# AIBrix core logic in Dafny

This project models five small, sequential pieces of AIBrix and proves properties about them.

- **KV-cache connector factory** (`Connector`). `Connector.create` derives the connector id `conn_id` from the configuration and dispatches the backend name to one of five backends. The base class supplies the capability defaults.
- **Output-length predictor** (`PredictorMath`, `PredictorHistory`, `OutputPredictor`). `SimpleOutputPredictor` keeps a moving-window histogram of observed output lengths for each input-length bucket:
  - a summary matrix `inputs`, with per-row totals `inputsSums`;
  - a ring of per-interval history slots, each ending in a "skip" cell, tracked by `head`, `tail`, `size` and `headTimestamp`.

  Traces are counted into the head slot and the summary. `rotate` advances the ring and subtracts expired slots. `Predict` makes a weighted draw over one row of the summary. The class keeps its arrays and fields and updates them in place. Its invariant ties the summary to the column sums of the slots and the ring to the skip cells.
- **Workload templates** (`Templates`). This covers the template table, `validate_parameters`, the in-place default filling of `generate_manifest`, the Kubernetes documents of each template, and the `key=value` parsing of `aibrix template generate`.
- **Workload management** (`Management`). This covers:
  - `validate_manifest`'s per-document checks;
  - the classification of each document in `_apply_resource` and `_get_plural_name`;
  - the dispatch of `deploy_workload`;
  - the `key=value` parsing of `aibrix deploy`.
- **Workload monitoring** (`Monitoring`). This covers the deployment status summary of `_format_deployment_status`, the branches of `get_workload_status`, the `kubectl port-forward` command, and the port-spec parsing of `aibrix port-forward`.

Four support modules model the Python and YAML behaviour the CLI modules rely on:
- `Wrappers`: `Option` and `Result`.
- `PyStr`: the Python string operations the CLI uses.
- `Yaml`: parsed YAML values and Python truthiness.
- `Dicts`: an insertion-ordered `Dict[str, str]`, with a `StrDict` class for the dictionaries the CLI mutates in place.

The modelling choices that replace what Dafny cannot see:
- **Floats.** Every float computation in the predictor is replaced by an integer definition:
  - the bucket count `ceil(log2(max + 1))` is the bit length of `max`;
  - `round(log2(t))` is the `k` with `2^(2k-1) <= t^2 < 2^(2k+1)`;
  - `math.Pow(2, k)` is `Pow2(k)`.
- **Time and randomness.** Timestamps are integer nanoseconds. The random draw of `Predict` is a `cursor` parameter.
- **YAML.** YAML documents are values. The text form and the dump/load round trip are not modelled, so the dump-then-load of the extended templates is the identity.
- **Exit codes.** The CLI handlers return their exit code. The outcome of reading a file or running `kubectl` is a parameter.

## Model

| member | source | states |
|---|---|---|
| Connector.DefaultsAreEmpty | python/aibrix_kvcache/aibrix_kvcache/l2/connectors/connector.py:30-53 | The three signatures of `ConnectorConfig` default to "", and all three `ConnectorFeature` flags default to false. |
| Connector.ConnId | python/aibrix_kvcache/aibrix_kvcache/l2/connectors/connector.py:80-85 | `conn_id` always starts with `namespace_partition`. It equals that stem exactly when the concatenated signatures are empty. Otherwise it is one `_` plus the signatures longer. |
| Connector.ConnIdRecoversSignatures | python/aibrix_kvcache/aibrix_kvcache/l2/connectors/connector.py:80-85 | Given namespace and partition, the concatenated signatures can be read back from `conn_id`. |
| Connector.SameStemDistinctSignatures | python/aibrix_kvcache/aibrix_kvcache/l2/connectors/connector.py:80-85 | For the same namespace and partition, different concatenated signatures give different ids. |
| Connector.UnderscoreCollision | python/aibrix_kvcache/aibrix_kvcache/l2/connectors/connector.py:80 | `("a_b", "c")` and `("a", "b_c")` derive the same id, because `_` is not escaped. |
| Connector.SignatureCollision | python/aibrix_kvcache/aibrix_kvcache/l2/connectors/connector.py:81-85 | Signature triples `("ab", "", "")` and `("a", "b", "")` derive the same id, because the signatures are concatenated without a separator. |
| Connector.PartitionSignatureCollision | python/aibrix_kvcache/aibrix_kvcache/l2/connectors/connector.py:80-85 | A partition containing `_` collides with a shorter partition carrying a signature. |
| Connector.BackendOf | python/aibrix_kvcache/aibrix_kvcache/l2/connectors/connector.py:87-108 | A backend that is found is the one whose name is exactly the string given. |
| Connector.BackendOfName | python/aibrix_kvcache/aibrix_kvcache/l2/connectors/connector.py:87-106 | Each of the five backends is found by its own name. |
| Connector.AcceptedNames | python/aibrix_kvcache/aibrix_kvcache/l2/connectors/connector.py:87-108 | A name is accepted iff it is one of ROCKSDB, INFINISTORE, HPKV, PRIS or MOCK. |
| Connector.LowerCaseRejected | python/aibrix_kvcache/aibrix_kvcache/l2/connectors/connector.py:87-108 | The comparison is case-sensitive: "rocksdb" and "Mock" are rejected. |
| Connector.Create | python/aibrix_kvcache/aibrix_kvcache/l2/connectors/connector.py:67-108 | `create` succeeds iff the backend name is known. On success the connector has that backend, the derived `conn_id` and the configured executor. Otherwise the error is "Unknown connector type: " followed by the name. |
| Connector.CreateByName | python/aibrix_kvcache/aibrix_kvcache/l2/connectors/connector.py:87-106 | Each backend name creates a connector of that backend. |
| Connector.BaseBehaviour | python/aibrix_kvcache/aibrix_kvcache/l2/connectors/connector.py:140-225 | In the base class only `prefetch` completes. `register_slabs`, `get_batches`, `mget` and `mput` raise NotImplementedError. |
| Connector.DefaultFeatureMatchesBase | python/aibrix_kvcache/aibrix_kvcache/l2/connectors/connector.py:38-40 | By default `mput_mget` is off, and the batch operations it guards are not implemented in the base class. |
| PredictorMath.Pow2 | pkg/cache/output_predictor.go:209 | `math.Pow(2, k)` on a non-negative exponent is at least 1. |
| PredictorMath.Pow2Monotone | pkg/cache/output_predictor.go:209-212 | Powers of two grow with the exponent. |
| PredictorMath.BitLengthBounds | pkg/cache/output_predictor.go:152-153 | `2^(bitlen(n)-1) <= n < 2^bitlen(n)`. |
| PredictorMath.BitLengthMonotone | pkg/cache/output_predictor.go:152-153 | The bit length grows with its argument. |
| PredictorMath.BucketCount | pkg/cache/output_predictor.go:152-153 | The bucket count `ceil(log2(max + 1))` is the least `r` with `max < 2^r`. |
| PredictorMath.RoundLog2 | pkg/cache/output_predictor.go:236 | `round(log2(t))` is the `k` with `2^(2k) <= 2t^2 < 2^(2k+2)`. |
| PredictorMath.RoundLog2Bracket | pkg/cache/output_predictor.go:236 | Half the bit length of `t^2` satisfies that bracket. |
| PredictorMath.RoundLog2Unique | pkg/cache/output_predictor.go:236 | Only one `k` satisfies the bracket. |
| PredictorMath.RoundLog2Monotone | pkg/cache/output_predictor.go:236 | The rounded logarithm grows with the token count. |
| PredictorMath.Token2Bucket | pkg/cache/output_predictor.go:233-242 | For `limit >= 1` the bucket is in `[0, limit)`, and token counts `<= 0` map to 0. For `limit <= 0` the result is `limit - 1`, as the Go code returns. |
| PredictorMath.Token2BucketRounds | pkg/cache/output_predictor.go:233-242 | For positive tokens the bucket is the rounded logarithm, clamped to `limit - 1`. |
| PredictorMath.Token2BucketMonotone | pkg/cache/output_predictor.go:233-242 | More tokens never map to a lower bucket. |
| PredictorMath.MulMonotone | pkg/cache/output_predictor.go:229-231 | Multiplying by a non-negative row width preserves order. |
| PredictorMath.RowUnique | pkg/cache/output_predictor.go:229-231 | A flat index lies in exactly one row. |
| PredictorMath.RowInside | pkg/cache/output_predictor.go:205-206 | The cells of a row that exists lie inside the summary array. |
| PredictorMath.RowOf | pkg/cache/output_predictor.go:205-206 | A row of the summary has `outputBuckets` cells. |
| PredictorMath.BucketIndex | pkg/cache/output_predictor.go:229-231 | `bucket2idx(i, o)` lies in row `i`, and it decodes back to `(i, o)` by division and remainder. |
| PredictorMath.BucketIndexDecodes | pkg/cache/output_predictor.go:229-231 | `i*ob + o` decodes back to `i` and `o` for `0 <= o < ob`. |
| PredictorMath.BucketIndexInside | pkg/cache/output_predictor.go:229-231 | With `i < inputBuckets` and `o < outputBuckets`, the index lies inside `inputs`. |
| PredictorMath.SlotCount | pkg/cache/output_predictor.go:147-156 | The window has `window/interval + 1` slots, plus one more when the window is not a whole number of intervals. So its readable slots cover the window and no more than one extra interval. |
| PredictorMath.SourceSlotCount | pkg/cache/output_predictor.go:147-156 | The same count for any non-negative window. It is 1 exactly when the window is 0, and it agrees with `SlotCount` for every window of at least 1 ns. |
| PredictorMath.Zeros | pkg/cache/output_predictor.go:159-166 | A freshly made distribution is all zeros. |
| PredictorMath.RowSumUpdate | pkg/cache/output_predictor.go:187-188 | Adding `d` to a cell changes its row's sum by `d` and no other row's sum. |
| PredictorMath.RowSumDiff | pkg/cache/output_predictor.go:76-78 | Subtracting a slot cell by cell subtracts its row sums. |
| PredictorMath.RowSumPrefix | pkg/cache/output_predictor.go:72-88 | A row sum depends only on the cells it covers. |
| PredictorMath.RowScan | pkg/cache/output_predictor.go:205-211 | The running total of a row scan is a prefix sum of that row, and the full scan gives the row sum. |
| PredictorMath.FirstExceedingFrom | pkg/cache/output_predictor.go:206-212 | The scan from position `i` stops at the first bucket whose running total exceeds the cursor, or at the last bucket. |
| PredictorMath.FirstExceeding | pkg/cache/output_predictor.go:206-212 | The same, for the scan from the start of the row. |
| PredictorMath.FirstExceedingUnique | pkg/cache/output_predictor.go:206-212 | Any bucket meeting the "first exceeding" condition is the one `FirstExceeding` picks. |
| PredictorMath.FirstExceedingIsFirst | pkg/cache/output_predictor.go:206-212 | When the cursor is below the row total, the chosen bucket satisfies `prefix(k) <= cursor < prefix(k+1)`. |
| PredictorHistory.ColSumUpdate | pkg/cache/output_predictor.go:189 | Replacing one slot changes each column sum by that slot's difference. |
| PredictorHistory.Dist | pkg/cache/output_predictor.go:132-142 | The ring distance from tail to head is below the window length. |
| PredictorHistory.At | pkg/cache/output_predictor.go:132-142 | Stepping `d` slots modulo the window lands `d` slots further on. |
| PredictorHistory.SkipTotalAtLeast | pkg/cache/output_predictor.go:103-105 | When every slot in use has a skip count of at least 1, `size` is at least the number of slots in use. |
| PredictorHistory.SkipTotalFrame | pkg/cache/output_predictor.go:103-105 | `size` depends only on the skip cells of the slots in use. |
| PredictorHistory.SkipTotalFront | pkg/cache/output_predictor.go:142-143 | Dropping the oldest slot removes its skip count from the total. |
| PredictorHistory.RingSizeAtLeastDist | pkg/cache/output_predictor.go:103-105 | Under the ring invariant, `size` is at least the distance from tail to head. |
| PredictorHistory.SetCell | pkg/cache/output_predictor.go:189 | Writing one cell of one slot changes that cell only. |
| PredictorHistory.ForwardKeepsRing | pkg/cache/output_predictor.go:132-135 | Moving the head one slot and writing `forwarded >= 1` into its skip cell keeps the ring invariant, with `size + forwarded`. |
| PredictorHistory.ResetTailKeepsRing | pkg/cache/output_predictor.go:140-144 | Zeroing the tail slot and stepping the tail keeps the ring invariant. Size drops by the new tail's skip count, and the ring distance drops by one. |
| PredictorHistory.SettledRingHasSpare | pkg/cache/output_predictor.go:260-283 | Once `size < len(window) - 1`, a spare slot lies ahead of the head. |
| PredictorHistory.NonEmptyRing | pkg/cache/output_predictor.go:281-283 | While `size >= len(window) - 1`, the tail has not reached the head, so `resetTail` has a slot to drop. |
| PredictorHistory.Retire | pkg/cache/output_predictor.go:281-283 | The slots, tail and size where `rotate`'s loop stops. While `size >= len(window) - 1`, it clears the tail slot, steps the tail and subtracts the new tail's skip count. It stops at the first state below the bound. The result keeps the ring's shape. |
| PredictorHistory.RetireClearsPassedSlots | pkg/cache/output_predictor.go:281-283 | The loop moves the tail forward but not past the head. The slots it passed are cleared, and every other slot keeps its contents. |
| PredictorHistory.RetireSettles | pkg/cache/output_predictor.go:276-283 | On a ring of at least two slots that may be full, the loop ends below `len(window) - 1` with a spare slot ahead of the head. |
| PredictorHistory.ZeroWindowRotationNeverEnds | pkg/cache/output_predictor.go:276-283 | With a zero window the ring has one slot. A `resetTail` step leaves the tail at slot 0 and the size unchanged. The guard `size >= 0` therefore stays true. |
| PredictorHistory.Rotated | pkg/cache/output_predictor.go:255-285 | The history after a rotation by `f` intervals. The slot after the head opens with skip count `f` and becomes the head, then `Retire` runs. The result keeps the ring's shape. |
| PredictorHistory.AfterTryRotate | pkg/cache/output_predictor.go:244-285 | The history after `tryRotate`. It is unchanged within the head slot's interval or when `rotate` refuses. Otherwise it is `Rotated` by the number of whole intervals that passed. |
| PredictorHistory.RotatedSlots | pkg/cache/output_predictor.go:255-285 | After a rotation, the new head is the slot after the old head and holds skip count `f`. The slots the tail passed are zero, and every other slot is as before. |
| PredictorHistory.RotatedRing | pkg/cache/output_predictor.go:255-285 | A rotation by `f >= 1` from a ring with a spare slot keeps the ring invariant with a spare slot. It leaves `size < len(window) - 1`, and the new head holds nothing but its skip count. |
| PredictorHistory.SkipWriteKeepsSummary | pkg/cache/output_predictor.go:134 | Writing a skip cell leaves the summary invariant intact. |
| PredictorHistory.CountKeepsRing | pkg/cache/output_predictor.go:189 | Counting into the head slot keeps the ring invariant. |
| PredictorHistory.CountKeepsSummary | pkg/cache/output_predictor.go:186-189 | Adding `cnt` to `inputs[idx]`, to `inputsSums[b]` for the row of `idx`, and to the head slot's `[idx]` keeps the summary invariant. |
| PredictorHistory.ClearKeepsSummary | pkg/cache/output_predictor.go:72-88 | Subtracting a slot from the summary and zeroing it keeps the summary invariant. |
| PredictorHistory.ColSumOfZeros | pkg/cache/output_predictor.go:165-167 | The column sums of an all-zero history are 0. |
| PredictorHistory.RowSumOfZeros | pkg/cache/output_predictor.go:159-160 | The row sums of an all-zero summary are 0. |
| PredictorHistory.EmptyHistory | pkg/cache/output_predictor.go:146-168 | A fresh predictor satisfies the summary invariant and the ring invariant with `head == tail` and `size == 0`. |
| PredictorHistory.DrawSelectsFirstExceeding | pkg/cache/output_predictor.go:196-212 | Under the summary invariant, a cursor below the row total selects the first bucket whose running total exceeds it, and the prediction is at most `2^(outputBuckets-1)`. |
| OutputPredictor.ColdPredictWith | pkg/cache/output_predictor.go:215-227 | Optimistic predicts 1, Pessimistic predicts `MaxOutputLen`, Random predicts a value in `[1, MaxOutputLen]`, and Input echoes the input tokens. |
| OutputPredictor.ColdPredict | pkg/cache/output_predictor.go:215-227 | The default strategy is optimistic, so a cold prediction is 1. |
| OutputPredictor.SetSkipped | pkg/cache/output_predictor.go:90-96 | Writes the skip cell and leaves every other cell alone. |
| OutputPredictor.ResetDistribution | pkg/cache/output_predictor.go:72-88 | The slot becomes all zeros, skip cell included. Each removed count is subtracted from `inputs` and from the row sum of its input bucket. |
| OutputPredictor.ZeroArray | pkg/cache/output_predictor.go:159-160 | A fresh zeroed array of the given length. |
| OutputPredictor.AllocateSlots | pkg/cache/output_predictor.go:165-167 | Distinct fresh zeroed slots, each `cells + 1` long. |
| OutputPredictor.SimpleOutputPredictor.Row | pkg/cache/output_predictor.go:205-207 | Row `b` of the summary has `outputBuckets` cells. |
| OutputPredictor.SimpleOutputPredictor.constructor | pkg/cache/output_predictor.go:146-168 | Bucket counts are the bit lengths of the maxima. The window has `SlotCount` slots. Everything is zero, `head == tail == 0`, and the invariant holds. |
| OutputPredictor.SimpleOutputPredictor.ForwardLocked | pkg/cache/output_predictor.go:120-138 | Under one interval: returns 0 and changes nothing. Otherwise: returns `f`, the number of whole intervals since the head timestamp (at least 1), with `headTimestamp + f*interval <= ts < ... + interval`, moves the head one slot, writes `f` into the new head's skip cell (which was empty) and adds `f` to `size`. |
| OutputPredictor.SimpleOutputPredictor.OpenHead | pkg/cache/output_predictor.go:132-135 | The writes of `forwardLocked`, given the post-state the ring lemmas established. |
| OutputPredictor.SimpleOutputPredictor.ResetTail | pkg/cache/output_predictor.go:140-144 | Zeroes the tail slot, steps the tail, subtracts the new tail's skip count from `size`, and keeps the summary and ring invariants. |
| OutputPredictor.SimpleOutputPredictor.StepTail | pkg/cache/output_predictor.go:142-143 | Steps the tail and subtracts its skip count from `size`. |
| OutputPredictor.SimpleOutputPredictor.ClearTail | pkg/cache/output_predictor.go:141 | Subtracts the tail slot from the summary and zeroes it, keeping the summary invariant. |
| OutputPredictor.SimpleOutputPredictor.Rotate | pkg/cache/output_predictor.go:255-285 | Returns false, changing nothing, iff `size > len(window) - 1`. Within one interval it returns true and changes nothing. After a forward, the slots, head, tail and size are exactly `Rotated` of the old state by the intervals that passed. The head timestamp moves by exactly the whole intervals that passed, to `old + f*interval` (the last grid point at or before `ts`), and the ring is below the bound. The summaries are the column and row sums of the new slots, by the invariant. |
| OutputPredictor.SimpleOutputPredictor.RetireUntilSettled | pkg/cache/output_predictor.go:281-283 | The loop of `rotate`: the slots, tail and size become exactly `Retire` of the old ones, and the ring is left below the bound with a spare slot. |
| OutputPredictor.SimpleOutputPredictor.RetireOne | pkg/cache/output_predictor.go:281-283 | One pass of the loop leaves the same final `Retire` state and brings the tail closer to the head. |
| OutputPredictor.SimpleOutputPredictor.TryRotate | pkg/cache/output_predictor.go:244-253 | The slots, head, tail and size become `AfterTryRotate` of the old ones. Nothing changes within one interval or when `rotate` refuses. Otherwise the head timestamp moves to exactly `old + f*interval` for the `f` whole intervals that passed (the last grid point at or before `ts`), and the ring is below the bound. |
| OutputPredictor.SimpleOutputPredictor.TraceCell | pkg/cache/output_predictor.go:174-175 | The cell of a trace lies inside `inputs`, in the row of its input bucket. |
| OutputPredictor.SimpleOutputPredictor.AddToBuckets | pkg/cache/output_predictor.go:174-189 | Adds `cnt` to exactly `inputs[idx]`, `inputsSums[inputBucket]` and the head slot's `[idx]`. Nothing else changes, and the invariant holds. |
| OutputPredictor.SimpleOutputPredictor.Count | pkg/cache/output_predictor.go:186-189 | Adds `cnt` to the three cells, keeps the invariant and leaves the ring fields alone. |
| OutputPredictor.SimpleOutputPredictor.WriteCount | pkg/cache/output_predictor.go:187-189 | The three writes, given the post-state the summary lemmas established. |
| OutputPredictor.SimpleOutputPredictor.AddTraceWithTimestamp | pkg/cache/output_predictor.go:171-190 | Keeps the invariant and a settled ring. Head, tail and size are those of `AfterTryRotate`. The slots are `AfterTryRotate`'s slots with `cnt` added to the trace's cell of the head slot, in the rotating case too. Without a rotation, `cnt` is added to exactly the three cells. With one, the head timestamp moves to exactly `old + f*interval` for the `f` whole intervals that passed. |
| OutputPredictor.SimpleOutputPredictor.Predict | pkg/cache/output_predictor.go:196-213 | If the input bucket's total is 0, the result is the cold prediction. Otherwise it is `2^k` for the first output bucket `k` whose running total exceeds the cursor. |
| Templates.ParamNames | python/aibrix/aibrix/cli/commands/templates.py:358-367 | The declared parameter names, in order. |
| Templates.FindTemplate | python/aibrix/aibrix/cli/commands/templates.py:119-128 | `TEMPLATES.get(name)`: None iff no template has that name, otherwise the template with that name. |
| Templates.MissingRequiredEmpty | python/aibrix/aibrix/cli/commands/templates.py:360-363 | No missing-required error iff every required parameter is supplied. |
| Templates.SuppliedErrorsEmpty | python/aibrix/aibrix/cli/commands/templates.py:365-378 | No value error iff every supplied parameter is declared, and every integer parameter among them parses to at least 1. |
| Templates.ValidationAcceptsIff | python/aibrix/aibrix/cli/commands/templates.py:341-380 | `validate_parameters` returns no errors iff the template exists, its required parameters are present, and every supplied value is acceptable. |
| Templates.UnknownTemplateOnlyError | python/aibrix/aibrix/cli/commands/templates.py:353-355 | An unknown template yields exactly one error, "Unknown template: " followed by the name. |
| Templates.CollectMissing | python/aibrix/aibrix/cli/commands/templates.py:360-363 | The first loop collects the missing-required errors, in the template's parameter order. |
| Templates.CollectValueErrors | python/aibrix/aibrix/cli/commands/templates.py:365-378 | The second loop collects, per supplied parameter in insertion order, either "Unknown parameter", or the "must be integer" / "must be positive integer" error for the integer parameters. |
| Templates.ValidateParameters | python/aibrix/aibrix/cli/commands/templates.py:341-380 | The two loops together give exactly the errors defined by `ValidationErrors`. |
| Templates.Fill | python/aibrix/aibrix/cli/commands/templates.py:152-153 | Writing one default keeps the dictionary well formed. |
| Templates.WithDefaults | python/aibrix/aibrix/cli/commands/templates.py:150-153 | The default-filling loop keeps the dictionary well formed. |
| Templates.WithDefaultsValues | python/aibrix/aibrix/cli/commands/templates.py:150-153 | A supplied value is never overwritten. An absent key gets the default of its first declaration that has one, and stays absent when there is none. |
| Templates.DefaultOfSnoc | python/aibrix/aibrix/cli/commands/templates.py:151-153 | A later declaration supplies a default only when no earlier one did. |
| Templates.Param | python/aibrix/aibrix/cli/commands/templates.py:172-219 | `params[key]` succeeds iff the key is present; otherwise it raises KeyError(key). |
| Templates.IntParam | python/aibrix/aibrix/cli/commands/templates.py:179 | `int(params[key])` succeeds iff the key is present and the value parses. |
| Templates.DeploymentDoc | python/aibrix/aibrix/cli/commands/templates.py:167-252 | The Deployment is `apps/v1`, named after the model, with `spec.replicas` set to the integer given. |
| Templates.ServiceDoc | python/aibrix/aibrix/cli/commands/templates.py:254-281 | The Service is `v1`, named after the model. |
| Templates.AutoscalerDoc | python/aibrix/aibrix/cli/commands/templates.py:296-313 | The PodAutoscaler is `autoscaling.aibrix.ai/v1alpha1`, named `<model>-autoscaler`, and carries the min and max replica counts. |
| Templates.KvcacheDoc | python/aibrix/aibrix/cli/commands/templates.py:321-337 | The KVCache is `orchestration.aibrix.ai/v1alpha1`, named `<model>-kvcache`, and carries the cache type and size. |
| Templates.QuickstartManifest | python/aibrix/aibrix/cli/commands/templates.py:165-284 | Builds iff `model_name`, `replicas`, `model_path`, `max_model_len` and `gpu_count` are present and `replicas` parses. Otherwise the error comes from the first failing read, in the order the document literal reads them: a KeyError for each missing key, or the `int()` error for an unparsable `replicas`. On success there are exactly two documents, the Deployment and then the Service. |
| Templates.AutoscalingManifest | python/aibrix/aibrix/cli/commands/templates.py:286-315 | Either the quickstart failure, or the quickstart documents followed by the autoscaler. The latter requires the min and max replica counts to parse and `target_cpu` to be present. |
| Templates.KvcacheManifest | python/aibrix/aibrix/cli/commands/templates.py:317-339 | Either the quickstart failure, or the quickstart documents followed by the KVCache. The latter requires `cache_type` and `cache_size` to be present. |
| Templates.FirstMissing | python/aibrix/aibrix/cli/commands/templates.py:146-148 | None iff every required parameter is present; otherwise an absent parameter. |
| Templates.Generate | python/aibrix/aibrix/cli/commands/templates.py:130-163 | `generate_manifest` leaves the caller's dictionary well formed. |
| Templates.GenerateManifest | python/aibrix/aibrix/cli/commands/templates.py:130-163 | The method checks the template name and the required parameters, writes the defaults into the caller's `StrDict`, and builds. Result and new dictionary are as `Generate` defines. |
| Templates.GenerateChecksFirst | python/aibrix/aibrix/cli/commands/templates.py:140-148 | An unknown template, or a missing required parameter, fails before anything is written. |
| Templates.GenerateWritesDefaults | python/aibrix/aibrix/cli/commands/templates.py:150-153 | After generation, supplied keys keep their values and absent keys hold their defaults. |
| Templates.ParseAssignments | python/aibrix/aibrix/cli/commands/templates.py:439-447 | None iff some item lacks `=`. Otherwise each item splits at its first `=`, so values may contain `=`. |
| Templates.HandleGenerateTemplate | python/aibrix/aibrix/cli/commands/templates.py:433-474 | Exits 0 iff documents were produced, and exits 1 otherwise. |
| Templates.DefaultOfUndeclared | python/aibrix/aibrix/cli/commands/templates.py:151-153 | A key no declaration names has no default. |
| Templates.ExtendedTemplateLacksReplicas | python/aibrix/aibrix/cli/commands/templates.py:59-104 | The autoscaling and kvcache templates exist but declare no `replicas`, so `replicas` has no default. |
| Templates.SourceExtendedNeverGenerate | python/aibrix/aibrix/cli/commands/templates.py:59-179 | For autoscaling and kvcache, every parameter set that validation accepts fails generation with KeyError('replicas'). |
| Templates.UndeclaredRejected | python/aibrix/aibrix/cli/commands/templates.py:366-369 | Accepted parameters contain no undeclared key. |
| Templates.MissingReplicasFails | python/aibrix/aibrix/cli/commands/templates.py:286-339 | Without `replicas`, supplied or defaulted, the extended builders fail on it. |
| Templates.SourceExtendedHandlerFails | python/aibrix/aibrix/cli/commands/templates.py:433-474 | `aibrix template generate autoscaling/kvcache` produces nothing, whatever the command line holds. |
| Templates.FilledParam | python/aibrix/aibrix/cli/commands/templates.py:150-153 | A parameter that was supplied or has a default is present after filling. |
| Templates.FilledIntParam | python/aibrix/aibrix/cli/commands/templates.py:150-153 | An integer parameter that was accepted, or that defaults to an integer, parses after filling. |
| Templates.QuickstartReady | python/aibrix/aibrix/cli/commands/templates.py:165-284 | The quickstart documents build from the filled parameters of any accepted set. |
| Templates.DefaultOfAppend | python/aibrix/aibrix/cli/commands/templates.py:151-153 | The default over concatenated declarations comes from the first part when it has one, and from the second part otherwise. |
| Templates.CorrectedAutoscalingDefaults | python/aibrix/aibrix/cli/commands/templates.py:59-83 | The corrected autoscaling template defaults replicas, gpu_count and max_model_len, as well as its own parameters. |
| Templates.CorrectedKvcacheDefaults | python/aibrix/aibrix/cli/commands/templates.py:84-104 | The corrected kvcache template defaults the quickstart parameters, as well as its own. |
| Templates.DefaultReplicaCounts | python/aibrix/aibrix/cli/commands/templates.py:45-77 | The default counts "1" and "10" parse as integers. |
| Templates.CorrectedTable | python/aibrix/aibrix/cli/commands/templates.py:33-105 | What each corrected entry requires and defaults. |
| Templates.AutoscalingReady | python/aibrix/aibrix/cli/commands/templates.py:286-315 | The autoscaling documents build from the filled parameters of an accepted set when the needed defaults are declared. |
| Templates.KvcacheReady | python/aibrix/aibrix/cli/commands/templates.py:317-339 | The kvcache documents build from the filled parameters of an accepted set when the needed defaults are declared. |
| Templates.CorrectedBuilds | python/aibrix/aibrix/cli/commands/templates.py:155-163 | Every corrected template's documents build from the filled parameters it accepts. |
| Templates.CorrectedTemplatesGenerate | python/aibrix/aibrix/cli/commands/templates.py:130-163 | With the corrected table, every parameter set that validation accepts generates. |
| Templates.CorrectedHandlerSucceeds | python/aibrix/aibrix/cli/commands/templates.py:433-474 | With the corrected table, the handler produces documents whenever the items parse and validate. |
| Management.PluralName | python/aibrix/aibrix/cli/commands/management.py:174-186 | The seven listed kinds get their fixed plural. Any other kind gets `kind.lower() + "s"`. |
| Management.Group | python/aibrix/aibrix/cli/commands/management.py:153 | `api_version.split("/")[0]` is the text before the first `/`, or the whole string when there is none. |
| Management.Classify | python/aibrix/aibrix/cli/commands/management.py:143-172 | apps/v1 Deployment and v1 Service are accepted. A string apiVersion ending in `.aibrix.ai/v1alpha1` becomes a custom resource with its group, `v1alpha1` and the plural of the kind. Any other string apiVersion is unsupported. |
| Management.ApplyResource | python/aibrix/aibrix/cli/commands/management.py:134-137 | Reading a document raises iff it is not a mapping or its `metadata` is not one. Otherwise the document is classified on its `apiVersion` and `kind`. |
| Management.DeployFromManifest | python/aibrix/aibrix/cli/commands/management.py:70-101 | Fails iff the file did not load or applying some non-empty document raises. The results of the applications are ignored. |
| Management.ApplyAll | python/aibrix/aibrix/cli/commands/management.py:90-94 | Empty documents are skipped, and the loop survives iff no application raises. |
| Management.DeployWorkload | python/aibrix/aibrix/cli/commands/management.py:41-68 | Uses the manifest file if one is given, else succeeds with a template, else returns false. |
| Management.MissingFieldsEmpty | python/aibrix/aibrix/cli/commands/management.py:327-330 | No missing-field error iff every required field is present. |
| Management.DocumentErrorsEmpty | python/aibrix/aibrix/cli/commands/management.py:317-336 | A document produces no error iff it is empty, or it is a mapping with all three fields and a non-empty `metadata.name`. |
| Management.ManifestValidIff | python/aibrix/aibrix/cli/commands/management.py:316-343 | `validate_manifest` is true iff every document passes its checks, and empty documents always pass. |
| Management.MissingFieldsNamed | python/aibrix/aibrix/cli/commands/management.py:329-330 | Each missing-field error names its document. |
| Management.EveryBadDocumentReported | python/aibrix/aibrix/cli/commands/management.py:316-337 | Checking continues past a bad document: each failing document contributes an error naming it. |
| Management.CheckRequiredFields | python/aibrix/aibrix/cli/commands/management.py:327-330 | The field loop reports the missing fields, in order. |
| Management.ValidateManifest | python/aibrix/aibrix/cli/commands/management.py:298-350 | Returns `ManifestValid`, and logs the errors of every document in order. |
| Management.ManifestErrorsStop | python/aibrix/aibrix/cli/commands/management.py:334-350 | A non-mapping `metadata` raises, which makes the whole manifest invalid. |
| Management.KeepAssignments | python/aibrix/aibrix/cli/commands/management.py:366-369 | Items without `=` are dropped, and keys contain no `=`. |
| Management.DeployParamLastWins | python/aibrix/aibrix/cli/commands/management.py:366-369 | A later item for the same key overwrites an earlier one. |
| Management.ParseDeployParams | python/aibrix/aibrix/cli/commands/management.py:363-369 | The loop fills a fresh dictionary with every kept assignment, in order. |
| Management.KeepOneMore | python/aibrix/aibrix/cli/commands/management.py:366-369 | One more item adds its split, or nothing when it has no `=`. |
| Management.HandleDeploy | python/aibrix/aibrix/cli/commands/management.py:353-382 | Exits 0 iff `deploy_workload` succeeds. |
| Management.EndsWithAppend | python/aibrix/aibrix/cli/commands/management.py:151 | A string ending in the AIBrix suffix passes `endswith`. |
| Management.NamedDocument | python/aibrix/aibrix/cli/commands/management.py:134-168 | A generated document is applied by its own apiVersion and kind, and it validates iff its name is not empty. |
| Management.ApplyAllSucceeded | python/aibrix/aibrix/cli/commands/management.py:90-97 | When every document is applied successfully, the deployment loop completes. |
| Management.QuickstartDocuments | python/aibrix/aibrix/cli/commands/management.py:134-168 | The quickstart documents deploy, and they validate iff the model name is not empty. |
| Management.NamedPair | python/aibrix/aibrix/cli/commands/management.py:143-150 | A Deployment and Service pair named after the model deploys, and validates iff the name is not empty. |
| Management.AibrixDocument | python/aibrix/aibrix/cli/commands/management.py:151-161 | An AIBrix resource with a name deploys and validates. |
| Management.ExtendedDocuments | python/aibrix/aibrix/cli/commands/management.py:316-343 | Appending such a resource to the quickstart documents keeps them deployable, and valid iff the model name is not empty. |
| Management.AutoscalingDocuments | python/aibrix/aibrix/cli/commands/management.py:134-168 | The autoscaling documents deploy, and validate iff the model name is not empty. |
| Management.KvcacheDocuments | python/aibrix/aibrix/cli/commands/management.py:134-168 | The kvcache documents deploy, and validate iff the model name is not empty. |
| Management.BuiltDocuments | python/aibrix/aibrix/cli/commands/management.py:134-168 | The documents of any template deploy, and validate iff the model name is not empty. |
| Management.GeneratedManifestDeploys | python/aibrix/aibrix/cli/commands/management.py:70-101 | A generated manifest deploys with every document handled. `validate_manifest` accepts it iff the model name is not empty. |
| Monitoring.Number | python/aibrix/aibrix/cli/commands/monitoring.py:88 | The counters that `>` can compare with 0 are integers and booleans. |
| Monitoring.Overall | python/aibrix/aibrix/cli/commands/monitoring.py:85-91 | The status is one of the three strings. The comparison raises only when the record is not ready and its ready count is not a number. |
| Monitoring.FormatDeploymentStatus | python/aibrix/aibrix/cli/commands/monitoring.py:67-105 | "Ready" iff ready equals target and unavailable is 0. Otherwise "Partially Ready" iff ready > 0, else "Not Ready". The four counters are copied through unchanged. |
| Monitoring.EmptyRecordReady | python/aibrix/aibrix/cli/commands/monitoring.py:76-87 | Missing counters count as 0, so a record without spec or status is "Ready". |
| Monitoring.ClientDeployment | python/aibrix/aibrix/cli/k8s_client.py:465-485 | The client's record always has the three sections and is non-empty. |
| Monitoring.ClientDeploymentStatus | python/aibrix/aibrix/cli/commands/monitoring.py:67-105 | On a client record, formatting agrees with the integer classification. An unset target never matches. Names, labels and counters are copied through. |
| Monitoring.WorkloadStatus | python/aibrix/aibrix/cli/commands/monitoring.py:41-65 | Non-deployments give "Unknown" with the type echoed. A missing deployment gives "Not Found" with its message. An existing one gives the formatted report. |
| Monitoring.ClientDeploymentReported | python/aibrix/aibrix/cli/commands/monitoring.py:52-57 | The status of a fetched client record is its integer classification. |
| Monitoring.EffectiveNamespace | python/aibrix/aibrix/cli/commands/monitoring.py:195 | `namespace or client.namespace`: an absent or empty namespace falls back to the client's. |
| Monitoring.ParsePortSpec | python/aibrix/aibrix/cli/commands/monitoring.py:362-367 | With a `:`, the spec splits at the first one and both parts must parse; the result is the two parsed numbers, local then remote. Without one, the single number is both ports. |
| Monitoring.SplitOnceUnique | python/aibrix/aibrix/cli/commands/monitoring.py:363 | There is only one way to split at the first `:`. |
| Monitoring.NoColonInFormatInt | python/aibrix/aibrix/cli/commands/monitoring.py:203 | A formatted port contains no `:`. |
| Monitoring.PortArgumentRoundTrip | python/aibrix/aibrix/cli/commands/monitoring.py:362-365 | `"L:R"` formatted from two ports parses back to those ports. |
| Monitoring.SinglePortRoundTrip | python/aibrix/aibrix/cli/commands/monitoring.py:366-367 | A single formatted port parses to that port twice. |
| Monitoring.HandlePortForward | python/aibrix/aibrix/cli/commands/monitoring.py:351-381 | A spec that does not parse exits 1 without running anything. Otherwise it runs the port-forward command and exits 0 iff kubectl returns 0. |
| Monitoring.PortForwardCommandShape | python/aibrix/aibrix/cli/commands/monitoring.py:199-205 | The command is `kubectl port-forward service/<svc> L:R -n <ns>`, and its port argument parses back to `(L, R)`. |
| PyStr.Find | python/aibrix/aibrix/cli/commands/management.py:367-368 | The first occurrence of a character, or None iff it is absent. |
| PyStr.SplitOnce | python/aibrix/aibrix/cli/commands/management.py:367-368 | `s.split(c, 1)` on a string containing `c`: the head has no `c`, and head, `c` and rest rejoin to `s`. |
| PyStr.SplitOnceJoin | python/aibrix/aibrix/cli/commands/templates.py:442-444 | Splitting undoes joining at a separator the head lacks. |
| PyStr.Lower | python/aibrix/aibrix/cli/commands/management.py:186 | ASCII `lower()` maps each character. |
| PyStr.NatDigits | python/aibrix/aibrix/cli/commands/monitoring.py:203 | `str(n)` for `n >= 0` is a non-empty run of digits. |
| PyStr.NatDigitsValue | python/aibrix/aibrix/cli/commands/monitoring.py:203 | Those digits denote `n`. |
| PyStr.ParseFormat | python/aibrix/aibrix/cli/commands/monitoring.py:364-365 | `int(str(n)) == n`. |
| Yaml.Lookup | python/aibrix/aibrix/cli/commands/templates.py:165-284 | The empty path gives the value itself. |
| Dicts.Assign | python/aibrix/aibrix/cli/commands/management.py:369 | `d[k] = v` sets the value and appends the key only when it is new. |
| Dicts.AssignAllSnoc | python/aibrix/aibrix/cli/commands/management.py:366-369 | One more pair is one more assignment. |
| Dicts.AssignAllLastWins | python/aibrix/aibrix/cli/commands/management.py:366-369 | A key holds the value of its last assignment. |
| Dicts.AssignAllKeys | python/aibrix/aibrix/cli/commands/management.py:366-369 | A key is present afterwards iff it was present before or some pair assigns it. |
| Dicts.StrDict.constructor | python/aibrix/aibrix/cli/commands/management.py:365 | A fresh dictionary is empty. |
| Dicts.StrDict.Set | python/aibrix/aibrix/cli/commands/management.py:369 | `self[k] = v` in place, as `Assign` defines it. |

## Left out

- Backend connectors (RocksDB, InfiniStore, HPKV, PRIS, Mock) are not part of this model. `create` returns a handle recording the backend, `conn_id` and executor, not a constructed backend. `from_envs`, `name`, `feature`, `open`, `close`, `exists`, `get`, `put` and `delete` are abstract in the base class.
- The `**kwargs`, `async` plumbing and the opaque `MemoryRegion`, `Status` and `torch.Tensor` types are not modelled. `Executor` is an opaque identifier.
- Concurrency in the predictor is not modelled: the `go p.rotate` goroutine, `runtime.Gosched`, atomics, the `RWMutex` and `testWait`. `AddTrace`, `rotate` and `Predict` are sequential methods, so the interleavings the lock-free design allows are not covered.
- The predictor's counters are unbounded integers. The 32-bit wrap-around of `int32` counts and of `size` is not modelled.
- Floats in the predictor are replaced by integer definitions (see above). The model does not capture where `math.Log2` rounding on very large inputs could differ from the exact integer bracket.
- The random cold-prediction strategy and `rand.Int31n` are parameters. Only the optimistic default is reachable, because `DefaultColdPrediction` is a constant.
- OutputPredictor.SimpleOutputPredictor.Predict: requires the cursor to lie in `[0, row total)`, which is the range `rand.Int31n` draws from. A negative row total has no such cursor and is not modelled. `AddTraceWithTimestamp` accepts a negative `cnt`, as `AddTrace` does, and can make a row total negative. `Predict` then calls `rand.Int31n` with a negative bound, which panics.
- OutputPredictor.SimpleOutputPredictor.constructor: requires both maxima and the window to be at least 1. The Go code also accepts zero and negative values; `window` is a signed `time.Duration`, and Go's `/` and `%` truncate toward zero.
  - A zero maximum gives zero buckets, and the first trace then panics with an index out of range.
  - A negative maximum passes a value of 0 or less to `math.Log2`. The bucket count then comes from converting `-Inf` or `NaN` to `int`, whose result Go leaves implementation-defined.
  - A zero window, or a window in (-10 s, 0), gives a ring of one slot. There `resetTail` never lowers `size`, so the loop of the first rotation never ends (see Findings).
  - A window in (-20 s, -10 s] gives zero slots, and the first forward divides by zero in `% len(hist.window)`.
  - A window of -20 s or less asks `make` for a negative length, which panics.
- PredictorMath.SourceSlotCount: takes a non-negative window only. The negative windows above are not modelled.
- `AddTrace` (the wrapper that passes `time.Now()`) is not modelled: with time as a parameter it is `AddTraceWithTimestamp`. The `Tail`, `Head` and `Size` accessors are inlined.
- `rotate`'s `klog.Error` message is not modelled; only the `false` result is.
- YAML text is not modelled: `yaml.safe_load_all`, `yaml.dump_all`, key order and flow style. Loaded documents are a parameter. For `validate_manifest` and `_deploy_from_manifest`, None stands for a missing file or a YAML error.
- Files, `subprocess.Popen`, signal handlers, logging, the printed tables and `sys.exit` are not modelled. The `kubectl` return code is a parameter of `HandlePortForward`.
- The Kubernetes client (`k8s_client.py`) is not part of this model beyond the record that `_deployment_to_dict` builds. `create_custom_resource` is recorded as the call it would receive. Kubeconfig failures in the client constructor are not modelled.
- `install.py`, `completion.py`, `main.py` and the CLI tests are not part of this model.
- Python `int()` is simplified to an optional sign followed by ASCII digits: no surrounding whitespace, no `_` separators, no non-ASCII digits. `str.lower()` folds only ASCII letters.
- `list_templates`, `get_template_info`'s printing handler `handle_template_info`, and `handle_list_templates` print the table and are not modelled beyond `FindTemplate`.
- `list_workloads`, `delete_workload`, `update_workload`, `scale_workload` and their handlers are calls into the Kubernetes client or stubs that only log. `_deploy_from_template` only logs and succeeds, which `DeployWorkload` states.
- `handle_deploy` parses its parameters and hands them to `deploy_workload`, which ignores them except for the template stub. The parsed dictionary is modelled but not passed on.
- `get_workload_logs`, `_get_pods_for_workload`, `get_workload_events` and `handle_logs` are client calls and mock data. `handle_status` only prints the report `WorkloadStatus` returns.
- Monitoring.WorkloadStatus: the text of the exception in an "Error" report is not modelled, only that the report is an error.
- Monitoring.Number: Python `==` between a boolean and an integer counter is compared at the top level only. Floats and other numeric types that YAML could produce are not counters here.
- Management.PluralName: the fact that the table's entries equal the default lower-case-plus-"s" rule is not stated.
- Management.ValidateManifest: when `metadata` is not a mapping, `metadata.get` raises and validation stops early. The model returns `false` and the errors logged so far, but not the "Validation error" message.

## Findings

| source | as written | input that shows it | evidently intended | confidence | as-written member | corrected member |
|---|---|---|---|---|---|---|
| python/aibrix/aibrix/cli/commands/templates.py:59-179 | The autoscaling and kvcache templates declare neither `replicas`, `gpu_count` nor `max_model_len`, yet their builders first build the quickstart documents, which read `params["replicas"]`. Validation rejects these keys as unknown parameters, and generation does not default them. | `aibrix template generate autoscaling --params model_name=m model_path=p`: validation passes, then generation raises KeyError('replicas') and the command exits 1. Supplying `replicas=1` is rejected as "Unknown parameter: replicas". | The extended templates also declare the quickstart parameters they build on, with the quickstart defaults, so every accepted parameter set generates. | high (not executed) | Templates.SourceExtendedNeverGenerate | Templates.CorrectedTemplatesGenerate |
| pkg/cache/output_predictor.go:146-158 | `NewSimpleOutputPredictor` accepts a zero window and builds a ring of one slot. `rotate`'s bound `len(window) - 1` is then 0, and its loop runs while `size >= 0`. On one slot, `resetTail` clears that slot, leaves the tail where it was and subtracts the cleared skip cell, which is 0. | `NewSimpleOutputPredictor(10, 10, 0)`, then `AddTraceWithTimestamp(1, 1, 1, ts)` with `ts` at least 10 s after construction: the rotation forwards, `size` becomes at least 1, and the `rotate` goroutine loops forever holding the write lock. | A window of at least one nanosecond, which gives at least two slots, so that rotation always ends below the bound. | medium (not executed) | PredictorHistory.ZeroWindowRotationNeverEnds | PredictorHistory.RetireSettles |
