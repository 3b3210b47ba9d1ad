# Incident-model pipeline and rollout, in Dafny

This project models the decision and state-transition core of an ML pipeline
that trains an incident-priority model on Azure ML and promotes it to a live
endpoint. It has five parts.

- **The metric-gated rollout** (`deployment/deploy_register.py`), in the
  modules `MetricGate` and `Rollout`. The gate picks the metric to judge by
  and decides whether the model is deployed. The rollout then:
  - registers the model under a `%Y%m%d%H%M%S` timestamp version, and falls
    back to a stand-in reference when registration raises;
  - makes sure the endpoint exists, deleting a `Failed` endpoint, waiting 30
    units and recreating it;
  - polls the endpoint every 10 units, for at most 600 units;
  - creates the `blue` deployment, routes all traffic to it, and only then
    fetches the endpoint key.

  The remote workspace is the class `Rollout.Platform`. Its fields are:
  - the endpoint's provisioning state, and the states the endpoint is
    scripted to pass through while it is still being worked on;
  - the registered models, the deployments and the traffic map;
  - the clock that `time.sleep` advances;
  - the log of every call made to the workspace.

  Each SDK call is a method of the class. It appends its call to the log,
  updates the remote state, and answers from scripted constants: whether
  registration, deletion, creation, deployment or the traffic update raises,
  and with which creation message.
- **The next dataset version** (`data_uploader.py`), in the module
  `Versioning`. `AzureUploader` keeps the workspace's data registry as a
  field.
- **Decimal strings** (`str.isdigit`, `int`, `str` and zero-padded `strftime`
  fields), in the module `Digits`.
- **The cleaning step** (`pipeline/steps/clean_data_step.py`), in the modules
  `Tables` and `Cleaning`. A table is a column list plus rows that map column
  names to optional cells. `Cleaning.Clean` states the whole step as a
  function. `Cleaning.Process` performs it step by step, as the source does.
- **The pipeline plumbing** (`pipeline/pipeline.py` and
  `pipeline/pipeline_builder.py`), in the module `Pipelines`. A step is one
  of four kinds. `Pipelines.Run` is the left fold of the steps over the data.

The model follows the code as written, including these behaviours:
- When the 600-unit budget runs out, the poll loop falls through to the
  deployment. It raises no timeout error. `Rollout.StuckEndpointStillDeploys`
  exhibits a rollout that deploys to an endpoint that never reported
  `Succeeded`. So "no deployment before `Succeeded`" does not hold on this
  path.
- There is no retry when the registry reports a version conflict.
  Registration failure of any kind leads to the stand-in reference.
- When a creation error mentions `SubscriptionNotRegistered`, the remediation
  text is only printed, and then the error is re-raised as it was.
  `Failure.EndpointCreationFailed` records, as a flag, whether the text was
  shown.
- The provisioning states are those the platform reports. `Canceled` is a
  state the poll loop neither accepts nor rejects: it keeps polling until the
  budget runs out.
- A lookup inside the poll loop is outside any `try`, so when it raises the
  script ends there (`Failure.EndpointLookupFailed`). The platform of this
  model answers a lookup with nothing only when the endpoint does not exist,
  so a lookup that raises on an existing endpoint is not scripted (see
  "Left out"). The poll loop only starts on an endpoint that was fetched or
  created, and `Rollout.LookupsOfExistingEndpoint` shows that such an endpoint
  is never lost by a lookup. So on the modelled platform the poll's lookup
  never raises, and `EndpointLookupFailed` cannot come out of
  `Rollout.Provision`. The model keeps the error case because the source has
  it.
- When `get_keys` raises after the traffic update, the script ends with the
  traffic already on blue and no key written (`Failure.KeyRetrievalFailed`).

## Model

| member | source | states |
|---|---|---|
| `MetricGate.SelectMetric` | deployment/deploy_register.py:24-30 | A requested name other than "auto" is used as given. For "auto" a record without a task kind counts as "classification". A regression task takes r2 if present, else mse if present, else nothing. Any other task takes accuracy if present, else nothing. Each case is stated as an if-and-only-if, and an automatic choice is always a metric the record has. |
| `MetricGate.Decide` | deployment/deploy_register.py:32-40 | The decision uses the selected metric. A value is read exactly when that metric is in the record. The model deploys exactly when the value clears the threshold in the metric's direction. |
| `MetricGate.MissingMetricSkips` | deployment/deploy_register.py:32-34 | When no metric is selected, or the selected one is absent, the decision is not to deploy. |
| `MetricGate.MseBoundary` | deployment/deploy_register.py:37-38 | For mse, a value equal to the threshold deploys and any larger value does not. |
| `MetricGate.HigherIsBetterBoundary` | deployment/deploy_register.py:39-40 | For every other metric, a value equal to the threshold deploys and any smaller value does not. |
| `MetricGate.DecisionMonotone` | deployment/deploy_register.py:36-40 | Improving the selected metric in its own direction never turns a deploy into a skip. |
| `MetricGate.RegressionAutoSelectsMse` | deployment/deploy_register.py:24-40 | A regression record with only mse = 1.2 and threshold 1.5 selects mse and deploys. |
| `MetricGate.LowAccuracySkips` | deployment/deploy_register.py:24-40 | A classification record with accuracy 0.62 and threshold 0.8 selects accuracy and skips. |
| `MetricGate.TaskOf` | deployment/deploy_register.py:26 | `metrics.get("task", "classification")`: the record's task kind, "classification" when it has none. |
| `MetricGate.LowerIsBetter` | deployment/deploy_register.py:37 | mse is the only metric compared with `<=`. |
| `MetricGate.Clears` | deployment/deploy_register.py:37-40 | mse clears when it is at most the threshold, and any other metric when it is at least the threshold. |
| `Digits.IsDigits` | data_uploader.py:21 | `str.isdigit`: the string is non-empty and every character is a decimal digit. |
| `Digits.DigitsValue` | data_uploader.py:21 | `int(...)` of a digit string is below 10 to the power of its length. |
| `Digits.Pad` | deployment/deploy_register.py:56 | A `strftime` field is exactly `width` decimal digits that read back as the value. |
| `Rollout.Timestamp` | deployment/deploy_register.py:56 | The registration version is 14 decimal digits. |
| `Rollout.TimestampRoundTrip` | deployment/deploy_register.py:56 | The six date and time fields can be read back from the version. |
| `Rollout.TimestampInjective` | deployment/deploy_register.py:56 | Registrations made at different seconds get different versions. |
| `Rollout.BlueDeployment` | deployment/deploy_register.py:128-134 | The deployment is named "blue", targets the endpoint, refers to the model's id and uses one Standard_DS3_v2 instance. |
| `Rollout.Contains` | deployment/deploy_register.py:103 | `sub in s`: `sub` starts at some position of `s`. |
| `Rollout.Lookups` | deployment/deploy_register.py:116-117 | `k` successive lookups give exactly `k` answers, the first of them the current state, and never lengthen the scripted progress. |
| `Rollout.Platform.constructor` | deployment/deploy_register.py:44-49 | A new platform holds the given endpoint and scripted answers (including whether the key retrieval raises), no model, no deployment, no traffic, a zero clock and an empty log. |
| `Rollout.FallbackId` | deployment/deploy_register.py:74 | The stand-in id is "azureml:incident-model:" followed by the version, exactly. |
| `Rollout.ModelFor` | deployment/deploy_register.py:66-77 | The deployment uses the registry's reference when registration succeeded. Otherwise it uses the stand-in with the fallback id, the name "incident-model" and the same version. |
| `Rollout.Platform.RegisterModel` | deployment/deploy_register.py:67 | A registration is logged. It either adds the model and returns its reference, or raises and changes no model. |
| `Rollout.Platform.GetEndpoint` | deployment/deploy_register.py:82 | A lookup is logged. It answers the current state, or nothing when the endpoint cannot be fetched. An endpoint still being worked on moves to its next scripted state. |
| `Rollout.Platform.DeleteEndpoint` | deployment/deploy_register.py:87 | A deletion is logged. It either removes the endpoint or raises and leaves it. |
| `Rollout.Platform.CreateEndpoint` | deployment/deploy_register.py:94-98 | A key-authenticated creation is logged. It either leaves the endpoint in `Creating` or raises the scripted message and leaves the endpoint as it was. |
| `Rollout.Platform.Sleep` | deployment/deploy_register.py:89 | A sleep advances the clock by exactly its duration and is logged. |
| `Rollout.Platform.CreateDeployment` | deployment/deploy_register.py:135 | A deployment creation is logged. It either adds the deployment or raises and adds nothing. |
| `Rollout.Platform.UpdateTraffic` | deployment/deploy_register.py:138-140 | A traffic update is logged. It either replaces the traffic map or raises and leaves it. |
| `Rollout.Platform.GetKeys` | deployment/deploy_register.py:143 | A key retrieval is logged. It answers the primary key, or nothing when it raises. |
| `Rollout.CreationFailure` | deployment/deploy_register.py:100-110 | The re-raised error carries the platform's message. The remediation is shown exactly when the message contains "SubscriptionNotRegistered". |
| `Rollout.AfterLookup` | deployment/deploy_register.py:117 | A lookup of an endpoint that is settled, or that has no scripted progress left, changes nothing. |
| `Rollout.SettledLookups` | deployment/deploy_register.py:116-125 | Any number of lookups of such an endpoint all answer its current state and leave it as it is. |
| `Rollout.EnsureEndpoint` | deployment/deploy_register.py:81-110 | The calls are exactly `Rollout.EnsureCalls`, the endpoint afterwards exactly `Rollout.Ensured` and the clock advances by exactly `Rollout.EnsureWait`. The first call is always the lookup. A present endpoint that is not `Failed` is kept, with no further call. A `Failed` endpoint is deleted, then 30 units pass, then it is created. When the deletion raises, it is created with no wait. An endpoint that cannot be fetched is created. The error is the re-raised creation error, with the remediation flag, exactly when `Rollout.CreationRaises`, and no key is fetched. |
| `Rollout.EnsureCalls` | deployment/deploy_register.py:81-110 | The calls of ensuring the endpoint start with the lookup of the endpoint as it was and fetch no key. A `Failed` endpoint whose deletion returns costs exactly the four calls of `Rollout.Recreation`. |
| `Rollout.WaitUntilReady` | deployment/deploy_register.py:113-125 | The loop makes between 1 and 60 polls, the answers being the scripted lookups. Every poll before the last one returned a state other than `Succeeded` and `Failed`. The result is ready exactly when the last poll sees `Succeeded`, failed exactly when it sees `Failed`, and a raised lookup exactly when the last lookup raised. Otherwise all 60 polls were made, each followed by a 10-unit sleep, and 600 units passed. |
| `Rollout.AwaitEndpoint` | deployment/deploy_register.py:112-125 | The poll loop makes exactly the calls of `Rollout.PollLog` for the answers it saw, which are the scripted lookups. It ends with the lookup error when the last lookup raised, with the provisioning error when the last poll saw `Failed`, and with no error otherwise. The clock advances by 10 units per pending answer. An endpoint that is settled, or has no scripted progress left, is last seen in its current state. |
| `Rollout.PollLog` | deployment/deploy_register.py:116-125 | The calls of the poll loop, a lookup per answer with a sleep after each pending one, fetch no key. |
| `Rollout.AwaitCreated` | deployment/deploy_register.py:96-125 | A creation error propagates with no poll and no call. Otherwise the poll loop runs as `Rollout.AwaitEndpoint` states, with the calls of `Rollout.PollLog`. |
| `Rollout.Ensured` | deployment/deploy_register.py:81-110 | A present endpoint that is not `Failed` is kept, after the lookup. A missing or `Failed` endpoint becomes `Creating` exactly when the creation does not raise. Afterwards the endpoint exists exactly when the creation did not raise, or a `Failed` endpoint's deletion raised. |
| `Rollout.LookupsOfExistingEndpoint` | deployment/deploy_register.py:116-117 | On the modelled platform, lookups of an endpoint that exists all return a state and leave it existing. |
| `Rollout.CreationRaises` | deployment/deploy_register.py:92-110 | The creation is reached (the endpoint was missing or `Failed`) and the platform rejects it. |
| `Rollout.EnsureWait` | deployment/deploy_register.py:87-89 | 30 units pass exactly when a `Failed` endpoint's deletion returned. |
| `Rollout.Recreation` | deployment/deploy_register.py:82-97 | Replacing a `Failed` endpoint is four calls: lookup, deletion, settling wait and creation, with no key fetched. |
| `Rollout.PollAnswers` | deployment/deploy_register.py:116-125 | The poll loop sees at most 60 answers, every one but the last pending, and a pending last one only when all 60 were made. |
| `Rollout.ProvisionError` | deployment/deploy_register.py:100-123 | The exception provisioning ends with: the re-raised creation error when the creation is reached and raises, otherwise the lookup error or the provisioning error from the last poll, otherwise none. |
| `Rollout.PollError` | deployment/deploy_register.py:116-123 | The exception the poll loop ends with: the lookup error when the last lookup raised, the provisioning error when it saw `Failed`, otherwise none. |
| `Rollout.PollWait` | deployment/deploy_register.py:116-125 | The loop sleeps 10 units after every answer except a final one that ends it. |
| `Rollout.ProvisionPassesIff` | deployment/deploy_register.py:81-125 | Provisioning lets the rollout go on exactly when the creation did not raise and the last poll saw `Succeeded`, or all 60 polls were pending. |
| `Rollout.ReadyEndpointPasses` | deployment/deploy_register.py:81-125 | Provisioning an endpoint that is already `Succeeded`, when creation is not scripted to raise, ends without an exception. |
| `Rollout.Provision` | deployment/deploy_register.py:81-125 | The calls are exactly `Rollout.EnsureCalls` followed by `Rollout.PollLog` of the poll answers, and fetch no key. The error is exactly `ProvisionError` of the endpoint before, the creation answer and the poll answers, so a creation error is always re-raised, and a raised lookup or a `Failed` poll always raises. There are no poll answers exactly when the creation raised. The answers are the scripted lookups of the endpoint as `Ensured` leaves it, and the endpoint afterwards is what they leave. The clock advances by the settling wait plus 10 units per pending poll. A `Failed` endpoint whose deletion succeeds is recreated first. An endpoint already `Succeeded` never fails, and one stuck mid-provisioning exhausts the budget without failing. |
| `Rollout.ProvisionCalls` | deployment/deploy_register.py:81-125 | The calls of provisioning open with those of ensuring the endpoint, so with the recreation when a `Failed` endpoint was deleted, and fetch no key. |
| `Rollout.Finale` | deployment/deploy_register.py:127-143 | The calls are exactly `Rollout.FinaleCalls`: the blue deployment (model id, Standard_DS3_v2, one instance) is created before the traffic update, and the key is fetched only after both returned. The traffic becomes exactly {"blue": 100} when it was routed and is otherwise unchanged. The outcome is `PromotionOutcome` with no provisioning error. A raise at either step stops there with the traffic unchanged. A raising key retrieval stops the script with the traffic on blue. The endpoint and the clock are untouched. |
| `Rollout.FinaleCalls` | deployment/deploy_register.py:128-143 | The finale makes one to three calls, the deployment first. The last call is the key retrieval exactly when the deployment and the traffic update returned, and no earlier call fetches a key. |
| `Rollout.Conclude` | deployment/deploy_register.py:112-146 | A provisioning error ends the script with no further call and nothing changed. Otherwise the finale runs, with the calls of `Rollout.FinaleCalls`. The outcome is `PromotionOutcome` of the error and the scripted answers. The blue deployment is added and the traffic routed exactly as the finale does. |
| `Rollout.UsedModel` | deployment/deploy_register.py:66-77 | The deployed reference carries the version and the name "incident-model", and it is the stand-in exactly when registration raised. |
| `Rollout.PromotionOutcome` | deployment/deploy_register.py:81-146 | A rollout deploys exactly when provisioning, the deployment, the traffic update and the key retrieval all pass. Without a provisioning error, the traffic is routed exactly when the deployment and the traffic update pass. A provisioning error is raised as it is. |
| `Rollout.Routed` | deployment/deploy_register.py:138-143 | The outcomes reached after the traffic update: the key, or the key retrieval's error. |
| `Rollout.FinaleLog` | deployment/deploy_register.py:128-143 | After calls that fetch no key, the finale ends with deployment, traffic and key exactly when both steps returned, and otherwise fetches no key. |
| `Rollout.DeployCalls` | deployment/deploy_register.py:81-146 | The calls of lines 81-146 are those of ensuring the endpoint, then those of the polls, then the finale's when provisioning raised nothing; they open with the calls of ensuring the endpoint. |
| `Rollout.DeployCallsShape` | deployment/deploy_register.py:81-146 | Those calls are never empty, open with the recreation when a `Failed` endpoint was deleted, and fetch the key only as the last call of a routed rollout, right after deployment and traffic. |
| `Rollout.PrefixCalls` | deployment/deploy_register.py:67-146 | Calls that fetch no key, put in front, keep a prefix, keep "no key fetched", and keep the last three calls and the key-free calls before the last. |
| `Rollout.RegisteredCalls` | deployment/deploy_register.py:67-146 | The registration call put in front keeps the shape of the calls of lines 81-146: registration first, then the recreation, and the key fetched last and only when routed. |
| `Rollout.DeployTo` | deployment/deploy_register.py:81-146 | The calls are exactly `Rollout.DeployCalls`: those of `Rollout.Provision`, then the finale's when provisioning raised nothing. The outcome is exactly `PromotionOutcome` of the provisioning error and the scripted deployment, traffic and key errors. The endpoint and clock are as `Rollout.Provision` states. The blue deployment is added exactly when provisioning passed and the deployment did not raise. The traffic becomes {"blue": 100} exactly when it was routed, and is otherwise unchanged. The calls end with deployment, traffic and key exactly when the traffic was routed, and otherwise no key is fetched. |
| `Rollout.Promote` | deployment/deploy_register.py:52-146 | `Rollout.Promoted`: the calls are exactly the registration under the version followed by `Rollout.DeployCalls` for the model actually used. The outcome is exactly `PromotionOutcome` of the provisioning error and the deployment, traffic and key errors, so every raise in lines 100-143 ends the rollout. The registry gains the model under the version unless registration raised. The deployments gain the blue deployment of the used model exactly when provisioning and the deployment passed. The traffic is changed only when it was routed. The endpoint and clock are as `Rollout.Provision` states. The recreation calls follow the registration when a `Failed` endpoint is deleted. A routed rollout ends with deployment, traffic and key, in that order, with no key fetched earlier. Any other fetches no key. A ready endpoint with no raise deploys, and so does an endpoint stuck mid-provisioning. |
| `Rollout.Promoted` | deployment/deploy_register.py:52-146 | What a promotion leaves behind, between the state before and after it, as listed for `Rollout.Promote`. |
| `Rollout.Rollout` | deployment/deploy_register.py:24-150 | A failed gate makes no call and changes nothing. A passed gate leaves exactly what `Rollout.Promoted` states for the version `Timestamp(now)`: the registration first, then exactly the calls of lines 81-146, and the outcome, registry, deployments, traffic, endpoint and clock that `Rollout.Promote` states. Whatever the gate says, a rollout that is not routed fetches no key. |
| `Versioning.MaxNumeric` | data_uploader.py:21-22 | The result is at least every all-digit version's value, and it is 0 or the value of one of them. |
| `Versioning.NextVersion` | data_uploader.py:21-22 | The next version is at least 1, exceeds every all-digit version, and is either 1 or one more than one of them. |
| `Versioning.NextVersionString` | data_uploader.py:27 | `str(next_version)` is all digits and reads back as the next version. |
| `Versioning.NextVersionIsFresh` | data_uploader.py:21-27 | The rendered next version is all digits and differs from every listed version, numeric or not. |
| `Versioning.NoNumericVersionGivesOne` | data_uploader.py:22 | With no all-digit version, the empty listing included, the next version is "1". |
| `Versioning.NextVersionDependsOnlyOnListedSet` | data_uploader.py:21-22 | Two listings with the same entries, in any order or multiplicity, give the same next version. |
| `Versioning.NextVersionExample` | data_uploader.py:21-22 | The listing "1", "2", "x", "5" gives "6". |
| `Versioning.Listed` | data_uploader.py:18 | A version is listed for a name exactly when an asset of that name has that version, and the listing is no longer than the registry. |
| `Versioning.AzureUploader.VersionsOf` | data_uploader.py:18 | `data.list(name=...)`: a version is listed exactly when an asset of that name in the registry has it. |
| `Versioning.AzureUploader.constructor` | data_uploader.py:8-14 | The uploader starts from the workspace's existing assets and the scripted answers of listing and registering. |
| `Versioning.ListedAppend` | data_uploader.py:18 | Registering an asset adds its version at the end of its name's listing and leaves the other names' listings alone. |
| `Versioning.AzureUploader.UploadDataset` | data_uploader.py:16-33 | The upload succeeds exactly when neither the listing nor the registration raises. The version it returns is then the next version of the name's listing and is new to it. The registry gains exactly that asset at the end, and the listing gains exactly that version. When a call raises, the registry is unchanged. |
| `Digits.ToDecimal` | data_uploader.py:27 | `str(n)` is all digits, reads back as n, and has no leading zero unless it is "0". |
| `Tables.Cell` | pipeline/steps/clean_data_step.py:48 | A row's cell in a column, nothing when it is missing. |
| `Tables.HasCell` | pipeline/steps/clean_data_step.py:48 | `notna()`: the row has a cell in the column. |
| `Cleaning.DroppedColumns` | pipeline/steps/clean_data_step.py:16-34 | A name is dropped exactly when it is listed and present, and the names keep the list's order. |
| `Cleaning.DropColumns` | pipeline/steps/clean_data_step.py:35 | A column remains exactly when it was present and not named, in the original order. Every row stays, every remaining cell is unchanged, and a named column has no cell left. |
| `Cleaning.DropMissing` | pipeline/steps/clean_data_step.py:48 | Columns are unchanged. A row remains exactly when it has the cell, in original order. The row count is the number of rows that have the cell. |
| `Cleaning.DropMissingPriority` | pipeline/steps/clean_data_step.py:46-48 | Without a Priority column, the table is unchanged. |
| `Cleaning.FillCell` | pipeline/steps/clean_data_step.py:57 | A missing cell becomes the fill value, a present one is kept, and the other columns are untouched. |
| `Cleaning.FillColumn` | pipeline/steps/clean_data_step.py:55-57 | Columns and row count are unchanged, and an absent column leaves the table as it is. |
| `Cleaning.FillColumnCells` | pipeline/steps/clean_data_step.py:62-64 | Filling a present column sets exactly its missing cells, and every other cell keeps its value. |
| `Cleaning.FillColumns` | pipeline/steps/clean_data_step.py:54-57 | Filling a list of columns one after another keeps the columns and the row count. |
| `Cleaning.FillColumnsPrefix` | pipeline/steps/clean_data_step.py:54-57 | One more round of the loop fills the next listed column. |
| `Cleaning.FillColumnsCells` | pipeline/steps/clean_data_step.py:53-57 | After the loop, each listed present column has its missing cells set, and every other cell is unchanged. |
| `Cleaning.Kept` | pipeline/steps/clean_data_step.py:34-48 | After the column and row steps, a column remains exactly when it was present and is not one of the 11 listed, in original order, and the columns left are as many as the input columns outside that list. |
| `Cleaning.FillAll` | pipeline/steps/clean_data_step.py:53-72 | The fills keep the columns and the row count. |
| `Cleaning.Clean` | pipeline/steps/clean_data_step.py:16-75 | After the step, a column remains exactly when it was present and is not one of the 11 listed, in original order, and no column is added. The columns left are as many as the input columns outside that list. |
| `Cleaning.KeptRows` | pipeline/steps/clean_data_step.py:46-48 | The row step keeps every row without a Priority column. With one, it keeps as many rows as have a Priority, each with a Priority. |
| `Cleaning.FillAllCells` | pipeline/steps/clean_data_step.py:53-70 | A missing categorical cell of a present column becomes "Unknown". A missing count cell of a present column becomes 0. Present cells and all other columns are unchanged. |
| `Cleaning.FillAllKeepsPriority` | pipeline/steps/clean_data_step.py:53-72 | The fills never touch the Priority cells. |
| `Cleaning.CleanRows` | pipeline/steps/clean_data_step.py:35-75 | The row count never increases, and no row is lost without a Priority column. With one, the rows are as many as have a Priority, and each has one. |
| `Cleaning.FillAllNoMissing` | pipeline/steps/clean_data_step.py:52-72 | After the fills, the five filled columns have no missing cell where present. |
| `Cleaning.CleanFillsColumns` | pipeline/steps/clean_data_step.py:9-75 | After cleaning, CI_Cat, CI_Subcat, Closure_Code, No_of_Reassignments and No_of_Related_Interactions have no missing cell where present. |
| `Cleaning.FillCategoricals` | pipeline/steps/clean_data_step.py:53-57 | The loop over the three categorical columns computes the fold of the column fills in list order. |
| `Cleaning.Process` | pipeline/steps/clean_data_step.py:9-75 | Performing the step statement by statement gives exactly `Clean` of the input. |
| `Pipelines.LoadStep` | pipeline/pipeline_builder.py:13-22 | A name loads a step exactly when it is that step's class name. Any other name loads nothing. |
| `Pipelines.KnownSteps` | pipeline/pipeline_builder.py:25-35 | The built steps are never more than the names, and each step's class name is one of the names. |
| `Pipelines.KnownStepsAreKnownNames` | pipeline/pipeline_builder.py:28-33 | The built steps' class names are exactly the known names of the list, in order and with duplicates. Their number is the number of known names. |
| `Pipelines.BuildExamples` | pipeline/pipeline_builder.py:26-35 | An empty list builds no step. An unknown name between two known ones is skipped. |
| `Pipelines.PipelineBuilder.constructor` | pipeline/pipeline_builder.py:10-11 | The builder stores the names as given. |
| `Pipelines.PipelineBuilder.BuildPipeline` | pipeline/pipeline_builder.py:25-35 | A new pipeline whose steps are exactly the loaded known names, in order. |
| `Pipelines.Pipeline.constructor` | pipeline/pipeline.py:4-5 | A new pipeline has no steps. |
| `Pipelines.Pipeline.AddStep` | pipeline/pipeline.py:7-8 | Adding a step appends exactly it at the end and keeps the earlier steps. |
| `Pipelines.Pipeline.Execute` | pipeline/pipeline.py:11-14 | Execution is the left fold of the steps over the data, in insertion order. With no steps it returns the data. The step list is not changed (the method modifies nothing). |
| `Pipelines.ApplyStep` | pipeline/pipeline.py:13 | Running one step gives that step's result on the data. |
| `Pipelines.Apply` | pipeline/pipeline.py:13 | One step on the data: cleaning is `Cleaning.Clean`, and the other steps are the given function. |
| `Pipelines.Run` | pipeline/pipeline.py:11-14 | The left fold of the steps over the data, first step first. |
| `Pipelines.RunSnoc` | pipeline/pipeline.py:8-14 | Running after appending a step applies that step to what the earlier steps produce. |
| `Pipelines.RunAppend` | pipeline/pipeline.py:11-14 | Running two step lists one after the other is running their concatenation. |

## Left out

- The Azure SDK is not called. `MLClient`, the credential, the entities,
  pollers and `.result()` become the methods of `Rollout.Platform`, which answer
  from scripted constants. The hard-coded subscription and workspace literals
  are not modelled.
- Rollout.WaitUntilReady: real time is not modelled. The clock advances
  only by sleeps, and remote calls take no time, so the loop makes at most 60
  polls. The clock is a field the loop reads, like `time.time()` in the loop
  guard, so it is not ghost.
- Rollout.Platform.CreateEndpoint: a creation that returns leaves the endpoint
  in `Creating`, where `.result()` has already waited for the creation. So the
  first poll after a creation always reports `Creating` and costs one 10-unit
  sleep; the later reports come from the scripted progress.
- Rollout.Platform.GetEndpoint: a lookup answers nothing (raises) only when
  the endpoint does not exist. A lookup that raises on an existing endpoint is
  not scripted: at line 82 it would lead to a creation over that endpoint, and
  at line 117 it would end the script.
- Rollout.LookupsOfExistingEndpoint: it holds of the modelled platform only,
  because of the restriction above; `get` at line 117 can raise on an
  existing endpoint.
- Rollout.Rollout: the command-line arguments and `metrics.json` are
  parameters. Writing `outputs/api_key.txt` becomes the `Deployed(key)`
  outcome, and `os.makedirs` and every `print` are left out.
- Rollout.Promote: the model description string and the model type are not
  modelled; nothing in the rollout reads them.
- Rollout.Timestamp: only four-digit years are modelled, which is the range
  `datetime.now()` returns in practice.
- MetricGate.Decide: metric values and the threshold are reals, so NaN and
  other float edge cases are not modelled. The `task` key is kept apart from
  the numeric metrics. A requested metric named "task" therefore reads as
  absent and skips, where the source raises `TypeError` when it compares that
  key's string value with the threshold.
- Digits.IsDigits: `str.isdigit` is modelled on ASCII digits only. Other
  Unicode digits are not modelled. For some of them, such as "²",
  `isdigit()` is true while `int()` raises `ValueError` at
  data_uploader.py:21, so in the source a non-numeric version can make the
  upload fail; the model never does.
- Pipelines.Apply: feature engineering, categorical encoding and
  normalisation are given as the `other` function parameter, not modelled.
  They are pandas date parsing and sklearn encoders and scalers.
- `load_dotenv()` in pipeline/pipeline_builder.py is not modelled; it is
  environment I/O.
- The steps' `name` field (such as 'Clean Data Step') and the base class's
  `__repr__` are not modelled. `Pipelines.ClassName` is the key `load_step`
  matches, not that field.
- Cleaning: pandas' index and dtypes are not modelled. A row is a map from
  column names to optional cells, and a count column's fill value is
  `Number(0.0)`.
- train.py, main.py, the endpoint tests, the EDA helpers and the endpoint
  simulator are not part of this model.
