# A verified model of the Pulp operator

The Pulp operator keeps a Pulp instance on Kubernetes in line with a custom
resource. Its controllers are level-triggered: every pass reads the cluster,
repairs the first thing that is wrong, returns to the queue and starts again.
What was already done is remembered in status fields, hash labels and a lock
ConfigMap. This project models those state machines and proves what holds of
every run of them. `dafny verify dfyconfig.toml` checks all of it.

The API server is part of the model as an environment: server-side defaulting
`Dflt`, the derivation relation behind `DeepDerivative`, and the hash `H` are
parameters, and properties that need more of them (idempotence, injectivity)
say so. Which API calls fail, which copy of an object a cache returns, in which
order Go ranges over a map and how goroutines interleave are inputs of the model.
Code that changes things step by step is a method, mostly of a class with the
source's own fields, and is proved equal to a function; the properties are
lemmas about those functions and about runs of them.

| file | what it models |
|---|---|
| `Text.dfy`, `Pulp.dfy` | case folding and key order, the custom resource, storage types, prechecks |
| `Settings.dfy`, `SettingsLaws.dfy`, `SettingsAgreement.dfy`, `CustomValues.dfy`, `SettingsValues.dfy` | the rendering of `settings.py`, overriding, which custom values and which values of Secrets reach Pulp, the operator's own lookups, the watch index |
| `EnvVars.dfy`, `PodTemplate.dfy`, `PodClosure.dfy`, `PodUse.dfy` | the pulpcore pods: environment, volumes, mounts, sidecars; that mounts find their volumes and volumes their use |
| `FeatureAgreement.dfy` | that environment, mounts, backup and `settings.py` describe the same things |
| `DriftCheck.dfy` | the hash label that detects foreign changes of a Deployment |
| `HashTriggers.dfy`, `Migration.dfy` | what starts restarts, signing Jobs and migration Jobs |
| `Exposure.dfy`, `Pdb.dfy` | exposure transitions, PodDisruptionBudgets |
| `StatusConditions.dfy`, `StatusRecovery.dfy` | the "finished" condition: never too early, and set once everything is ready |
| `Reconcile.dfy`, `PassOrder.dfy`, `PassCleanUp.dfy`, `ReconcileLaws.dfy`, `ReconcileRuns.dfy`, `Instances.dfy` | the staged pass: what it does first, what it cleans up, stage order, runs of passes, convergence in terms of the CR and the status, the exposure machine as a view of the pass |
| `SecretBackup.dfy`, `BackupScope.dfy`, `RestoreProtocol.dfy`, `RestoreInterleaving.dfy` | backup and restore of Secrets, the restore protocol, restore next to the main reconciler |

## Where the code keeps less than it promises

The model follows the code. Each of these is stated exactly, by a lemma that says
when the promise holds and when it does not.

- A mixed-case spelling in `custom_pulp_settings` makes the operator believe another value than Pulp uses (`SpellingsDecide`); a custom value that an enabled feature assigns again later in the file (debugging, the cache, the object storage, Keycloak, LDAP) is taken back, so it reaches Pulp exactly when no such feature is on or assigns the same text (`CustomValueReachesPulp`).
- The text of `settings.py` depends on Go's map order exactly when neither migration flag is overridden and one is set (`OrderShows`). A pass that picks the other order rewrites the Secret and restarts the pods, so a run need never come to rest (`DivergentRuns`).
- The Secret of the managed database is rendered but not watched: the watch index suffices exactly when the database is external, overridden, or its Secret is named in another field (`DatabaseSecretIsNotWatched`).
- Five names are written by the operator but not managed: `PULP_GUNICORN_ACCESS_LOGFORMAT` in API and content pods, `HOME` when signing is on, and `PULP_OTEL_ENABLED`, `OTEL_EXPORTER_OTLP_PROTOCOL` and `OTEL_EXPORTER_OTLP_ENDPOINT` in API pods with telemetry. Each occurs once more than the user writes it; a name the operator writes is unique exactly when it is managed or the user does not write it (`UnlistedNamesRepeat`).
- Renamed certificate files break the API pod's mounts (`MountedFilesExist`); the admin Secret's name collides with another volume exactly when it is one of the names the CR's other settings use up (`VolumeNamesDistinct`).
- A Secret volume of the API's certificates that names no Secret or renamed files, and a scripts volume whose Secret holds no script, are used by nobody (`VolumesAreUsed`). The LDAP server's CA is mounted where `settings.py` says exactly when its key is spelled in lower case, although the settings accept any spelling (`LdapCaIsMounted`).
- A repair resets the replicas of an autoscaled Deployment (`RepairResetsAutoscaledReplicas`); a dry-run error is ignored where it occurs, and shows as drift exactly when what the check then compares with hashes unlike what was stored (`FailedDryRun`): on plain Kubernetes, when both dry runs of a pass fail and defaulting shows in the hash (`PlainFailedDryRun`).
- A watched object that does not exist fires on every pass (`MissingObjectFiresAlways`).
- Any labelled Job with the new image counts as its migration (`OtherJobHidesMigration`); a Job that cannot be created is forgotten exactly when a status write of the pass goes through (`FailedCreateStillAdvances`, `FailedStorageMigrationIsNotRetried`).
- Exposure type `none`, and a change of case only, requeue for ever (`NoCommitNoProgress`). Before the type is first recorded nothing is torn down, so an edit in that window leaks Routes and Ingresses (`EditBeforeFirstRecordLeaks`, `LeftoversExactly`); synced states are clean exactly when nothing foreign existed at the first record (`FirstRecordDecides`).
- "Finished" can be stored although a goroutine saw its component not ready: because its status write met a conflict (`LostWriteHidesUnready`), or, with every write going through, because another goroutine's write was under way when it set its condition, whose response put the old condition back (`OverwrittenUnready`). Without a conflict and without such an overlap it cannot (`UnreadyIsStored`); over all commit orders, what the last committed write had read decides (`FinishedExactly`); for the only goroutine that writes, the exact condition is `FinishedDespiteUnready`. A stale first read breaks the check altogether (`StaleFirstRead`). A condition left False by a component that is no longer looked at keeps the operator unfinished (`FinishesExactlyWhenReady`).
- A one-character admin Secret name, a missing trusted-CA ConfigMap or signing Secret, an exposure type that cannot change, and a `settings.py` that depends on the order of the migration flags are exactly what keeps passes from coming to rest (`Convergence`).
- Restores lose three settings keys and every key of an external database's Secret (`KeysLostByRestore`); a retry after the CR was created loses the replica counts (`RetryForgetsCounts`); a restore can be complete without a lock, and the next attempt then loses the counts (`CompleteWithoutLock`, `NextAttemptCounts`).

## Model

| member | source | states |
|---|---|---|
| Text.SortKeys | controllers/repo_manager/utils.go:80-87 | the keys of a map in byte order, fixed by the key set whatever order the map is ranged over |
| Text.SortedKeysUnique | controllers/repo_manager/utils.go:80-87 | a key set has only one ascending listing |
| Text.LowerCaseIsGreatest | controllers/repo_manager/utils.go:80-87 | of all spellings of a word the lower-case one sorts last |
| Pulp.CheckStorageDefinitions | controllers/repo_manager/precheck.go:159-187 | the loop refuses exactly the CRs without one storage type for Pulp, at most one for the cache, and one for a managed database |
| Pulp.StorageIndexInBounds | controllers/utils.go:125-187 | after that precheck every later `storageType[0]` is defined and names the configured storage |
| Pulp.CheckAllowedContentChecksums | controllers/repo_manager/precheck.go:238-262 | refuses exactly lists with an unknown checksum or without sha256 |
| Pulp.CheckSecretsAvailable | controllers/repo_manager/utils.go:102-146 | refuses exactly when some Secret named in the CR cannot be found |
| Pulp.Prechecks | controllers/repo_manager/precheck.go:35-93 | the chain of early returns refuses exactly the CRs that fail one of the ten checks |
| Settings.RetrieveSecretData | controllers/utils.go:403-425 | with required keys all or nothing, without them the keys that exist |
| Settings.SettingsBuilder.AddCustomPulpSettings | controllers/repo_manager/secret.go:579-610 | appends the custom settings in key order and then the defaults they do not override, and returns the overridden names |
| Settings.SettingsBuilder.AddOverrides | controllers/repo_manager/secret.go:598-605 | the loop writes every custom key upper-cased and strikes it from the defaults |
| Settings.SettingsBuilder.NeedsMigrationSetting | controllers/repo_manager/secret.go:622-642 | skips overridden flags and returns at the first false one, in whatever order the map is ranged over |
| Settings.SettingsBuilder.SsoConfig | controllers/repo_manager/sso.go:15-71 | appends required and optional Keycloak keys, nothing when a required one is missing |
| Settings.SettingsBuilder.LdapSettings | controllers/repo_manager/ldap.go:32-88 | appends the keys with the LDAP prefix between header and footer, in key order |
| Settings.SettingsBuilder.DatabaseSettings | controllers/repo_manager/secret.go:289-344 | nothing when overridden or a key is missing, else the managed or the external connection |
| Settings.SettingsBuilder.CacheSettings | controllers/repo_manager/secret.go:254-286 | nothing with the cache off, else the managed or the external connection, whatever the custom settings say |
| Settings.SettingsBuilder.AzureSettings | controllers/repo_manager/secret.go:349-389 | nothing when overridden, for another storage, or when a key is missing |
| Settings.SettingsBuilder.GcsSettings | controllers/repo_manager/secret.go:392-449 | the bucket is required, an optional key appears exactly when it is not empty |
| Settings.SettingsBuilder.S3Settings | controllers/repo_manager/secret.go:452-518 | the bucket and one of endpoint and region are required, an optional key appears exactly when it is not empty |
| Settings.SettingsBuilder.TokenSettings | controllers/repo_manager/secret.go:521-541 | the token server by exposure type |
| Settings.SettingsBuilder.SecretKeySettings | controllers/repo_manager/secret.go:544-561 | the Django key of its Secret, nothing when overridden or missing |
| Settings.SettingsBuilder.PulpServerSecret | controllers/repo_manager/secret.go:124-182 | the appenders in order produce the rendered file |
| SettingsLaws.CustomSettingsOverride | controllers/repo_manager/secret.go:579-610 | a default or guarded setting is assigned at most once exactly when the ConfigMap has at most one spelling of it; the custom value wins, among several the greatest spelling; without one the default stands |
| SettingsLaws.InjectiveKeysNoRepeats | controllers/repo_manager/secret.go:124-166 | with upper-casing injective on the keys, every such setting is assigned at most once in the whole file and holds the custom value |
| SettingsLaws.RenderedCounts | controllers/repo_manager/secret.go:124-166 | a name no feature owns is assigned by the custom and guarded sections only |
| SettingsAgreement.LookupAgrees | controllers/utils.go:325-348 | the operator's lookup and the last assignment in the file agree exactly unless a mixed-case spelling decides with a value of its own |
| SettingsAgreement.SpellingsDecide | controllers/utils.go:339-348 | the spellings guarantee agreement for all values exactly when the lower-case one is present or no mixed-case one is |
| SettingsAgreement.LookedUpSettingsAgree | controllers/utils.go:351-379 | agreement for `api_root`, `content_path_prefix` and `domain_enabled` under that condition |
| SettingsAgreement.CacheSectionWins | controllers/repo_manager/secret.go:254-286 | with the cache enabled its values win over every custom value |
| CustomValues.CustomValueReachesPulp | controllers/repo_manager/secret.go:124-166 | for every name, the greatest spelling's custom value is the file's last word exactly when no later section assigns the name, section by section under its CR guard, or assigns the same text |
| CustomValues.OverriddenLast | controllers/repo_manager/secret.go:124-166 | a name of the ConfigMap ends with what the later sections give it, and with its custom value when they give it none |
| SettingsAgreement.ManagedDatabaseReachesPulp | controllers/repo_manager/secret.go:289-344 | unless overridden, the file's database setting holds exactly the values of the generated Secret, and is absent when a key is missing |
| SettingsAgreement.ExternalDatabaseReachesPulp | controllers/repo_manager/secret.go:289-344 | the same for the user's Secret |
| SettingsValues.GuardedLast | controllers/repo_manager/secret.go:124-166 | a guarded name that is not overridden ends with what the later of its sections make of it, in the order of the file |
| SettingsValues.S3ReachesPulp | controllers/repo_manager/secret.go:452-518 | unless overridden, the S3 storage is in the file exactly when the Secret names the bucket and one of endpoint and region; the options are then, for every name, the values of the Secret's own keys: access key id under `access_key`, secret access key under `secret_key`, endpoint and region when not empty, bucket, and the addressing style or "path" |
| SettingsValues.AzureReachesPulp | controllers/repo_manager/secret.go:349-389 | the same for Azure: with all five keys or not at all, each under its option |
| SettingsValues.GcsReachesPulp | controllers/repo_manager/secret.go:392-449 | the same for GCS: the bucket decides, the three others when not empty |
| SettingsValues.CacheReachesPulp | controllers/repo_manager/secret.go:254-286 | with the cache on, host, port, password and database as Pulp sees them: the operator's own service, or the user's Secret, all empty when one of its keys is missing |
| SettingsValues.AddressAndKeysReachPulp | controllers/repo_manager/secret.go:521-575 | the token server is asked for under the address of the Route or Ingress, or at the API's service; the Django key is the Secret's, or absent with it; the checksums are the CR's |
| SettingsValues.RootURLReachesPulp | controllers/repo_manager/utils.go:374-392 | unless overridden, the content's and the collections' addresses are the outside address of a Route or an Ingress, or pulp-web's own service |
| SettingsValues.KeycloakReachesPulp | controllers/repo_manager/sso.go:15-71 | each known Keycloak key reaches Pulp with its value exactly when the Secret has it and all the required ones |
| SettingsValues.LdapReachesPulp | controllers/repo_manager/ldap.go:32-88 | an LDAP key that is spelled once reaches Pulp as Python, as a boolean or quoted, depending on its name |
| SettingsAgreement.OrderShows | controllers/repo_manager/secret.go:622-642 | the text is independent of the order of the flag map exactly when a flag is overridden or both are off |
| SettingsAgreement.IndexerFunc | controllers/repo_manager/controller.go:311-343 | the loop collects exactly the non-empty names of the watched fields, in order |
| SettingsAgreement.IndexCoversRendering | controllers/repo_manager/controller.go:311-343 | clusters that agree on every indexed object and on the managed database's Secret render the same file |
| SettingsAgreement.DatabaseSecretIsNotWatched | controllers/repo_manager/secret.go:289-344 | agreement on the indexed objects alone forces the same file exactly when the database is external, overridden, or its default Secret's name is in the index |
| EnvVars.SetCustomEnvVars | controllers/utils.go:940-959 | the loop keeps exactly the entries with unmanaged names, in order and with repetitions |
| EnvVars.Kept | controllers/utils.go:940-959 | those entries, each at its position in the user's list |
| EnvVars.SetEnvVars | controllers/deployment.go:251-373 | the kept entries followed by the operator's own in their fixed order |
| EnvVars.InitContainerEnvVars | controllers/deployment.go:376-379 | the postgres entries followed by the kept ones |
| EnvVars.ManagedNamesOnce | controllers/utils.go:912-959 | each managed name at most once and never with a user's entry; every other name as often as the user wrote it plus at most one entry of the operator |
| EnvVars.InitManagedNamesOnce | controllers/deployment.go:376-379 | the same for init containers |
| EnvVars.UnlistedNamesRepeat | controllers/telemetry.go:115-122 | for every component and name how often it occurs: five unmanaged names, each under its guard, once more than the user writes them; a written name is unique exactly when it is managed or the user does not write it |
| FeatureAgreement.ManagedValue | controllers/deployment.go:251-373 | a managed name has in the container the value its own section gives it, whatever the user wrote and whatever is appended later |
| FeatureAgreement.DatabaseHostAgrees | controllers/deployment.go:376-379 | every container is told the database host that `settings.py` gives Pulp, and the port of an external one |
| FeatureAgreement.CacheAgrees | controllers/deployment.go:290-352 | the same for the cache, the operator's own or an external one with a complete Secret |
| FeatureAgreement.WorkersReachGunicorn | controllers/deployment.go:258-286 | timeout and number of workers are those of the component's own field or the defaults; the signing fingerprint is there exactly when signing is on |
| PodTemplate.CommonDeployment.SetVolumes | controllers/deployment.go:442-574 | the volumes of a component, section by section |
| PodTemplate.CommonDeployment.SigningMetadataVolumes | controllers/deployment.go:577-644 | the signing volumes, with one item for each script the Secret holds |
| PodTemplate.CommonDeployment.SigningScriptMounts | controllers/deployment.go:709-724 | walks the volumes set before and mounts the items of the first one with that name |
| PodTemplate.CommonDeployment.SetVolumeMounts | controllers/deployment.go:647-748 | the mounts of the pulpcore container |
| PodTemplate.CommonDeployment.SetLDAPConfigs | controllers/deployment.go:1181-1220 | one more volume and mount when there is an LDAP CA |
| PodTemplate.CommonDeployment.SetInitContainers | controllers/deployment.go:901-1002 | the init container and, when signing, the gpg container |
| PodTemplate.CommonDeployment.SetTelemetryConfig | controllers/telemetry.go:19-97 | the rewritten API container, the sidecar and its volume |
| PodTemplate.CommonDeployment.Build | controllers/deployment.go:1223-1253 | the setters in order leave exactly the specified pod; every storage index is in bounds |
| PodClosure.MountsNameVolumes | controllers/deployment.go:647-778 | for every CR that passes the storage precheck, every mount of every container names a volume of the pod |
| PodClosure.MountedFilesExist | controllers/deployment.go:549-567 | with distinct volume names, every mounted file is an item of its volume exactly when the API pod's certificate files keep their names |
| PodClosure.ScriptsServed | controllers/deployment.go:709-724 | every mounted signing script is an item of the volume it comes from |
| PodClosure.VolumeNamesDistinct | controllers/deployment.go:499-516 | volume names repeat exactly when an API pod's admin Secret has one of the names the CR's other settings use up |
| PodClosure.VolumesNameKnownObjects | controllers/deployment.go:442-644 | every volume refers to an object of the operator or to one the user named |
| PodUse.ObjectsExactly | controllers/deployment.go:442-644 | conversely, what the pods of API, content server and workers refer to is exactly what the operator creates for them and what the user names |
| PodUse.VolumesAreUsed | controllers/deployment.go:647-778 | with distinct names, every volume is mounted by some container, whole or file by file, exactly when the API's certificates have a Secret and keep their names and the signing Secret holds a script |
| FeatureAgreement.EncryptionKeyIsMounted | controllers/settings/secrets.go:44-56 | the encryption key is mounted in every pod under the path that `settings.py` gives Pulp |
| FeatureAgreement.TokenKeysAreMounted | controllers/deployment.go:647-748 | so are the token keys in the API's pods, each under its own path |
| FeatureAgreement.LdapCaIsMounted | controllers/deployment.go:1206-1219 | the LDAP server's CA is mounted where `settings.py` says exactly when its key is in lower case or its value is empty |
| DriftCheck.HashFromMutated | controllers/utils.go:894-909 | the dry run overwrites the object in place; the hash leaves out what the check must not see |
| DriftCheck.AddHashLabel | controllers/deployment.go:1158-1179 | create or update dry run, then the hash of the defaulted spec as label |
| DriftCheck.Deploy | controllers/ocp/deployment.go:28-49 | on OpenShift the security context of the defaulted object is overwritten and the hash taken again |
| DriftCheck.CheckDeploymentSpec | controllers/utils.go:474-510 | compares label, expected and current hash, on copies |
| DriftCheck.ReconcileDeployment | controllers/utils.go:728-779 | writes and requeues exactly when missing or drifted |
| DriftCheck.CheckIsFixpoint | controllers/utils.go:474-527 | once stored, no interleaving of passes and autoscaler changes ever shows drift or causes a write, with and without OpenShift; nothing but the replica count of an autoscaled Deployment ever changes |
| DriftCheck.CheckIsExact | controllers/utils.go:508-510 | with an injective hash, a Deployment is accepted exactly when the whole rest of its spec, its security context, its hash label and, without an autoscaler, its replica count are the stored ones |
| DriftCheck.WhatIsStored | controllers/utils.go:874-909 | a repair stores the spec as built, with OpenShift's security context, defaulted; and its label is the hash of exactly the specs that agree with it in those fields |
| DriftCheck.RepairSettles | controllers/utils.go:728-762 | one repair is enough from any state |
| DriftCheck.RepairResetsAutoscaledReplicas | controllers/deployment.go:152-179 | a repair writes the server's default count over the autoscaler's |
| DriftCheck.FirstHashIsStale | controllers/ocp/deployment.go:39-49 | without the second hash a Deployment is reported as drifted unless the overwrite changes nothing |
| DriftCheck.FailedDryRun | controllers/utils.go:894-909 | whichever dry runs of a pass fail, with or without autoscaler and OpenShift, a settled Deployment is reported as drifted exactly when what the check compares with is not, seen through the hash, what was stored |
| DriftCheck.PlainFailedDryRun | controllers/deployment.go:1158-1179 | on plain Kubernetes exactly when both dry runs fail and defaulting shows in the hash |
| DriftCheck.OpenShiftFailedDryRun | controllers/ocp/deployment.go:28-49 | on OpenShift the dry run after the overwrite and the check's stand in for each other; the first shows exactly when defaulting before the overwrite changes the hash |
| DriftCheck.FailedDryRunHeals | controllers/utils.go:728-762 | whatever dry runs failed, the pass after the next answered one writes nothing |
| DriftCheck.DefaultingExists | controllers/utils.go:894-909 | the stability assumed of defaulting holds of a server that fills in the replica count and the service account |
| HashTriggers.Reconciler.ConfigMapTasks | controllers/repo_manager/configmap.go:13-51 | a changed CA ConfigMap restarts the pods, stores the hash and requeues |
| HashTriggers.Reconciler.RunSigningSecretTasks | controllers/repo_manager/utils.go:606-630 | the same for the signing Secret, which is read twice |
| HashTriggers.Reconciler.RunSigningScriptJob | controllers/repo_manager/job.go:503-543 | a changed signing-scripts Secret creates a Job and stores the hash without ending the pass |
| HashTriggers.FiringIsPaidFor | controllers/repo_manager/configmap.go:38-51 | over any run, firings are at most the edits, the lost label updates and one |
| HashTriggers.FiresAtMostOncePerEdit | controllers/repo_manager/utils.go:582-630 | with successful passes, at most one firing per edit and one for the start |
| HashTriggers.FiresExactlyOnChange | controllers/repo_manager/utils.go:594-603 | with an injective hash a pass fires exactly when the content differs from the content last acted on, and once |
| HashTriggers.MissingObjectFiresAlways | controllers/repo_manager/utils.go:594-603 | a missing object fires on every pass |
| Migration.Reconciler.NeedsMigrationNow | controllers/repo_manager/utils.go:444-477 | the triggers in order, with the status writes they make |
| Migration.Reconciler.HasActiveJobRunning | controllers/repo_manager/utils.go:518-526 | whether any labelled Job is active |
| Migration.Reconciler.MigrationDone | controllers/repo_manager/utils.go:493-514 | whether any labelled Job has the wanted image |
| Migration.Reconciler.MigrationPass | controllers/repo_manager/utils.go:436-477 | the pass from the migration to the status fields, with every write committed or lost |
| Migration.MigrationJobsBounded | controllers/repo_manager/utils.go:444-526 | for a fixed spec at most two migration Jobs over any run, at most one without a storage change, plus one per forgotten trigger |
| Migration.JobsAreOwed | controllers/repo_manager/utils.go:444-526 | the same over runs with spec edits, two Jobs per edit |
| Migration.ImageAdvancesWithAJob | controllers/repo_manager/status.go:194-197 | `Status.Image` moves only to the wanted image, and with Job creation succeeding only if migrations are off or a labelled Job has it |
| Migration.FailedCreateStillAdvances | controllers/repo_manager/job.go:205-233 | it moves without a Job exactly when the wanted Job could not be created and none has the image |
| Migration.OtherJobHidesMigration | controllers/repo_manager/utils.go:507-514 | with only the image changed, a migration Job is created exactly when no labelled Job has the image |
| Migration.FailedStorageMigrationIsNotRetried | controllers/repo_manager/utils.go:453-459 | with the Job's creation failing and nothing else asking for one, no later run creates it exactly when some later status write of that pass goes through; otherwise the next pass does |
| Migration.StorageTriggerFires | controllers/repo_manager/utils.go:453-459 | a pass that sees a new storage type creates one Job |
| Migration.CreatesExactly | controllers/repo_manager/utils.go:444-477 | every pass adds the Job exactly when migrations are on, the Job can be created, and the storage differs, or a flag differs while no labelled Job is active, or the image differs and no labelled Job has it |
| Migration.StatusCatchesUp | controllers/repo_manager/utils.go:453-474 | with every write going through, one pass records image, storage and flags, but for the flags when it saw a new storage type |
| Exposure.Reconciler.ChangeType | controllers/repo_manager/utils.go:150-222 | tears down the old kind and records the new type |
| Exposure.Reconciler.ChangeClass | controllers/repo_manager/utils.go:226-260 | tears down pulp-web or the Ingress and records the class |
| Exposure.Reconciler.ReconcilePass | controllers/repo_manager/controller.go:234-264 | the exposure part of a pass with its early returns |
| Exposure.CommitsExactly | controllers/repo_manager/utils.go:150-222 | a type change commits exactly when the lower-cased recorded type is one of the four and differs from the lower-cased wanted one |
| Exposure.NoCommitNoProgress | controllers/repo_manager/controller.go:254-257 | otherwise every pass requeues and nothing ever changes |
| Exposure.SyncedStatesAreClean | controllers/repo_manager/controller.go:234-264 | over any passes and edits among the four kinds, every synced state has Routes only under route, Ingresses only under ingress and no pulp-web under route |
| Exposure.AlwaysConsistent | controllers/repo_manager/utils.go:150-260 | the inductive invariant: what exists belongs to the recorded type |
| Exposure.EditBeforeFirstRecordLeaks | controllers/repo_manager/status.go:252-254 | an edit of the kind before the type is first recorded leaves Routes behind for good and an Ingress until the class changes |
| Exposure.LeftoversExactly | controllers/repo_manager/controller.go:234-264 | with no type recorded, or the wanted one, exactly what becomes of Routes, Ingress, redirect and pulp-web of another kind over any run |
| Exposure.FirstRecordDecides | controllers/repo_manager/status.go:252-254 | from the first record on every synced state is clean, over any passes and edits, exactly when no Routes or Ingress of another kind existed at the record |
| Exposure.UneditedInstallIsClean | controllers/repo_manager/status.go:252-254 | an installation whose kind is not edited before the first record stays clean |
| Exposure.ClassUpdatesBounded | controllers/repo_manager/utils.go:226-260 | each class change, ingress exit or lost write costs at most one `updateIngressClass` |
| Exposure.CommittingStateSettles | controllers/repo_manager/controller.go:234-264 | a settled or committing state is synced and has what its kind needs after three good passes |
| Exposure.TypeChangeRebuilds | controllers/repo_manager/controller.go:234-264 | from any consistent state, three good passes after a change of the kind leave exactly its objects: Routes, or the Ingress with the redirect and pulp-web that class and annotation ask for, or pulp-web |
| Exposure.ClassChangeRebuilds | controllers/repo_manager/utils.go:226-260 | two good passes after a change of the class leave the Ingress and, exactly, the redirect and pulp-web that the new class and the annotation ask for or that nothing takes down |
| Pdb.PdbController.Reconcile | controllers/repo_manager/pdb.go:36-123 | the loop over the components in a given order, with its early returns |
| Pdb.Confluent | controllers/repo_manager/pdb.go:36-123 | at most four requeues and the same final state for every choice of orders: a PDB exactly for each component with a non-empty spec, the one that was there if it derives from those fields and the component's selector, else a new one of them |
| Pdb.RunSettles | controllers/repo_manager/pdb.go:36-123 | the number of requeues is the number of PDBs that were due |
| Pdb.QuietPass | controllers/repo_manager/pdb.go:108-119 | a pass that does not requeue leaves the final state exactly when no unwanted PDB's delete failed |
| Pdb.FailedDeleteStays | controllers/repo_manager/pdb.go:108-119 | a quiet pass whose delete fails keeps an unwanted PDB, and the next one that succeeds removes it |
| Pdb.FinalIsStable | controllers/repo_manager/pdb.go:36-123 | further passes leave the final state alone |
| StatusConditions.Reconciler.SetCondition | controllers/utils.go:429-456 | `UpdateStatus` on a copy nobody else touches |
| StatusConditions.Reconciler.FinishExecution | controllers/repo_manager/status.go:122-150 | the last part of the check |
| StatusConditions.FinishedIsHonest | controllers/repo_manager/status.go:69-151 | in every interleaving of the goroutines, with every status write stored whole or lost, a stored "finished" implies that none of the four conditions is False |
| StatusConditions.InterleavingKeepsInvariant | controllers/repo_manager/status.go:93-120 | the invariant of the shared copy, the writes under way and the stored status |
| StatusConditions.AloneIsUpdateStatus | controllers/utils.go:429-456 | the steps of an undisturbed goroutine compute exactly what the call computes |
| StatusConditions.FinishedAfterCheck | controllers/repo_manager/status.go:122-150 | the check stores "finished" exactly when the goroutines left no condition False and it was already said, or was present and the last write goes through |
| StatusConditions.UnreadyIsStored | controllers/repo_manager/status.go:93-120 | in every interleaving a component seen not ready is stored as such and "finished" is not, unless its write meets a conflict or it sets its condition while another write is under way |
| StatusConditions.FinishedExactly | controllers/repo_manager/status.go:93-150 | over all commit orders, "finished" is stored exactly when the goroutine whose write went through last found no component not ready while building it, and it was already said or is present and the last write goes through |
| StatusConditions.FinishedDespiteUnready | controllers/repo_manager/status.go:93-150 | with one unready component and nothing to write for the others, "finished" is stored exactly when its write is lost and the old status would be finished |
| StatusConditions.LostWriteHidesUnready | controllers/utils.go:444-455 | a conflicting write leaves "finished" standing although the goroutine saw its component not ready |
| StatusConditions.OverwrittenUnready | controllers/utils.go:444-455 | with every write going through, "finished" is still set anew when the response to another goroutine's write restores the old condition |
| StatusConditions.StaleFirstRead | controllers/repo_manager/status.go:122-138 | with an old first copy the stored status becomes dishonest exactly in the stated case |
| StatusRecovery.ReadyIsStored | controllers/repo_manager/status.go:93-120 | in every interleaving a component recorded as not ready and seen ready is stored as ready, unless its write meets a conflict or it sets its condition while another write is under way |
| StatusRecovery.FinishesExactlyWhenReady | controllers/repo_manager/status.go:93-150 | in every interleaving without those, "finished" is stored exactly when every component looked at is ready and every one recorded as not ready is looked at |
| Reconcile.Reconciler.CreatePulpResource | controllers/repo_manager/utils.go:280-338 | creates a missing object and requeues |
| Reconcile.Reconciler.CreateAdminSecret | controllers/repo_manager/secret.go:45-104 | looks the admin Secret up under one name and creates it under another when the name has one character |
| Reconcile.Reconciler.ReconcileObject | controllers/utils.go:728-779 | writes a drifted object and requeues; the server Secret also restarts the pods |
| Reconcile.Reconciler.RunSteps | controllers/repo_manager/api.go:70-114 | the resources of a controller one after the other, with early return |
| Reconcile.Reconciler.DatabaseTasks | controllers/repo_manager/database.go:41-169 | create and repair of Secret, StatefulSet and Service, nothing with an external database |
| Reconcile.Reconciler.PulpCoreTasks | controllers/repo_manager/controller.go:184-282 | the pipeline from the file storage to the clean-up |
| Reconcile.Reconciler.ReconcilePass | controllers/repo_manager/controller.go:92-128 | one pass after the prechecks |
| PassOrder.PassDoesFirst | controllers/repo_manager/controller.go:71-282 | of everything a state has due (a needed object to create or to repair, a restart, a change of type or class, a PDB), each at its fixed place, a pass does the first and nothing else: that write or transition, and then a requeue |
| PassOrder.GoesThroughExactly | controllers/repo_manager/controller.go:92-128 | a pass goes through to the end exactly when nothing is due |
| PassOrder.TypeChangesFirst | controllers/repo_manager/controller.go:234-257 | while the recorded type is not the wanted one no pass writes an object of the exposure, and a pass with nothing due before ends after the teardown, without a write |
| PassCleanUp.QuietPassCleans | controllers/repo_manager/controller.go:92-282 | a pass with nothing due writes no object and leaves exactly the objects there were, without those of a cache no longer managed, of pulp-web under Routes and of telemetry switched off, and exactly the PDBs that are asked for |
| ReconcileLaws.StageOrder | controllers/repo_manager/controller.go:102-117 | no pass writes an object of a later stage unless every earlier object was there, is untouched, and passes its own drift check |
| ReconcileLaws.StepsOrdered | controllers/repo_manager/controller.go:184-257 | the pipeline runs its stages in order |
| ReconcileLaws.RequeueDecreases | controllers/repo_manager/controller.go:71-282 | when the server Secret's text does not depend on the order of the flags, every pass that requeues lowers a lexicographic measure of six components |
| Instances.Convergence | controllers/repo_manager/controller.go:71-282 | whatever orders Go's maps are ranged over in, the passes of an instance settle in a synced state exactly when the admin Secret's name is not one character long or the default one exists, the watched objects exist, the recorded type can change, and `settings.py` does not depend on the order of the migration flags |
| Instances.WorldIsDecided | controllers/repo_manager/secret.go:622-642 | the rendered text is the same for both orders in all states of the two Secrets it reads, or in none |
| Instances.BlockedByText | controllers/repo_manager/utils.go:150-222 | what blocks a run, read off the CR, the status, the labels and the namespace |
| Instances.StartIsMachine | controllers/repo_manager/controller.go:234-257 | the pipeline's first state and configuration are the exposure machine's, read off the same CR and status |
| Instances.TypeChangeIsMachine | controllers/repo_manager/utils.go:150-222 | the pipeline's change of the type does what the exposure machine does |
| Instances.ClassChangeIsMachine | controllers/repo_manager/utils.go:226-260 | the same for the change of the class |
| Instances.RoutesAreMachine | controllers/ocp/route.go:140-204 | the same for the Routes |
| Instances.TypePassIsMachine | controllers/repo_manager/controller.go:234-257 | with nothing due before it, a whole pass that changes the type leaves what the exposure machine's pass leaves, and both requeue |
| Instances.ClassPassIsMachine | controllers/repo_manager/controller.go:234-264 | the same for a whole pass that changes the class |
| Instances.LastPassIsMachine | controllers/repo_manager/controller.go:234-282 | the same for a pass with nothing due, and neither requeues |
| Instances.CaTriggerIsMachine | controllers/repo_manager/configmap.go:13-51 | the pipeline's CA trigger does what the hash label's machine does |
| Instances.SigningTriggerIsMachine | controllers/repo_manager/utils.go:606-630 | the same for the signing Secret |
| ReconcileRuns.OrderFreeRuns | controllers/repo_manager/controller.go:71-282 | with such a text every run settles for good exactly when nothing blocks it |
| ReconcileRuns.DivergentRuns | controllers/repo_manager/secret.go:108-117 | with a text that differs between the two orders, from every state some run never goes through a single pass |
| ReconcileRuns.SyncedStaysSynced | controllers/repo_manager/controller.go:119-127 | once synced, every pass goes through and leaves a synced state |
| ReconcileRuns.ReconcileUntilSynced | controllers/repo_manager/controller.go:71-128 | pass after pass terminates in a synced state, unless blocked or dependent on the order of the flags |
| ReconcileRuns.BlockedNeverRests | controllers/repo_manager/secret.go:45-50 | a one-character admin Secret name, a missing watched object or a stuck type keeps every run from coming to rest |
| ReconcileLaws.RestingIsSynced | controllers/repo_manager/controller.go:119-127 | a pass that goes through to the end leaves a synced state |
| ReconcileLaws.ServerRepairCausesDrift | controllers/repo_manager/secret.go:108-117 | repairing the server Secret puts the pulpcore Deployments out of date |
| ReconcileLaws.WebServiceDriftStays | controllers/utils.go:773-775 | without a node port a synced state may hold any version of the pulp-web Service |
| Instances.SyncedPodsFindTheirObjects | controllers/deployment.go:442-574 | at a synced state, under Routes, an Ingress or pulp-web, every operator object a pod volume refers to exists, unless the admin Secret's name has one character |
| SecretBackup.CreateBackupFile | controllers/backup/secret.go:151-181 | the name under its tag, overwritten by the Secret's own entries; nothing when the Secret is missing |
| SecretBackup.ReadFields | controllers/restore/secret.go:239-257 | the loop over the struct fields yields the name and the non-empty known keys |
| SecretBackup.SecretRoundTrip | controllers/restore/secret.go:170-277 | restoring a file gives exactly what its kind carries, under the same name exactly when no key is named like the tag with another value |
| SecretBackup.CarriedWhole | controllers/restore/secret.go:19-83 | it is the identity exactly on Secrets with known keys and non-empty values |
| SecretBackup.GeneratedSecretsSurvive | controllers/repo_manager/secret.go:185-251 | the admin, postgres, db-fields and container-token Secrets the operator generates come back unchanged |
| SecretBackup.KeysLostByRestore | controllers/restore/secret.go:45-78 | four kinds of keys are never restored |
| SecretBackup.RestoredAddressingStyleIsPath | controllers/repo_manager/secret.go:645-650 | a restored instance renders the addressing style "path" |
| SecretBackup.BackupSecret | controllers/backup/secret.go:38-148 | one file per entry, or failure at the first missing Secret |
| SecretBackup.RestoreController.RestoreSecret | controllers/restore/secret.go:99-164 | the files in order; fails exactly when a mandatory one is missing |
| SecretBackup.CompletedBackupHasMandatoryFiles | controllers/restore/secret.go:115-127 | a completed backup has every mandatory file |
| SecretBackup.RestoreLaws | controllers/restore/secret.go:262-273 | nothing is overwritten, every file's Secret exists afterwards, nothing else appears |
| SecretBackup.BackupThenRestore | controllers/backup/secret.go:38-181 | backup then restore brings every Secret back under its name with what its kind carries |
| SecretBackup.SharedNamesFirstWins | controllers/restore/secret.go:262-273 | when entries share a Secret's name, what the first of them in the order of the restore carries is what comes back |
| SecretBackup.FirstFileDecides | controllers/restore/secret.go:99-164 | without any assumption on the names, the Secrets after a restore: existing ones stay, the first file of a new name decides, nothing else appears |
| SecretBackup.OneStorageKindsDistinct | controllers/backup/secret.go:100-122 | with one object storage no file is written twice |
| BackupScope.FilesExactly | controllers/backup/secret.go:38-148 | kind by kind, a completed backup has exactly the files of the Secrets the instance names, each with that Secret's content |
| BackupScope.BackupCompletes | controllers/backup/secret.go:38-148 | with one object storage it completes exactly when every such Secret exists |
| FeatureAgreement.RestoredStorageSame | controllers/restore/secret.go:45-61 | a restored object storage has every option the renderer reads, but for the addressing style of S3, which becomes the default |
| FeatureAgreement.RestoredKeycloakSame | controllers/restore/secret.go:68-79 | a restored Keycloak Secret has every value the renderer reads, but for two optional keys |
| FeatureAgreement.MountedFilesSurvive | controllers/restore/secret.go:19-67 | every file the pods mount of the generated Secrets and of the signing key, and every database value of the renderer, comes through backup and restore |
| RestoreProtocol.Controller.RestoreSecretStage | controllers/restore/secret.go:99-164 | the Secrets up to the one that fails, each created when it is not there and never overwritten |
| RestoreProtocol.Controller.RestoreCRStage | controllers/restore/deploy.go:23-77 | creates the CR with zero replicas and migrations off, or returns zero counts |
| RestoreProtocol.Controller.ScaleDeployments | controllers/restore/deploy.go:82-111 | the kept or single counts, and migrations on again |
| RestoreProtocol.Controller.Reconcile | controllers/restore/controller.go:52-195 | one attempt with all its early returns |
| RestoreProtocol.LockStopsAttempts | controllers/restore/controller.go:79-84 | once the lock exists no attempt performs a stage, exactly when the lock can be read |
| RestoreProtocol.CompletionOnlyFromSuccess | controllers/restore/controller.go:182-195 | lock and `RestoreComplete=True` come only from an attempt in which every stage succeeded |
| RestoreProtocol.SecretsExactly | controllers/restore/secret.go:252-273 | which Secrets this stage leaves and with which data, over any unreadable files: existing ones stay, the first readable file of a new name fills it, nothing else appears |
| RestoreProtocol.SucceedsExactly | controllers/restore/controller.go:86-180 | an attempt succeeds exactly when no stage is stopped, every mandatory file is there, and a CR exists or can be read from the backup |
| RestoreProtocol.CompletedRestore | controllers/restore/controller.go:52-195 | after a success every Secret with a readable file exists, with that file's data if it was new, so does the ConfigMap, and the CR is the backup's or the one that was there but for the counts and the migration switch |
| RestoreProtocol.BackupThenProtocol | controllers/restore/secret.go:99-164 | a backup and then a successful attempt with every read answered: every Secret of the instance is back under its name with what its kind carries |
| RestoreProtocol.StagesInOrder | controllers/restore/controller.go:86-180 | an attempt that gets past the lock begins its stages in the fixed order up to the first that fails |
| RestoreProtocol.RestoreOnlyAdds | controllers/restore/deploy.go:30-74 | over any attempts and interference no Secret or ConfigMap is overwritten and the CR is created at most once |
| RestoreProtocol.KeptReplicas | controllers/restore/deploy.go:92-96 | with kept counts the result is the backup's exactly when the scaling attempt created the CR, otherwise zeroes |
| RestoreProtocol.SingleReplicas | controllers/restore/deploy.go:97-105 | without, one replica each, pulp-web apart |
| RestoreProtocol.RetryForgetsCounts | controllers/restore/deploy.go:25-76 | an error after the creation costs the counts |
| RestoreProtocol.CompleteWithoutLock | controllers/restore/utils.go:242-245 | an attempt that begins a stage ends complete without a lock exactly when all stages succeed, its status write goes through and only the creation of the lock fails |
| RestoreProtocol.NextAttemptCounts | controllers/restore/deploy.go:82-111 | the next successful attempt then zeroes the counts exactly when they are to be kept |
| RestoreInterleaving.NothingRunsBeforeScaling | controllers/restore/deploy.go:61-67 | in every interleaving, until the scaling commits every Deployment has no replicas (one where autoscaled) and no migration Job exists |
| RestoreInterleaving.TriggerSurvives | controllers/repo_manager/utils.go:444-459 | the recorded storage type stays empty until a pass runs with migrations on |
| RestoreInterleaving.FirstPassAfterScalingMigrates | controllers/restore/deploy.go:92-111 | the first later pass that reaches the migration creates the Job |
| RestoreInterleaving.ImageTriggerIsConsumed | controllers/repo_manager/status.go:194-197 | the image is recorded while migrations are off |

## Left out

- Reconcile.Reconciler.ReconcilePass: the status tasks that follow the pipeline, which requeue a pass on their own while a Deployment is not ready (`StatusConditions` models them); API writes succeed; a failing write ends a pass without a requeue of its own, and a failing probe ConfigMap write makes the worker controller dereference a nil result.
- Reconcile.Reconciler.RunSteps: the controllers' straight-line create and repair calls are kept as lists of steps; updates of status conditions, events and logs are not in the list.
- Reconcile.Reconciler.PulpCoreTasks: Jobs and HPA objects never end a pass, so they are not steps; the redirect Ingress of OpenShift's own class is in the exposure model only, and the Routes are one flag.
- Instances.Convergence: assumes that the prechecks pass, that no other writer interferes, and that the pods whose plugins an Ingress or the Routes list are running.
- ReconcileRuns.DivergentRuns: which order Go picks is a choice, not a probability; a run with bad orders only is possible, not certain.
- Settings.SettingsBuilder.PulpServerSecret: constant parts of the dictionaries (punctuation, fixed entries, the logging and LDAP texts) are abbreviated.
- EnvVars.SetEnvVars: the two default log formats are shortened.
- PodTemplate.CommonDeployment.Build: probes, images, affinity, resources, labels and arguments, which nothing else refers to.
- Pdb.Confluent: a PDB spec is the map of its set fields.
- Exposure.Reconciler.RouteController: the Routes exist at the end of the pass; the source starts one goroutine each and does not wait for them.
- Exposure.SyncedStatesAreClean: deletes are synchronous, and the CR's route labels are taken not to override the common labels by which the Routes are deleted.
- HashTriggers.Reconciler.UpdateHashLabel: times of restarts; two restarts in the same second are counted apart.
- Migration.Reconciler.MigrationPass: reads of a lagging cache; the restore interleaving has them.
- RestoreInterleaving.NothingRunsBeforeScaling: the CR has no users editing it during the restore; two changed migration flags are recorded in one status write.
- SecretBackup.BackupSecret: YAML and shell quoting; decoding is taken to invert encoding.
- The Jobs that reset the admin password and update the checksums, and the status fields a restore fills in by reflection: only the labels and images of such Jobs matter to the migration, and are inputs there.
- ContainerExec, pg_dump, pg_restore and the copy of the file storage: no state worth keeping.
- Manager set-up, RBAC contents, logging, events, sleeps and OpenShift detection (a constant of a run).
- The FNV hash, OpenPGP fingerprints, random passwords and keys stay uninterpreted.
- Web autoscaling under route or ingress, and Redis clean-up when an external cache is added: the code does not reconcile them.
- nginx.conf text, CRD YAML and generated deep-copy code.
