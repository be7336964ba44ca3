/** What each phase of the pass does, one equation a phase, so that a proof about one
    phase need not look at the others. */
module Steps {
  import opened Kube
  import opened Clusters
  import opened World
  import opened Operator

  lemma StepProtect(c: Context, s: State, d: Durable)
    ensures Step(c, s, Protect(d)) == ProtectOne(c, s, d)
  {
    hide StorageStep, CoreStep, PowerSyncStep, ProtectOne, CheckBundle, MakeSecret, MakeRoleSecrets, MakeToken,
         MakeHook, FinishSecrets;
  }

  lemma StepCredentials(c: Context, s: State)
    ensures Step(c, s, CheckCredentials) == CheckBundle(c, s)
  {
    hide StorageStep, CoreStep, PowerSyncStep, ProtectOne, CheckBundle, MakeSecret, MakeRoleSecrets, MakeToken,
         MakeHook, FinishSecrets;
  }

  lemma StepSecret(c: Context, s: State, role: SecretRole)
    ensures Step(c, s, ImplementationSecret(role))
         == OrFailSecrets(c, ImplementationSecret(role),
             EnsureSecret(c, ImplementationSecret(role), s, role, c.k.generate(role, c.seed)))
  {
    hide StorageStep, CoreStep, PowerSyncStep, ProtectOne, CheckBundle, OrFailSecrets, EnsureSecret, MakeRoleSecrets,
         MakeToken, MakeHook, FinishSecrets;
  }

  lemma StepRoleSecrets(c: Context, s: State)
    ensures Step(c, s, PsRoleSecrets) == MakeRoleSecrets(c, s)
  {
    hide StorageStep, CoreStep, PowerSyncStep, ProtectOne, CheckBundle, MakeSecret, MakeRoleSecrets, MakeToken,
         MakeHook, FinishSecrets;
  }

  lemma StepToken(c: Context, s: State)
    ensures Step(c, s, PsTokenSecret) == MakeToken(c, s)
  {
    hide StorageStep, CoreStep, PowerSyncStep, ProtectOne, CheckBundle, MakeSecret, MakeRoleSecrets, MakeToken,
         MakeHook, FinishSecrets;
  }

  lemma StepHook(c: Context, s: State)
    ensures Step(c, s, EmailHookSecret) == MakeHook(c, s)
  {
    hide StorageStep, CoreStep, PowerSyncStep, ProtectOne, CheckBundle, MakeSecret, MakeRoleSecrets, MakeToken,
         MakeHook, FinishSecrets;
  }

  lemma StepSecretsDone(c: Context, s: State)
    ensures Step(c, s, SecretsDone) == FinishSecrets(c, s)
  {
    hide StorageStep, CoreStep, PowerSyncStep, ProtectOne, CheckBundle, MakeSecret, MakeRoleSecrets, MakeToken,
         MakeHook, FinishSecrets;
  }

  lemma StepBootstrap(c: Context, s: State)
    ensures Step(c, s, ValidateBootstrap) == CheckBootstrap(c, s)
  {
    hide SecretsStep, StorageStep, PowerSyncStep, CheckBootstrap, EnsureMap, MakeJwks, MakeCluster, AwaitDatabase,
         ServeComponent, GateCore, Finished;
  }

  lemma StepInitSql(c: Context, s: State)
    ensures Step(c, s, InitSqlMap) == EnsureMap(c, InitSqlMap, s, InitSql, c.k.mapData(c.name, c.spec, InitSql))
  {
    hide SecretsStep, StorageStep, PowerSyncStep, CheckBootstrap, EnsureMap, MakeJwks, MakeCluster, AwaitDatabase,
         ServeComponent, GateCore, Finished;
  }

  lemma StepJwks(c: Context, s: State)
    ensures Step(c, s, JwksMap) == MakeJwks(c, s)
  {
    hide SecretsStep, StorageStep, PowerSyncStep, CheckBootstrap, EnsureMap, MakeJwks, MakeCluster, AwaitDatabase,
         ServeComponent, GateCore, Finished;
  }

  lemma StepCluster(c: Context, s: State)
    ensures Step(c, s, EnsureCluster) == MakeCluster(c, s)
  {
    hide SecretsStep, StorageStep, PowerSyncStep, CheckBootstrap, EnsureMap, MakeJwks, MakeCluster, AwaitDatabase,
         ServeComponent, GateCore, Finished;
  }

  lemma StepDatabase(c: Context, s: State)
    ensures Step(c, s, WaitForDatabase) == AwaitDatabase(c, s)
  {
    hide SecretsStep, StorageStep, PowerSyncStep, CheckBootstrap, EnsureMap, MakeJwks, MakeCluster, AwaitDatabase,
         ServeComponent, GateCore, Finished;
  }

  lemma StepServe(c: Context, s: State, comp: Component)
    ensures Step(c, s, Serve(comp)) == ServeComponent(c, s, comp)
  {
    hide SecretsStep, StorageStep, PowerSyncStep, CheckBootstrap, EnsureMap, MakeJwks, MakeCluster, AwaitDatabase,
         ServeComponent, GateCore, Finished;
  }

  lemma StepCoreGate(c: Context, s: State)
    ensures Step(c, s, CoreGate) == GateCore(c, s)
  {
    hide SecretsStep, StorageStep, PowerSyncStep, CheckBootstrap, EnsureMap, MakeJwks, MakeCluster, AwaitDatabase,
         ServeComponent, GateCore, Finished;
  }

  lemma StepFinish(c: Context, s: State)
    ensures Step(c, s, Finish) == Finished(c, s)
  {
    hide SecretsStep, StorageStep, PowerSyncStep, CheckBootstrap, EnsureMap, MakeJwks, MakeCluster, AwaitDatabase,
         ServeComponent, GateCore, Finished;
  }

  lemma StepStores(c: Context, s: State)
    ensures Step(c, s, BackupStore)
        == OrFailWith(c, BackupStore, EnsureStore(c, BackupStore, s, DurableBackup, BackupSpecOf(BackupDeclared(c))),
                                          BackupReady, ObjectStoreFailed)
    ensures Step(c, s, RecoveryStore)
        == OrFailWith(c, RecoveryStore,
        EnsureStore(c, RecoveryStore, s, DurableRecovery, RecoverySpecOf(RecoveryDeclared(c))),
                                            RecoveryReady, ObjectStoreFailed)
  {
    hide SecretsStep, CoreStep, PowerSyncStep, CheckS3, OrFailWith, EnsureStore, EnsureSchedule, MarkAndSave,
         CleanDurable, CleanCondition, BackupSpecOf, RecoverySpecOf, ScheduleOf, BackupDeclared, RecoveryDeclared;
  }

  lemma StepSchedule(c: Context, s: State)
    ensures Step(c, s, BackupSchedule)
        == OrFailWith(c, BackupSchedule, EnsureSchedule(c, BackupSchedule, s, ScheduleOf(c, BackupDeclared(c))),
                                             BackupReady, ScheduledBackupFailed)
  {
    hide SecretsStep, CoreStep, PowerSyncStep, CheckS3, OrFailWith, EnsureStore, EnsureSchedule, MarkAndSave,
         CleanDurable, CleanCondition, BackupSpecOf, RecoverySpecOf, ScheduleOf, BackupDeclared, RecoveryDeclared;
  }

  lemma StepStorageCredentials(c: Context, s: State)
    ensures Step(c, s, BackupCredentials)
        == CheckS3(c, BackupCredentials, s, BackupDeclared(c).s3.credentials, BackupReady)
    ensures Step(c, s, RecoveryCredentials)
        == CheckS3(c, RecoveryCredentials, s, RecoveryDeclared(c).s3.credentials, RecoveryReady)
  {
    hide SecretsStep, CoreStep, PowerSyncStep, CheckS3, OrFailWith, EnsureStore, EnsureSchedule, MarkAndSave,
         CleanDurable, CleanCondition, BackupSpecOf, RecoverySpecOf, ScheduleOf, BackupDeclared, RecoveryDeclared;
  }

  lemma StepConfigured(c: Context, s: State)
    ensures Step(c, s, BackupDone) == MarkAndSave(c, BackupDone, 0, s, BackupReady, true, BackupConfigured)
    ensures Step(c, s, RecoveryDone) == MarkAndSave(c, RecoveryDone, 0, s, RecoveryReady, true, RecoveryConfigured)
  {
    hide SecretsStep, CoreStep, PowerSyncStep, CheckS3, OrFailWith, EnsureStore, EnsureSchedule, MarkAndSave,
         CleanDurable, CleanCondition, BackupSpecOf, RecoverySpecOf, ScheduleOf, BackupDeclared, RecoveryDeclared;
  }

  lemma StepCleaning(c: Context, s: State)
    ensures Step(c, s, CleanSchedule)
        == CleanDurable(c, CleanSchedule, s, DurableSchedule, BackupReady, s.o.(schedule := None))
    ensures Step(c, s, CleanBackupStore)
        == CleanDurable(c, CleanBackupStore, s, DurableBackup, BackupReady, s.o.(backup := None))
    ensures Step(c, s, CleanRecoveryStore)
        == CleanDurable(c, CleanRecoveryStore, s, DurableRecovery, RecoveryReady, s.o.(recovery := None))
  {
    hide SecretsStep, CoreStep, PowerSyncStep, CheckS3, OrFailWith, EnsureStore, EnsureSchedule, MarkAndSave,
         CleanDurable, CleanCondition, BackupSpecOf, RecoverySpecOf, ScheduleOf, BackupDeclared, RecoveryDeclared;
  }

  lemma StepCleaned(c: Context, s: State)
    ensures Step(c, s, CleanBackupDone) == CleanCondition(c, CleanBackupDone, s, BackupReady)
    ensures Step(c, s, CleanRecoveryDone) == CleanCondition(c, CleanRecoveryDone, s, RecoveryReady)
  {
    hide SecretsStep, CoreStep, PowerSyncStep, CheckS3, OrFailWith, EnsureStore, EnsureSchedule, MarkAndSave,
         CleanDurable, CleanCondition, BackupSpecOf, RecoverySpecOf, ScheduleOf, BackupDeclared, RecoveryDeclared;
  }

  lemma StepRules(c: Context, s: State)
    ensures Step(c, s, RulesGate) == CheckRules(c, s)
  {
    hide SecretsStep, StorageStep, CoreStep, CheckRules, AwaitRoles, AwaitPublication, MakeCdcMap, AwaitJob,
         OrFailWith, EnsureMap, MakeRulesMap, EnsureDeployment, PowerSyncTemplate, EnsureService, MakeCompact,
         AwaitPowerSync, DeleteOwned, CleanStatus;
  }

  lemma StepRoles(c: Context, s: State)
    ensures Step(c, s, RolesGate) == AwaitRoles(c, s)
  {
    hide SecretsStep, StorageStep, CoreStep, CheckRules, AwaitRoles, AwaitPublication, MakeCdcMap, AwaitJob,
         OrFailWith, EnsureMap, MakeRulesMap, EnsureDeployment, PowerSyncTemplate, EnsureService, MakeCompact,
         AwaitPowerSync, DeleteOwned, CleanStatus;
  }

  lemma StepPublication(c: Context, s: State)
    ensures Step(c, s, PublicationGate) == AwaitPublication(c, s)
  {
    hide SecretsStep, StorageStep, CoreStep, CheckRules, AwaitRoles, AwaitPublication, MakeCdcMap, AwaitJob,
         OrFailWith, EnsureMap, MakeRulesMap, EnsureDeployment, PowerSyncTemplate, EnsureService, MakeCompact,
         AwaitPowerSync, DeleteOwned, CleanStatus;
  }

  lemma StepCdcMap(c: Context, s: State)
    ensures Step(c, s, CdcMap) == MakeCdcMap(c, s)
  {
    hide SecretsStep, StorageStep, CoreStep, CheckRules, AwaitRoles, AwaitPublication, MakeCdcMap, AwaitJob,
         OrFailWith, EnsureMap, MakeRulesMap, EnsureDeployment, PowerSyncTemplate, EnsureService, MakeCompact,
         AwaitPowerSync, DeleteOwned, CleanStatus;
  }

  lemma StepJob(c: Context, s: State)
    ensures Step(c, s, CdcJob) == AwaitJob(c, s)
  {
    hide SecretsStep, StorageStep, CoreStep, CheckRules, AwaitRoles, AwaitPublication, MakeCdcMap, AwaitJob,
         OrFailWith, EnsureMap, MakeRulesMap, EnsureDeployment, PowerSyncTemplate, EnsureService, MakeCompact,
         AwaitPowerSync, DeleteOwned, CleanStatus;
  }

  lemma StepPsConfig(c: Context, s: State)
    ensures Step(c, s, PsConfigMap)
        == OrFailWith(c, PsConfigMap, EnsureMap(c, PsConfigMap, s, PsConfig, c.k.mapData(c.name, c.spec, PsConfig)),
                                          PowersyncReady, ConfigMapFailed)
  {
    hide SecretsStep, StorageStep, CoreStep, CheckRules, AwaitRoles, AwaitPublication, MakeCdcMap, AwaitJob,
         OrFailWith, EnsureMap, MakeRulesMap, EnsureDeployment, PowerSyncTemplate, EnsureService, MakeCompact,
         AwaitPowerSync, DeleteOwned, CleanStatus;
  }

  lemma StepPsRules(c: Context, s: State)
    ensures Step(c, s, PsRulesMap) == MakeRulesMap(c, s)
  {
    hide SecretsStep, StorageStep, CoreStep, CheckRules, AwaitRoles, AwaitPublication, MakeCdcMap, AwaitJob,
         OrFailWith, EnsureMap, MakeRulesMap, EnsureDeployment, PowerSyncTemplate, EnsureService, MakeCompact,
         AwaitPowerSync, DeleteOwned, CleanStatus;
  }

  lemma StepPsDeployments(c: Context, s: State)
    ensures Step(c, s, PsApiDeployment)
        == OrFailWith(c, PsApiDeployment,
        EnsureDeployment(c, PsApiDeployment, s, PsApi, PowerSyncTemplate(c, s, PsApi)),
                                              PowersyncReady, ApiDeploymentFailed)
    ensures Step(c, s, PsReplicatorDeployment)
         == OrFailWith(c, PsReplicatorDeployment,
             EnsureDeployment(c, PsReplicatorDeployment, s, PsReplicator, PowerSyncTemplate(c, s, PsReplicator)),
                       PowersyncReady, ReplicationDeploymentFailed)
  {
    hide SecretsStep, StorageStep, CoreStep, CheckRules, AwaitRoles, AwaitPublication, MakeCdcMap, AwaitJob,
         OrFailWith, EnsureMap, MakeRulesMap, EnsureDeployment, PowerSyncTemplate, EnsureService, MakeCompact,
         AwaitPowerSync, DeleteOwned, CleanStatus;
  }

  lemma StepPsService(c: Context, s: State)
    ensures Step(c, s, PsApiService)
        == OrFailWith(c, PsApiService, EnsureService(c, PsApiService, s, PsApi), PowersyncReady, ApiServiceFailed)
  {
    hide SecretsStep, StorageStep, CoreStep, CheckRules, AwaitRoles, AwaitPublication, MakeCdcMap, AwaitJob,
         OrFailWith, EnsureMap, MakeRulesMap, EnsureDeployment, PowerSyncTemplate, EnsureService, MakeCompact,
         AwaitPowerSync, DeleteOwned, CleanStatus;
  }

  lemma StepCompact(c: Context, s: State)
    ensures Step(c, s, PsCompact) == MakeCompact(c, s)
  {
    hide SecretsStep, StorageStep, CoreStep, CheckRules, AwaitRoles, AwaitPublication, MakeCdcMap, AwaitJob,
         OrFailWith, EnsureMap, MakeRulesMap, EnsureDeployment, PowerSyncTemplate, EnsureService, MakeCompact,
         AwaitPowerSync, DeleteOwned, CleanStatus;
  }

  lemma StepPsReady(c: Context, s: State)
    ensures Step(c, s, PsReady) == AwaitPowerSync(c, s)
  {
    hide SecretsStep, StorageStep, CoreStep, CheckRules, AwaitRoles, AwaitPublication, MakeCdcMap, AwaitJob,
         OrFailWith, EnsureMap, MakeRulesMap, EnsureDeployment, PowerSyncTemplate, EnsureService, MakeCompact,
         AwaitPowerSync, DeleteOwned, CleanStatus;
  }

  lemma StepRemoval(c: Context, s: State, slot: Slot)
    ensures Step(c, s, CleanPowerSync(slot)) == DeleteOwned(c, CleanPowerSync(slot), s, slot)
  {
    hide SecretsStep, StorageStep, CoreStep, CheckRules, AwaitRoles, AwaitPublication, MakeCdcMap, AwaitJob,
         OrFailWith, EnsureMap, MakeRulesMap, EnsureDeployment, PowerSyncTemplate, EnsureService, MakeCompact,
         AwaitPowerSync, DeleteOwned, CleanStatus;
  }

  lemma StepStatusRemoval(c: Context, s: State)
    ensures Step(c, s, CleanPowerSyncStatus) == CleanStatus(c, s)
  {
    hide SecretsStep, StorageStep, CoreStep, CheckRules, AwaitRoles, AwaitPublication, MakeCdcMap, AwaitJob,
         OrFailWith, EnsureMap, MakeRulesMap, EnsureDeployment, PowerSyncTemplate, EnsureService, MakeCompact,
         AwaitPowerSync, DeleteOwned, CleanStatus;
  }

  lemma PassIs(c: Context, o: Objects, read: Status)
    ensures Pass(c, o, read) == Run(c, Begin(o, read), Plan(c)) && Begin(o, read).o == o && Begin(o, read).saved == read
  {
    hide Run, Plan;
  }

  lemma RunNone(c: Context, s: State)
    ensures Run(c, s, []) == Result(s, Next)
  {
    hide Step;
  }

  lemma RunOne(c: Context, s: State, ph: Phase)
    ensures Run(c, s, [ph]) == Step(c, s, ph)
  {
    hide Step;
    assert [ph][1..] == [];
  }
}
