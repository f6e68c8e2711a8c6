/**
 * The database start-up step: ask once whether a migration is pending, back
 * the database up when configured to, and apply the migration when allowed.
 * The backup and the migration are abstract actions; the answer to the
 * migration question is a parameter.
 */
module Startup {

  /** The three configuration switches the step reads. */
  datatype StartupConfig = StartupConfig(autoMigrate: bool, backupBeforeMigration: bool, backupAtStartup: bool)

  /** The configuration the repository ships. */
  const ShippedConfig := StartupConfig(autoMigrate := true, backupBeforeMigration := true, backupAtStartup := false)

  /** The effects, in the order performed. */
  datatype Action = QueryMigrationNeeded | Backup | Migrate

  /** `startup_database`, as the sequence of actions it performs. */
  function StartupDatabase(config: StartupConfig, needsMigration: bool): (actions: seq<Action>)
    ensures |actions| >= 1 && actions[0] == QueryMigrationNeeded
    ensures QueryMigrationNeeded !in actions[1..]
    ensures Migrate in actions <==> needsMigration && config.autoMigrate
    ensures Backup in actions <==>
      config.backupAtStartup || (needsMigration && config.backupBeforeMigration && config.autoMigrate)
    ensures forall i, j :: 0 <= i < |actions| && 0 <= j < |actions| && actions[i] == Backup && actions[j] == Migrate ==> i < j
    ensures forall i, j :: 0 <= i < j < |actions| ==> actions[i] != actions[j]
  {
    var backup := config.backupAtStartup || (needsMigration && config.backupBeforeMigration && config.autoMigrate);
    var migrate := needsMigration && config.autoMigrate;
    [QueryMigrationNeeded] + (if backup then [Backup] else []) + (if migrate then [Migrate] else [])
  }

  /**
   * With the shipped configuration a migration is always preceded by a
   * backup, and nothing is backed up when no migration is pending.
   */
  lemma ShippedConfigBacksUpFirst(needsMigration: bool)
    ensures var actions := StartupDatabase(ShippedConfig, needsMigration);
      && (Migrate in actions ==> Backup in actions)
      && (needsMigration <==> actions == [QueryMigrationNeeded, Backup, Migrate])
      && (!needsMigration <==> actions == [QueryMigrationNeeded])
  {
  }
}
