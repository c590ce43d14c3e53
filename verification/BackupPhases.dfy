// The phases of a GameServerBackup, as its status has them.
module BackupPhases {
  datatype Phase = Unset | Pending | Running | Completed | Failed | Deleting
}
