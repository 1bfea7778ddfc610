/** The file names the command builds: the live kubeconfig, its timestamped
    backup and the two temporary files of an import. */
module Paths {

  /** `${os.homedir()}/.kube/config` */
  function ConfigPath(home: string): string {
    home + "/.kube/config"
  }

  /** `timestamp.replace(/[:.]/g, "-")` */
  function Sanitize(timestamp: string): (r: string)
    ensures |r| == |timestamp|
    ensures forall i :: 0 <= i < |r| ==>
      r[i] == if timestamp[i] == ':' || timestamp[i] == '.' then '-' else timestamp[i]
  {
    if timestamp == [] then []
    else [if timestamp[0] == ':' || timestamp[0] == '.' then '-' else timestamp[0]] + Sanitize(timestamp[1..])
  }

  const BACKUP_PREFIX := "config_backup_"

  /** The file name of a backup taken at `timestamp` (an ISO string). */
  function BackupName(timestamp: string): string {
    BACKUP_PREFIX + Sanitize(timestamp)
  }

  /** `${os.homedir()}/.kube/config_backup_${currentTime}` */
  function BackupPath(home: string, timestamp: string): (r: string)
    ensures |r| > |home| + 7 && r[..|home| + 7] == home + "/.kube/" && r[|home| + 7..] == BackupName(timestamp)
    ensures r != ConfigPath(home)
  {
    home + "/.kube/" + BackupName(timestamp)
  }

  /** `${os.tmpdir()}/temp_new_kubeconfig_${Date.now()}.yaml` */
  function TempNewPath(tmpdir: string, stamp: string): string {
    tmpdir + "/temp_new_kubeconfig_" + stamp + ".yaml"
  }

  /** `${os.tmpdir()}/temp_merged_kubeconfig_${Date.now()}.yaml` */
  function TempMergedPath(tmpdir: string, stamp: string): string {
    tmpdir + "/temp_merged_kubeconfig_" + stamp + ".yaml"
  }

  /** The part of a backup name after `config_backup_` is the timestamp with every
      `:` and `.` turned into `-` and every other character kept; so no `:` and
      no `.` of the timestamp reaches the name. */
  lemma BackupNameShape(timestamp: string)
    ensures var n := BackupName(timestamp);
      |n| == |BACKUP_PREFIX| + |timestamp| && n[..|BACKUP_PREFIX|] == BACKUP_PREFIX &&
      (forall i :: |BACKUP_PREFIX| <= i < |n| ==> n[i] != ':' && n[i] != '.') &&
      (forall i :: 0 <= i < |timestamp| && timestamp[i] != ':' && timestamp[i] != '.' ==>
         n[|BACKUP_PREFIX| + i] == timestamp[i])
  {
  }

  /** The backup never overwrites the live file, and the two temporary files of an
      import are distinct from each other and from the live file. */
  lemma PathsDistinct(home: string, tmpdir: string, timestamp: string, newStamp: string, mergedStamp: string)
    ensures BackupPath(home, timestamp) != ConfigPath(home)
    ensures TempNewPath(tmpdir, newStamp) != ConfigPath(home)
    ensures TempMergedPath(tmpdir, mergedStamp) != ConfigPath(home)
    ensures TempNewPath(tmpdir, newStamp) != TempMergedPath(tmpdir, mergedStamp)
  {
    var c := ConfigPath(home);
    var n := TempNewPath(tmpdir, newStamp);
    var m := TempMergedPath(tmpdir, mergedStamp);
    assert |BackupPath(home, timestamp)| > |c|;
    assert c[|c| - 1] == 'g';
    assert n[|n| - 1] == 'l';
    assert m[|m| - 1] == 'l';
    assert n[|tmpdir| + 6] == 'n';
    assert m[|tmpdir| + 6] == 'm';
  }
}
