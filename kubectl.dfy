/**
 * The machine the command runs on, seen from the command: a file system of
 * kubeconfig files and the external `kubectl` tool, reached through
 * `runCommand`, which either exits cleanly or rejects.
 */
module Kubectl {
  import opened Wrappers
  import opened Kubeconfig

  /** The `kubectl` invocations the command makes. */
  datatype Command =
    | UseContext(context: string)
    | DeleteContext(context: string)
    | DeleteCluster(cluster: string)
    | DeleteUser(user: string)
      /** `KUBECONFIG=<sources joined by ':'> kubectl config view --flatten > <output>` */
    | MergeFlatten(sources: seq<string>, output: string)

  /** What a file holds: a document `yaml.load` accepts, or text it throws on. */
  datatype FileContent = Yaml(doc: Document) | Unparsable(text: string)

  type Files = map<string, FileContent>

  /** The content at `path`, if the file exists. */
  function Lookup(files: Files, path: string): (r: Option<FileContent>)
    ensures r.Some? <==> path in files
    ensures r.Some? ==> r.value == files[path]
  {
    if path in files then Some(files[path]) else None
  }

  /** How one command ended and what the file system holds afterwards. */
  datatype Outcome = Outcome(ok: bool, files: Files)

  /** The behaviour of `kubectl` (and of the shell around it) is not part of the
      model: any function from a command and the files it sees to an outcome. */
  type Oracle = (Command, Files) -> Outcome

  /** The fixed facts of one machine: `os.homedir()`, `os.tmpdir()` and `kubectl`. */
  datatype Env = Env(home: string, tmpdir: string, kubectl: Oracle)

  /** The commands actually issued from a list run one after another with
      `await`, stopping at the first that fails. */
  datatype Run = Run(issued: seq<Command>, files: Files, ok: bool)

  function RunAll(kubectl: Oracle, cmds: seq<Command>, files: Files): (r: Run)
    ensures r.issued <= cmds
    ensures r.ok ==> r.issued == cmds
    ensures !r.ok ==> r.issued != []
    decreases |cmds|
  {
    if cmds == [] then Run([], files, true)
    else
      var o := kubectl(cmds[0], files);
      if !o.ok then Run([cmds[0]], o.files, false)
      else
        var rest := RunAll(kubectl, cmds[1..], o.files);
        Run([cmds[0]] + rest.issued, rest.files, rest.ok)
  }

  /** Running `[c] + rest` is running `c` and, only if it succeeds, `rest`. */
  lemma RunAllCons(kubectl: Oracle, c: Command, rest: seq<Command>, files: Files)
    ensures var o := kubectl(c, files);
      RunAll(kubectl, [c] + rest, files) ==
        if !o.ok then Run([c], o.files, false)
        else var r := RunAll(kubectl, rest, o.files); Run([c] + r.issued, r.files, r.ok)
  {
  }

  /** Execution stops at the first failing command: every command issued before
      position `k` succeeded, and the command at `k` fails exactly when it is the
      last one issued and the run is reported as failed. */
  lemma {:induction false} RunAllStopsAtFirstFailure(kubectl: Oracle, cmds: seq<Command>, files: Files, k: nat)
    requires k < |RunAll(kubectl, cmds, files).issued|
    ensures var r := RunAll(kubectl, cmds, files);
      var before := RunAll(kubectl, cmds[..k], files);
      k < |cmds| && before.ok && before.issued == cmds[..k] &&
      (!kubectl(cmds[k], before.files).ok <==> k == |r.issued| - 1 && !r.ok)
    decreases k
  {
    var o := kubectl(cmds[0], files);
    if k > 0 {
      assert o.ok;
      RunAllStopsAtFirstFailure(kubectl, cmds[1..], o.files, k - 1);
      assert cmds[..k] == [cmds[0]] + cmds[1..][..k - 1];
      RunAllCons(kubectl, cmds[0], cmds[1..][..k - 1], files);
      assert cmds[1..][k - 1] == cmds[k];
    } else {
      assert cmds[..0] == [];
    }
  }

  /** The file system and `kubectl`. `log` records every command issued, in order. */
  class Host {
    const env: Env
    var files: Files
    var log: seq<Command>

    constructor (env: Env, files: Files)
      ensures this.env == env && this.files == files && log == []
    {
      this.env := env;
      this.files := files;
      log := [];
    }

    /** `runCommand`: resolves when the command exits cleanly, rejects otherwise. */
    method RunCommand(c: Command) returns (ok: bool)
      modifies this
      ensures var o := env.kubectl(c, old(files));
        ok == o.ok && files == o.files && log == old(log) + [c]
    {
      var o := env.kubectl(c, files);
      ok := o.ok;
      files := o.files;
      log := log + [c];
    }
  }
}
