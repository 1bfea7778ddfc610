/**
 * The list command: its two state values (`contexts`, `currentContext`) and the
 * actions of its menu. Each composite action is specified by a pure function of
 * the machine's files and the view; the class methods perform the action step by
 * step and are proved to match it.
 */
module Switcher {
  import opened Wrappers
  import opened Kubeconfig
  import opened Rename
  import opened Kubectl
  import opened Paths

  /** The toasts the command shows. */
  datatype Toast = Success | Failure

  /** The state values of the list view. */
  datatype View = View(contexts: seq<KubeContext>, currentContext: string)

  /** The document `yaml.load(fs.readFileSync(config))` yields, if any. */
  function ReadConfig(home: string, files: Files): (r: Option<Document>)
    ensures r.Some? ==> Lookup(files, ConfigPath(home)) == Some(Yaml(r.value))
    ensures r.None? <==> Lookup(files, ConfigPath(home)).None? || Lookup(files, ConfigPath(home)).value.Unparsable?
  {
    var path := ConfigPath(home);
    if path in files && files[path].Yaml? then Some(files[path].doc) else None
  }

  datatype Loaded = Loaded(view: View, toasts: seq<Toast>)

  /** `loadContexts`: list the contexts and read `current-context`; on a read or
      parse failure, show a failure toast and keep the view. */
  function Load(home: string, files: Files, view: View): (r: Loaded)
    ensures ReadConfig(home, files).Some? ==>
      r.toasts == [] && r.view.currentContext == ReadConfig(home, files).value.currentContext &&
      r.view.contexts == ListContexts(ReadConfig(home, files).value.contexts)
    ensures ReadConfig(home, files).None? ==> r.toasts == [Failure] && r.view == view
  {
    match ReadConfig(home, files)
    case None => Loaded(view, [Failure])
    case Some(doc) => Loaded(View(ListContexts(doc.contexts), doc.currentContext), [])
  }

  /** The result of one action: the new view, the files, the commands issued and the toasts. */
  datatype Effect = Effect(view: View, files: Files, issued: seq<Command>, toasts: seq<Toast>)

  /** The commands a delete issues when every one of them succeeds, decided from the
      snapshot read before the first one: none if the context is absent, otherwise
      `delete-context`, then `delete-cluster` if a cluster of the referenced name is
      present, then `delete-user` if a user of the referenced name is present. */
  function DeletePlan(snapshot: Document, name: string): (r: Option<seq<Command>>)
    ensures r.None? <==> forall j :: 0 <= j < |snapshot.contexts| ==> snapshot.contexts[j].name != name
    ensures r.Some? ==> 1 <= |r.value| <= 3 && r.value[0] == Command.DeleteContext(name)
  {
    match FindContext(snapshot.contexts, name)
    case None => None
    case Some(ctx) =>
      Some([Command.DeleteContext(name)]
           + (if HasEntry(snapshot.clusters, ctx.cluster) then [DeleteCluster(ctx.cluster)] else [])
           + (if HasEntry(snapshot.users, ctx.user) then [DeleteUser(ctx.user)] else []))
  }

  /** `deleteContext`. */
  function Delete(env: Env, files: Files, view: View, name: string, confirmed: bool): (r: Effect)
    ensures |r.issued| <= 3
    ensures r.issued != [] ==> confirmed && r.issued[0] == Command.DeleteContext(name)
    ensures r.issued == [] ==> r.files == files && r.view == view
    ensures !confirmed ==> r.toasts == []
    ensures confirmed ==> r.toasts != [] && (Success in r.toasts <==> r.toasts[|r.toasts| - 1] == Success)
  {
    if !confirmed then Effect(view, files, [], [])
    else match ReadConfig(env.home, files)
      case None => Effect(view, files, [], [Failure])
      case Some(snapshot) =>
        match DeletePlan(snapshot, name)
        case None => Effect(view, files, [], [Failure])
        case Some(plan) =>
          var run := RunAll(env.kubectl, plan, files);
          if !run.ok then Effect(view, run.files, run.issued, [Failure])
          else
            var loaded := Load(env.home, run.files, view);
            Effect(loaded.view, run.files, run.issued, loaded.toasts + [Success])
  }

  /** `backupKubeconfig`: copy the live file next to itself under a timestamped name. */
  function Backup(home: string, files: Files, timestamp: string): (r: (Files, seq<Toast>))
    ensures r.1 == [Success] <==> ConfigPath(home) in files
    ensures r.1 != [Success] ==> r.1 == [Failure] && r.0 == files
    ensures r.0.Keys == files.Keys + (if ConfigPath(home) in files then {BackupPath(home, timestamp)} else {})
  {
    var source := ConfigPath(home);
    if source in files then (files[BackupPath(home, timestamp) := files[source]], [Success])
    else (files, [Failure])
  }

  /** The merge command of an import. */
  function MergeCommand(env: Env, newStamp: string, mergedStamp: string): Command {
    MergeFlatten([ConfigPath(env.home), TempNewPath(env.tmpdir, newStamp)], TempMergedPath(env.tmpdir, mergedStamp))
  }

  /** The files just before the merge: the (possibly renamed) pasted document written out. */
  function FilesBeforeMerge(env: Env, files: Files, doc: Document, contextName: string, newStamp: string): Files {
    files[TempNewPath(env.tmpdir, newStamp) := Yaml(ImportRename(doc, contextName))]
  }

  /** `ImportKubeconfigForm.onSubmit`: rename, write the temporary file, merge, copy
      the merged output over the live file, remove both temporary files, reload.
      Every step that throws ends the action with a failure toast, leaving the files
      as they are at that point. */
  function Import(env: Env, files: Files, view: View, content: FileContent, contextName: string,
                  newStamp: string, mergedStamp: string): (r: Effect)
    ensures r.issued == (if content.Yaml? then [MergeCommand(env, newStamp, mergedStamp)] else [])
    ensures content.Unparsable? ==> r.files == files && r.view == view
    ensures r.toasts != [] && (Success in r.toasts <==> r.toasts[|r.toasts| - 1] == Success)
  {
    match content
    case Unparsable(_) => Effect(view, files, [], [Failure])
    case Yaml(doc) =>
      var live := ConfigPath(env.home);
      var newPath := TempNewPath(env.tmpdir, newStamp);
      var mergedPath := TempMergedPath(env.tmpdir, mergedStamp);
      var merge := MergeCommand(env, newStamp, mergedStamp);
      var o := env.kubectl(merge, FilesBeforeMerge(env, files, doc, contextName, newStamp));
      if !o.ok || mergedPath !in o.files then Effect(view, o.files, [merge], [Failure])
      else
        var copied := o.files[live := o.files[mergedPath]];
        if newPath !in copied then Effect(view, copied, [merge], [Failure])
        else
          var cleaned := copied - {newPath} - {mergedPath};
          var loaded := Load(env.home, cleaned, view);
          Effect(loaded.view, cleaned, [merge], loaded.toasts + [Success])
  }

  class ContextSwitcher {
    var contexts: seq<KubeContext>
    var currentContext: string

    /** The component's initial state, before `useEffect` loads the config. */
    constructor ()
      ensures contexts == [] && currentContext == ""
    {
      contexts := [];
      currentContext := "";
    }

    function State(): View
      reads this
    {
      View(contexts, currentContext)
    }

    method LoadContexts(host: Host) returns (toasts: seq<Toast>)
      modifies this
      ensures var l := Load(host.env.home, host.files, old(State()));
        State() == l.view && toasts == l.toasts
    {
      var read := ReadConfig(host.env.home, host.files);
      if read.None? {
        return [Failure];
      }
      var kubeconfig := read.value;
      contexts := ListContexts(kubeconfig.contexts);
      currentContext := kubeconfig.currentContext;
      toasts := [];
    }

    /** `switchContext`: `currentContext` becomes `name` exactly when `use-context`
        succeeds; nothing else of the view changes. */
    method SwitchContext(host: Host, name: string) returns (toasts: seq<Toast>)
      modifies this, host
      ensures var o := host.env.kubectl(UseContext(name), old(host.files));
        host.log == old(host.log) + [UseContext(name)] && host.files == o.files &&
        contexts == old(contexts) &&
        currentContext == (if o.ok then name else old(currentContext)) &&
        toasts == [if o.ok then Success else Failure]
    {
      var ok := host.RunCommand(UseContext(name));
      if !ok {
        return [Failure];
      }
      currentContext := name;
      toasts := [Success];
    }

    /** `deleteContext`, with `confirmed` the answer to the confirmation alert. */
    method DeleteContext(host: Host, name: string, confirmed: bool) returns (toasts: seq<Toast>)
      modifies this, host
      ensures var e := Delete(host.env, old(host.files), old(State()), name, confirmed);
        State() == e.view && host.files == e.files && host.log == old(host.log) + e.issued &&
        toasts == e.toasts
    {
      if !confirmed {
        return [];
      }
      var read := ReadConfig(host.env.home, host.files);
      if read.None? {
        return [Failure];
      }
      var kubeconfig := read.value;
      var found := FindContext(kubeconfig.contexts, name);
      if found.None? {
        return [Failure];
      }
      var contextToDelete := found.value;
      ghost var plan := DeletePlan(kubeconfig, name).value;
      ghost var run := RunAll(host.env.kubectl, plan, host.files);
      assert Delete(host.env, host.files, State(), name, confirmed) ==
        if !run.ok then Effect(State(), run.files, run.issued, [Failure])
        else var loaded := Load(host.env.home, run.files, State());
          Effect(loaded.view, run.files, run.issued, loaded.toasts + [Success]);
      var ok := RunDeletes(host, name, contextToDelete.cluster, HasEntry(kubeconfig.clusters, contextToDelete.cluster),
                       contextToDelete.user, HasEntry(kubeconfig.users, contextToDelete.user));
      if !ok {
        return [Failure];
      }
      toasts := LoadContexts(host);
      toasts := toasts + [Success];
    }

    /** Lines 70-82: `delete-context`, then `delete-cluster` if `hasCluster`, then
        `delete-user` if `hasUser`, each awaited, the first rejection aborting. */
    method RunDeletes(host: Host, name: string, clusterName: string, hasCluster: bool,
                      userName: string, hasUser: bool) returns (ok: bool)
      modifies host
      ensures var run := RunAll(host.env.kubectl,
          [Command.DeleteContext(name)] + (if hasCluster then [DeleteCluster(clusterName)] else [])
          + (if hasUser then [DeleteUser(userName)] else []), old(host.files));
        ok == run.ok && host.files == run.files && host.log == old(host.log) + run.issued
    {
      ghost var userPart := if hasUser then [DeleteUser(userName)] else [];
      ghost var clusterPart := if hasCluster then [DeleteCluster(clusterName)] else [];
      assert [Command.DeleteContext(name)] + clusterPart + userPart
          == [Command.DeleteContext(name)] + (clusterPart + userPart);
      RunAllCons(host.env.kubectl, Command.DeleteContext(name), clusterPart + userPart, host.files);
      ok := host.RunCommand(Command.DeleteContext(name));
      if !ok {
        return;
      }
      if hasCluster {
        RunAllCons(host.env.kubectl, DeleteCluster(clusterName), userPart, host.files);
        ok := host.RunCommand(DeleteCluster(clusterName));
        if !ok {
          return;
        }
      }
      if hasUser {
        RunAllCons(host.env.kubectl, DeleteUser(userName), [], host.files);
        ok := host.RunCommand(DeleteUser(userName));
        if !ok {
          return;
        }
      }
    }

    /** `backupKubeconfig`, with `timestamp` the value of `new Date().toISOString()`. */
    method BackupKubeconfig(host: Host, timestamp: string) returns (toasts: seq<Toast>)
      modifies host
      ensures var b := Backup(host.env.home, old(host.files), timestamp);
        host.files == b.0 && toasts == b.1 && host.log == old(host.log)
    {
      var source := ConfigPath(host.env.home);
      if source !in host.files {
        return [Failure];
      }
      host.files := host.files[BackupPath(host.env.home, timestamp) := host.files[source]];
      toasts := [Success];
    }

    /** `ImportKubeconfigForm.onSubmit`, with `content` what `yaml.load` makes of the
        pasted text and the two stamps the values of `Date.now()` at lines 141 and 145. */
    method ImportKubeconfig(host: Host, content: FileContent, contextName: string,
                            newStamp: string, mergedStamp: string) returns (toasts: seq<Toast>)
      modifies this, host
      ensures var e := Import(host.env, old(host.files), old(State()), content, contextName, newStamp, mergedStamp);
        State() == e.view && host.files == e.files && host.log == old(host.log) + e.issued &&
        toasts == e.toasts
    {
      if content.Unparsable? {
        return [Failure];
      }
      var newConfig := content.doc;
      if contextName != "" {
        newConfig := AddPrefix(newConfig, contextName + "-");
      }
      var tempNewConfigFile := TempNewPath(host.env.tmpdir, newStamp);
      host.files := host.files[tempNewConfigFile := Yaml(newConfig)];
      var tempMergedConfigFile := TempMergedPath(host.env.tmpdir, mergedStamp);
      var ok := host.RunCommand(MergeFlatten([ConfigPath(host.env.home), tempNewConfigFile], tempMergedConfigFile));
      if !ok || tempMergedConfigFile !in host.files {
        return [Failure];
      }
      host.files := host.files[ConfigPath(host.env.home) := host.files[tempMergedConfigFile]];
      if tempNewConfigFile !in host.files {
        return [Failure];
      }
      host.files := host.files - {tempNewConfigFile};
      host.files := host.files - {tempMergedConfigFile};
      toasts := LoadContexts(host);
      toasts := toasts + [Success];
    }
  }
}
