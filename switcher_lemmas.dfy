/** What the actions of the list command guarantee, stated over their specifications. */
module SwitcherLemmas {
  import opened Wrappers
  import opened Kubeconfig
  import opened Rename
  import opened Kubectl
  import opened Paths
  import opened Switcher

  /** The position of a delete command in the order of lines 70-82. */
  function Stage(c: Command): nat {
    match c
    case DeleteContext(_) => 0
    case DeleteCluster(_) => 1
    case DeleteUser(_) => 2
    case _ => 3
  }

  /** The plan fails exactly when the context is absent; otherwise it starts with
      `delete-context name`, holds `delete-cluster` only for the context's own
      cluster and only when the snapshot has a cluster of that name, the same for
      the user, and keeps the order context, cluster, user. */
  lemma DeletePlanShape(snapshot: Document, name: string)
    ensures DeletePlan(snapshot, name).None? <==>
      forall j :: 0 <= j < |snapshot.contexts| ==> snapshot.contexts[j].name != name
    ensures DeletePlan(snapshot, name).Some? ==>
      var plan := DeletePlan(snapshot, name).value;
      var ctx := FindContext(snapshot.contexts, name).value;
      1 <= |plan| <= 3 && plan[0] == Command.DeleteContext(name) &&
      (forall i, j :: 0 <= i < j < |plan| ==> Stage(plan[i]) < Stage(plan[j])) &&
      (forall i :: 0 <= i < |plan| ==> Stage(plan[i]) < 3) &&
      (forall c :: c in plan && c.DeleteCluster? ==> c.cluster == ctx.cluster) &&
      (forall c :: c in plan && c.DeleteUser? ==> c.user == ctx.user) &&
      (DeleteCluster(ctx.cluster) in plan <==> HasEntry(snapshot.clusters, ctx.cluster)) &&
      (DeleteUser(ctx.user) in plan <==> HasEntry(snapshot.users, ctx.user))
  {
  }

  /** No reference counting: the plan depends only on the context found and on the
      cluster and user collections, not on what the other contexts reference. */
  lemma DeletePlanIgnoresOtherContexts(snapshot: Document, others: seq<Context>, name: string)
    requires FindContext(others, name) == FindContext(snapshot.contexts, name)
    ensures DeletePlan(snapshot.(contexts := others), name) == DeletePlan(snapshot, name)
  {
  }

  /** Two contexts `a` and `b` on cluster `shared`: deleting `a` still issues
      `delete-cluster shared` when every command succeeds, although `b` uses it. */
  lemma DeleteSharedCluster(env: Env, view: View, rest: Files)
    requires forall c, f :: env.kubectl(c, f).ok
    ensures var doc := Document([Context("a", "shared", "ua", map[]), Context("b", "shared", "ub", map[])],
                                [Named("shared", map[])], [], "a");
      var files := rest[ConfigPath(env.home) := Yaml(doc)];
      Delete(env, files, view, "a", true).issued == [Command.DeleteContext("a"), DeleteCluster("shared")]
  {
    var doc := Document([Context("a", "shared", "ua", map[]), Context("b", "shared", "ub", map[])],
                        [Named("shared", map[])], [], "a");
    var files := rest[ConfigPath(env.home) := Yaml(doc)];
    assert FindContext(doc.contexts, "a") == Some(doc.contexts[0]);
    assert HasEntry(doc.clusters, "shared") by { assert doc.clusters[0].name == "shared"; }
    assert !HasEntry(doc.users, "ua");
    var plan := [Command.DeleteContext("a"), DeleteCluster("shared")];
    assert [Command.DeleteContext("a")] + [DeleteCluster("shared")] + [] == plan;
    assert DeletePlan(doc, "a") == Some(plan);
    var o := env.kubectl(plan[0], files);
    RunAllCons(env.kubectl, plan[0], [plan[1]], files);
    RunAllCons(env.kubectl, plan[1], [], o.files);
  }

  /** Declining the alert does nothing at all; an unreadable config or an absent
      context fails before any command is issued and changes nothing. */
  lemma DeleteAbortsEarly(env: Env, files: Files, view: View, name: string, confirmed: bool)
    requires !confirmed || ReadConfig(env.home, files).None? ||
             FindContext(ReadConfig(env.home, files).value.contexts, name).None?
    ensures var e := Delete(env, files, view, name, confirmed);
      e.issued == [] && e.files == files && e.view == view &&
      e.toasts == if confirmed then [Failure] else []
  {
  }

  /** Once the plan is fixed, the commands issued are a prefix of it, the run stops
      at the first failing command, and success is reported exactly when every
      command of the plan succeeded; otherwise one failure toast and an unchanged view. */
  lemma DeleteStopsAtFirstFailure(env: Env, files: Files, view: View, name: string, k: nat)
    requires ReadConfig(env.home, files).Some?
    requires DeletePlan(ReadConfig(env.home, files).value, name).Some?
    requires k < |Delete(env, files, view, name, true).issued|
    ensures var plan := DeletePlan(ReadConfig(env.home, files).value, name).value;
      var e := Delete(env, files, view, name, true);
      var before := RunAll(env.kubectl, plan[..k], files);
      e.issued <= plan && k < |plan| && before.ok && before.issued == plan[..k] &&
      (!env.kubectl(plan[k], before.files).ok <==> k == |e.issued| - 1 && e.toasts == [Failure]) &&
      (Success in e.toasts <==> RunAll(env.kubectl, plan, files).ok) &&
      (Success !in e.toasts ==> e.toasts == [Failure] && e.view == view)
  {
    var plan := DeletePlan(ReadConfig(env.home, files).value, name).value;
    RunAllStopsAtFirstFailure(env.kubectl, plan, files, k);
    var e := Delete(env, files, view, name, true);
    if RunAll(env.kubectl, plan, files).ok {
      assert e.toasts[|e.toasts| - 1] == Success;
    }
  }

  /** After a fully successful delete the view is reloaded from the files the
      commands left behind. */
  lemma DeleteReloadsOnSuccess(env: Env, files: Files, view: View, name: string)
    requires ReadConfig(env.home, files).Some?
    requires DeletePlan(ReadConfig(env.home, files).value, name).Some?
    requires RunAll(env.kubectl, DeletePlan(ReadConfig(env.home, files).value, name).value, files).ok
    ensures var run := RunAll(env.kubectl, DeletePlan(ReadConfig(env.home, files).value, name).value, files);
      var e := Delete(env, files, view, name, true);
      e.files == run.files && e.toasts[|e.toasts| - 1] == Success &&
      (ReadConfig(env.home, run.files).Some? ==>
         e.view.contexts == ListContexts(ReadConfig(env.home, run.files).value.contexts) &&
         e.view.currentContext == ReadConfig(env.home, run.files).value.currentContext &&
         e.toasts == [Success]) &&
      (ReadConfig(env.home, run.files).None? ==> e.view == view && e.toasts == [Failure, Success])
  {
  }

  /** The backup holds exactly the live file's content, the live file and every
      other file are untouched, and a missing live file is reported. */
  lemma BackupCopiesConfig(home: string, files: Files, timestamp: string)
    ensures var (after, toasts) := Backup(home, files, timestamp);
      var source := ConfigPath(home);
      var target := BackupPath(home, timestamp);
      Lookup(after, source) == Lookup(files, source) &&
      (forall p :: p != target ==> Lookup(after, p) == Lookup(files, p)) &&
      (source in files ==> Lookup(after, target) == Lookup(files, source) && toasts == [Success]) &&
      (source !in files ==> after == files && toasts == [Failure])
  {
  }

  /** A paste `yaml.load` rejects issues no command and changes nothing. */
  lemma ImportRejectsUnparsable(env: Env, files: Files, view: View, text: string, contextName: string,
                                newStamp: string, mergedStamp: string)
    ensures var e := Import(env, files, view, Unparsable(text), contextName, newStamp, mergedStamp);
      e.issued == [] && e.files == files && e.view == view && e.toasts == [Failure]
  {
  }

  /** The merge reads the live file first and the temporary file second; the
      temporary file holds the (possibly renamed) paste and writing it leaves the
      live file and every other file as they were. */
  lemma ImportMergesRenamedDocument(env: Env, files: Files, doc: Document, contextName: string,
                                    newStamp: string, mergedStamp: string)
    ensures var before := FilesBeforeMerge(env, files, doc, contextName, newStamp);
      var newPath := TempNewPath(env.tmpdir, newStamp);
      MergeCommand(env, newStamp, mergedStamp).sources == [ConfigPath(env.home), newPath] &&
      Lookup(before, newPath) == Some(Yaml(ImportRename(doc, contextName))) &&
      Lookup(before, ConfigPath(env.home)) == Lookup(files, ConfigPath(env.home)) &&
      forall p :: p != newPath ==> Lookup(before, p) == Lookup(files, p)
  {
    PathsDistinct(env.home, env.tmpdir, "", newStamp, mergedStamp);
  }

  /** The live file is overwritten only after the merge succeeded, and then with the
      merge's output; after a failed merge the command writes nothing more, so the
      temporary file stays behind. Success is reported exactly when every step
      went through, and then both temporary files are gone. */
  lemma ImportOverwritesOnlyAfterMerge(env: Env, files: Files, view: View, doc: Document, contextName: string,
                                       newStamp: string, mergedStamp: string)
    ensures var live := ConfigPath(env.home);
      var newPath := TempNewPath(env.tmpdir, newStamp);
      var mergedPath := TempMergedPath(env.tmpdir, mergedStamp);
      var o := env.kubectl(MergeCommand(env, newStamp, mergedStamp),
                           FilesBeforeMerge(env, files, doc, contextName, newStamp));
      var e := Import(env, files, view, Yaml(doc), contextName, newStamp, mergedStamp);
      e.issued == [MergeCommand(env, newStamp, mergedStamp)] &&
      (!o.ok ==> e.files == o.files && e.toasts == [Failure] && e.view == view) &&
      (Lookup(e.files, live) != Lookup(o.files, live) ==>
         o.ok && mergedPath in o.files && Lookup(e.files, live) == Some(o.files[mergedPath])) &&
      (Success in e.toasts <==> o.ok && mergedPath in o.files && newPath in o.files) &&
      (Success in e.toasts ==>
         newPath !in e.files && mergedPath !in e.files && Lookup(e.files, live) == Some(o.files[mergedPath]))
  {
    PathsDistinct(env.home, env.tmpdir, "", newStamp, mergedStamp);
  }
}
