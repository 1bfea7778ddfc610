# kubectx: a verified model of the kubeconfig logic of the context switcher

The repository is a Raycast command that lists the contexts of the user's
kubeconfig (`~/.kube/config`), switches the current context, deletes a context
together with its cluster and user, backs the file up under a timestamped name,
and imports a pasted kubeconfig, optionally renaming everything in it with a
prefix before merging it into the live file with `kubectl config view --flatten`.

This project models that logic in Dafny:

- `Kubeconfig` (kubeconfig.dfy): the parsed document: contexts (`name`,
  `cluster` and `user` references, other fields), clusters and users (name plus
  opaque fields), `current-context`; the `KubeContext` listing; the `find` and
  `some` lookups by name.
- `Rename` (rename.dfy): the prefix rename of an import, as a specification
  function and as the method of three loops that rewrites the entries one at a
  time; its lemmas prove that references keep resolving.
- `Kubectl` (kubectl.dfy): the commands sent to `kubectl`, the file system as a
  map from path to content, `kubectl` itself as an arbitrary function from a
  command and the files to an outcome (exit status and files afterwards), the
  sequential run that stops at the first failure, and the `Host` object whose
  `RunCommand` is `runCommand`.
- `Paths` (paths.dfy): the live, backup and temporary file names, with the
  timestamp sanitisation of the backup name.
- `Switcher` (switcher.dfy): the component's two state values as the class
  `ContextSwitcher` (`contexts`, `currentContext`), one method per action, and
  pure functions (`Load`, `DeletePlan`, `Delete`, `Backup`, `Import`) that
  each method is proved to implement.
- `SwitcherLemmas` (switcher_lemmas.dfy): what the actions guarantee, proved
  over those functions.

Outside inputs are parameters: the answer to the confirmation alert, what
`yaml.load` makes of the pasted text, the ISO timestamp and the two
`Date.now()` values, the home and temporary directories, and the behaviour of
`kubectl`.

Behaviour modelled as the code has it, where a stricter design might be expected:

- Delete does no reference counting. It removes the context's cluster (user)
  whenever the snapshot has a cluster (user) of that name, even if another
  context still uses it (`DeleteSharedCluster`, `DeletePlanIgnoresOtherContexts`).
- Switch does not check that the context exists; it relies on `use-context` failing.
- The live file is overwritten with a plain copy, not an atomic replace.
- The temporary files are removed only on success. After a failed merge the
  temporary file with the pasted document stays behind.
- Renaming does not touch the pasted document's `current-context`. It keeps
  its old value, so it no longer names the context it named before.
- The delete decisions use the snapshot read before the first command. The
  delete steps are not transactional: a failure after `delete-context` leaves
  the context deleted and reports one failure.

## Model

| member | source | states |
|---|---|---|
| `Kubeconfig.ListContexts` | src/switch-kubernetes-context.tsx:32-36 | one `KubeContext` per document context, in document order, with `name`, `cluster`, `user` copied from the context |
| `Kubeconfig.FirstIndex` | src/switch-kubernetes-context.tsx:64 | absent exactly when the name does not occur in the list of names; otherwise the position of its first occurrence |
| `Kubeconfig.ContextIndex` | src/switch-kubernetes-context.tsx:64 | absent exactly when no context has the name; otherwise the position of the first context with that name |
| `Kubeconfig.FindContext` | src/switch-kubernetes-context.tsx:64 | absent exactly when no context has the name; otherwise the first context of the list with that name |
| `Kubeconfig.EntryIndex` | src/switch-kubernetes-context.tsx:74 | absent exactly when no cluster (user) has the name; otherwise the position of the first one with that name |
| `Kubeconfig.HasEntryIffIndexed` | src/switch-kubernetes-context.tsx:74 | the `some` test holds exactly when the positional lookup finds an entry |
| `Kubeconfig.HasEntry` | src/switch-kubernetes-context.tsx:74-80 | the `some` test on clusters (users) holds exactly when the name occurs among their names |
| `Kubeconfig.ListedContextsAreFound` | src/switch-kubernetes-context.tsx:32-36 | every listed name is found again by the delete lookup, and with unique names the lookup returns that very context |
| `Rename.RenameDocument` | src/switch-kubernetes-context.tsx:127-137 | every context, cluster and user name and every reference gets the prefix in front; lengths, order, other fields and `current-context` are unchanged |
| `Rename.ImportRename` | src/switch-kubernetes-context.tsx:124-137 | with an empty name the document is unchanged; in every case the collection lengths and `current-context` are kept |
| `Rename.AddPrefix` | src/switch-kubernetes-context.tsx:126-137 | the three in-place loops leave exactly the renamed document |
| `Rename.AddPrefixToEntries` | src/switch-kubernetes-context.tsx:132-137 | the loop over clusters (users) prefixes every name and keeps everything else |
| `Rename.PrefixInjective` | src/switch-kubernetes-context.tsx:126-136 | two names are equal after prefixing exactly when they were equal before |
| `Rename.ImportRenameShape` | src/switch-kubernetes-context.tsx:124-137 | with a non-empty name every context, cluster and user name and every reference becomes `name-old`; lengths, order, other fields and `current-context` are unchanged |
| `Rename.ImportRenameEmpty` | src/switch-kubernetes-context.tsx:124 | with an empty name the pasted document is left unchanged |
| `Rename.RenamedEntryIndex` | src/switch-kubernetes-context.tsx:129-136 | a prefixed name is found among the prefixed clusters (users) at the position where the plain name was found before |
| `Rename.RenamedContextIndex` | src/switch-kubernetes-context.tsx:128 | a prefixed context name is found among the renamed contexts at the position where the plain name was found before |
| `Rename.ImportRenamePreservesResolution` | src/switch-kubernetes-context.tsx:129-136 | each renamed context's cluster (user) reference resolves exactly when it did before, to the renamed entry at the same position |
| `Rename.ImportRenamePreservesWellFormed` | src/switch-kubernetes-context.tsx:127-137 | names are unique in each collection after renaming exactly when they were before |
| `Rename.ImportRenameExample` | src/switch-kubernetes-context.tsx:124-137 | `dev` on `k1`/`u1` imported with `demo` becomes `demo-dev` on `demo-k1`/`demo-u1` |
| `Kubectl.RunAll` | src/switch-kubernetes-context.tsx:70-82 | the commands issued are a prefix of the list, all of it when the run succeeds, and at least one when it fails |
| `Kubectl.RunAllStopsAtFirstFailure` | src/switch-kubernetes-context.tsx:70-88 | every command issued before position `k` succeeded, and the command at `k` fails exactly when it is the last one issued and the run failed |
| `Kubectl.Host.RunCommand` | src/switch-kubernetes-context.tsx:93-103 | the command is logged once and its outcome decides the result and the files afterwards |
| `Paths.Sanitize` | src/switch-kubernetes-context.tsx:108 | same length; every `:` and `.` becomes `-`, every other character is kept |
| `Paths.BackupPath` | src/switch-kubernetes-context.tsx:109 | the backup lies in the live file's `.kube` directory under the backup name, and is never the live file itself |
| `Paths.BackupNameShape` | src/switch-kubernetes-context.tsx:108-109 | the backup name is `config_backup_` followed by the timestamp with no `:` or `.` left and every other character in place |
| `Paths.PathsDistinct` | src/switch-kubernetes-context.tsx:109-145 | the backup path and both temporary paths differ from the live config path, and the two temporary paths differ |
| `Switcher.ReadConfig` | src/switch-kubernetes-context.tsx:31 | a document exactly when the live file exists and parses, and then that document |
| `Switcher.DeletePlan` | src/switch-kubernetes-context.tsx:64-82 | no plan exactly when the snapshot has no context of that name; otherwise one to three commands, `delete-context` first |
| `Switcher.Delete` | src/switch-kubernetes-context.tsx:56-90 | at most three commands, the first of them `delete-context`, and only after confirmation; no command means no file or view change; a declined alert shows nothing, otherwise success, when shown, is the last toast |
| `Switcher.Backup` | src/switch-kubernetes-context.tsx:106-115 | success exactly when the live file exists, and then exactly one new path, the backup, is added; otherwise one failure toast and no change |
| `Switcher.Import` | src/switch-kubernetes-context.tsx:119-161 | the merge is the only command and is issued exactly when the paste parses; an unparsable paste changes nothing; success, when shown, is the last toast |
| `Switcher.Load` | src/switch-kubernetes-context.tsx:29-42 | a readable config gives the listing of its contexts and its `current-context` with no toast; otherwise one failure toast and the view unchanged |
| `Switcher.ContextSwitcher.constructor` | src/switch-kubernetes-context.tsx:21-22 | the component starts with no contexts and an empty current context |
| `Switcher.ContextSwitcher.LoadContexts` | src/switch-kubernetes-context.tsx:29-42 | the state becomes what `Load` gives for the live file |
| `Switcher.ContextSwitcher.SwitchContext` | src/switch-kubernetes-context.tsx:45-53 | issues `use-context`; `currentContext` becomes the name exactly when it succeeds and is otherwise unchanged; the listing is unchanged |
| `Switcher.ContextSwitcher.DeleteContext` | src/switch-kubernetes-context.tsx:56-90 | state, files, issued commands and toasts are those of the `Delete` specification |
| `Switcher.ContextSwitcher.RunDeletes` | src/switch-kubernetes-context.tsx:70-82 | the awaited commands with early abort issue exactly the sequential run of the plan |
| `Switcher.ContextSwitcher.BackupKubeconfig` | src/switch-kubernetes-context.tsx:106-115 | files and toasts are those of the `Backup` specification; no command is issued |
| `Switcher.ContextSwitcher.ImportKubeconfig` | src/switch-kubernetes-context.tsx:119-161 | state, files, issued commands and toasts are those of the `Import` specification |
| `SwitcherLemmas.DeletePlanShape` | src/switch-kubernetes-context.tsx:64-82 | no plan exactly when the context is absent; otherwise `delete-context` first, `delete-cluster` only for the context's cluster and exactly when the snapshot has it, the same for the user, in the order context, cluster, user |
| `SwitcherLemmas.DeletePlanIgnoresOtherContexts` | src/switch-kubernetes-context.tsx:73-82 | the plan does not depend on other contexts' references |
| `SwitcherLemmas.DeleteSharedCluster` | src/switch-kubernetes-context.tsx:73-76 | deleting one of two contexts sharing a cluster still issues `delete-cluster` for it |
| `SwitcherLemmas.DeleteAbortsEarly` | src/switch-kubernetes-context.tsx:57-67 | declining does nothing; an unreadable config or an absent context reports a failure before any command is issued |
| `SwitcherLemmas.DeleteStopsAtFirstFailure` | src/switch-kubernetes-context.tsx:70-88 | the issued commands are a prefix of the plan, all before a failing one succeeded, nothing follows it, and success is reported exactly when every command succeeded |
| `SwitcherLemmas.DeleteReloadsOnSuccess` | src/switch-kubernetes-context.tsx:84-85 | after a fully successful delete the listing and `currentContext` are reloaded from the files the commands left, with success reported last; if that reload fails, a failure toast comes before the success toast and the view is kept |
| `SwitcherLemmas.BackupCopiesConfig` | src/switch-kubernetes-context.tsx:106-114 | the backup holds the live file's content, the live file and all other files are untouched, and a missing live file is reported |
| `SwitcherLemmas.ImportRejectsUnparsable` | src/switch-kubernetes-context.tsx:122 | a paste that does not parse issues nothing and changes nothing |
| `SwitcherLemmas.ImportMergesRenamedDocument` | src/switch-kubernetes-context.tsx:140-148 | the merge reads the live file then the temporary file, which holds the possibly renamed paste; writing it changes no other file |
| `SwitcherLemmas.ImportOverwritesOnlyAfterMerge` | src/switch-kubernetes-context.tsx:148-160 | the live file changes only after a successful merge, and then to the merged output; after a failed merge nothing more is written; success exactly when every step went through, and then both temporary files are gone |

## Left out

- The Raycast user interface (list items, icons, forms, action panels) and the
  toast texts: only the kind of toast (success or failure) is kept.
- YAML parsing and dumping: the pasted text and the files are held as parsed
  documents or as text that does not parse, and no parse/dump round trip is claimed.
- A YAML document that parses but lacks `contexts`, `clusters`, `users` or
  `current-context`: every document in the model has all four.
- A context entry without a `context` mapping, or whose mapping lacks `cluster`
  or `user`: every context in the model has a name and both references. In the
  source the first case throws at line 34 (the whole listing fails with a
  failure toast) and at line 129 (the import fails); the second lists the
  reference as `undefined` and renames it to `<name>-undefined`.
- Rename.AddPrefix: the paste is modelled without YAML aliases, as a tree of
  values. The source prefixes in place the objects `yaml.load` returns, so a
  `context` mapping shared through an alias is prefixed once per context that
  refers to it, while the cluster or user is prefixed once, and the references
  stop resolving. `Rename.ImportRenamePreservesResolution` is a statement about
  alias-free pastes.
- The behaviour of `kubectl`, including how `config view --flatten` merges and
  what the delete and `use-context` commands write: it is an arbitrary function
  of the command and the files. Shell quoting of names in the commands is not modelled.
- File system failures other than a missing file (permissions, full disk) in
  `readFileSync`, `writeFileSync`, `copyFileSync` and `unlinkSync`.
- The clock: the ISO timestamp and the `Date.now()` values are inputs.
- Interleaving of the asynchronous actions: each action runs to completion before the next.
