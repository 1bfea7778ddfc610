/**
 * The parsed kubeconfig document: named contexts, clusters and users and the
 * `current-context` marker, with the read-only queries the command makes over
 * it (the context listing and the name lookups of `find` and `some`).
 */
module Kubeconfig {
  import opened Wrappers

  /** The fields of an entry other than its name (server, certificates, tokens,
      namespace, ...). The command never looks inside them. */
  type Fields = map<string, string>

  /** An element of `contexts`: `{ name, context: { cluster, user, ... } }`.
      `cluster` and `user` are references by name, possibly dangling. */
  datatype Context = Context(name: string, cluster: string, user: string, other: Fields)

  /** An element of `clusters` (`{ name, cluster: {...} }`) or of `users`
      (`{ name, user: {...} }`); both are identified by their name only. */
  datatype Named = Named(name: string, body: Fields)

  datatype Document = Document(
    contexts: seq<Context>,
    clusters: seq<Named>,
    users: seq<Named>,
    currentContext: string)

  /** The `KubeContext` record the list view shows for one context. */
  datatype KubeContext = KubeContext(name: string, cluster: string, user: string)

  /** `kubeconfig.contexts.map(ctx => ({ name, cluster, user }))`. */
  function ListContexts(cs: seq<Context>): (r: seq<KubeContext>)
    ensures |r| == |cs|
    ensures forall i :: 0 <= i < |cs| ==>
      r[i].name == cs[i].name && r[i].cluster == cs[i].cluster && r[i].user == cs[i].user
  {
    if cs == [] then []
    else [KubeContext(cs[0].name, cs[0].cluster, cs[0].user)] + ListContexts(cs[1..])
  }

  /** The position of the first occurrence of `name`, as `Array.prototype.find` scans. */
  function FirstIndex(names: seq<string>, name: string): (r: Option<nat>)
    ensures r.None? <==> name !in names
    ensures r.Some? ==> r.value < |names| && names[r.value] == name && name !in names[..r.value]
  {
    if names == [] then None
    else if names[0] == name then Some(0)
    else match FirstIndex(names[1..], name)
      case None => None
      case Some(k) =>
        assert names[..k + 1] == [names[0]] + names[1..][..k];
        Some(k + 1)
  }

  function ContextNames(cs: seq<Context>): seq<string> {
    seq(|cs|, i requires 0 <= i < |cs| => cs[i].name)
  }

  function EntryNames(es: seq<Named>): seq<string> {
    seq(|es|, i requires 0 <= i < |es| => es[i].name)
  }

  /** The position of the first context called `name`. */
  function ContextIndex(cs: seq<Context>, name: string): (r: Option<nat>)
    ensures r.None? <==> forall j :: 0 <= j < |cs| ==> cs[j].name != name
    ensures r.Some? ==> r.value < |cs| && cs[r.value].name == name &&
                        forall j :: 0 <= j < r.value ==> cs[j].name != name
  {
    var r := FirstIndex(ContextNames(cs), name);
    assert r.Some? ==> forall j :: 0 <= j < r.value ==> ContextNames(cs)[..r.value][j] == cs[j].name;
    assert r.None? ==> forall j :: 0 <= j < |cs| ==> ContextNames(cs)[j] == cs[j].name;
    r
  }

  /** `contexts.find(ctx => ctx.name === name)`. */
  function FindContext(cs: seq<Context>, name: string): (r: Option<Context>)
    ensures r.None? <==> forall j :: 0 <= j < |cs| ==> cs[j].name != name
    ensures r.Some? ==> r.value.name == name && r.value in cs
    ensures r.Some? ==> ContextIndex(cs, name).Some? && r.value == cs[ContextIndex(cs, name).value]
  {
    match ContextIndex(cs, name)
    case None => None
    case Some(i) => Some(cs[i])
  }

  /** The position of the first cluster or user called `name`. */
  function EntryIndex(es: seq<Named>, name: string): (r: Option<nat>)
    ensures r.None? <==> forall j :: 0 <= j < |es| ==> es[j].name != name
    ensures r.Some? ==> r.value < |es| && es[r.value].name == name &&
                        forall j :: 0 <= j < r.value ==> es[j].name != name
  {
    var r := FirstIndex(EntryNames(es), name);
    assert r.Some? ==> forall j :: 0 <= j < r.value ==> EntryNames(es)[..r.value][j] == es[j].name;
    assert r.None? ==> forall j :: 0 <= j < |es| ==> EntryNames(es)[j] == es[j].name;
    r
  }

  /** `clusters.some(c => c.name === name)` (and the same for `users`). */
  predicate HasEntry(es: seq<Named>, name: string)
    ensures HasEntry(es, name) <==> name in EntryNames(es)
  {
    assert forall i :: 0 <= i < |es| ==> EntryNames(es)[i] == es[i].name;
    exists i :: 0 <= i < |es| && es[i].name == name
  }

  /** Names are unique within a collection, as a well-formed kubeconfig has them. */
  predicate UniqueEntries(es: seq<Named>) {
    forall i, j :: 0 <= i < j < |es| ==> es[i].name != es[j].name
  }

  predicate UniqueContexts(cs: seq<Context>) {
    forall i, j :: 0 <= i < j < |cs| ==> cs[i].name != cs[j].name
  }

  predicate WellFormed(doc: Document) {
    UniqueContexts(doc.contexts) && UniqueEntries(doc.clusters) && UniqueEntries(doc.users)
  }

  /** Every name the list view shows can be looked up again in the same
      document, and with unique names the lookup finds exactly the listed entry. */
  lemma ListedContextsAreFound(cs: seq<Context>, k: nat)
    requires k < |cs|
    ensures FindContext(cs, ListContexts(cs)[k].name).Some?
    ensures UniqueContexts(cs) ==> FindContext(cs, ListContexts(cs)[k].name) == Some(cs[k])
  {
    var name := ListContexts(cs)[k].name;
    assert cs[k].name == name;
    if UniqueContexts(cs) {
      assert ContextIndex(cs, name) == Some(k);
    }
  }

  /** `some` and the positional lookup agree. */
  lemma HasEntryIffIndexed(es: seq<Named>, name: string)
    ensures HasEntry(es, name) <==> EntryIndex(es, name).Some?
  {
  }
}
