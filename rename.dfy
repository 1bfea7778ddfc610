/**
 * Import with a prefix: when the form's "New Context Name" is filled in, every
 * context, cluster and user name of the pasted document, and every context's
 * cluster and user reference, gets `contextName + "-"` in front of it.
 */
module Rename {
  import opened Wrappers
  import opened Kubeconfig

  function RenameContext(c: Context, prefix: string): Context {
    c.(name := prefix + c.name, cluster := prefix + c.cluster, user := prefix + c.user)
  }

  function RenameEntry(e: Named, prefix: string): Named {
    e.(name := prefix + e.name)
  }

  function RenameContexts(cs: seq<Context>, prefix: string): seq<Context> {
    seq(|cs|, i requires 0 <= i < |cs| => RenameContext(cs[i], prefix))
  }

  function RenameEntries(es: seq<Named>, prefix: string): seq<Named> {
    seq(|es|, i requires 0 <= i < |es| => RenameEntry(es[i], prefix))
  }

  /** The document after the three `forEach` loops; `current-context` is not touched. */
  function RenameDocument(doc: Document, prefix: string): (r: Document)
    ensures |r.contexts| == |doc.contexts| && |r.clusters| == |doc.clusters| && |r.users| == |doc.users|
    ensures r.currentContext == doc.currentContext
    ensures forall i :: 0 <= i < |r.contexts| ==>
      r.contexts[i].name == prefix + doc.contexts[i].name &&
      r.contexts[i].cluster == prefix + doc.contexts[i].cluster &&
      r.contexts[i].user == prefix + doc.contexts[i].user &&
      r.contexts[i].other == doc.contexts[i].other
    ensures forall i :: 0 <= i < |r.clusters| ==>
      r.clusters[i].name == prefix + doc.clusters[i].name && r.clusters[i].body == doc.clusters[i].body
    ensures forall i :: 0 <= i < |r.users| ==>
      r.users[i].name == prefix + doc.users[i].name && r.users[i].body == doc.users[i].body
  {
    doc.(contexts := RenameContexts(doc.contexts, prefix),
         clusters := RenameEntries(doc.clusters, prefix),
         users := RenameEntries(doc.users, prefix))
  }

  /** The document that is written out for merging: renamed only when a name was given. */
  function ImportRename(doc: Document, contextName: string): (r: Document)
    ensures contextName == "" ==> r == doc
    ensures |r.contexts| == |doc.contexts| && |r.clusters| == |doc.clusters| && |r.users| == |doc.users|
    ensures r.currentContext == doc.currentContext
  {
    if contextName == "" then doc else RenameDocument(doc, contextName + "-")
  }

  /** The three `forEach` loops, rewriting the entries of the parsed document one at a time. */
  method AddPrefix(doc: Document, prefix: string) returns (r: Document)
    ensures r == RenameDocument(doc, prefix)
  {
    var contexts := doc.contexts;
    var i := 0;
    while i < |contexts|
      invariant 0 <= i <= |contexts| == |doc.contexts|
      invariant forall k :: 0 <= k < i ==> contexts[k] == RenameContext(doc.contexts[k], prefix)
      invariant forall k :: i <= k < |contexts| ==> contexts[k] == doc.contexts[k]
    {
      var ctx := contexts[i];
      ctx := ctx.(name := prefix + ctx.name);
      ctx := ctx.(cluster := prefix + ctx.cluster);
      ctx := ctx.(user := prefix + ctx.user);
      contexts := contexts[i := ctx];
      i := i + 1;
    }
    var clusters := AddPrefixToEntries(doc.clusters, prefix);
    var users := AddPrefixToEntries(doc.users, prefix);
    r := doc.(contexts := contexts, clusters := clusters, users := users);
  }

  /** One `forEach` over `clusters` or `users`. */
  method AddPrefixToEntries(es: seq<Named>, prefix: string) returns (r: seq<Named>)
    ensures r == RenameEntries(es, prefix)
  {
    r := es;
    var i := 0;
    while i < |r|
      invariant 0 <= i <= |r| == |es|
      invariant forall k :: 0 <= k < i ==> r[k] == RenameEntry(es[k], prefix)
      invariant forall k :: i <= k < |r| ==> r[k] == es[k]
    {
      r := r[i := r[i].(name := prefix + r[i].name)];
      i := i + 1;
    }
  }

  /** Putting the same prefix in front of two names keeps them apart. */
  lemma PrefixInjective(prefix: string, a: string, b: string)
    ensures prefix + a == prefix + b <==> a == b
  {
    if prefix + a == prefix + b {
      assert a == (prefix + a)[|prefix|..];
      assert b == (prefix + b)[|prefix|..];
    }
  }

  /** With a non-empty name, every name and every reference gets `contextName-` in
      front; lengths, order, the other fields and `current-context` stay as they were. */
  lemma ImportRenameShape(doc: Document, contextName: string)
    requires contextName != ""
    ensures var r := ImportRename(doc, contextName);
      var p := contextName + "-";
      |r.contexts| == |doc.contexts| && |r.clusters| == |doc.clusters| && |r.users| == |doc.users| &&
      r.currentContext == doc.currentContext &&
      (forall i :: 0 <= i < |r.contexts| ==>
         r.contexts[i] == Context(p + doc.contexts[i].name, p + doc.contexts[i].cluster,
                                  p + doc.contexts[i].user, doc.contexts[i].other)) &&
      (forall i :: 0 <= i < |r.clusters| ==>
         r.clusters[i] == Named(p + doc.clusters[i].name, doc.clusters[i].body)) &&
      (forall i :: 0 <= i < |r.users| ==>
         r.users[i] == Named(p + doc.users[i].name, doc.users[i].body))
  {
  }

  /** Without a name the pasted document is merged as it is. */
  lemma ImportRenameEmpty(doc: Document)
    ensures ImportRename(doc, "") == doc
  {
  }

  /** Looking a prefixed name up among the prefixed entries finds the entry at the
      same position as looking the plain name up among the original ones. */
  lemma RenamedEntryIndex(es: seq<Named>, prefix: string, name: string)
    ensures EntryIndex(RenameEntries(es, prefix), prefix + name) == EntryIndex(es, name)
  {
    var rs := RenameEntries(es, prefix);
    forall j | 0 <= j < |es|
      ensures rs[j].name == prefix + name <==> es[j].name == name
    {
      PrefixInjective(prefix, es[j].name, name);
    }
    var a, b := EntryIndex(rs, prefix + name), EntryIndex(es, name);
    if a.Some? && b.Some? {
      assert !(a.value < b.value) && !(b.value < a.value);
    }
  }

  lemma RenamedContextIndex(cs: seq<Context>, prefix: string, name: string)
    ensures ContextIndex(RenameContexts(cs, prefix), prefix + name) == ContextIndex(cs, name)
  {
    var rs := RenameContexts(cs, prefix);
    forall j | 0 <= j < |cs|
      ensures rs[j].name == prefix + name <==> cs[j].name == name
    {
      PrefixInjective(prefix, cs[j].name, name);
    }
    var a, b := ContextIndex(rs, prefix + name), ContextIndex(cs, name);
    if a.Some? && b.Some? {
      assert !(a.value < b.value) && !(b.value < a.value);
    }
  }

  /** References keep resolving: the renamed reference of context `i` resolves
      exactly when the original one did, and to the renamed entry at the same position. */
  lemma ImportRenamePreservesResolution(doc: Document, contextName: string, i: nat)
    requires i < |doc.contexts|
    ensures var r := ImportRename(doc, contextName);
      i < |r.contexts| &&
      EntryIndex(r.clusters, r.contexts[i].cluster) == EntryIndex(doc.clusters, doc.contexts[i].cluster) &&
      EntryIndex(r.users, r.contexts[i].user) == EntryIndex(doc.users, doc.contexts[i].user) &&
      (HasEntry(r.clusters, r.contexts[i].cluster) <==> HasEntry(doc.clusters, doc.contexts[i].cluster)) &&
      (HasEntry(r.users, r.contexts[i].user) <==> HasEntry(doc.users, doc.contexts[i].user))
  {
    var r := ImportRename(doc, contextName);
    if contextName != "" {
      var p := contextName + "-";
      RenamedEntryIndex(doc.clusters, p, doc.contexts[i].cluster);
      RenamedEntryIndex(doc.users, p, doc.contexts[i].user);
    }
    HasEntryIffIndexed(r.clusters, r.contexts[i].cluster);
    HasEntryIffIndexed(doc.clusters, doc.contexts[i].cluster);
    HasEntryIffIndexed(r.users, r.contexts[i].user);
    HasEntryIffIndexed(doc.users, doc.contexts[i].user);
  }

  /** Renaming keeps a well-formed document well-formed, and only a well-formed one. */
  lemma ImportRenamePreservesWellFormed(doc: Document, contextName: string)
    ensures WellFormed(ImportRename(doc, contextName)) <==> WellFormed(doc)
  {
    if contextName != "" {
      var p := contextName + "-";
      var r := ImportRename(doc, contextName);
      forall i, j | 0 <= i < j < |doc.contexts|
        ensures r.contexts[i].name == r.contexts[j].name <==> doc.contexts[i].name == doc.contexts[j].name
      {
        PrefixInjective(p, doc.contexts[i].name, doc.contexts[j].name);
      }
      forall i, j | 0 <= i < j < |doc.clusters|
        ensures r.clusters[i].name == r.clusters[j].name <==> doc.clusters[i].name == doc.clusters[j].name
      {
        PrefixInjective(p, doc.clusters[i].name, doc.clusters[j].name);
      }
      forall i, j | 0 <= i < j < |doc.users|
        ensures r.users[i].name == r.users[j].name <==> doc.users[i].name == doc.users[j].name
      {
        PrefixInjective(p, doc.users[i].name, doc.users[j].name);
      }
    }
  }

  /** A worked example: `dev` on `k1`/`u1` imported as `demo`. */
  lemma ImportRenameExample()
    ensures var doc := Document([Context("dev", "k1", "u1", map[])], [Named("k1", map[])],
                                [Named("u1", map[])], "dev");
      ImportRename(doc, "demo").contexts == [Context("demo-dev", "demo-k1", "demo-u1", map[])] &&
      ImportRename(doc, "demo").clusters == [Named("demo-k1", map[])] &&
      ImportRename(doc, "demo").users == [Named("demo-u1", map[])]
  {
    var doc := Document([Context("dev", "k1", "u1", map[])], [Named("k1", map[])],
                        [Named("u1", map[])], "dev");
    var r := ImportRename(doc, "demo");
    assert "demo-" + "dev" == "demo-dev" && "demo-" + "k1" == "demo-k1" && "demo-" + "u1" == "demo-u1";
    assert r.contexts[0] == Context("demo-dev", "demo-k1", "demo-u1", map[]);
    assert r.clusters[0] == Named("demo-k1", map[]);
    assert r.users[0] == Named("demo-u1", map[]);
  }
}
