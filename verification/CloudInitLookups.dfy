/** What rewriting kubeadm documents changes for somebody who looks things up in them. */
module CloudInitLookups {
  import opened Results
  import opened YamlTree
  import opened CloudInit

  const ARGS_PATH: Path := [Key(REGISTRATION), Key(EXTRA_ARGS)]
  const MAP_ARG := Key(ARG)
  const NAMED_ARG := Named(ARG)

  /** The provider ID in either form of the arguments. */
  datatype ProviderId = ProviderId(mapped: Option<Node>, named: Option<Node>)

  function ProviderIdIn(args: Node): ProviderId {
    ProviderId(Lookup(args, [MAP_ARG]), Lookup(args, [NAMED_ARG, Key("value")]))
  }

  function ProviderIdOf(doc: Node): ProviderId {
    ProviderId(Lookup(doc, ARGS_PATH + [MAP_ARG]), Lookup(doc, ARGS_PATH + [NAMED_ARG, Key("value")]))
  }

  const NoProviderId := ProviderId(None, None)

  // ---- The provider ID, level by level ----

  lemma LookupStep(n: Node, way: Way, rest: Path)
    ensures Lookup(n, [way] + rest) == if Follow(n, way).Some? then Lookup(Follow(n, way).value, rest) else None
  {
  }

  lemma LookupOne(n: Node, way: Way)
    ensures Lookup(n, [way]) == Follow(n, way)
  {
  }

  /** Mapped arguments have the one form of provider ID, named arguments the other. */
  lemma ProviderIdForms(args: Node)
    ensures ProviderIdIn(args) ==
            ProviderId(Find(args, ARG), if FindNamed(args, ARG).Some? then Find(FindNamed(args, ARG).value, "value") else None)
  {
    LookupOne(args, MAP_ARG);
    assert [NAMED_ARG, Key("value")] == [NAMED_ARG] + [Key("value")];
    LookupStep(args, NAMED_ARG, [Key("value")]);
    if FindNamed(args, ARG).Some? {
      LookupOne(FindNamed(args, ARG).value, Key("value"));
    }
  }

  lemma ArgsFlag(args: Node)
    requires WellFormed(args)
    ensures var edit := EnsureArgs(args); edit.changed <==> ProviderIdIn(edit.node) != ProviderIdIn(args)
  {
    hide UpsertString, UpsertNamed, ProviderIdIn, WellFormed;
    if args.Mapping? {
      UpsertStringAgain(args, ARG, PROVIDER_ID);
      ProviderIdForms(args);
      ProviderIdForms(UpsertString(args, ARG, PROVIDER_ID).node);
    } else if args.Sequence? {
      NamedArgsFlag(args);
    }
  }

  lemma NamedArgsFlag(args: Node)
    requires args.Sequence? && WellFormed(args)
    ensures var edit := UpsertNamed(args, ARG, PROVIDER_ID);
            edit.node.Sequence? && (edit.changed <==> ProviderIdIn(edit.node) != ProviderIdIn(args))
  {
    hide UpsertString, IsNamed, WellFormed, NamedIndex, ProviderIdIn;
    ProviderIdForms(args);
    ProviderIdForms(UpsertNamed(args, ARG, PROVIDER_ID).node);
    NamedEditIs(args, ARG, PROVIDER_ID);
    var item := NamedEdit(args, ARG, PROVIDER_ID);
    FindNamedAfterPut(args, ARG, item.node, ARG);
    var found := FindNamed(args, ARG);
    if found.Some? {
      NamedIsWellFormed(args, ARG);
      UpsertStringAgain(found.value, "value", PROVIDER_ID);
    } else {
      NamedNodeHas(ARG, PROVIDER_ID);
    }
  }

  lemma NamedIsWellFormed(n: Node, name: string)
    requires WellFormed(n) && FindNamed(n, name).Some?
    ensures WellFormed(FindNamed(n, name).value) && FindNamed(n, name).value.Mapping?
  {
  }

  /** The provider ID of a document is the one in its arguments, if it has any. */
  lemma ProviderIdIsIn(doc: Node)
    ensures var registration := Find(doc, REGISTRATION);
            var args := if registration.Some? then Find(registration.value, EXTRA_ARGS) else None;
            ProviderIdOf(doc) == if args.Some? then ProviderIdIn(args.value) else NoProviderId
  {
    LookupInArgs(doc, [MAP_ARG]);
    LookupInArgs(doc, [NAMED_ARG, Key("value")]);
  }

  lemma NewArgsHaveNone(version: string)
    ensures NewArgs(version).Some? ==> ProviderIdIn(NewArgs(version).value) == NoProviderId
  {
  }

  /** A change is reported exactly when looking up the provider ID gives something else than before. */
  lemma FlagIff(doc: Node)
    requires WellFormed(doc) && Rewrite(doc).Rewritten?
    ensures var out := Rewrite(doc); out.changed <==> ProviderIdOf(out.node) != ProviderIdOf(doc)
  {
    hide WellFormed, GetString, EnsureArgs, Index, Put, ProviderIdIn, ProviderIdOf, NewArgs;
    if IsKubeadmDocument(doc) && RegistrationOf(doc).Mapping? {
      KubeadmDocumentIsMapping(doc);
      EvenContent(doc);
      var registration, version := RegistrationOf(doc), GetString(doc, "apiVersion");
      RegistrationIsWellFormed(doc);
      EvenContent(registration);
      var edit := EnsureRegistration(registration, version);
      var after := Put(doc, REGISTRATION, edit.node);
      FindAfterPut(doc, REGISTRATION, edit.node, REGISTRATION);
      ProviderIdIsIn(doc);
      ProviderIdIsIn(after);
      NewRegistrationHasNoArgs(doc);
      var args := ArgsOf(registration, version);
      if args.Some? {
        ArgsAreWellFormed(registration, version);
        ArgsFlag(args.value);
        FindAfterPut(registration, EXTRA_ARGS, EnsureArgs(args.value).node, EXTRA_ARGS);
        NewArgsHaveNone(version);
      }
    }
  }

  lemma NewRegistrationHasNoArgs(doc: Node)
    ensures Find(doc, REGISTRATION).None? ==> Find(RegistrationOf(doc), EXTRA_ARGS).None?
  {
  }

  // ---- Every other lookup ----

  /** The path neither leads to the provider ID, nor passes through it. */
  predicate Elsewhere(path: Path) {
    Apart(path, ARGS_PATH + [MAP_ARG]) && Apart(path, ARGS_PATH + [NAMED_ARG])
  }

  lemma PutKeeps(n: Node, key: string, value: Node, path: Path)
    requires n.Mapping? && |n.content| % 2 == 0 && path != [] && path[0] != Key(key)
    ensures Lookup(Put(n, key, value), path) == Lookup(n, path)
  {
    if path[0].Key? {
      FindAfterPut(n, key, value, path[0].key);
    }
  }

  lemma PutNamedKeeps(n: Node, name: string, item: Node, path: Path)
    requires n.Sequence? && IsNamed(item, name) && path != [] && path[0] != Named(name)
    ensures Lookup(PutNamed(n, name, item), path) == Lookup(n, path)
  {
    if path[0].Named? {
      hide IsNamed, NamedIndex;
      FindNamedAfterPut(n, name, item, path[0].name);
    }
  }

  lemma ArgsKeep(args: Node, path: Path)
    requires WellFormed(args) && path != [] && path[0] != MAP_ARG && path[0] != NAMED_ARG
    ensures Lookup(EnsureArgs(args).node, path) == Lookup(args, path)
  {
    hide Lookup, IsNamed, Put, PutNamed;
    if args.Mapping? {
      EvenContent(args);
      PutKeeps(args, ARG, StringNode(PROVIDER_ID), path);
    } else if args.Sequence? {
      NamedEditIs(args, ARG, PROVIDER_ID);
      PutNamedKeeps(args, ARG, NamedEdit(args, ARG, PROVIDER_ID).node, path);
    }
  }

  lemma EmptyHasNothing(n: Node, path: Path)
    requires (n.Mapping? || n.Sequence?) && n.content == [] && path != []
    ensures Lookup(n, path) == None
  {
  }

  lemma RegistrationKeeps(registration: Node, version: string, path: Path)
    requires registration.Mapping? && WellFormed(registration) && path != []
    requires path[0] == Key(EXTRA_ARGS) ==> |path| > 1 && path[1] != MAP_ARG && path[1] != NAMED_ARG
    ensures Lookup(EnsureRegistration(registration, version).node, path) == Lookup(registration, path)
  {
    hide EnsureArgs, WellFormed, Put, Index, Lookup;
    EvenContent(registration);
    var args := ArgsOf(registration, version);
    if args.Some? {
      var after := EnsureArgs(args.value).node;
      if path[0] != Key(EXTRA_ARGS) {
        PutKeeps(registration, EXTRA_ARGS, after, path);
      } else {
        var rest := path[1..];
        assert path == [path[0]] + rest;
        LookupStep(registration, path[0], rest);
        LookupStep(Put(registration, EXTRA_ARGS, after), path[0], rest);
        FindAfterPut(registration, EXTRA_ARGS, after, EXTRA_ARGS);
        ArgsAreWellFormed(registration, version);
        ArgsKeep(args.value, rest);
        if Find(registration, EXTRA_ARGS).None? {
          EmptyHasNothing(args.value, rest);
        }
      }
    }
  }

  lemma ElsewhereMeans(path: Path)
    requires Elsewhere(path)
    ensures path != []
    ensures path[0] == Key(REGISTRATION) ==>
              |path| > 1 && (path[1] == Key(EXTRA_ARGS) ==> |path| > 2 && path[2] != MAP_ARG && path[2] != NAMED_ARG)
  {
  }

  /** Every lookup elsewhere in the document gives what it gave before. */
  lemma OthersKept(doc: Node, path: Path)
    requires WellFormed(doc) && Rewrite(doc).Rewritten? && Elsewhere(path)
    ensures Lookup(Rewrite(doc).node, path) == Lookup(doc, path)
  {
    hide EnsureRegistration, WellFormed, Put, Index, Lookup, Elsewhere, GetString;
    ElsewhereMeans(path);
    if IsKubeadmDocument(doc) && RegistrationOf(doc).Mapping? {
      KubeadmDocumentIsMapping(doc);
      EvenContent(doc);
      RegistrationIsWellFormed(doc);
      var registration, version := RegistrationOf(doc), GetString(doc, "apiVersion");
      var after := EnsureRegistration(registration, version).node;
      if path[0] != Key(REGISTRATION) {
        PutKeeps(doc, REGISTRATION, after, path);
      } else {
        var rest := path[1..];
        assert path == [path[0]] + rest;
        LookupStep(doc, path[0], rest);
        LookupStep(Put(doc, REGISTRATION, after), path[0], rest);
        FindAfterPut(doc, REGISTRATION, after, REGISTRATION);
        RegistrationKeeps(registration, version, rest);
        if Find(doc, REGISTRATION).None? {
          EmptyHasNothing(registration, rest);
        }
      }
    }
  }

  // ---- Under the named provider ID ----

  function ArgsIn(doc: Node): Option<Node> {
    var registration := Find(doc, REGISTRATION);
    if registration.Some? then Find(registration.value, EXTRA_ARGS) else None
  }

  lemma LookupInArgs(doc: Node, path: Path)
    ensures Lookup(doc, ARGS_PATH + path) == if ArgsIn(doc).Some? then Lookup(ArgsIn(doc).value, path) else None
  {
    hide Lookup, Find;
    assert ARGS_PATH + path == [Key(REGISTRATION)] + ([Key(EXTRA_ARGS)] + path);
    LookupStep(doc, Key(REGISTRATION), [Key(EXTRA_ARGS)] + path);
    if Find(doc, REGISTRATION).Some? {
      LookupStep(Find(doc, REGISTRATION).value, Key(EXTRA_ARGS), path);
    }
  }

  lemma RewrittenArgs(doc: Node)
    requires WellFormed(doc) && Rewrite(doc).Rewritten? && ArgsIn(doc).Some?
    ensures WellFormed(ArgsIn(doc).value)
    ensures ArgsIn(Rewrite(doc).node) == if IsKubeadmDocument(doc) then Some(EnsureArgs(ArgsIn(doc).value).node) else ArgsIn(doc)
  {
    hide WellFormed, GetString, EnsureArgs, Index, Put;
    var registration, version := RegistrationOf(doc), GetString(doc, "apiVersion");
    RegistrationIsWellFormed(doc);
    ArgsAreWellFormed(registration, version);
    if IsKubeadmDocument(doc) {
      KubeadmDocumentIsMapping(doc);
      FoundInMapping(registration, EXTRA_ARGS);
      EvenContent(doc);
      EvenContent(registration);
      FindAfterPut(doc, REGISTRATION, EnsureRegistration(registration, version).node, REGISTRATION);
      FindAfterPut(registration, EXTRA_ARGS, EnsureArgs(ArgsIn(doc).value).node, EXTRA_ARGS);
    }
  }

  lemma FoundInMapping(n: Node, key: string)
    requires Find(n, key).Some?
    ensures n.Mapping?
  {
  }

  /** The item that carries the provider ID keeps everything but its value. */
  lemma ItemKeeps(args: Node, path: Path)
    requires WellFormed(args) && FindNamed(args, ARG).Some? && path != [] && path[0] != Key("value")
    ensures Lookup(EnsureArgs(args).node, [NAMED_ARG] + path) == Lookup(args, [NAMED_ARG] + path)
  {
    hide IsNamed, WellFormed, NamedIndex, Lookup, Put, PutNamed;
    var item := FindNamed(args, ARG).value;
    FoundInSequence(args, ARG);
    NamedIsWellFormed(args, ARG);
    NamedEditIs(args, ARG, PROVIDER_ID);
    FindNamedAfterPut(args, ARG, NamedEdit(args, ARG, PROVIDER_ID).node, ARG);
    LookupStep(args, NAMED_ARG, path);
    LookupStep(EnsureArgs(args).node, NAMED_ARG, path);
    EvenContent(item);
    PutKeeps(item, "value", StringNode(PROVIDER_ID), path);
  }

  lemma FoundInSequence(n: Node, name: string)
    requires FindNamed(n, name).Some?
    ensures n.Sequence?
  {
  }

  /** Where the document names the provider ID already, lookups under that item other than its value give
      what they gave before. */
  lemma NamedItemKept(doc: Node, path: Path)
    requires WellFormed(doc) && Rewrite(doc).Rewritten? && path != [] && path[0] != Key("value")
    requires Lookup(doc, ARGS_PATH + [NAMED_ARG]).Some?
    ensures Lookup(Rewrite(doc).node, ARGS_PATH + ([NAMED_ARG] + path)) == Lookup(doc, ARGS_PATH + ([NAMED_ARG] + path))
  {
    hide WellFormed, Rewrite, EnsureArgs, Lookup, ArgsIn, FindNamed;
    LookupInArgs(doc, [NAMED_ARG]);
    LookupInArgs(doc, [NAMED_ARG] + path);
    LookupInArgs(Rewrite(doc).node, [NAMED_ARG] + path);
    LookupOne(ArgsIn(doc).value, NAMED_ARG);
    RewrittenArgs(doc);
    ItemKeeps(ArgsIn(doc).value, path);
  }

  // ---- What a rewritten document says ----

  /** A provider ID that is a scalar is the right one. */
  predicate Right(id: Option<Node>) {
    id.Some? && (id.value.Scalar? ==> id.value.text == "elf://{{ ds.meta_data.instance_id }}")
  }

  lemma ArgsAreRight(args: Node)
    requires WellFormed(args)
    ensures args.Mapping? ==> Right(ProviderIdIn(EnsureArgs(args).node).mapped)
    ensures args.Sequence? ==> Right(ProviderIdIn(EnsureArgs(args).node).named)
  {
    hide ProviderIdIn, UpsertNamed;
    ProviderIdForms(EnsureArgs(args).node);
    EnsureArgsAgain(args);
    if args.Mapping? {
      UpsertStringAgain(args, ARG, PROVIDER_ID);
    } else if args.Sequence? {
      NamedArgsAreRight(args);
    }
  }

  lemma NamedArgsAreRight(args: Node)
    requires args.Sequence? && WellFormed(args)
    ensures var found := FindNamed(UpsertNamed(args, ARG, PROVIDER_ID).node, ARG);
            found.Some? && Right(Find(found.value, "value"))
  {
    hide IsNamed, WellFormed, NamedIndex;
    NamedEditIs(args, ARG, PROVIDER_ID);
    FindNamedAfterPut(args, ARG, NamedEdit(args, ARG, PROVIDER_ID).node, ARG);
  }

  /** A kubeadm document whose arguments are, or can be, a mapping or a sequence ends up with the provider ID. */
  lemma ArgumentIsSet(doc: Node)
    requires WellFormed(doc) && IsKubeadmDocument(doc) && RegistrationOf(doc).Mapping?
    requires var args := ArgsOf(RegistrationOf(doc), GetString(doc, "apiVersion"));
             args.Some? && (args.value.Mapping? || args.value.Sequence?)
    ensures var args, id := ArgsOf(RegistrationOf(doc), GetString(doc, "apiVersion")).value, ProviderIdOf(Rewrite(doc).node);
            if args.Mapping? then Right(id.mapped) else Right(id.named)
  {
    hide WellFormed, GetString, EnsureArgs, Index, Put, ProviderIdIn, ProviderIdOf, NewArgs, Right;
    KubeadmDocumentIsMapping(doc);
    EvenContent(doc);
    var registration, version := RegistrationOf(doc), GetString(doc, "apiVersion");
    RegistrationIsWellFormed(doc);
    EvenContent(registration);
    ArgsAreWellFormed(registration, version);
    var args := ArgsOf(registration, version).value;
    var edit := EnsureRegistration(registration, version);
    FindAfterPut(doc, REGISTRATION, edit.node, REGISTRATION);
    FindAfterPut(registration, EXTRA_ARGS, EnsureArgs(args).node, EXTRA_ARGS);
    ProviderIdIsIn(Put(doc, REGISTRATION, edit.node));
    ArgsAreRight(args);
  }

  /** The arguments the document has. */
  function ArgsBefore(doc: Node): Option<Node> {
    var registration := Find(doc, "nodeRegistration");
    if registration.Some? then Find(registration.value, "kubeletExtraArgs") else None
  }

  /** An init or join configuration ends up with the provider ID: as a key where its arguments are a mapping,
      or are absent in version v1beta3; as a named item where they are a sequence, or are absent in v1beta4. */
  lemma ProviderIdIsSet(doc: Node)
    requires WellFormed(doc) && GetString(doc, "kind") in {"InitConfiguration", "JoinConfiguration"}
    requires Find(doc, "nodeRegistration").Some? ==> Find(doc, "nodeRegistration").value.Mapping?
    ensures var args, version := ArgsBefore(doc), GetString(doc, "apiVersion"); var id := ProviderIdOf(Rewrite(doc).node);
            && ((if args.Some? then args.value.Mapping? else version == "kubeadm.k8s.io/v1beta3") ==> Right(id.mapped))
            && ((if args.Some? then args.value.Sequence? else version == "kubeadm.k8s.io/v1beta4") ==> Right(id.named))
  {
    hide WellFormed, Rewrite, ProviderIdOf, Find;
    NewRegistrationHasNoArgs(doc);
    var args := ArgsOf(RegistrationOf(doc), GetString(doc, "apiVersion"));
    if args.Some? && (args.value.Mapping? || args.value.Sequence?) {
      ArgumentIsSet(doc);
    }
  }

  /** Documents of any other kind are left as they are. */
  lemma OthersUntouched(doc: Node)
    requires GetString(doc, "kind") !in {"InitConfiguration", "JoinConfiguration"}
    ensures Rewrite(doc) == Rewritten(doc, false)
  {
  }

  // ---- All documents of a file ----

  predicate NoneCrashes(docs: seq<Node>) {
    forall d :: d in docs ==> Rewrite(d).Rewritten?
  }

  predicate AllWellFormed(docs: seq<Node>) {
    forall d :: d in docs ==> WellFormed(d)
  }

  function RewriteAll(docs: seq<Node>): seq<Node>
    requires NoneCrashes(docs)
  {
    seq(|docs|, i requires 0 <= i < |docs| => Rewrite(docs[i]).node)
  }

  predicate AnyChanged(docs: seq<Node>) {
    exists d :: d in docs && Rewrite(d).Rewritten? && Rewrite(d).changed
  }

  /** The documents are rewritten one by one; a crash on one leaves nothing. */
  method EnsureDocuments(docs: seq<Node>) returns (rewritten: Option<seq<Node>>, changed: bool)
    ensures rewritten.Some? <==> NoneCrashes(docs)
    ensures rewritten.Some? ==> rewritten.value == RewriteAll(docs) && (changed <==> AnyChanged(docs))
  {
    hide Rewrite;
    var done := docs;
    changed := false;
    for i := 0 to |docs|
      invariant |done| == |docs| && NoneCrashes(docs[..i])
      invariant forall k :: 0 <= k < i ==> Rewrite(docs[k]).Rewritten? && done[k] == Rewrite(docs[k]).node
      invariant forall k :: i <= k < |docs| ==> done[k] == docs[k]
      invariant changed <==> AnyChanged(docs[..i])
    {
      assert docs[i] in docs && docs[..i + 1] == docs[..i] + [docs[i]];
      var out := Rewrite(docs[i]);
      if out.Crashed? {
        return None, changed;
      }
      done := done[i := out.node];
      if out.changed {
        changed := true;
      }
    }
    assert docs[..|docs|] == docs;
    return Some(done), changed;
  }

  /** The whole file: a second pass leaves it as it is and reports nothing, and the first reports a change
      exactly when the provider ID of some document is looked up differently. */
  lemma RewriteAllAgain(docs: seq<Node>)
    requires AllWellFormed(docs) && NoneCrashes(docs)
    ensures var after := RewriteAll(docs);
            && AllWellFormed(after) && NoneCrashes(after) && RewriteAll(after) == after && !AnyChanged(after)
            && (AnyChanged(docs) <==> exists i :: 0 <= i < |docs| && ProviderIdOf(after[i]) != ProviderIdOf(docs[i]))
  {
    hide Rewrite, WellFormed, ProviderIdOf;
    var after := RewriteAll(docs);
    forall i | 0 <= i < |docs|
      ensures WellFormed(after[i]) && Rewrite(after[i]) == Rewritten(after[i], false)
      ensures Rewrite(docs[i]).changed <==> ProviderIdOf(after[i]) != ProviderIdOf(docs[i])
    {
      assert docs[i] in docs;
      RewriteAgain(docs[i]);
      FlagIff(docs[i]);
    }
    if d :| d in docs && Rewrite(d).Rewritten? && Rewrite(d).changed {
      var i :| 0 <= i < |docs| && docs[i] == d;
      assert ProviderIdOf(after[i]) != ProviderIdOf(docs[i]);
    }
  }
}
