/** Giving the kubelet its provider ID in the kubeadm documents of the bootstrap data. */
module CloudInit {
  import opened Results
  import opened YamlTree

  const API_V1BETA3 := "kubeadm.k8s.io/v1beta3"
  const API_V1BETA4 := "kubeadm.k8s.io/v1beta4"
  const PROVIDER_ID := "elf://{{ ds.meta_data.instance_id }}"
  const REGISTRATION := "nodeRegistration"
  const EXTRA_ARGS := "kubeletExtraArgs"
  const ARG := "provider-id"

  datatype Edit = Edit(node: Node, changed: bool)

  // ---- Upserts ----

  /** A value that is there and is no scalar is left alone. */
  function UpsertString(parent: Node, key: string, value: string): Edit
    requires parent.Mapping?
  {
    var existing := Find(parent, key);
    if existing.Some? && (!existing.value.Scalar? || existing.value.text == value) then Edit(parent, false)
    else Edit(Put(parent, key, StringNode(value)), true)
  }

  function NamedNode(name: string, value: string): Node {
    Mapping("!!map", [StringNode("name"), StringNode(name), StringNode("value"), StringNode(value)])
  }

  function UpsertNamed(sequence: Node, name: string, value: string): Edit
    requires sequence.Sequence?
  {
    match FindNamed(sequence, name)
    case None => Edit(PutNamed(sequence, name, NamedNode(name, value)), true)
    case Some(item) =>
      var edit := UpsertString(item, "value", value);
      Edit(PutNamed(sequence, name, edit.node), edit.changed)
  }

  method UpsertNamedValueSequenceItem(sequence: Node, name: string, value: string) returns (edit: Edit)
    requires sequence.Sequence?
    ensures edit == UpsertNamed(sequence, name, value)
  {
    for i := 0 to |sequence.content|
      invariant NamedFrom(sequence.content, name, i) == NamedFrom(sequence.content, name, 0)
    {
      var item := sequence.content[i];
      if !item.Mapping? {
        continue;
      }
      var itemName := FindMapValue(item, "name");
      if itemName.None? || Text(itemName.value) != name {
        continue;
      }
      var inner := UpsertString(item, "value", value);
      return Edit(Sequence(sequence.tag, sequence.content[i := inner.node]), inner.changed);
    }
    return Edit(Sequence(sequence.tag, sequence.content + [NamedNode(name, value)]), true);
  }

  // ---- One document ----

  function EnsureArgs(args: Node): Edit {
    match args
    case Mapping(_, _) => UpsertString(args, ARG, PROVIDER_ID)
    case Sequence(_, _) => UpsertNamed(args, ARG, PROVIDER_ID)
    case _ => Edit(args, false)
  }

  /** The form the arguments have in an API version, when there are none yet. */
  function NewArgs(version: string): Option<Node> {
    if version == API_V1BETA3 then Some(Mapping("!!map", []))
    else if version == API_V1BETA4 then Some(Sequence("!!seq", []))
    else None
  }

  function ArgsOf(registration: Node, version: string): Option<Node> {
    if Find(registration, EXTRA_ARGS).Some? then Find(registration, EXTRA_ARGS) else NewArgs(version)
  }

  function EnsureRegistration(registration: Node, version: string): Edit
    requires registration.Mapping?
  {
    match ArgsOf(registration, version)
    case None => Edit(registration, false)
    case Some(args) =>
      var edit := EnsureArgs(args);
      Edit(Put(registration, EXTRA_ARGS, edit.node), edit.changed)
  }

  predicate IsKubeadmDocument(doc: Node) {
    GetString(doc, "kind") == "InitConfiguration" || GetString(doc, "kind") == "JoinConfiguration"
  }

  datatype Outcome = Crashed | Rewritten(node: Node, changed: bool)

  function RegistrationOf(doc: Node): Node {
    if Find(doc, REGISTRATION).Some? then Find(doc, REGISTRATION).value else Mapping("!!map", [])
  }

  /** A missing registration is added, but that alone is not reported as a change. */
  function Rewrite(doc: Node): Outcome {
    if !IsKubeadmDocument(doc) then Rewritten(doc, false)
    else
      var registration, version := RegistrationOf(doc), GetString(doc, "apiVersion");
      if registration.Mapping? then
        var edit := EnsureRegistration(registration, version);
        Rewritten(Put(doc, REGISTRATION, edit.node), edit.changed)
      // There is then nothing to add the arguments to.
      else if NewArgs(version).Some? then Crashed
      else Rewritten(doc, false)
  }

  lemma CrashesIff(doc: Node)
    ensures Rewrite(doc).Crashed? <==>
            && IsKubeadmDocument(doc) && Find(doc, REGISTRATION).Some? && !Find(doc, REGISTRATION).value.Mapping?
            && GetString(doc, "apiVersion") in {API_V1BETA3, API_V1BETA4}
  {
  }

  // ---- A second pass changes nothing ----

  lemma UpsertStringAgain(parent: Node, key: string, value: string)
    requires parent.Mapping? && WellFormed(parent)
    ensures var edit := UpsertString(parent, key, value);
            && edit.node.Mapping? && WellFormed(edit.node) && UpsertString(edit.node, key, value) == Edit(edit.node, false)
            && (edit.changed <==> Find(edit.node, key) != Find(parent, key))
  {
    FindAfterPut(parent, key, StringNode(value), key);
    PutIsWellFormed(parent, key, StringNode(value));
  }

  /** What is under other keys stays. */
  lemma UpsertStringKeeps(parent: Node, key: string, value: string, other: string)
    requires parent.Mapping? && WellFormed(parent) && other != key
    ensures Find(UpsertString(parent, key, value).node, other) == Find(parent, other)
  {
    FindAfterPut(parent, key, StringNode(value), other);
  }

  lemma NamedNodeHas(name: string, value: string)
    ensures var item := NamedNode(name, value);
            IsNamed(item, name) && WellFormed(item) && Find(item, "value") == Some(StringNode(value))
  {
    var item := NamedNode(name, value);
    assert IndexFrom(item.content, "name", 0) == Some(1);
    assert IndexFrom(item.content, "value", 2) == Some(3);
    assert forall c :: c in item.content ==> c.Scalar?;
  }

  /** The item that carries the name after the upsert. */
  function NamedEdit(sequence: Node, name: string, value: string): Edit {
    match FindNamed(sequence, name)
    case None => Edit(NamedNode(name, value), true)
    case Some(item) => UpsertString(item, "value", value)
  }

  lemma NamedEditIs(sequence: Node, name: string, value: string)
    requires sequence.Sequence? && WellFormed(sequence)
    ensures var edit := NamedEdit(sequence, name, value);
            && UpsertNamed(sequence, name, value) == Edit(PutNamed(sequence, name, edit.node), edit.changed)
            && IsNamed(edit.node, name) && WellFormed(edit.node)
            && UpsertString(edit.node, "value", value) == Edit(edit.node, false)
  {
    NamedNodeHas(name, value);
    var found := FindNamed(sequence, name);
    if found.Some? {
      assert found.value in sequence.content;
      UpsertStringAgain(found.value, "value", value);
      UpsertStringKeeps(found.value, "value", value, "name");
    }
  }

  lemma UpsertNamedAgain(sequence: Node, name: string, value: string)
    requires sequence.Sequence? && WellFormed(sequence)
    ensures var edit := UpsertNamed(sequence, name, value);
            && edit.node.Sequence? && WellFormed(edit.node) && UpsertNamed(edit.node, name, value) == Edit(edit.node, false)
  {
    hide UpsertString, IsNamed;
    NamedEditIs(sequence, name, value);
    var item := NamedEdit(sequence, name, value).node;
    FindNamedAfterPut(sequence, name, item, name);
    PutNamedFound(PutNamed(sequence, name, item), name);
  }

  lemma EnsureArgsAgain(args: Node)
    requires WellFormed(args)
    ensures var edit := EnsureArgs(args);
            && WellFormed(edit.node) && EnsureArgs(edit.node) == Edit(edit.node, false)
            && edit.node.Mapping? == args.Mapping? && edit.node.Sequence? == args.Sequence?
  {
    hide UpsertString, UpsertNamed;
    if args.Mapping? {
      UpsertStringAgain(args, ARG, PROVIDER_ID);
    } else if args.Sequence? {
      UpsertNamedAgain(args, ARG, PROVIDER_ID);
    }
  }

  lemma ArgsAreWellFormed(registration: Node, version: string)
    requires WellFormed(registration)
    ensures ArgsOf(registration, version).Some? ==> WellFormed(ArgsOf(registration, version).value)
  {
  }

  lemma EnsureRegistrationAgain(registration: Node, version: string)
    requires registration.Mapping? && WellFormed(registration)
    ensures var edit := EnsureRegistration(registration, version);
            && edit.node.Mapping? && WellFormed(edit.node)
            && EnsureRegistration(edit.node, version) == Edit(edit.node, false)
  {
    hide EnsureArgs, WellFormed;
    ArgsAreWellFormed(registration, version);
    var args := ArgsOf(registration, version);
    if args.Some? {
      EnsureArgsAgain(args.value);
      var after := EnsureArgs(args.value).node;
      PutIsWellFormed(registration, EXTRA_ARGS, after);
      EvenContent(registration);
      FindAfterPut(registration, EXTRA_ARGS, after, EXTRA_ARGS);
      PutFound(Put(registration, EXTRA_ARGS, after), EXTRA_ARGS);
    }
  }

  lemma EvenContent(n: Node)
    requires n.Mapping? && WellFormed(n)
    ensures |n.content| % 2 == 0
  {
  }

  lemma RegistrationIsWellFormed(doc: Node)
    requires WellFormed(doc)
    ensures WellFormed(RegistrationOf(doc))
  {
  }

  lemma KubeadmDocumentIsMapping(doc: Node)
    requires IsKubeadmDocument(doc)
    ensures doc.Mapping?
  {
  }

  /** What a rewritten document tells of itself is unchanged. */
  lemma SameKindAndVersion(doc: Node, registration: Node)
    requires doc.Mapping? && |doc.content| % 2 == 0
    ensures var after := Put(doc, REGISTRATION, registration);
            && GetString(after, "kind") == GetString(doc, "kind")
            && GetString(after, "apiVersion") == GetString(doc, "apiVersion")
            && RegistrationOf(after) == registration
  {
    FindAfterPut(doc, REGISTRATION, registration, "kind");
    FindAfterPut(doc, REGISTRATION, registration, "apiVersion");
    FindAfterPut(doc, REGISTRATION, registration, REGISTRATION);
  }

  /** Rewriting a rewritten document leaves it as it is and reports no change. */
  lemma RewriteAgain(doc: Node)
    requires WellFormed(doc) && Rewrite(doc).Rewritten?
    ensures var out := Rewrite(doc);
            WellFormed(out.node) && Rewrite(out.node) == Rewritten(out.node, false)
  {
    hide EnsureRegistration, WellFormed, GetString, RegistrationOf;
    if IsKubeadmDocument(doc) && RegistrationOf(doc).Mapping? {
      KubeadmDocumentIsMapping(doc);
      EvenContent(doc);
      RegistrationIsWellFormed(doc);
      EnsureRegistrationAgain(RegistrationOf(doc), GetString(doc, "apiVersion"));
      var registration := EnsureRegistration(RegistrationOf(doc), GetString(doc, "apiVersion")).node;
      SameKindAndVersion(doc, registration);
      PutIsWellFormed(doc, REGISTRATION, registration);
      PutPut(doc, REGISTRATION, registration);
    }
  }

  lemma PutPut(n: Node, key: string, value: Node)
    requires n.Mapping? && |n.content| % 2 == 0
    ensures Put(Put(n, key, value), key, value) == Put(n, key, value)
  {
    FindAfterPut(n, key, value, key);
    PutFound(Put(n, key, value), key);
  }
}
