/** Taking the header lines off bootstrap data and off kubeadm configuration, and putting them back. */
module CloudInitHeaders {
  import opened Results
  import opened Lines

  const TEMPLATE_HEADER := "## template: jinja"
  const CLOUD_CONFIG_HEADER := "#cloud-config"
  const DOCUMENT_START := "---"

  /** How many lines the header has: the cloud-config line, perhaps below a template line. */
  function CloudHeaderLength(lines: seq<string>): (n: nat)
    ensures n <= |lines| && n <= 2
  {
    var n := if lines != [] && TrimSpace(lines[0]) == TEMPLATE_HEADER then 1 else 0;
    if n < |lines| && TrimSpace(lines[n]) == CLOUD_CONFIG_HEADER then n + 1 else 0
  }

  function DocumentHeaderLength(lines: seq<string>): (n: nat)
    ensures n <= |lines| && n <= 1
  {
    if lines != [] && TrimSpace(lines[0]) == DOCUMENT_START then 1 else 0
  }

  datatype Parts = Parts(header: string, body: string)

  /** The first `n` lines of the text, and what follows them and the blank lines below. */
  function PartsAt(data: string, n: nat): Parts
    requires n <= |Split(data)|
  {
    if n == 0 then Parts("", data) else Parts(Join(Split(data)[..n]), Remainder(Split(data), n))
  }

  function CloudParts(data: string): Parts {
    PartsAt(data, CloudHeaderLength(Split(data)))
  }

  function DocumentParts(data: string): Parts {
    PartsAt(data, DocumentHeaderLength(Split(data)))
  }

  method SplitCloudConfigHeader(data: string) returns (header: string, body: string)
    ensures Parts(header, body) == CloudParts(data)
  {
    var lines := Split(data);
    var index := 0;
    var head := [];
    if TrimSpace(lines[index]) == TEMPLATE_HEADER {
      head := head + [lines[index]];
      index := index + 1;
    }
    if index >= |lines| || TrimSpace(lines[index]) != CLOUD_CONFIG_HEADER {
      return "", data;
    }
    head := head + [lines[index]];
    index := index + 1;
    assert head == lines[..index];
    index := SkipBlankLines(lines, index);
    return Join(head), Join(lines[index..]);
  }

  method SplitYAMLDocumentHeader(data: string) returns (header: string, body: string)
    ensures Parts(header, body) == DocumentParts(data)
  {
    var lines := Split(data);
    if TrimSpace(lines[0]) != DOCUMENT_START {
      return "", data;
    }
    var index := SkipBlankLines(lines, 1);
    assert lines[..1] == [lines[0]];
    return lines[0], Join(lines[index..]);
  }

  /** What is taken for a header: a cloud-config line, alone or below a template line; a document start line. */
  lemma HeadersIff(data: string)
    ensures var lines := Split(data);
            && (CloudParts(data) != Parts("", data) || CloudHeaderLength(lines) > 0 ==>
                  || TrimSpace(lines[0]) == "#cloud-config"
                  || (|lines| > 1 && TrimSpace(lines[0]) == "## template: jinja" && TrimSpace(lines[1]) == "#cloud-config"))
            && (TrimSpace(lines[0]) == "#cloud-config" ==> CloudHeaderLength(lines) == 1)
            && (|lines| > 1 && TrimSpace(lines[0]) == "## template: jinja" && TrimSpace(lines[1]) == "#cloud-config" ==>
                  CloudHeaderLength(lines) == 2)
            && (DocumentHeaderLength(lines) == 1 <==> TrimSpace(lines[0]) == "---")
  {
  }

  // ---- Splitting and reassembling ----

  predicate CloudHeader(header: string) {
    CloudHeaderLength(Split(header)) == |Split(header)|
  }

  predicate DocumentHeader(header: string) {
    DocumentHeaderLength(Split(header)) == |Split(header)|
  }

  /** The header's lines stay the header's lines whatever text follows. */
  lemma HeaderFound(header: string, body: string)
    ensures CloudHeader(header) ==> CloudHeaderLength(Split(header) + Split(body)) == |Split(header)|
    ensures DocumentHeader(header) ==> DocumentHeaderLength(Split(header) + Split(body)) == |Split(header)|
  {
  }

  lemma PartsIff(header: string, body: string)
    ensures var data := header + "\n" + body; var n := |Split(header)|;
            && n <= |Split(data)|
            && (PartsAt(data, n) == Parts(header, body) <==> BeginsFull(body))
  {
    SplitAround(header, body);
    JoinOfSplit(header);
    RemainderIff(Split(header), body);
    assert (Split(header) + Split(body))[..|Split(header)|] == Split(header);
  }

  /** A header set before a body is split off again exactly when the body does not begin with a blank line. */
  lemma CloudPartsIff(header: string, body: string)
    requires CloudHeader(header)
    ensures CloudParts(header + "\n" + body) == Parts(header, body) <==> BeginsFull(body)
  {
    SplitAround(header, body);
    HeaderFound(header, body);
    PartsIff(header, body);
  }

  lemma DocumentPartsIff(header: string, body: string)
    requires DocumentHeader(header)
    ensures DocumentParts(header + "\n" + body) == Parts(header, body) <==> BeginsFull(body)
  {
    SplitAround(header, body);
    HeaderFound(header, body);
    PartsIff(header, body);
  }

  /** A recognised header is one by itself, and the body split from it begins full. */
  lemma SplitIsRecognised(data: string, n: nat)
    requires 0 < n <= |Split(data)|
    ensures var parts := PartsAt(data, n);
            && Split(parts.header) == Split(data)[..n] && BeginsFull(parts.body)
  {
    SplitOfJoin(Split(data)[..n]);
    RemainderBeginsFull(Split(data), n);
  }

  /** Reassembling what was split from any text with a recognised header splits the same way again. */
  lemma ReassembledCloudConfig(data: string)
    requires CloudHeaderLength(Split(data)) > 0
    ensures var parts := CloudParts(data); CloudParts(parts.header + "\n" + parts.body) == parts
  {
    var n := CloudHeaderLength(Split(data));
    SplitIsRecognised(data, n);
    var parts := CloudParts(data);
    assert CloudHeader(parts.header);
    CloudPartsIff(parts.header, parts.body);
  }

  lemma ReassembledDocument(data: string)
    requires DocumentHeaderLength(Split(data)) > 0
    ensures var parts := DocumentParts(data); DocumentParts(parts.header + "\n" + parts.body) == parts
  {
    SplitIsRecognised(data, 1);
    var parts := DocumentParts(data);
    assert DocumentHeader(parts.header);
    DocumentPartsIff(parts.header, parts.body);
  }

  // ---- Rendering documents ----

  function TrimNewline(s: string): string {
    if s != "" && s[|s| - 1] == '\n' then s[..|s| - 1] else s
  }

  const SEPARATOR := "\n---\n"

  function JoinDocuments(texts: seq<string>): string {
    if texts == [] then "" else if |texts| == 1 then texts[0]
    else JoinDocuments(texts[..|texts| - 1]) + SEPARATOR + texts[|texts| - 1]
  }

  function Texts(rendered: seq<string>): seq<string> {
    seq(|rendered|, i requires 0 <= i < |rendered| => TrimNewline(rendered[i]))
  }

  function Marshaled(rendered: seq<string>, header: string): string {
    (if header != "" then header + "\n" else "") + JoinDocuments(Texts(rendered)) + "\n"
  }

  /** Each document as the YAML library renders it; a rendering that fails ends it all. */
  method MarshalYAMLDocuments(renderings: seq<Option<string>>, header: string) returns (text: Option<string>)
    ensures text.Some? <==> forall r :: r in renderings ==> r.Some?
    ensures text.Some? ==> exists rendered: seq<string> ::
              && |rendered| == |renderings| && (forall i :: 0 <= i < |rendered| ==> renderings[i] == Some(rendered[i]))
              && text.value == Marshaled(rendered, header)
  {
    var texts := [];
    ghost var rendered := [];
    for i := 0 to |renderings|
      invariant |rendered| == i && forall k :: 0 <= k < i ==> renderings[k] == Some(rendered[k])
      invariant texts == Texts(rendered)
    {
      if renderings[i].None? {
        assert renderings[i] in renderings;
        return None;
      }
      texts := texts + [TrimNewline(renderings[i].value)];
      rendered := rendered + [renderings[i].value];
    }
    var buffer := "";
    if header != "" {
      buffer := buffer + header + "\n";
    }
    buffer := buffer + JoinDocuments(texts) + "\n";
    assert buffer == Marshaled(rendered, header);
    return Some(buffer);
  }

  /** The header of marshaled documents is split off again, leaving them as they are, exactly when their
      first rendered line is not blank. */
  lemma MarshaledPartsIff(rendered: seq<string>, header: string)
    requires DocumentHeader(header)
    ensures var body := JoinDocuments(Texts(rendered)) + "\n";
            DocumentParts(Marshaled(rendered, header)) == Parts(header, body) <==> !Blank(Split(body)[0])
  {
    var body := JoinDocuments(Texts(rendered)) + "\n";
    assert TrimSpace("") == "";
    DocumentPartsIff(header, body);
    assert Marshaled(rendered, header) == header + "\n" + body;
  }
}
