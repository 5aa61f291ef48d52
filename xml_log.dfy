/**
 * Element validation and assertion extraction of an XML result log
 * (`XmlLogAnalyser.validateXmlSampleAttributes`, the per-child loop of
 * `getSamples` and `getAssertionFields`).  The document is what
 * `xml.dom.minidom.parse` builds from the file.
 */
module XmlLog {
  import opened Wrappers
  import opened IntLiteral
  import opened Records

  /**
   * A DOM node.  For an element, `markup` is the text `toxml()` serialises it
   * to; the model takes the serialiser's output as given.
   */
  datatype XmlNode =
    | Element(tag: string, attributes: map<string, string>, children: seq<XmlNode>, markup: string)
    | Text(content: string)

  /** What `xml.dom.minidom.parse` gives: a document, or the `IOError`/`ExpatError` that `getSamples` catches. */
  datatype XmlInput = Parsed(document: XmlNode) | Unreadable | Malformed

  /**
   * `getElementsByTagName(tag)` on a node whose children are `nodes`: every
   * element below, in document (pre-)order, whose tag is `tag`.
   */
  function ElementsByTagName(nodes: seq<XmlNode>, tag: string): (found: seq<XmlNode>)
    ensures forall n :: n in found ==> n.Element? && n.tag == tag
    decreases nodes
  {
    if nodes == [] then []
    else
      var first := nodes[0];
      var below := if first.Element? then (if first.tag == tag then [first] else []) + ElementsByTagName(first.children, tag) else [];
      below + ElementsByTagName(nodes[1..], tag)
  }

  /** Python's `s.replace(pat, "")`: every non-overlapping occurrence of `pat`, leftmost first, removed. */
  function RemoveAll(s: string, pat: string): string
    requires |pat| > 0
    decreases |s|
  {
    if |s| < |pat| then s
    else if s[..|pat|] == pat then RemoveAll(s[|pat|..], pat)
    else [s[0]] + RemoveAll(s[1..], pat)
  }

  function OpenTag(tag: string): string { "<" + tag + ">" }

  function CloseTag(tag: string): string { "</" + tag + ">" }

  /**
   * `getAssertionFields(tag, elem)`: the markup of the first `tag` element below
   * `elem` with the plain opening and closing tags removed, or "" if there is none.
   */
  function GetAssertionFields(tag: string, elem: XmlNode): string {
    var found := ElementsByTagName(if elem.Element? then elem.children else [], tag);
    if |found| >= 1 then RemoveAll(RemoveAll(found[0].markup, OpenTag(tag)), CloseTag(tag)) else ""
  }

  /** A string without `<` holds no occurrence of a pattern that starts with `<`. */
  lemma {:induction false} RemoveAllNoOpening(s: string, t: string, pat: string)
    requires |pat| > 0 && pat[0] == '<' && '<' !in s
    ensures RemoveAll(s + t, pat) == s + RemoveAll(t, pat)
    decreases |s|
  {
    if s != [] {
      var st := s + t;
      if |st| >= |pat| {
        assert st[..|pat|][0] == s[0];
      }
      assert st[1..] == s[1..] + t;
      RemoveAllNoOpening(s[1..], t, pat);
    } else {
      assert s + t == t;
    }
  }

  /** The markup `<tag>text</tag>` of an element holding plain text gives back that text. */
  lemma TagContentRoundTrip(tag: string, text: string)
    requires |tag| > 0 && tag[0] != '/' && '<' !in tag && '<' !in text
    ensures RemoveAll(RemoveAll(OpenTag(tag) + text + CloseTag(tag), OpenTag(tag)), CloseTag(tag)) == text
  {
    var open, close := OpenTag(tag), CloseTag(tag);
    var whole := open + text + close;
    assert whole[..|open|] == open;
    assert whole[|open|..] == text + close;
    RemoveAllNoOpening(text, close, open);
    assert close[..|open|][1] == '/';
    assert close[1..] == "/" + tag + ">";
    assert '<' !in close[1..];
    RemoveAllNoOpening(close[1..], [], open);
    assert close[1..] + [] == close[1..];
    assert RemoveAll([], open) == [];
    assert [close[0]] + close[1..] == close;
    RemoveAllNoOpening(text, close, close);
    assert close[..|close|] == close && close[|close|..] == [];
    assert text + [] == text;
  }

  /** The ten attributes a sample element must carry. */
  predicate HasRequiredAttributes(attributes: map<string, string>) {
    && "ts" in attributes && "t" in attributes && "lb" in attributes && "rc" in attributes && "rm" in attributes
    && "tn" in attributes && "dt" in attributes && "s" in attributes && "by" in attributes && "lt" in attributes
  }

  /** `validateXmlSampleAttributes`: all ten attributes present, and `ts`, `t`, `lt`, `by` parse with `int()`. */
  predicate ValidateXmlSampleAttributes(attributes: map<string, string>) {
    && HasRequiredAttributes(attributes)
    && ParseInt(attributes["ts"]).Some?
    && ParseInt(attributes["t"]).Some?
    && ParseInt(attributes["lt"]).Some?
    && ParseInt(attributes["by"]).Some?
  }

  /** The assertion built from one child element of a sample element. */
  function AssertionOf(node: XmlNode): Assertion {
    NewAssertion(
      GetAssertionFields("name", node),
      GetAssertionFields("failure", node),
      GetAssertionFields("failureMessage", node),
      GetAssertionFields("error", node))
  }

  /** The assertions of a sample element: one per child element, in document order; text children add none. */
  function AssertionsOf(children: seq<XmlNode>): seq<Assertion>
    decreases |children|
  {
    if children == [] then []
    else
      var last := children[|children| - 1];
      AssertionsOf(children[..|children| - 1]) + if last.Element? then [AssertionOf(last)] else []
  }

  /** The number of element nodes in a list of nodes. */
  function ElementCount(nodes: seq<XmlNode>): nat
    decreases |nodes|
  {
    if nodes == [] then 0
    else ElementCount(nodes[..|nodes| - 1]) + if nodes[|nodes| - 1].Element? then 1 else 0
  }

  /** The sample built from a validated element: a `Sample2` when both `ng` and `na` are present. */
  function XmlSampleOf(attributes: map<string, string>, children: seq<XmlNode>): (s: Sample)
    requires ValidateXmlSampleAttributes(attributes)
    ensures NumericFieldsParse(s)
    ensures s.extended.Some? <==> "ng" in attributes && "na" in attributes
    ensures s.sampleLabel == attributes["lb"] && s.status == attributes["s"]
  {
    var start := attributes["ts"];
    var elapsed := attributes["t"];
    var bytes := attributes["by"];
    var latency := attributes["lt"];
    assert ParseInt(start).Some? && ParseInt(elapsed).Some? && ParseInt(bytes).Some? && ParseInt(latency).Some?;
    var extended := if "ng" in attributes && "na" in attributes then Some(ThreadCounts(attributes["ng"], attributes["na"])) else None;
    Sample(start, elapsed, attributes["lb"], attributes["rc"], attributes["rm"],
           attributes["tn"], attributes["dt"], attributes["s"], bytes, latency,
           extended, AssertionsOf(children))
  }

  /** The sample a child of `testResults` yields, if it is an element that passes validation. */
  function SampleOfNode(node: XmlNode): Option<Sample> {
    if node.Element? && ValidateXmlSampleAttributes(node.attributes)
    then Some(XmlSampleOf(node.attributes, node.children))
    else None
  }

  /** The samples of the children of `testResults`, in document order. */
  function SamplesOfNodes(nodes: seq<XmlNode>): seq<Sample>
    decreases |nodes|
  {
    if nodes == [] then []
    else
      var last := nodes[|nodes| - 1];
      SamplesOfNodes(nodes[..|nodes| - 1]) + match SampleOfNode(last) case Some(s) => [s] case None => []
  }

  /** `XmlLogAnalyser.getSamples` as a whole: the children of the first `testResults` element, or "No samples were found". */
  function XmlSamples(input: XmlInput): (r: Result<seq<Sample>, Failure>)
    ensures r.Ok? ==> |r.value| > 0
    ensures r.Err? ==> r.error == NoSamples
  {
    var samples :=
      match input
      case Parsed(document) =>
        var results := ElementsByTagName([document], "testResults");
        if |results| > 0 then SamplesOfNodes(results[0].children) else []
      case _ => [];
    if |samples| == 0 then Err(NoSamples) else Ok(samples)
  }

  /** One assertion per child element, in order: the assertions of `a + b` are those of `a` followed by those of `b`. */
  lemma {:induction false} AssertionsAppend(a: seq<XmlNode>, b: seq<XmlNode>)
    ensures AssertionsOf(a + b) == AssertionsOf(a) + AssertionsOf(b)
    ensures ElementCount(a + b) == ElementCount(a) + ElementCount(b)
    decreases |b|
  {
    if b == [] {
      assert a + b == a;
    } else {
      var b' := b[..|b| - 1];
      assert (a + b)[..|a + b| - 1] == a + b';
      AssertionsAppend(a, b');
    }
  }

  /** A sample element carries exactly as many assertions as it has child elements. */
  lemma {:induction false} AssertionsCount(children: seq<XmlNode>)
    ensures |AssertionsOf(children)| == ElementCount(children)
    decreases |children|
  {
    if children != [] {
      AssertionsCount(children[..|children| - 1]);
    }
  }

  /** Assertion flags are set only by the exact text "true" in the `failure` and `error` children. */
  lemma AssertionFlags(node: XmlNode)
    ensures AssertionOf(node).failure <==> GetAssertionFields("failure", node) == "true"
    ensures AssertionOf(node).error <==> GetAssertionFields("error", node) == "true"
  {
  }

  /** Elements are examined one by one: the samples of `a + b` are those of `a` followed by those of `b`. */
  lemma {:induction false} SamplesAppend(a: seq<XmlNode>, b: seq<XmlNode>)
    ensures SamplesOfNodes(a + b) == SamplesOfNodes(a) + SamplesOfNodes(b)
    decreases |b|
  {
    if b == [] {
      assert a + b == a;
    } else {
      var b' := b[..|b| - 1];
      assert (a + b)[..|a + b| - 1] == a + b';
      SamplesAppend(a, b');
    }
  }

  /** Every sample of an XML log comes from a validated element and has numeric fields that parse. */
  lemma {:induction false} SamplesValidated(nodes: seq<XmlNode>)
    ensures forall s :: s in SamplesOfNodes(nodes) ==> NumericFieldsParse(s)
    ensures forall s :: s in SamplesOfNodes(nodes) ==>
              exists i :: 0 <= i < |nodes| && SampleOfNode(nodes[i]) == Some(s)
    decreases |nodes|
  {
    if nodes != [] {
      var prefix := nodes[..|nodes| - 1];
      SamplesValidated(prefix);
      forall s | s in SamplesOfNodes(nodes)
        ensures NumericFieldsParse(s)
        ensures exists i :: 0 <= i < |nodes| && SampleOfNode(nodes[i]) == Some(s)
      {
        if s in SamplesOfNodes(prefix) {
          var i :| 0 <= i < |prefix| && SampleOfNode(prefix[i]) == Some(s);
          assert nodes[i] == prefix[i];
        } else {
          assert SampleOfNode(nodes[|nodes| - 1]) == Some(s);
        }
      }
    }
  }
}
