/**
 * The rendered document as the graph extractor sees it: element, text and
 * other (comment-like) nodes, the string helpers `trim`, `toLowerCase` and
 * `textContent` that the extractor applies to them.
 */
module Dom {
  import opened Wrappers

  datatype Attr = Attr(name: string, value: string)

  /** A DOM node. `Other` is any node that is neither a text node nor an
      element (a comment, a processing instruction); its `data` is what its
      `textContent` returns. `nodeName` is as the browser reports it
      (upper case for HTML elements). */
  datatype Node =
    | Text(content: string)
    | Element(nodeName: string, attributes: seq<Attr>, childNodes: seq<Node>)
    | Other(nodeName: string, data: string)

  /** The document of the preview frame: the child nodes of its `head` and of
      its `body`, each absent when the document has no such element. */
  datatype Document = Document(head: Option<seq<Node>>, body: Option<seq<Node>>)

  /** The characters JavaScript's `String.prototype.trim` removes: the
      ECMAScript WhiteSpace set (including every space separator) and the
      four LineTerminators. */
  predicate IsSpace(c: char) {
    || c == '\t' || c == '\n' || c == '\U{000B}' || c == '\U{000C}' || c == '\r'
    || c == ' ' || c == '\U{00A0}' || c == '\U{1680}'
    || ('\U{2000}' <= c <= '\U{200A}')
    || c == '\U{2028}' || c == '\U{2029}' || c == '\U{202F}' || c == '\U{205F}'
    || c == '\U{3000}' || c == '\U{FEFF}'
  }

  predicate AllSpace(s: string) {
    forall i :: 0 <= i < |s| ==> IsSpace(s[i])
  }

  /** Drops the leading whitespace of `s`. */
  function TrimStart(s: string): string {
    if s != [] && IsSpace(s[0]) then TrimStart(s[1..]) else s
  }

  /** Drops the trailing whitespace of `s`. */
  function TrimEnd(s: string): string {
    if s != [] && IsSpace(s[|s| - 1]) then TrimEnd(s[..|s| - 1]) else s
  }

  /** `s.trim()`. */
  function Trim(s: string): string {
    TrimEnd(TrimStart(s))
  }

  /** The number of whitespace characters `trim` removes from the front. */
  function LeadingSpace(s: string): nat {
    TrimStartSpec(s);
    |s| - |TrimStart(s)|
  }

  /** `TrimStart` removes a whitespace prefix and stops at the first
      character that is not whitespace. */
  lemma {:induction false} TrimStartSpec(s: string)
    ensures var r := TrimStart(s);
      && |r| <= |s| && r == s[|s| - |r|..]
      && (forall k :: 0 <= k < |s| - |r| ==> IsSpace(s[k]))
      && (r != [] ==> !IsSpace(r[0]))
  {
    if s != [] && IsSpace(s[0]) {
      var t := s[1..];
      TrimStartSpec(t);
      var r := TrimStart(t);
      assert TrimStart(s) == r;
      assert t[|t| - |r|..] == s[|s| - |r|..];
      forall k | 0 <= k < |s| - |r| ensures IsSpace(s[k]) {
        if k > 0 {
          assert s[k] == t[k - 1];
        }
      }
    }
  }

  /** `TrimEnd` removes a whitespace suffix and stops at the last character
      that is not whitespace. */
  lemma {:induction false} TrimEndSpec(s: string)
    ensures var r := TrimEnd(s);
      && |r| <= |s| && r == s[..|r|]
      && (forall k :: |r| <= k < |s| ==> IsSpace(s[k]))
      && (r != [] ==> !IsSpace(r[|r| - 1]))
  {
    if s != [] && IsSpace(s[|s| - 1]) {
      var t := s[..|s| - 1];
      TrimEndSpec(t);
      var r := TrimEnd(t);
      assert TrimEnd(s) == r;
      assert t[..|r|] == s[..|r|];
      forall k | |r| <= k < |s| ensures IsSpace(s[k]) {
        if k < |t| {
          assert s[k] == t[k];
        }
      }
    }
  }

  /** `s.trim()` is the slice of `s` between its leading and its trailing
      whitespace: everything outside the slice is whitespace, and the slice
      neither starts nor ends with whitespace. It is empty exactly when `s`
      is all whitespace. */
  lemma {:induction false} TrimSpec(s: string)
    ensures var r := Trim(s); var i := LeadingSpace(s);
      && i + |r| <= |s| && r == s[i..i + |r|]
      && (forall k :: 0 <= k < |s| && !(i <= k < i + |r|) ==> IsSpace(s[k]))
      && (r != [] ==> !IsSpace(r[0]) && !IsSpace(r[|r| - 1]))
      && (r == [] <==> AllSpace(s))
  {
    var a := TrimStart(s);
    TrimStartSpec(s);
    TrimEndSpec(a);
    var r := TrimEnd(a);
    var i := |s| - |a|;
    assert forall k :: i + |r| <= k < |s| ==> s[k] == a[k - i];
    assert r != [] ==> s[i] == r[0];
  }

  /** ASCII lower-casing of one character. */
  function LowerChar(c: char): char {
    if 'A' <= c <= 'Z' then (c as int - 'A' as int + 'a' as int) as char else c
  }

  /** ASCII upper-casing of one character. */
  function UpperChar(c: char): char {
    if 'a' <= c <= 'z' then (c as int - 'a' as int + 'A' as int) as char else c
  }

  /** `s.toLowerCase()` on the ASCII letters. */
  function ToLower(s: string): (r: string)
    ensures |r| == |s|
  {
    if s == [] then [] else [LowerChar(s[0])] + ToLower(s[1..])
  }

  /** `ToLower` lower-cases each character in place, so no upper-case
      letter is left. */
  lemma {:induction false} ToLowerSpec(s: string)
    ensures forall i :: 0 <= i < |s| ==> ToLower(s)[i] == LowerChar(s[i])
    ensures forall i :: 0 <= i < |s| ==> !('A' <= ToLower(s)[i] <= 'Z')
  {
    if s != [] {
      ToLowerSpec(s[1..]);
    }
  }

  /** `s.toUpperCase()` on the ASCII letters. */
  function ToUpper(s: string): (r: string)
    ensures |r| == |s|
  {
    if s == [] then [] else [UpperChar(s[0])] + ToUpper(s[1..])
  }

  /** `ToUpper` upper-cases each character in place. */
  lemma {:induction false} ToUpperSpec(s: string)
    ensures forall i :: 0 <= i < |s| ==> ToUpper(s)[i] == UpperChar(s[i])
  {
    if s != [] {
      ToUpperSpec(s[1..]);
    }
  }

  /** `node.textContent`: for an element, the text of its descendant text
      nodes in document order (comments contribute nothing); for any other
      node, its own character data. */
  function TextContent(n: Node): string
    decreases n, 1
  {
    match n
    case Text(s) => s
    case Other(_, d) => d
    case Element(_, _, ch) => ChildTextContent(ch)
  }

  function ChildTextContent(cs: seq<Node>): string
    decreases cs, 0
  {
    if cs == [] then []
    else (if cs[0].Other? then [] else TextContent(cs[0])) + ChildTextContent(cs[1..])
  }

  /** `element.children.length > 0`: some child node is an element. */
  predicate HasElementChild(cs: seq<Node>) {
    exists i :: 0 <= i < |cs| && cs[i].Element?
  }
}
