/**
 * `generateDOMTree` of `javascript.js`: the preview's element tree printed
 * as nested `div` boxes, each indented 20px per level, holding the element's
 * lower-cased name and then the boxes of its element children. The token
 * view (`Tokens`) shows that the boxes nest as the elements do.
 */
module TreePrinter {
  import opened Wrappers
  import opened Dom

  /** Pixels of `margin-left` per level. */
  const Indent: nat := 20

  const Header: string := "<h3>DOM Tree</h3>"

  function DigitChar(d: nat): char
    requires d < 10
  {
    ('0' as int + d) as char
  }

  /** The decimal digits of `n`, as a template literal prints a number. */
  function NatToString(n: nat): string
    decreases n
  {
    if n < 10 then [DigitChar(n)] else NatToString(n / 10) + [DigitChar(n % 10)]
  }

  predicate IsDigit(c: char) {
    '0' <= c <= '9'
  }

  /** The number a string of decimal digits denotes. */
  function DigitsValue(s: string): nat
    requires forall i :: 0 <= i < |s| ==> IsDigit(s[i])
  {
    if s == [] then 0
    else
      assert IsDigit(s[|s| - 1]);
      DigitsValue(s[..|s| - 1]) * 10 + (s[|s| - 1] as int - '0' as int)
  }

  /** `NatToString` prints decimal digits, with no leading zero, that
      denote `n`. */
  lemma {:induction false} NatToStringValue(n: nat)
    ensures var s := NatToString(n);
      && s != [] && (forall i :: 0 <= i < |s| ==> IsDigit(s[i]))
      && (|s| > 1 ==> s[0] != '0')
      && DigitsValue(s) == n
    decreases n
  {
    if n >= 10 {
      NatToStringValue(n / 10);
      var s := NatToString(n);
      assert s[..|s| - 1] == NatToString(n / 10);
    }
  }

  /** The opening of an element's box at `depth`, up to its name. */
  function OpenBox(nodeName: string, depth: nat): string {
    "<div class=\"node\" style=\"margin-left: " + NatToString(depth * Indent) + "px\">\n    <span class=\"tag\">"
    + ToLower(nodeName) + "</span>"
  }

  const CloseBox: string := "</div>"

  /** `generateDOMTree(element, depth)` for an element. */
  function Generate(n: Node, depth: nat): string
    requires n.Element?
    decreases n, 1
  {
    OpenBox(n.nodeName, depth) + GenerateChildren(n.childNodes, depth + 1) + CloseBox
  }

  /** The `forEach` over `element.children`: the boxes of the element
      children, in order; other child nodes print nothing. */
  function GenerateChildren(cs: seq<Node>, depth: nat): string
    decreases cs, 0
  {
    if cs == [] then ""
    else (if cs[0].Element? then Generate(cs[0], depth) else "") + GenerateChildren(cs[1..], depth)
  }

  /** `generateDOMTree(element, depth)`: nothing for a missing element. */
  function GenerateDOMTree(element: Option<Node>, depth: nat): string
    requires element.None? || element.value.Element?
  {
    match element
    case None => ""
    case Some(n) => Generate(n, depth)
  }

  /** What `updateDOMTree` puts in the tree panel. */
  function DOMTreePanel(previewArea: Option<Node>): (r: string)
    requires previewArea.None? || previewArea.value.Element?
    ensures |r| >= |Header| && r[..|Header|] == Header
    ensures previewArea.None? ==> r == Header
  {
    Header + GenerateDOMTree(previewArea, 0)
  }

  // ---- The token view ----

  /** A box opening for an element named `nodeName` at `depth`, or a box
      closing. */
  datatype Token = Open(nodeName: string, depth: nat) | Close

  function Tokens(n: Node, depth: nat): seq<Token>
    requires n.Element?
    decreases n, 1
  {
    [Open(n.nodeName, depth)] + ChildTokens(n.childNodes, depth + 1) + [Close]
  }

  function ChildTokens(cs: seq<Node>, depth: nat): seq<Token>
    decreases cs, 0
  {
    if cs == [] then []
    else (if cs[0].Element? then Tokens(cs[0], depth) else []) + ChildTokens(cs[1..], depth)
  }

  /** The text of a token sequence. */
  function Print(ts: seq<Token>): string {
    if ts == [] then ""
    else (match ts[0] case Open(name, d) => OpenBox(name, d) case Close => CloseBox) + Print(ts[1..])
  }

  /** The number of boxes open after `ts`. */
  function Nesting(ts: seq<Token>): int {
    if ts == [] then 0 else Nesting(ts[..|ts| - 1]) + (if ts[|ts| - 1].Open? then 1 else -1)
  }

  /** The number of boxes `ts` opens. */
  function Opens(ts: seq<Token>): nat {
    if ts == [] then 0 else Opens(ts[..|ts| - 1]) + (if ts[|ts| - 1].Open? then 1 else 0)
  }

  /** Every prefix closes no more boxes than it opens, the whole closes all
      it opens, and each box is indented by the number of boxes around it
      (plus the starting depth `d`). */
  ghost predicate WellNested(ts: seq<Token>, d: nat) {
    && Nesting(ts) == 0
    && (forall i :: 0 <= i <= |ts| ==> Nesting(ts[..i]) >= 0)
    && (forall i :: 0 <= i < |ts| && ts[i].Open? ==> ts[i].depth == d + Nesting(ts[..i]))
  }

  /** The number of elements in the subtree of `n`, `n` included. */
  function ElementCount(n: Node): nat
    decreases n, 1
  {
    if n.Element? then 1 + ChildElementCount(n.childNodes) else 0
  }

  function ChildElementCount(cs: seq<Node>): nat
    decreases cs, 0
  {
    if cs == [] then 0 else ElementCount(cs[0]) + ChildElementCount(cs[1..])
  }

  lemma {:induction false} PrintAppend(a: seq<Token>, b: seq<Token>)
    ensures Print(a + b) == Print(a) + Print(b)
    decreases |a|
  {
    if a == [] {
      assert a + b == b;
    } else {
      assert (a + b)[0] == a[0] && (a + b)[1..] == a[1..] + b;
      PrintAppend(a[1..], b);
    }
  }

  lemma {:induction false} CountsAppend(a: seq<Token>, b: seq<Token>)
    ensures Nesting(a + b) == Nesting(a) + Nesting(b)
    ensures Opens(a + b) == Opens(a) + Opens(b)
    decreases |b|
  {
    if b != [] {
      var b' := b[..|b| - 1];
      assert (a + b)[..|a + b| - 1] == a + b';
      CountsAppend(a, b');
    } else {
      assert a + b == a;
    }
  }

  lemma {:induction false} WellNestedAppend(a: seq<Token>, b: seq<Token>, d: nat)
    requires WellNested(a, d) && WellNested(b, d)
    ensures WellNested(a + b, d)
  {
    var ab := a + b;
    CountsAppend(a, b);
    forall i | 0 <= i <= |ab| ensures Nesting(ab[..i]) >= 0 && (i < |ab| && ab[i].Open? ==> ab[i].depth == d + Nesting(ab[..i])) {
      if i <= |a| {
        assert ab[..i] == a[..i];
      } else {
        assert ab[..i] == a + b[..i - |a|];
        CountsAppend(a, b[..i - |a|]);
      }
    }
  }

  lemma {:induction false} WellNestedWrap(x: seq<Token>, name: string, d: nat)
    requires WellNested(x, d + 1)
    ensures WellNested([Open(name, d)] + x + [Close], d)
  {
    var w := [Open(name, d)] + x + [Close];
    CountsAppend([Open(name, d)] + x, [Close]);
    CountsAppend([Open(name, d)], x);
    assert Nesting([Open(name, d)]) == 1 by { assert [Open(name, d)][..0] == []; }
    assert Nesting([Close]) == -1 by { assert [Close][..0] == []; }
    forall i | 0 <= i <= |w| ensures Nesting(w[..i]) >= 0 && (i < |w| && w[i].Open? ==> w[i].depth == d + Nesting(w[..i])) {
      if i == 0 {
        assert w[..i] == [];
      } else if i <= |x| + 1 {
        assert w[..i] == [Open(name, d)] + x[..i - 1];
        CountsAppend([Open(name, d)], x[..i - 1]);
        if i <= |x| {
          assert w[i] == x[i - 1];
        }
      } else {
        assert w[..i] == w;
      }
    }
  }

  lemma {:induction false} OpensSingle(t: Token)
    ensures Opens([t]) == (if t.Open? then 1 else 0)
  {
    assert [t][..0] == [];
  }

  /** The printed boxes are the printed tokens; the tokens nest, and there
      is one opening and one closing per element. */
  lemma {:induction false} TokensNested(n: Node, d: nat)
    requires n.Element?
    ensures Generate(n, d) == Print(Tokens(n, d))
    ensures WellNested(Tokens(n, d), d)
    ensures Opens(Tokens(n, d)) == ElementCount(n)
    decreases n, 1
  {
    var x := ChildTokens(n.childNodes, d + 1);
    ChildTokensNested(n.childNodes, d + 1);
    WellNestedWrap(x, n.nodeName, d);
    var o := [Open(n.nodeName, d)];
    PrintAppend(o + x, [Close]);
    PrintAppend(o, x);
    CountsAppend(o + x, [Close]);
    CountsAppend(o, x);
    OpensSingle(Open(n.nodeName, d));
    OpensSingle(Close);
    assert Print(o) == OpenBox(n.nodeName, d);
    assert Print([Close]) == CloseBox;
  }

  lemma {:induction false} ChildTokensNested(cs: seq<Node>, d: nat)
    ensures GenerateChildren(cs, d) == Print(ChildTokens(cs, d))
    ensures WellNested(ChildTokens(cs, d), d)
    ensures Opens(ChildTokens(cs, d)) == ChildElementCount(cs)
    decreases cs, 0
  {
    if cs == [] {
      NoTokensNested(d);
    } else {
      var tail := ChildTokens(cs[1..], d);
      ChildTokensNested(cs[1..], d);
      if cs[0].Element? {
        TokensNested(cs[0], d);
        ConcatNested(Tokens(cs[0], d), tail, d);
        assert ChildTokens(cs, d) == Tokens(cs[0], d) + tail;
      } else {
        assert ChildTokens(cs, d) == [] + tail == tail;
        assert ElementCount(cs[0]) == 0;
      }
      assert ChildElementCount(cs) == ElementCount(cs[0]) + ChildElementCount(cs[1..]);
    }
  }

  /** No tokens print nothing, nest, and open nothing. */
  lemma {:induction false} NoTokensNested(d: nat)
    ensures var e: seq<Token> := []; Print(e) == "" && WellNested(e, d) && Opens(e) == 0
  {
    var e: seq<Token> := [];
    assert e[..0] == e;
  }

  /** Two well-nested token sequences in a row print as the two printouts
      in a row, nest, and open as many boxes as both together. */
  lemma {:induction false} ConcatNested(a: seq<Token>, b: seq<Token>, d: nat)
    requires WellNested(a, d) && WellNested(b, d)
    ensures Print(a + b) == Print(a) + Print(b)
    ensures WellNested(a + b, d)
    ensures Opens(a + b) == Opens(a) + Opens(b)
  {
    WellNestedAppend(a, b, d);
    PrintAppend(a, b);
    CountsAppend(a, b);
  }

  /** The printout of an element: its box opens at its own depth, the boxes
      nest like the elements (each indented one level more than the box
      around it), and there are as many closings as openings, one per
      element of the subtree; text and other non-element nodes print
      nothing. */
  lemma {:induction false} GenerateDOMTreeNests(n: Node, d: nat)
    requires n.Element?
    ensures var ts := Tokens(n, d);
      && GenerateDOMTree(Some(n), d) == Print(ts)
      && ts[0] == Open(n.nodeName, d) && ts[|ts| - 1] == Close
      && WellNested(ts, d)
      && Opens(ts) == |ts| - Opens(ts) == ElementCount(n)
  {
    var ts := Tokens(n, d);
    TokensNested(n, d);
    OpensCloses(ts);
  }

  /** In a sequence whose nesting returns to zero, openings and closings
      are equally many. */
  lemma {:induction false} OpensCloses(ts: seq<Token>)
    ensures Nesting(ts) == 2 * Opens(ts) - |ts|
    decreases |ts|
  {
    if ts != [] {
      OpensCloses(ts[..|ts| - 1]);
    }
  }
}
