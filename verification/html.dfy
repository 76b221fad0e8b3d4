/**
 The `<img ... />` markup both variants print with `sprintf`, written as a
 list of `name="value"` attributes, together with a reader that takes such a
 tag apart again. The reader is the yardstick the avatar contracts use to say
 which value ends up in which attribute.
 */
module Html {
  import opened Php

  datatype Attr = Attr(name: string, value: string)

  /** A value that cannot close the double-quoted attribute it is printed in. */
  predicate QuoteFree(s: string) {
    '"' !in s
  }

  /** An attribute the reader can recover: its name has no `=`, its value no `"`. */
  predicate WellFormed(a: Attr) {
    '=' !in a.name && QuoteFree(a.value)
  }

  predicate AllWellFormed(attrs: seq<Attr>) {
    forall i :: 0 <= i < |attrs| ==> WellFormed(attrs[i])
  }

  /** ` name="value"` */
  function RenderAttr(a: Attr): string {
    " " + a.name + "=\"" + a.value + "\""
  }

  function RenderAttrs(attrs: seq<Attr>): string {
    if |attrs| == 0 then "" else RenderAttr(attrs[0]) + RenderAttrs(attrs[1..])
  }

  /** `<img` followed by the attributes, then `tail` verbatim, then ` />`. */
  function RenderImg(attrs: seq<Attr>, tail: string): string {
    "<img" + RenderAttrs(attrs) + tail + " />"
  }

  /** A printed tag is a truthy PHP string. */
  lemma RenderImgNotEmpty(attrs: seq<Attr>, tail: string)
    ensures !IsEmpty(RenderImg(attrs, tail))
  {
    var r := RenderImg(attrs, tail);
    assert r[0] == '<' && |r| > 1;
  }

  /** Position of the first `c` in `s`, or `|s|` when there is none. */
  function IndexOf(s: string, c: char): (k: nat)
    ensures k <= |s|
    ensures k < |s| ==> s[k] == c
    ensures forall i :: 0 <= i < k ==> s[i] != c
  {
    if |s| == 0 then 0 else if s[0] == c then 0 else 1 + IndexOf(s[1..], c)
  }

  /** Reads one ` name="value"` from the front of `s`, returning it and what follows. */
  function ParseAttr(s: string): Option<(Attr, string)> {
    if |s| == 0 || s[0] != ' ' then None else ParseNameValue(s[1..])
  }

  /** Reads `name="value"`: the name runs up to the first `=`, which a `"` must follow. */
  function ParseNameValue(t: string): Option<(Attr, string)> {
    var e := IndexOf(t, '=');
    if e + 1 >= |t| || t[e + 1] != '"' then None else ParseQuoted(t[..e], t[e + 2..])
  }

  /** Reads `value"` for an attribute called `name`: the value runs up to the first `"`. */
  function ParseQuoted(name: string, u: string): Option<(Attr, string)> {
    var q := IndexOf(u, '"');
    if q == |u| then None else Some((Attr(name, u[..q]), u[q + 1..]))
  }

  /** Reads exactly `n` attributes from the front of `s`. */
  function ParseAttrs(s: string, n: nat): Option<(seq<Attr>, string)>
    decreases n
  {
    if n == 0 then Some(([], s))
    else
      match ParseAttr(s)
      case None => None
      case Some((a, rest)) =>
        match ParseAttrs(rest, n - 1)
        case None => None
        case Some((more, tail)) => Some(([a] + more, tail))
  }

  /** Reads `<img` and then `n` attributes; the second component is the unread rest. */
  function ParseImg(s: string, n: nat): Option<(seq<Attr>, string)> {
    if |s| < 4 || s[..4] != "<img" then None else ParseAttrs(s[4..], n)
  }

  /** The value of the first attribute called `name`. */
  function Lookup(attrs: seq<Attr>, name: string): Option<string> {
    if |attrs| == 0 then None
    else if attrs[0].name == name then Some(attrs[0].value)
    else Lookup(attrs[1..], name)
  }

  /** The value of attribute `name` among the first `n` attributes of an `<img>` tag. */
  function ImgAttr(html: string, n: nat, name: string): Option<string> {
    match ParseImg(html, n)
    case None => None
    case Some((attrs, _)) => Lookup(attrs, name)
  }

  lemma IndexOfFirst(x: string, c: char, y: string)
    requires c !in x
    ensures IndexOf(x + [c] + y, c) == |x|
  {
    var s := x + [c] + y;
    var k := IndexOf(s, c);
    assert s[|x|] == c;
  }

  lemma ParseRenderQuoted(name: string, value: string, rest: string)
    requires QuoteFree(value)
    ensures ParseQuoted(name, value + ['"'] + rest) == Some((Attr(name, value), rest))
  {
    var u := value + ['"'] + rest;
    IndexOfFirst(value, '"', rest);
    assert u[..|value|] == value;
    assert u[|value| + 1..] == rest;
  }

  lemma ParseRenderNameValue(a: Attr, rest: string)
    requires WellFormed(a)
    ensures ParseNameValue(a.name + ['=', '"'] + a.value + ['"'] + rest) == Some((a, rest))
  {
    var u := a.value + ['"'] + rest;
    var t := a.name + ['=', '"'] + a.value + ['"'] + rest;
    assert t == a.name + ['='] + (['"'] + u);
    IndexOfFirst(a.name, '=', ['"'] + u);
    var e := |a.name|;
    assert t[..e] == a.name;
    assert t[e + 1] == '"';
    assert t[e + 2..] == u;
    ParseRenderQuoted(a.name, a.value, rest);
  }

  lemma ParseRenderAttr(a: Attr, rest: string)
    requires WellFormed(a)
    ensures ParseAttr(RenderAttr(a) + rest) == Some((a, rest))
  {
    var s := RenderAttr(a) + rest;
    assert s[1..] == a.name + ['=', '"'] + a.value + ['"'] + rest;
    ParseRenderNameValue(a, rest);
  }

  lemma AllWellFormedTail(attrs: seq<Attr>)
    requires |attrs| > 0 && AllWellFormed(attrs)
    ensures AllWellFormed(attrs[1..])
  {
    forall i | 0 <= i < |attrs| - 1 ensures WellFormed(attrs[1..][i]) {
      assert attrs[1..][i] == attrs[i + 1];
    }
  }

  /** One step of `ParseAttrs`: an attribute read from the front, then the rest. */
  lemma ParseAttrsStep(s: string, n: nat, a: Attr, rest: string, more: seq<Attr>, tail: string)
    requires n > 0 && ParseAttr(s) == Some((a, rest)) && ParseAttrs(rest, n - 1) == Some((more, tail))
    ensures ParseAttrs(s, n) == Some(([a] + more, tail))
  {
  }

  /** Printing well-formed attributes and reading them back gives the same attributes and rest. */
  lemma {:induction false} ParseRenderAttrs(attrs: seq<Attr>, rest: string)
    requires AllWellFormed(attrs)
    ensures ParseAttrs(RenderAttrs(attrs) + rest, |attrs|) == Some((attrs, rest))
    decreases |attrs|
  {
    if |attrs| > 0 {
      var a, more := attrs[0], attrs[1..];
      var tailRest := RenderAttrs(more) + rest;
      var s := RenderAttrs(attrs) + rest;
      assert s == RenderAttr(a) + tailRest;
      ParseRenderAttr(a, tailRest);
      AllWellFormedTail(attrs);
      ParseRenderAttrs(more, rest);
      ParseAttrsStep(s, |attrs|, a, tailRest, more, rest);
      assert [a] + more == attrs;
      assert ParseAttrs(s, |attrs|) == Some((attrs, rest));
    } else {
      assert RenderAttrs(attrs) + rest == rest;
    }
  }

  /** An `<img>` tag printed from well-formed attributes reads back as those attributes. */
  lemma ParseRenderImg(attrs: seq<Attr>, tail: string)
    ensures AllWellFormed(attrs) ==>
              ParseImg(RenderImg(attrs, tail), |attrs|) == Some((attrs, tail + " />"))
  {
    if AllWellFormed(attrs) {
      var s := RenderImg(attrs, tail);
      assert s[..4] == "<img";
      assert s[4..] == RenderAttrs(attrs) + (tail + " />");
      ParseRenderAttrs(attrs, tail + " />");
    }
  }
}
