/** The two `_escape_latex` functions. Both fold a fixed table of
    single-character replacements over the text, one pass per entry, each pass
    replacing every occurrence of one character (Python's `str.replace`). The
    application renderer replaces the backslash first; the older renderer
    replaces it last. Later passes see the characters earlier passes inserted,
    so the order decides the output. */
module LatexEscape {
  import opened Common

  datatype Replacement = Replacement(target: char, text: string)

  /** Replaces every character of `s` by its image, independently. */
  function Charwise(s: string, image: char -> string): string
  {
    if s == [] then [] else image(s[0]) + Charwise(s[1..], image)
  }

  /** `s.replace(c, rep)` for a one-character `c`. */
  function ReplaceChar(s: string, c: char, rep: string): string
  {
    Charwise(s, x => if x == c then rep else [x])
  }

  /** Each replacement pass in table order, each on the previous pass's output. */
  function ApplyPasses(s: string, table: seq<Replacement>): string
    decreases |table|
  {
    if table == [] then s
    else ApplyPasses(ReplaceChar(s, table[0].target, table[0].text), table[1..])
  }

  /** The text `\c` that escapes character `c` with a backslash. */
  function Escaped(c: char): string
  {
    "\\" + [c]
  }

  /** The text `\w{}` of a LaTeX command `w` with an empty argument. */
  function Command(w: string): string
  {
    "\\" + w + "{" + "}"
  }

  /** The text both tables put in place of a backslash. */
  const EscapedBackslash: string := Command("textbackslash")

  /** The table of app/services/workflow/latex_generator.py: the backslash
      pass, then the dictionary in insertion order. */
  const AppTable: seq<Replacement> := [
    Replacement('\\', EscapedBackslash),
    Replacement('&', Escaped('&')),
    Replacement('%', Escaped('%')),
    Replacement('$', Escaped('$')),
    Replacement('#', Escaped('#')),
    Replacement('^', Command("textasciicircum")),
    Replacement('_', Escaped('_')),
    Replacement('{', Escaped('{')),
    Replacement('}', Escaped('}')),
    Replacement('~', Command("textasciitilde"))
  ]

  /** The table of src/cv_maker/latex_generator.py: the same entries, with the
      backslash last. */
  const SrcTable: seq<Replacement> := [
    Replacement('&', Escaped('&')),
    Replacement('%', Escaped('%')),
    Replacement('$', Escaped('$')),
    Replacement('#', Escaped('#')),
    Replacement('^', Command("textasciicircum")),
    Replacement('_', Escaped('_')),
    Replacement('{', Escaped('{')),
    Replacement('}', Escaped('}')),
    Replacement('~', Command("textasciitilde")),
    Replacement('\\', EscapedBackslash)
  ]

  /** The ten characters both tables treat as special. */
  predicate Special(c: char)
  {
    c == '\\' || c == '&' || c == '%' || c == '$' || c == '#' ||
    c == '^' || c == '_' || c == '{' || c == '}' || c == '~'
  }

  /** `_escape_latex` of the application renderer: None and "" give "". */
  function AppEscape(text: Option<string>): string
  {
    if !Truthy(text) then "" else ApplyPasses(text.value, AppTable)
  }

  /** `_escape_latex` of the older renderer: "" gives "". */
  function SrcEscape(text: string): string
  {
    if text == "" then "" else ApplyPasses(text, SrcTable)
  }

  /** What the application's passes turn one character into. The braces that
      the backslash and caret entries insert are escaped again by the later
      brace passes; the tilde's braces are not, since its pass comes last. */
  function AppImage(c: char): string
  {
    match c
    case '\\' => "\\" + "textbackslash" + Escaped('{') + Escaped('}')
    case '^' => "\\" + "textasciicircum" + Escaped('{') + Escaped('}')
    case '~' => Command("textasciitilde")
    case _ => if Special(c) then Escaped(c) else [c]
  }

  /** What the older renderer's passes turn one character into: every
      backslash that an earlier entry inserted is rewritten by the final
      backslash pass. */
  function SrcImage(c: char): string
  {
    match c
    case '\\' => EscapedBackslash
    case '^' => EscapedBackslash + "textasciicircum" + EscapedBackslash + "{" + EscapedBackslash + "}"
    case '~' => EscapedBackslash + "textasciitilde" + "{" + "}"
    case _ => if Special(c) then EscapedBackslash + [c] else [c]
  }

  lemma {:induction false} CharwiseAppend(a: string, b: string, image: char -> string)
    ensures Charwise(a + b, image) == Charwise(a, image) + Charwise(b, image)
  {
    if a == [] {
      assert a + b == b;
    } else {
      assert (a + b)[0] == a[0] && (a + b)[1..] == a[1..] + b;
      CharwiseAppend(a[1..], b, image);
    }
  }

  /** A character no pass targets comes through unchanged. */
  lemma {:induction false} CharwiseFixed(s: string, image: char -> string)
    requires forall i :: 0 <= i < |s| ==> image(s[i]) == [s[i]]
    ensures Charwise(s, image) == s
  {
    if s != [] {
      CharwiseFixed(s[1..], image);
    }
  }

  lemma ReplaceAbsent(s: string, c: char, rep: string)
    requires c !in s
    ensures ReplaceChar(s, c, rep) == s
  {
    CharwiseFixed(s, x => if x == c then rep else [x]);
  }

  /** Replacing the single occurrence of `c` between two texts free of it. */
  lemma ReplaceOnce(pre: string, c: char, post: string, rep: string)
    requires c !in pre && c !in post
    ensures ReplaceChar(pre + [c] + post, c, rep) == pre + rep + post
  {
    var f := x => if x == c then rep else [x];
    CharwiseAppend(pre + [c], post, f);
    CharwiseAppend(pre, [c], f);
    assert Charwise([c], f) == rep;
    ReplaceAbsent(pre, c, rep);
    ReplaceAbsent(post, c, rep);
  }

  /** A pass-by-pass fold over a concatenation is the concatenation of the
      folds: no pass ever looks across the boundary. */
  lemma {:induction false} ApplyPassesAppend(a: string, b: string, table: seq<Replacement>)
    ensures ApplyPasses(a + b, table) == ApplyPasses(a, table) + ApplyPasses(b, table)
    decreases |table|
  {
    if table != [] {
      var t := table[0];
      CharwiseAppend(a, b, x => if x == t.target then t.text else [x]);
      ApplyPassesAppend(ReplaceChar(a, t.target, t.text), ReplaceChar(b, t.target, t.text), table[1..]);
    }
  }

  lemma {:induction false} ApplyPassesUntouched(s: string, table: seq<Replacement>)
    requires forall i :: 0 <= i < |table| ==> table[i].target !in s
    ensures ApplyPasses(s, table) == s
    decreases |table|
  {
    if table != [] {
      ReplaceAbsent(s, table[0].target, table[0].text);
      ApplyPassesUntouched(s, table[1..]);
    }
  }

  lemma {:induction false} SkipPasses(s: string, table: seq<Replacement>, k: nat)
    requires k <= |table|
    requires forall i :: 0 <= i < k ==> table[i].target !in s
    ensures ApplyPasses(s, table) == ApplyPasses(s, table[k..])
    decreases k
  {
    if k > 0 {
      ReplaceAbsent(s, table[0].target, table[0].text);
      SkipPasses(s, table[1..], k - 1);
      assert table[1..][k - 1..] == table[k..];
    }
  }

  lemma {:induction false} PassesSplit(s: string, u: seq<Replacement>, v: seq<Replacement>)
    ensures ApplyPasses(s, u + v) == ApplyPasses(ApplyPasses(s, u), v)
    decreases |u|
  {
    if u == [] {
      assert u + v == v;
    } else {
      assert (u + v)[0] == u[0] && (u + v)[1..] == u[1..] + v;
      PassesSplit(ReplaceChar(s, u[0].target, u[0].text), u[1..], v);
    }
  }

  /** The first pass rewrites the one occurrence of its target. */
  lemma FirstPass(s: string, table: seq<Replacement>, pre: string, post: string)
    requires table != [] && s == pre + [table[0].target] + post
    requires table[0].target !in pre && table[0].target !in post
    ensures ApplyPasses(s, table) == ApplyPasses(pre + table[0].text + post, table[1..])
  {
    ReplaceOnce(pre, table[0].target, post, table[0].text);
  }

  /** A character that only entry `k` targets, up to `k`, becomes that
      entry's text, which the remaining passes then act on. */
  lemma ReachEntry(c: char, table: seq<Replacement>, k: nat)
    requires k < |table| && table[k].target == c
    requires forall i :: 0 <= i < k ==> table[i].target != c
    ensures ApplyPasses([c], table) == ApplyPasses(table[k].text, table[k + 1..])
  {
    SkipPasses([c], table, k);
    FirstPass([c], table[k..], [], []);
    assert [] + table[k].text + [] == table[k].text;
    assert table[k..][1..] == table[k + 1..];
  }

  /** A character whose replacement text no later pass touches ends up as
      exactly that text. */
  lemma DirectImage(c: char, table: seq<Replacement>, k: nat)
    requires k < |table| && table[k].target == c
    requires forall i :: 0 <= i < k ==> table[i].target != c
    requires forall i :: k < i < |table| ==> table[i].target !in table[k].text
    ensures ApplyPasses([c], table) == table[k].text
  {
    ReachEntry(c, table, k);
    SkipPasses(table[k].text, table[k + 1..], |table| - k - 1);
    assert table[k + 1..][|table| - k - 1..] == [];
  }

  lemma UntouchedChar(c: char, table: seq<Replacement>)
    requires forall i :: 0 <= i < |table| ==> table[i].target != c
    ensures ApplyPasses([c], table) == [c]
  {
    ApplyPassesUntouched([c], table);
  }

  /** Three passes escaping "{", then "}", then "~" on a text whose only
      braces are a trailing "{}": both braces are escaped, the tilde pass
      changes nothing. */
  lemma BracePasses(p: string, u: seq<Replacement>)
    requires |u| == 3 && u[0] == Replacement('{', @"\{") && u[1] == Replacement('}', @"\}") && u[2].target == '~'
    requires '{' !in p && '}' !in p && '~' !in p
    ensures ApplyPasses(p + "{" + "}", u) == p + @"\{" + @"\}"
  {
    FirstPass(p + "{" + "}", u, p, "}");
    assert '}' !in p + @"\{";
    FirstPass(p + @"\{" + "}", u[1..], p + @"\{", "");
    assert '~' !in p + @"\{" + @"\}" + "";
    SkipPasses(p + @"\{" + @"\}" + "", u[2..], 1);
  }

  /** A command name: lower-case letters only. */
  predicate Word(w: string)
  {
    forall j :: 0 <= j < |w| ==> 'a' <= w[j] <= 'z'
  }

  /** A character that cannot occur in a command written `\word{}`. */
  predicate OutsideCommand(x: char)
  {
    x != '\\' && x != '{' && x != '}' && !('a' <= x <= 'z')
  }

  lemma OutsideCommandAbsent(x: char, w: string)
    requires Word(w) && OutsideCommand(x)
    ensures x !in "\\" + w + "{" + "}"
  {
    var s := "\\" + w + "{" + "}";
    forall j | 0 <= j < |s|
      ensures s[j] != x
    {
      if 1 <= j <= |w| {
        assert s[j] == w[j - 1];
      }
    }
  }

  /** An application-order table entry `k` whose text is a command
      `\w{}`, with only passes that leave it alone between it and the brace
      passes, turns its character into `\w` followed by an escaped "{}". */
  lemma BracedImage(c: char, t: seq<Replacement>, k: nat, w: string)
    requires |t| == 10 && k < 7 && t[k] == Replacement(c, "\\" + w + "{" + "}")
    requires forall i :: 0 <= i < k ==> t[i].target != c
    requires forall i :: k < i < 7 ==> OutsideCommand(t[i].target)
    requires t[7] == Replacement('{', @"\{") && t[8] == Replacement('}', @"\}") && t[9].target == '~'
    requires Word(w)
    ensures ApplyPasses([c], t) == "\\" + w + @"\{" + @"\}"
  {
    var s := "\\" + w + "{" + "}";
    assert ApplyPasses([c], t) == ApplyPasses(s, t[k + 1..]) by {
      ReachEntry(c, t, k);
    }
    assert ApplyPasses(s, t[k + 1..]) == ApplyPasses(s, t[7..]) by {
      forall i | k < i < 7
        ensures t[i].target !in s
      {
        OutsideCommandAbsent(t[i].target, w);
      }
      SkipPasses(s, t[k + 1..], 6 - k);
      assert t[k + 1..][6 - k..] == t[7..];
    }
    assert '{' !in w && '}' !in w && '~' !in w by {
      OutsideCommandAbsent('~', w);
    }
    BracePasses("\\" + w, t[7..]);
  }

  /** The entries of the application table, with each inserted "{}" written
      apart from the text before it. */
  predicate AppShape(t: seq<Replacement>)
  {
    |t| == 10 &&
    t[0] == Replacement('\\', Command("textbackslash")) &&
    t[1] == Replacement('&', Escaped('&')) &&
    t[2] == Replacement('%', Escaped('%')) &&
    t[3] == Replacement('$', Escaped('$')) &&
    t[4] == Replacement('#', Escaped('#')) &&
    t[5] == Replacement('^', Command("textasciicircum")) &&
    t[6] == Replacement('_', Escaped('_')) &&
    t[7] == Replacement('{', Escaped('{')) &&
    t[8] == Replacement('}', Escaped('}')) &&
    t[9] == Replacement('~', Command("textasciitilde"))
  }

  lemma AppTableShape()
    ensures AppShape(AppTable)
  {
  }

  lemma AppBackslashImage(c: char, t: seq<Replacement>)
    requires c == '\\' && AppShape(t)
    ensures ApplyPasses([c], t) == AppImage(c)
  {
    BracedImage(c, t, 0, "textbackslash");
  }

  lemma AppCaretImage(c: char, t: seq<Replacement>)
    requires c == '^' && AppShape(t)
    ensures ApplyPasses([c], t) == AppImage(c)
  {
    BracedImage(c, t, 5, "textasciicircum");
  }

  lemma AppSymbolImage(c: char, t: seq<Replacement>)
    requires AppShape(t) && (c == '&' || c == '%' || c == '$' || c == '#')
    ensures ApplyPasses([c], t) == AppImage(c)
  {
    if c == '&' {
      DirectImage(c, t, 1);
    } else if c == '%' {
      DirectImage(c, t, 2);
    } else if c == '$' {
      DirectImage(c, t, 3);
    } else {
      DirectImage(c, t, 4);
    }
  }

  lemma AppBraceImage(c: char, t: seq<Replacement>)
    requires AppShape(t) && (c == '_' || c == '{' || c == '}' || c == '~')
    ensures ApplyPasses([c], t) == AppImage(c)
  {
    if c == '_' {
      DirectImage(c, t, 6);
    } else if c == '{' {
      DirectImage(c, t, 7);
    } else if c == '}' {
      DirectImage(c, t, 8);
    } else {
      DirectImage(c, t, 9);
    }
  }

  /** The application passes on one character give `AppImage`. */
  lemma AppPassesOnChar(c: char, t: seq<Replacement>)
    requires AppShape(t)
    ensures ApplyPasses([c], t) == AppImage(c)
  {
    if c == '&' || c == '%' || c == '$' || c == '#' {
      AppSymbolImage(c, t);
    } else if c == '_' || c == '{' || c == '}' || c == '~' {
      AppBraceImage(c, t);
    } else if c == '\\' {
      AppBackslashImage(c, t);
    } else if c == '^' {
      AppCaretImage(c, t);
    } else {
      UntouchedChar(c, t);
    }
  }

  /** The entries of the older table, with each text's leading backslash
      written apart from the rest. */
  predicate SrcShape(t: seq<Replacement>)
  {
    |t| == 10 &&
    t[0] == Replacement('&', Escaped('&')) &&
    t[1] == Replacement('%', Escaped('%')) &&
    t[2] == Replacement('$', Escaped('$')) &&
    t[3] == Replacement('#', Escaped('#')) &&
    t[4] == Replacement('^', Command("textasciicircum")) &&
    t[5] == Replacement('_', Escaped('_')) &&
    t[6] == Replacement('{', Escaped('{')) &&
    t[7] == Replacement('}', Escaped('}')) &&
    t[8] == Replacement('~', Command("textasciitilde")) &&
    t[9] == Replacement('\\', EscapedBackslash)
  }

  lemma SrcTableShape()
    ensures SrcShape(SrcTable)
  {
  }

  /** A backslash-last table entry `k` whose text is a backslash followed by
      `q`, untouched by the passes before the backslash pass, turns its
      character into the backslash's replacement `b` followed by `q`. */
  lemma LastPassImage(c: char, t: seq<Replacement>, k: nat, q: string, b: string)
    requires |t| == 10 && k < 9 && t[k] == Replacement(c, "\\" + q)
    requires forall i :: 0 <= i < k ==> t[i].target != c
    requires forall i :: k < i < 9 ==> t[i].target !in "\\" + q
    requires t[9] == Replacement('\\', b) && '\\' !in q
    ensures ApplyPasses([c], t) == b + q
  {
    var s := "\\" + q;
    assert ApplyPasses([c], t) == ApplyPasses(s, t[k + 1..]) by {
      ReachEntry(c, t, k);
    }
    assert ApplyPasses(s, t[k + 1..]) == ApplyPasses(s, t[9..]) by {
      SkipPasses(s, t[k + 1..], 8 - k);
      assert t[k + 1..][8 - k..] == t[9..];
    }
    assert ApplyPasses(s, t[9..]) == b + q by {
      assert s == [] + ['\\'] + q;
      FirstPass(s, t[9..], [], q);
      assert [] + b + q == b + q;
    }
  }

  lemma ReplaceCharAppend(a: string, b: string, c: char, rep: string)
    ensures ReplaceChar(a + b, c, rep) == ReplaceChar(a, c, rep) + ReplaceChar(b, c, rep)
  {
    CharwiseAppend(a, b, x => if x == c then rep else [x]);
  }

  lemma BackslashesOnce(w: string, b: string)
    requires '\\' !in w
    ensures ReplaceChar("\\" + w + @"\{" + @"\}", '\\', b) == b + w + b + "{" + b + "}"
  {
    assert "\\" + w + @"\{" + @"\}" == ("\\" + w) + ("\\" + "{") + ("\\" + "}");
    ReplaceCharAppend(("\\" + w) + ("\\" + "{"), "\\" + "}", '\\', b);
    ReplaceCharAppend("\\" + w, "\\" + "{", '\\', b);
    ReplaceOnce([], '\\', w, b);
    ReplaceOnce([], '\\', "{", b);
    ReplaceOnce([], '\\', "}", b);
    assert [] + ['\\'] + w == "\\" + w;
    assert [] + ['\\'] + "{" == "\\" + "{";
    assert [] + ['\\'] + "}" == "\\" + "}";
  }

  /** A backslash-last table entry `k` whose text is a backslash, a word and
      "{}": the brace passes escape the braces, and the last pass then
      rewrites all three backslashes. */
  lemma SrcBracedImage(c: char, t: seq<Replacement>, k: nat, w: string, b: string)
    requires |t| == 10 && k < 6 && t[k] == Replacement(c, "\\" + w + "{" + "}")
    requires forall i :: 0 <= i < k ==> t[i].target != c
    requires forall i :: k < i < 6 ==> OutsideCommand(t[i].target)
    requires t[6] == Replacement('{', @"\{") && t[7] == Replacement('}', @"\}") && t[8].target == '~'
    requires t[9] == Replacement('\\', b)
    requires Word(w)
    ensures ApplyPasses([c], t) == b + w + b + "{" + b + "}"
  {
    var s := "\\" + w + "{" + "}";
    var braced := "\\" + w + @"\{" + @"\}";
    assert ApplyPasses([c], t) == ApplyPasses(s, t[k + 1..]) by {
      ReachEntry(c, t, k);
    }
    assert '{' !in w && '}' !in w && '~' !in w && '\\' !in w by {
      OutsideCommandAbsent('~', w);
    }
    assert ApplyPasses(s, t[k + 1..]) == ApplyPasses(s, t[6..]) by {
      forall i | k < i < 6
        ensures t[i].target !in s
      {
        OutsideCommandAbsent(t[i].target, w);
      }
      SkipPasses(s, t[k + 1..], 5 - k);
      assert t[k + 1..][5 - k..] == t[6..];
    }
    assert ApplyPasses(s, t[6..]) == ApplyPasses(braced, t[9..]) by {
      assert t[6..] == t[6..9] + t[9..];
      PassesSplit(s, t[6..9], t[9..]);
      BracePasses("\\" + w, t[6..9]);
    }
    assert ApplyPasses(braced, t[9..]) == ReplaceChar(braced, '\\', b);
    BackslashesOnce(w, b);
  }

  lemma SrcSymbolImage(c: char, t: seq<Replacement>)
    requires SrcShape(t) && (c == '&' || c == '%' || c == '$' || c == '#')
    ensures ApplyPasses([c], t) == SrcImage(c)
  {
    if c == '&' {
      LastPassImage(c, t, 0, "&", EscapedBackslash);
    } else if c == '%' {
      LastPassImage(c, t, 1, "%", EscapedBackslash);
    } else if c == '$' {
      LastPassImage(c, t, 2, "$", EscapedBackslash);
    } else {
      LastPassImage(c, t, 3, "#", EscapedBackslash);
    }
  }

  lemma SrcBraceImage(c: char, t: seq<Replacement>)
    requires SrcShape(t) && (c == '_' || c == '{' || c == '}' || c == '~')
    ensures ApplyPasses([c], t) == SrcImage(c)
  {
    if c == '_' {
      LastPassImage(c, t, 5, "_", EscapedBackslash);
    } else if c == '{' {
      LastPassImage(c, t, 6, "{", EscapedBackslash);
    } else if c == '}' {
      LastPassImage(c, t, 7, "}", EscapedBackslash);
    } else {
      LastPassImage(c, t, 8, "textasciitilde" + "{" + "}", EscapedBackslash);
    }
  }

  /** The older table's passes on one character give `SrcImage`. */
  lemma SrcPassesOnChar(c: char, t: seq<Replacement>)
    requires SrcShape(t)
    ensures ApplyPasses([c], t) == SrcImage(c)
  {
    if c == '&' || c == '%' || c == '$' || c == '#' {
      SrcSymbolImage(c, t);
    } else if c == '_' || c == '{' || c == '}' || c == '~' {
      SrcBraceImage(c, t);
    } else if c == '^' {
      SrcBracedImage(c, t, 4, "textasciicircum", EscapedBackslash);
    } else if c == '\\' {
      DirectImage(c, t, 9);
    } else {
      UntouchedChar(c, t);
    }
  }

  /** The passes act on each character separately. */
  lemma {:induction false} ApplyPassesCharwise(s: string, t: seq<Replacement>)
    ensures ApplyPasses(s, t) == Charwise(s, x => ApplyPasses([x], t))
  {
    if s == [] {
      ApplyPassesUntouched(s, t);
    } else {
      assert s == [s[0]] + s[1..];
      ApplyPassesAppend([s[0]], s[1..], t);
      ApplyPassesCharwise(s[1..], t);
    }
  }

  lemma {:induction false} CharwiseCongruent(s: string, f: char -> string, g: char -> string)
    requires forall x :: f(x) == g(x)
    ensures Charwise(s, f) == Charwise(s, g)
  {
    if s != [] {
      CharwiseCongruent(s[1..], f, g);
    }
  }

  /** The application escaping replaces each character by its `AppImage`,
      independently; None and "" give "". */
  lemma AppEscapeCharwise(text: Option<string>)
    ensures AppEscape(text) == if Truthy(text) then Charwise(text.value, AppImage) else ""
  {
    if Truthy(text) {
      var t := AppTable;
      AppTableShape();
      ApplyPassesCharwise(text.value, t);
      forall x: char
        ensures ApplyPasses([x], t) == AppImage(x)
      {
        AppPassesOnChar(x, t);
      }
      CharwiseCongruent(text.value, x => ApplyPasses([x], t), AppImage);
    }
  }

  /** The older escaping replaces each character by its `SrcImage`. */
  lemma SrcEscapeCharwise(text: string)
    ensures SrcEscape(text) == Charwise(text, SrcImage)
  {
    if text != "" {
      var t := SrcTable;
      SrcTableShape();
      ApplyPassesCharwise(text, t);
      forall x: char
        ensures ApplyPasses([x], t) == SrcImage(x)
      {
        SrcPassesOnChar(x, t);
      }
      CharwiseCongruent(text, x => ApplyPasses([x], t), SrcImage);
    }
  }

  /** Every image is at least one character long, and longer than one
      exactly for the special characters. */
  lemma ImageLengths(c: char)
    ensures |AppImage(c)| >= 1 && |SrcImage(c)| >= 1
    ensures Special(c) <==> |AppImage(c)| > 1
    ensures Special(c) <==> |SrcImage(c)| > 1
    ensures !Special(c) ==> AppImage(c) == [c] && SrcImage(c) == [c]
  {
  }

  /** Replacing characters by images of length one or more leaves a text as
      it was exactly when every image is the character itself. */
  lemma {:induction false} CharwiseIdentity(s: string, image: char -> string)
    requires forall x :: |image(x)| >= 1
    ensures Charwise(s, image) == s <==> forall i :: 0 <= i < |s| ==> image(s[i]) == [s[i]]
    ensures |Charwise(s, image)| >= |s|
  {
    if s != [] {
      CharwiseIdentity(s[1..], image);
      var rest := Charwise(s[1..], image);
      if image(s[0]) == [s[0]] {
        if Charwise(s, image) == s {
          assert rest == s[1..];
        }
        if forall i :: 0 <= i < |s| ==> image(s[i]) == [s[i]] {
          assert forall i :: 0 <= i < |s[1..]| ==> image(s[1..][i]) == [s[1..][i]] by {
            forall i | 0 <= i < |s[1..]|
              ensures image(s[1..][i]) == [s[1..][i]]
            {
              assert s[1..][i] == s[i + 1];
            }
          }
          assert s == [s[0]] + s[1..];
        }
        if forall i :: 0 <= i < |s[1..]| ==> image(s[1..][i]) == [s[1..][i]] {
          assert forall i :: 0 <= i < |s| ==> image(s[i]) == [s[i]] by {
            forall i | 0 <= i < |s|
              ensures image(s[i]) == [s[i]]
            {
              if i > 0 {
                assert s[i] == s[1..][i - 1];
              }
            }
          }
        }
      } else {
        assert Charwise(s, image) != s by {
          if |image(s[0])| == 1 {
            assert Charwise(s, image)[0] == image(s[0])[0];
            assert image(s[0])[0] != s[0] by {
              assert image(s[0]) == [image(s[0])[0]];
            }
          } else {
            assert |Charwise(s, image)| > |s|;
          }
        }
      }
    }
  }

  /** The application escaping leaves a non-empty text unchanged exactly
      when the text has none of the ten special characters. */
  lemma AppEscapeIdentity(s: string)
    requires s != ""
    ensures AppEscape(Some(s)) == s <==> forall i :: 0 <= i < |s| ==> !Special(s[i])
  {
    AppEscapeCharwise(Some(s));
    forall x: char
      ensures |AppImage(x)| >= 1
    {
      ImageLengths(x);
    }
    CharwiseIdentity(s, AppImage);
    forall i | 0 <= i < |s|
      ensures AppImage(s[i]) == [s[i]] <==> !Special(s[i])
    {
      ImageLengths(s[i]);
    }
  }

  /** The older escaping leaves a text unchanged exactly when the text has
      none of the ten special characters. */
  lemma SrcEscapeIdentity(s: string)
    ensures SrcEscape(s) == s <==> forall i :: 0 <= i < |s| ==> !Special(s[i])
  {
    SrcEscapeCharwise(s);
    forall x: char
      ensures |SrcImage(x)| >= 1
    {
      ImageLengths(x);
    }
    CharwiseIdentity(s, SrcImage);
    forall i | 0 <= i < |s|
      ensures SrcImage(s[i]) == [s[i]] <==> !Special(s[i])
    {
      ImageLengths(s[i]);
    }
  }

  /** Escaping a concatenation escapes the two parts separately. */
  lemma AppEscapeAppend(a: string, b: string)
    ensures AppEscape(Some(a + b)) == AppEscape(Some(a)) + AppEscape(Some(b))
  {
    AppEscapeCharwise(Some(a + b));
    AppEscapeCharwise(Some(a));
    AppEscapeCharwise(Some(b));
    CharwiseAppend(a, b, AppImage);
    if a == "" {
      assert a + b == b;
    }
    if b == "" {
      assert a + b == a;
    }
  }

  lemma SrcEscapeAppend(a: string, b: string)
    ensures SrcEscape(a + b) == SrcEscape(a) + SrcEscape(b)
  {
    SrcEscapeCharwise(a + b);
    SrcEscapeCharwise(a);
    SrcEscapeCharwise(b);
    CharwiseAppend(a, b, SrcImage);
  }

  /** Each item escaped by the application escaping. */
  function AppEscapeEach(items: seq<string>): (r: seq<string>)
    ensures |r| == |items|
    ensures forall i :: 0 <= i < |items| ==> r[i] == AppEscape(Some(items[i]))
  {
    if items == [] then [] else [AppEscape(Some(items[0]))] + AppEscapeEach(items[1..])
  }

  function SrcEscapeEach(items: seq<string>): (r: seq<string>)
    ensures |r| == |items|
    ensures forall i :: 0 <= i < |items| ==> r[i] == SrcEscape(items[i])
  {
    if items == [] then [] else [SrcEscape(items[0])] + SrcEscapeEach(items[1..])
  }

  /** With a separator free of special characters, escaping the joined
      items is joining the escaped items. */
  lemma {:induction false} AppEscapeJoin(items: seq<string>, sep: string)
    requires forall i :: 0 <= i < |sep| ==> !Special(sep[i])
    ensures AppEscape(Some(Join(items, sep))) == Join(AppEscapeEach(items), sep)
  {
    if |items| > 1 {
      AppEscapeJoin(items[1..], sep);
      assert AppEscapeEach(items)[1..] == AppEscapeEach(items[1..]);
      AppEscapeAppend(items[0] + sep, Join(items[1..], sep));
      AppEscapeAppend(items[0], sep);
      if sep != "" {
        AppEscapeIdentity(sep);
      }
    }
  }

  lemma {:induction false} SrcEscapeJoin(items: seq<string>, sep: string)
    requires forall i :: 0 <= i < |sep| ==> !Special(sep[i])
    ensures SrcEscape(Join(items, sep)) == Join(SrcEscapeEach(items), sep)
  {
    if |items| > 1 {
      SrcEscapeJoin(items[1..], sep);
      assert SrcEscapeEach(items)[1..] == SrcEscapeEach(items[1..]);
      SrcEscapeAppend(items[0] + sep, Join(items[1..], sep));
      SrcEscapeAppend(items[0], sep);
      SrcEscapeIdentity(sep);
    }
  }

  /** The application order escapes the braces the caret entry inserts:
      "^" does not come out as `\textasciicircum{}`. */
  lemma AppCaretBracesEscaped()
    ensures AppEscape(Some("^")) == @"\textasciicircum\{\}"
    ensures AppEscape(Some("^")) != @"\textasciicircum{}"
  {
    AppEscapeCharwise(Some("^"));
  }

  /** The older order escapes the backslash every other entry inserts:
      "&" comes out as `\textbackslash{}&`, not `\&`. */
  lemma SrcAmpersandDoubleEscaped()
    ensures SrcEscape("&") == @"\textbackslash{}&"
    ensures SrcEscape("&") != AppEscape(Some("&"))
  {
    SrcEscapeCharwise("&");
    AppEscapeCharwise(Some("&"));
  }

  /** Passes `i` onwards of a table, applied to the text the first `i`
      passes produced, finish the whole fold. */
  lemma {:induction false} PassesStep(s: string, table: seq<Replacement>, i: nat)
    requires i < |table|
    ensures ApplyPasses(s, table[i..]) ==
            ApplyPasses(ReplaceChar(s, table[i].target, table[i].text), table[i + 1..])
  {
    assert table[i..][0] == table[i] && table[i..][1..] == table[i + 1..];
  }

  /** `_escape_latex` of the application renderer: the backslash pass, then
      one pass per dictionary entry in insertion order. */
  method AppEscapeLatex(text: Option<string>) returns (r: string)
    ensures r == AppEscape(text)
  {
    if !Truthy(text) {
      return "";
    }
    var table := AppTable;
    PassesStep(text.value, table, 0);
    r := ReplaceChar(text.value, '\\', EscapedBackslash);
    var i := 1;
    while i < |table|
      invariant 1 <= i <= |table|
      invariant ApplyPasses(r, table[i..]) == AppEscape(text)
    {
      PassesStep(r, table, i);
      r := ReplaceChar(r, table[i].target, table[i].text);
      i := i + 1;
    }
  }

  /** `_escape_latex` of the older renderer: one pass per dictionary entry,
      the backslash last. */
  method SrcEscapeLatex(text: string) returns (r: string)
    ensures r == SrcEscape(text)
  {
    if text == "" {
      return "";
    }
    var table := SrcTable;
    r := text;
    var i := 0;
    while i < |table|
      invariant 0 <= i <= |table|
      invariant ApplyPasses(r, table[i..]) == SrcEscape(text)
    {
      PassesStep(r, table, i);
      r := ReplaceChar(r, table[i].target, table[i].text);
      i := i + 1;
    }
  }
}
