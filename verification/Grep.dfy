/**
  The regular-expression matcher of user/grep.c.

  A pattern is read as a sequence of items (literal characters, `.`, and starred
  characters) with an optional `^` in front and an optional `$` at the end.  The language
  of the items is defined declaratively, by cutting a word into one piece per item, and the
  three routines of the matcher are proved to decide exactly that language.
*/
module Grep {

  /** One item of a pattern: a character, or a character followed by `*`. */
  datatype Item = One(c: char) | Star(c: char)

  /** The meaning of a pattern without its leading `^`. */
  datatype Pattern = Pattern(items: seq<Item>, toEnd: bool)

  /** C strings hold no NUL: it is the terminator. */
  predicate CString(s: string) {
    '\0' !in s
  }

  /** Reading one character of a NUL-terminated string. */
  function At(s: string, i: nat): char
    requires i <= |s|
  {
    if i < |s| then s[i] else '\0'
  }

  predicate Accepts(c: char, ch: char) {
    c == '.' || c == ch
  }

  /** How the matcher reads a pattern: `x*` first, then a final `$`, then anything else
      (including `*`, `^` and an inner `$`) stands for itself. */
  function Parse(re: string): Pattern {
    if re == "" then Pattern([], false)
    else if |re| >= 2 && re[1] == '*' then
      var rest := Parse(re[2..]);
      Pattern([Star(re[0])] + rest.items, rest.toEnd)
    else if re == "$" then Pattern([], true)
    else
      var rest := Parse(re[1..]);
      Pattern([One(re[0])] + rest.items, rest.toEnd)
  }

  /** The words one item stands for. */
  predicate PieceOf(item: Item, w: string) {
    match item
    case One(c) => |w| == 1 && Accepts(c, w[0])
    case Star(c) => forall k :: 0 <= k < |w| ==> Accepts(c, w[k])
  }

  function Join(pieces: seq<string>): string {
    if pieces == [] then "" else pieces[0] + Join(pieces[1..])
  }

  /** `w` can be cut into consecutive pieces, one for each item. */
  ghost predicate CutsInto(items: seq<Item>, w: string, pieces: seq<string>) {
    && |pieces| == |items|
    && Join(pieces) == w
    && forall i :: 0 <= i < |items| ==> PieceOf(items[i], pieces[i])
  }

  ghost predicate InLanguage(items: seq<Item>, w: string) {
    exists pieces :: CutsInto(items, w, pieces)
  }

  /** Some prefix of `text`, of length `j`, is in the language. */
  ghost predicate PrefixWord(p: Pattern, text: string, j: nat) {
    && j <= |text|
    && (p.toEnd ==> j == |text|)
    && InLanguage(p.items, text[..j])
  }

  ghost predicate MatchesHere(p: Pattern, text: string) {
    exists j: nat :: PrefixWord(p, text, j)
  }

  /** The word of `text` from `i` to `j` respects the anchors and is in the language. */
  ghost predicate Selects(p: Pattern, fromStart: bool, text: string, i: nat, j: nat) {
    && i <= j <= |text|
    && (fromStart ==> i == 0)
    && (p.toEnd ==> j == |text|)
    && InLanguage(p.items, text[i..j])
  }

  predicate Anchored(re: string) {
    re != "" && re[0] == '^'
  }

  function Body(re: string): string {
    if Anchored(re) then re[1..] else re
  }

  /** What a whole pattern means: some substring of the text is selected. */
  ghost predicate Matches(re: string, text: string) {
    exists i: nat, j: nat :: Selects(Parse(Body(re)), Anchored(re), text, i, j)
  }

  // -------- facts about the language, one per way of taking an item off the front --------

  lemma EmptyItems(w: string)
    ensures InLanguage([], w) <==> w == ""
  {
    if w == "" {
      assert CutsInto([], w, []);
    }
  }

  lemma {:induction false} FrontPiece(item: Item, items: seq<Item>, w: string)
    ensures InLanguage([item] + items, w) <==>
            exists k: nat :: k <= |w| && PieceOf(item, w[..k]) && InLanguage(items, w[k..])
  {
    var all := [item] + items;
    if InLanguage(all, w) {
      var pieces :| CutsInto(all, w, pieces);
      var k := |pieces[0]|;
      assert w[..k] == pieces[0] && w[k..] == Join(pieces[1..]);
      assert all[0] == item && all[1..] == items;
      assert forall i :: 0 <= i < |items| ==> items[i] == all[i + 1];
      assert CutsInto(items, w[k..], pieces[1..]);
    }
    if k: nat :| k <= |w| && PieceOf(item, w[..k]) && InLanguage(items, w[k..]) {
      var pieces :| CutsInto(items, w[k..], pieces);
      var more := [w[..k]] + pieces;
      assert more[1..] == pieces && w == w[..k] + w[k..];
      assert CutsInto(all, w, more);
    }
  }

  /** Matching one ordinary item consumes one accepted character. */
  lemma HereOne(c: char, rest: Pattern, text: string)
    ensures MatchesHere(Pattern([One(c)] + rest.items, rest.toEnd), text) <==>
            text != "" && Accepts(c, text[0]) && MatchesHere(rest, text[1..])
  {
    var p := Pattern([One(c)] + rest.items, rest.toEnd);
    if j: nat :| PrefixWord(p, text, j) {
      FrontPiece(One(c), rest.items, text[..j]);
      var k: nat :| k <= j && PieceOf(One(c), text[..j][..k]) && InLanguage(rest.items, text[..j][k..]);
      assert text[..j][1..] == text[1..][..j - 1];
      assert PrefixWord(rest, text[1..], j - 1);
    }
    if text != "" && Accepts(c, text[0]) && MatchesHere(rest, text[1..]) {
      var j: nat :| PrefixWord(rest, text[1..], j);
      var w := text[..j + 1];
      assert w[1..] == text[1..][..j];
      assert PieceOf(One(c), w[..1]);
      FrontPiece(One(c), rest.items, w);
      assert PrefixWord(p, text, j + 1);
    }
  }

  ghost predicate StarSkips(c: char, rest: Pattern, text: string, k: nat) {
    k <= |text| && PieceOf(Star(c), text[..k]) && MatchesHere(rest, text[k..])
  }

  /** Matching a starred item consumes some run of accepted characters. */
  lemma HereStar(c: char, rest: Pattern, text: string)
    ensures MatchesHere(Pattern([Star(c)] + rest.items, rest.toEnd), text) <==>
            exists k: nat :: StarSkips(c, rest, text, k)
  {
    var p := Pattern([Star(c)] + rest.items, rest.toEnd);
    if j: nat :| PrefixWord(p, text, j) {
      FrontPiece(Star(c), rest.items, text[..j]);
      var k: nat :| k <= j && PieceOf(Star(c), text[..j][..k]) && InLanguage(rest.items, text[..j][k..]);
      assert text[..j][..k] == text[..k] && text[..j][k..] == text[k..][..j - k];
      assert PrefixWord(rest, text[k..], j - k);
      assert StarSkips(c, rest, text, k);
    }
    if k: nat :| StarSkips(c, rest, text, k) {
      var j: nat :| PrefixWord(rest, text[k..], j);
      var w := text[..k + j];
      assert w[..k] == text[..k] && w[k..] == text[k..][..j];
      FrontPiece(Star(c), rest.items, w);
      assert PrefixWord(p, text, k + j);
    }
  }

  /** An empty pattern matches anywhere; a lone `$` matches only the empty text. */
  lemma HereEmpty(toEnd: bool, text: string)
    ensures MatchesHere(Pattern([], toEnd), text) <==> (toEnd ==> text == "")
  {
    forall j: nat | j <= |text| ensures InLanguage([], text[..j]) <==> j == 0 {
      EmptyItems(text[..j]);
    }
    if toEnd ==> text == "" {
      assert PrefixWord(Pattern([], toEnd), text, 0);
    }
  }

  /** A substring is selected exactly when the pattern matches at its start. */
  lemma SelectsIsHere(p: Pattern, fromStart: bool, text: string, i: nat)
    requires i <= |text|
    ensures (exists j: nat :: Selects(p, fromStart, text, i, j)) <==>
            (fromStart ==> i == 0) && MatchesHere(p, text[i..])
  {
    if j: nat :| Selects(p, fromStart, text, i, j) {
      assert text[i..][..j - i] == text[i..j];
      assert PrefixWord(p, text[i..], j - i);
    }
    if (fromStart ==> i == 0) && MatchesHere(p, text[i..]) {
      var j: nat :| PrefixWord(p, text[i..], j);
      assert text[i..][..j] == text[i..i + j];
      assert Selects(p, fromStart, text, i, i + j);
    }
  }

  // -------- the matcher --------

  /** matchhere: does the pattern match at the beginning of the text? */
  method MatchHere(re: string, text: string) returns (r: bool)
    requires CString(re) && CString(text)
    ensures r <==> MatchesHere(Parse(re), text)
    decreases |re|, 0
  {
    if At(re, 0) == '\0' {
      HereEmpty(false, text);
      return true;
    }
    if At(re, 1) == '*' {
      r := MatchStar(re[0], re[2..], text);
      return;
    }
    if re[0] == '$' && At(re, 1) == '\0' {
      assert re == "$";
      HereEmpty(true, text);
      return At(text, 0) == '\0';
    }
    HereOne(re[0], Parse(re[1..]), text);
    if At(text, 0) != '\0' && (re[0] == '.' || re[0] == text[0]) {
      r := MatchHere(re[1..], text[1..]);
      return;
    }
    return false;
  }

  /** matchstar: does `c*re` match at the beginning of the text? */
  method MatchStar(c: char, re: string, text: string) returns (r: bool)
    requires CString(re) && CString(text)
    ensures r <==> MatchesHere(Pattern([Star(c)] + Parse(re).items, Parse(re).toEnd), text)
    decreases |re|, 1
  {
    ghost var rest := Parse(re);
    HereStar(c, rest, text);
    var i := 0;
    while true
      invariant 0 <= i <= |text|
      invariant PieceOf(Star(c), text[..i])
      invariant forall k: nat :: k < i ==> !StarSkips(c, rest, text, k)
      decreases |text| - i
    {
      var here := MatchHere(re, text[i..]);
      if here {
        assert StarSkips(c, rest, text, i);
        return true;
      }
      if At(text, i) == '\0' {
        break;
      }
      var accepted := text[i] == c || c == '.';
      i := i + 1;
      if !accepted {
        assert forall k: nat :: i <= k <= |text| ==> text[..k][i - 1] == text[i - 1];
        break;
      }
      assert text[..i] == text[..i - 1] + [text[i - 1]];
    }
    return false;
  }

  /** match: does the pattern match anywhere in the text? */
  method Match(re: string, text: string) returns (r: bool)
    requires CString(re) && CString(text)
    ensures r <==> Matches(re, text)
  {
    ghost var p := Parse(Body(re));
    if At(re, 0) == '^' {
      r := MatchHere(re[1..], text);
      assert text[0..] == text;
      SelectsIsHere(p, true, text, 0);
      return;
    }
    var i := 0;
    while true
      invariant 0 <= i <= |text|
      invariant forall k: nat, j: nat :: k < i ==> !Selects(p, false, text, k, j)
      decreases |text| - i
    {
      var here := MatchHere(re, text[i..]);
      SelectsIsHere(p, false, text, i);
      if here {
        return true;
      }
      if At(text, i) == '\0' {
        break;
      }
      i := i + 1;
    }
    return false;
  }
}
