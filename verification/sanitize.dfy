/** The pure text clean-up of the text stage (robots/text.js, sanitizeContent):
    first drop blank and markup lines, then delete parenthesised groups and
    halve double spaces. */
module Sanitize {
  import opened Outcomes
  import opened Strings

  // ---------------------------------------------------------------------
  // removeBlankLinesAndMarkdown
  // ---------------------------------------------------------------------

  /** A line survives when its trimmed form is non-empty and does not start
      with '=' (wiki section headings). */
  predicate IsContentLine(line: string): (keep: bool)
    ensures keep <==> TrimStart(line) != [] && TrimStart(line)[0] != '='
  {
    TrimFront(line);
    var t := Trim(line);
    |t| > 0 && t[0] != '='
  }

  /** `xs.filter(keep)` */
  function Filter<T>(xs: seq<T>, keep: T -> bool): (kept: seq<T>)
    ensures |kept| <= |xs|
    ensures forall k :: 0 <= k < |kept| ==> keep(kept[k])
    decreases |xs|
  {
    if xs == [] then []
    else if keep(xs[0]) then [xs[0]] + Filter(xs[1..], keep)
    else Filter(xs[1..], keep)
  }

  /** Filtering lines that avoid a character gives lines that avoid it. */
  lemma {:induction false} FilterAvoids(xs: seq<string>, keep: string -> bool, c: char)
    requires forall k :: 0 <= k < |xs| ==> c !in xs[k]
    ensures forall k :: 0 <= k < |Filter(xs, keep)| ==> c !in Filter(xs, keep)[k]
    decreases |xs|
  {
    if xs != [] {
      FilterAvoids(xs[1..], keep, c);
    }
  }

  /** `text.split('\n').filter(IsContentLine).join(' ')`: the result is one
      line, whatever the input. */
  function RemoveBlankLinesAndMarkdown(text: string): (r: string)
    ensures '\n' !in r
  {
    var kept := Filter(Split(text, '\n'), IsContentLine);
    FilterAvoids(Split(text, '\n'), IsContentLine, '\n');
    JoinAvoids(kept, " ", '\n');
    Join(kept, " ")
  }

  /** `idx` lists, in increasing order, exactly the positions of the
      elements of `xs` that `keep` accepts, and `kept` holds the elements at
      those positions. */
  ghost predicate IsSelection<T>(idx: seq<int>, kept: seq<T>, xs: seq<T>, keep: T -> bool) {
    && |idx| == |kept|
    && (forall k :: 0 <= k < |idx| ==> 0 <= idx[k] < |xs| && kept[k] == xs[idx[k]])
    && (forall k :: 0 < k < |idx| ==> idx[k - 1] < idx[k])
    && (forall i :: 0 <= i < |xs| ==> (keep(xs[i]) <==> i in idx))
  }

  /** Every position moved one to the right. */
  function Shifted(idx: seq<int>): (r: seq<int>)
    ensures |r| == |idx| && forall k :: 0 <= k < |idx| ==> r[k] == idx[k] + 1
  {
    seq(|idx|, k requires 0 <= k < |idx| => idx[k] + 1)
  }

  lemma ShiftedMembers(idx: seq<int>, i: int)
    ensures i in Shifted(idx) <==> i - 1 in idx
  {
    var r := Shifted(idx);
    if i in r {
      var k :| 0 <= k < |r| && r[k] == i;
      assert idx[k] == i - 1;
    }
    if i - 1 in idx {
      var k :| 0 <= k < |idx| && idx[k] == i - 1;
      assert r[k] == i;
    }
  }

  /** A selection for the tail of `xs`, moved one to the right, lists the
      accepted positions of `xs` other than 0. */
  lemma ShiftedSelection<T>(xs: seq<T>, keep: T -> bool, idx': seq<int>, rest: seq<T>)
    requires xs != [] && IsSelection(idx', rest, xs[1..], keep)
    ensures var sh := Shifted(idx');
      && |sh| == |rest|
      && (forall k :: 0 <= k < |sh| ==> 1 <= sh[k] < |xs| && rest[k] == xs[sh[k]])
      && (forall k :: 0 < k < |sh| ==> sh[k - 1] < sh[k])
      && (forall i :: 0 <= i < |xs| ==> (i in sh <==> i > 0 && keep(xs[i])))
  {
    var sh := Shifted(idx');
    forall k | 0 <= k < |sh|
      ensures 1 <= sh[k] < |xs| && rest[k] == xs[sh[k]]
    {
      assert rest[k] == xs[1..][idx'[k]];
    }
    forall i | 0 <= i < |xs|
      ensures i in sh <==> i > 0 && keep(xs[i])
    {
      ShiftedMembers(idx', i);
      if i > 0 {
        assert xs[i] == xs[1..][i - 1];
      } else {
        assert 0 !in sh;
      }
    }
  }

  /** Putting the accepted first element in front of a selection of the
      others gives a selection of all. */
  lemma PrependSelected<T>(xs: seq<T>, keep: T -> bool, sh: seq<int>, rest: seq<T>)
    requires xs != [] && keep(xs[0])
    requires |sh| == |rest|
    requires forall k :: 0 <= k < |sh| ==> 1 <= sh[k] < |xs| && rest[k] == xs[sh[k]]
    requires forall k :: 0 < k < |sh| ==> sh[k - 1] < sh[k]
    requires forall i :: 0 <= i < |xs| ==> (i in sh <==> i > 0 && keep(xs[i]))
    ensures IsSelection([0] + sh, [xs[0]] + rest, xs, keep)
  {
    var idx := [0] + sh;
    var kept := [xs[0]] + rest;
    forall k | 0 <= k < |idx|
      ensures 0 <= idx[k] < |xs| && kept[k] == xs[idx[k]]
    {
      if k > 0 {
        assert idx[k] == sh[k - 1] && kept[k] == rest[k - 1];
      }
    }
    forall k | 0 < k < |idx|
      ensures idx[k - 1] < idx[k]
    {
      assert idx[k] == sh[k - 1];
      if k > 1 {
        assert idx[k - 1] == sh[k - 2];
      }
    }
    forall i | 0 <= i < |xs|
      ensures keep(xs[i]) <==> i in idx
    {
      assert i in idx <==> i == 0 || i in sh;
    }
  }

  /** One step of the filter: a selection for the tail, moved one to the
      right and preceded by 0 when the first element is kept, is a selection
      for the whole sequence. */
  lemma SelectionStep<T>(xs: seq<T>, keep: T -> bool, idx': seq<int>)
    requires xs != []
    requires IsSelection(idx', Filter(xs[1..], keep), xs[1..], keep)
    ensures exists idx :: IsSelection(idx, Filter(xs, keep), xs, keep)
  {
    var rest := Filter(xs[1..], keep);
    ShiftedSelection(xs, keep, idx', rest);
    var sh := Shifted(idx');
    if keep(xs[0]) {
      assert Filter(xs, keep) == [xs[0]] + rest;
      PrependSelected(xs, keep, sh, rest);
      assert IsSelection([0] + sh, Filter(xs, keep), xs, keep);
    } else {
      assert Filter(xs, keep) == rest;
      assert IsSelection(sh, rest, xs, keep);
    }
  }

  /** The filter keeps exactly the accepted elements, in their original
      order; for the line filter, exactly the lines whose trimmed form is
      non-empty and does not start with '='. */
  lemma {:induction false} FilterSelectsExactly<T>(xs: seq<T>, keep: T -> bool)
    ensures exists idx :: IsSelection(idx, Filter(xs, keep), xs, keep)
    decreases |xs|
  {
    if xs == [] {
      assert Filter(xs, keep) == [];
      assert IsSelection([], [], xs, keep);
    } else {
      FilterSelectsExactly(xs[1..], keep);
      var idx' :| IsSelection(idx', Filter(xs[1..], keep), xs[1..], keep);
      SelectionStep(xs, keep, idx');
    }
  }

  /** A line that survives the filter still survives with more text after it. */
  lemma ContentLineExtends(line: string, tail: string)
    requires IsContentLine(line)
    ensures IsContentLine(line + tail)
  {
    assert TrimEnd([]) == [];
    TrimFirst(line);
    TrimStartAppend(line, tail);
    TrimFirst(line + tail);
  }

  /** The first piece of a join of several pieces, then the separator. */
  lemma JoinFront(parts: seq<string>, sep: string)
    requires |parts| > 1
    ensures Join(parts, sep) == parts[0] + (sep + Join(parts[1..], sep))
  {
  }

  /** Joining content lines, the first of which survives, gives a line that
      survives. */
  lemma JoinedContentLine(kept: seq<string>)
    requires |kept| >= 1 && IsContentLine(kept[0])
    ensures IsContentLine(Join(kept, " "))
  {
    if |kept| > 1 {
      JoinFront(kept, " ");
      ContentLineExtends(kept[0], " " + Join(kept[1..], " "));
    }
  }

  /** Cleaning an already cleaned text changes nothing. */
  lemma RemoveBlankLinesAndMarkdownIdempotent(text: string)
    ensures RemoveBlankLinesAndMarkdown(RemoveBlankLinesAndMarkdown(text))
         == RemoveBlankLinesAndMarkdown(text)
  {
    var kept := Filter(Split(text, '\n'), IsContentLine);
    var r := RemoveBlankLinesAndMarkdown(text);
    assert r == Join(kept, " ");
    SplitWithoutSeparator(r, '\n');
    if kept == [] {
      assert Trim(r) == [];
      assert Filter([r], IsContentLine) == [];
    } else {
      JoinedContentLine(kept);
      assert Filter([r], IsContentLine) == [r] + Filter([], IsContentLine);
    }
  }

  // ---------------------------------------------------------------------
  // removeDatesInParentheses, first replace: /\((?:\([^()]*\)|[^()])*\)/g
  // ---------------------------------------------------------------------

  predicate IsParen(c: char) {
    c == '(' || c == ')'
  }

  ghost predicate NoParens(t: string) {
    forall i :: 0 <= i < |t| ==> !IsParen(t[i])
  }

  /** The pattern's inner alternative `\([^()]*\)`. */
  ghost predicate IsInnerGroup(t: string) {
    |t| >= 2 && t[0] == '(' && t[|t| - 1] == ')' && NoParens(t[1..|t| - 1])
  }

  /** The pattern's body `(?:\([^()]*\)|[^()])*`: a run of non-parenthesis
      characters and inner groups. */
  ghost predicate IsGroupBody(b: string)
    decreases |b|
  {
    if b == [] then true
    else if !IsParen(b[0]) then IsGroupBody(b[1..])
    else exists k {:trigger IsInnerGroup(b[..k])} :: 2 <= k <= |b| && IsInnerGroup(b[..k]) && IsGroupBody(b[k..])
  }

  /** A text the whole pattern matches. */
  ghost predicate IsGroup(t: string) {
    |t| >= 2 && t[0] == '(' && t[|t| - 1] == ')' && IsGroupBody(t[1..|t| - 1])
  }

  /** Matches `[^()]*\)` at the start of `r`: the length up to and including
      the first ')' when no '(' comes before it. */
  function CloseLen(r: string): (len: Option<nat>)
    ensures len.Some? ==> 1 <= len.value <= |r| && r[len.value - 1] == ')'
    decreases |r|
  {
    if r == [] then None
    else if r[0] == ')' then Some(1)
    else if r[0] == '(' then None
    else
      match CloseLen(r[1..])
      case None => None
      case Some(k) => Some(k + 1)
  }

  /** Matches `(?:\([^()]*\)|[^()])*\)` at the start of `r`. The two
      alternatives start with different characters and neither starts with
      ')', so backtracking never finds another match: a scan suffices. */
  function BodyLen(r: string): (len: Option<nat>)
    ensures len.Some? ==> 1 <= len.value <= |r| && r[len.value - 1] == ')'
    decreases |r|
  {
    if r == [] then None
    else if r[0] == ')' then Some(1)
    else if r[0] == '(' then
      match CloseLen(r[1..])
      case None => None
      case Some(k) =>
        match BodyLen(r[k + 1..])
        case None => None
        case Some(m) => Some(k + 1 + m)
    else
      match BodyLen(r[1..])
      case None => None
      case Some(m) => Some(m + 1)
  }

  /** The length of the match of the whole pattern at the start of `s`. */
  function GroupLen(s: string): (len: Option<nat>)
    ensures len.Some? ==> 2 <= len.value <= |s| && s[0] == '(' && s[len.value - 1] == ')'
  {
    if s != [] && s[0] == '(' then
      match BodyLen(s[1..])
      case None => None
      case Some(m) => Some(m + 1)
    else None
  }

  lemma {:induction false} CloseLenSound(r: string)
    requires CloseLen(r).Some?
    ensures NoParens(r[..CloseLen(r).value - 1])
    decreases |r|
  {
    if r[0] != ')' {
      CloseLenSound(r[1..]);
      assert r[..CloseLen(r).value - 1] == [r[0]] + r[1..][..CloseLen(r[1..]).value - 1];
    }
  }

  lemma {:induction false} CloseLenComplete(r: string, j: nat)
    requires 1 <= j <= |r| && r[j - 1] == ')' && NoParens(r[..j - 1])
    ensures CloseLen(r) == Some(j)
    decreases |r|
  {
    if j > 1 {
      assert r[0] == r[..j - 1][0];
      assert r[1..][..j - 2] == r[1..j - 1];
      CloseLenComplete(r[1..], j - 1);
    }
  }

  /** An inner group followed by a body is a body. */
  lemma InnerGroupThenBody(g: string, body: string)
    requires IsInnerGroup(g) && IsGroupBody(body)
    ensures IsGroupBody(g + body)
  {
    var b := g + body;
    assert b[..|g|] == g && b[|g|..] == body;
    assert IsParen(b[0]);
  }

  lemma {:induction false} BodyLenSound(r: string)
    requires BodyLen(r).Some?
    ensures IsGroupBody(r[..BodyLen(r).value - 1])
    decreases |r|, 1
  {
    if r[0] == '(' {
      BodyLenInnerParts(r);
      var k := CloseLen(r[1..]).value;
      BodyLenSoundInner(r, k, BodyLen(r[k + 1..]).value);
    } else if r[0] != ')' {
      BodyLenSoundPlain(r);
    }
  }

  /** The step of BodyLenSound where the body starts with a plain character. */
  lemma {:induction false} BodyLenSoundPlain(r: string)
    requires BodyLen(r).Some? && !IsParen(r[0])
    ensures IsGroupBody(r[..BodyLen(r).value - 1])
    decreases |r|, 0
  {
    var m' := BodyLen(r[1..]).value;
    assert BodyLen(r).value == m' + 1;
    BodyLenSound(r[1..]);
    var b := r[..m'];
    assert b[1..] == r[1..][..m' - 1];
    assert b[0] == r[0];
  }

  /** What `CloseLen` matches after a '(' is an inner group. */
  lemma InnerGroupAtFront(r: string)
    requires r != [] && r[0] == '(' && CloseLen(r[1..]).Some?
    ensures var k := CloseLen(r[1..]).value; k + 1 <= |r| && IsInnerGroup(r[..k + 1])
  {
    var k := CloseLen(r[1..]).value;
    CloseLenSound(r[1..]);
    var g := r[..k + 1];
    assert g[1..|g| - 1] == r[1..][..k - 1];
    assert g[|g| - 1] == r[1..][k - 1];
  }

  /** How `BodyLen` splits a body that starts with an inner group. */
  lemma {:induction false} BodyLenInnerParts(r: string)
    requires BodyLen(r).Some? && r[0] == '('
    ensures CloseLen(r[1..]).Some?
    ensures var k := CloseLen(r[1..]).value;
      k + 1 <= |r| && BodyLen(r[k + 1..]).Some? && BodyLen(r).value == k + 1 + BodyLen(r[k + 1..]).value
  {
  }

  /** The step of BodyLenSound where the body starts with an inner group
      of length `k + 1`, followed by a body `BodyLen` measures as `m`. */
  lemma {:induction false} BodyLenSoundInner(r: string, k: nat, m: nat)
    requires r != [] && r[0] == '(' && CloseLen(r[1..]) == Some(k)
    requires k + 1 <= |r| && BodyLen(r[k + 1..]) == Some(m)
    ensures IsGroupBody(r[..k + m])
    decreases |r|, 0
  {
    var rest := r[k + 1..];
    BodyLenSound(rest);
    InnerGroupAtFront(r);
    assert r[..k + m] == r[..k + 1] + rest[..m - 1];
    InnerGroupThenBody(r[..k + 1], rest[..m - 1]);
  }

  lemma {:induction false} BodyLenComplete(r: string, m: nat)
    requires 1 <= m <= |r| && r[m - 1] == ')' && IsGroupBody(r[..m - 1])
    ensures BodyLen(r) == Some(m)
    decreases |r|, 1
  {
    if m > 1 {
      var b := r[..m - 1];
      assert b[0] == r[0];
      if !IsParen(r[0]) {
        BodyLenCompletePlain(r, m);
      } else {
        var k :| 2 <= k <= |b| && IsInnerGroup(b[..k]) && IsGroupBody(b[k..]);
        assert b[..k] == r[..k] && b[k..] == r[k..m - 1];
        BodyLenCompleteInner(r, m, k);
      }
    }
  }

  /** The step of BodyLenComplete where the body starts with a plain character. */
  lemma {:induction false} BodyLenCompletePlain(r: string, m: nat)
    requires 1 < m <= |r| && r[m - 1] == ')' && !IsParen(r[0]) && IsGroupBody(r[..m - 1])
    ensures BodyLen(r) == Some(m)
    decreases |r|, 0
  {
    var b := r[..m - 1];
    assert b[0] == r[0];
    assert IsGroupBody(b[1..]);
    assert r[1..][..m - 2] == b[1..];
    BodyLenComplete(r[1..], m - 1);
  }

  /** The step of BodyLenComplete where the body starts with an inner group
      of length `k`. */
  lemma {:induction false} BodyLenCompleteInner(r: string, m: nat, k: nat)
    requires 2 <= k < m <= |r| && r[m - 1] == ')'
    requires IsInnerGroup(r[..k]) && IsGroupBody(r[k..m - 1])
    ensures BodyLen(r) == Some(m)
    decreases |r|, 0
  {
    assert r[0] == r[..k][0];
    assert r[1..][..k - 2] == r[..k][1..k - 1];
    assert r[1..][k - 2] == r[..k][k - 1];
    CloseLenComplete(r[1..], k - 1);
    assert r[k..][..m - k - 1] == r[k..m - 1];
    BodyLenComplete(r[k..], m - k);
    BodyLenInnerStep(r, k - 1, m - k);
  }

  /** `BodyLen` on a text that starts with an inner group of length `k + 1`
      followed by a body of length `m`. */
  lemma {:induction false} BodyLenInnerStep(r: string, k: nat, m: nat)
    requires r != [] && r[0] == '(' && CloseLen(r[1..]) == Some(k)
    requires k + 1 <= |r| && BodyLen(r[k + 1..]) == Some(m)
    ensures BodyLen(r) == Some(k + 1 + m)
  {
  }

  /** The scanner matches exactly the texts the pattern describes: a match
      of length `k` at the start of `s` exists iff `s[..k]` is a group. In
      particular a group never has a shorter group as a prefix, so the
      match is unique. */
  lemma GroupLenMatchesPattern(s: string, k: nat)
    ensures GroupLen(s) == Some(k) <==> (k <= |s| && IsGroup(s[..k]))
  {
    if GroupLen(s) == Some(k) {
      BodyLenSound(s[1..]);
      assert s[..k][1..k - 1] == s[1..][..k - 2];
    }
    if k <= |s| && IsGroup(s[..k]) {
      assert s[1..][..k - 2] == s[..k][1..k - 1];
      BodyLenComplete(s[1..], k - 1);
    }
  }

  /** The global replace with '': scan left to right; where a group starts,
      delete it and resume after it; otherwise keep the character. */
  function RemoveGroups(s: string): (r: string)
    ensures |r| <= |s|
    decreases |s|
  {
    if s == [] then []
    else
      match GroupLen(s)
      case Some(k) => RemoveGroups(s[k..])
      case None => [s[0]] + RemoveGroups(s[1..])
  }

  /** Text without '(' has no group to delete. */
  lemma {:induction false} RemoveGroupsWithoutOpenParen(s: string)
    requires '(' !in s
    ensures RemoveGroups(s) == s
    decreases |s|
  {
    if s != [] {
      RemoveGroupsWithoutOpenParen(s[1..]);
      assert [s[0]] + s[1..] == s;
    }
  }

  /** Text without '(' in front of the rest is kept, and the scan goes on
      with the rest. */
  lemma {:induction false} RemoveGroupsSkipsPlainPrefix(u: string, w: string)
    requires '(' !in u
    ensures RemoveGroups(u + w) == u + RemoveGroups(w)
    decreases |u|
  {
    if u != [] {
      assert (u + w)[0] == u[0] != '(';
      assert GroupLen(u + w) == None;
      assert (u + w)[1..] == u[1..] + w;
      assert RemoveGroups(u + w) == [u[0]] + RemoveGroups(u[1..] + w);
      RemoveGroupsSkipsPlainPrefix(u[1..], w);
      assert u + RemoveGroups(w) == [u[0]] + (u[1..] + RemoveGroups(w));
    } else {
      assert u + w == w;
    }
  }

  /** A group at the start of the text is the scanner's match there. */
  lemma GroupAtFront(g: string, v: string)
    requires IsGroup(g)
    ensures GroupLen(g + v) == Some(|g|)
  {
    assert (g + v)[..|g|] == g;
    GroupLenMatchesPattern(g + v, |g|);
  }

  /** The leftmost group is deleted and the text before it is left alone. */
  lemma RemoveGroupsLeftmost(u: string, g: string, v: string)
    requires '(' !in u && IsGroup(g)
    ensures RemoveGroups(u + g + v) == u + RemoveGroups(v)
  {
    RemoveGroupsSkipsPlainPrefix(u, g + v);
    GroupAtFront(g, v);
    assert (g + v)[|g|..] == v;
    assert RemoveGroups(g + v) == RemoveGroups(v);
    assert u + g + v == u + (g + v);
  }

  /** A '(' that starts no group is kept, and the scan resumes right after it. */
  lemma RemoveGroupsKeepsUnmatched(s: string)
    requires s != [] && s[0] == '('
    requires forall k :: 0 <= k <= |s| ==> !IsGroup(s[..k])
    ensures RemoveGroups(s) == "(" + RemoveGroups(s[1..])
  {
    if GroupLen(s).Some? {
      GroupLenMatchesPattern(s, GroupLen(s).value);
    }
  }

  // ---------------------------------------------------------------------
  // removeDatesInParentheses, second replace: /  /g -> ' '
  // ---------------------------------------------------------------------

  predicate HasDoubleSpace(s: string) {
    exists i :: 0 <= i < |s| - 1 && s[i] == ' ' && s[i + 1] == ' '
  }

  /** Each non-overlapping pair of spaces, found left to right, becomes one. */
  function CollapseDoubleSpaces(s: string): (r: string)
    ensures |r| <= |s|
    decreases |s|
  {
    if s == [] then []
    else if |s| >= 2 && s[0] == ' ' && s[1] == ' ' then " " + CollapseDoubleSpaces(s[2..])
    else [s[0]] + CollapseDoubleSpaces(s[1..])
  }

  /** The text with its spaces removed. */
  function WithoutSpaces(s: string): string
    decreases |s|
  {
    if s == [] then [] else if s[0] == ' ' then WithoutSpaces(s[1..]) else [s[0]] + WithoutSpaces(s[1..])
  }

  /** Only spaces are ever deleted: every other character stays, in order. */
  lemma {:induction false} CollapseKeepsNonSpaces(s: string)
    ensures WithoutSpaces(CollapseDoubleSpaces(s)) == WithoutSpaces(s)
    decreases |s|
  {
    if s != [] {
      if |s| >= 2 && s[0] == ' ' && s[1] == ' ' {
        CollapseKeepsNonSpaces(s[2..]);
        assert WithoutSpaces(s) == WithoutSpaces(s[1..]) == WithoutSpaces(s[2..]);
        assert (" " + CollapseDoubleSpaces(s[2..]))[1..] == CollapseDoubleSpaces(s[2..]);
      } else {
        CollapseKeepsNonSpaces(s[1..]);
        assert ([s[0]] + CollapseDoubleSpaces(s[1..]))[1..] == CollapseDoubleSpaces(s[1..]);
      }
    }
  }

  /** The pass changes the text exactly when it holds two spaces in a row;
      when it does, the text gets shorter. */
  lemma {:induction false} CollapseChangesIffDoubleSpace(s: string)
    ensures CollapseDoubleSpaces(s) == s <==> !HasDoubleSpace(s)
    ensures HasDoubleSpace(s) ==> |CollapseDoubleSpaces(s)| < |s|
    decreases |s|
  {
    if s != [] {
      if |s| >= 2 && s[0] == ' ' && s[1] == ' ' {
        assert HasDoubleSpace(s) by { assert s[0] == ' ' && s[1] == ' '; }
      } else {
        CollapseChangesIffDoubleSpace(s[1..]);
        if HasDoubleSpace(s) {
          var i :| 0 <= i < |s| - 1 && s[i] == ' ' && s[i + 1] == ' ';
          assert i > 0;
          assert s[1..][i - 1] == ' ' && s[1..][i] == ' ';
          assert HasDoubleSpace(s[1..]);
        }
        if HasDoubleSpace(s[1..]) {
          var i :| 0 <= i < |s[1..]| - 1 && s[1..][i] == ' ' && s[1..][i + 1] == ' ';
          assert s[i + 1] == ' ' && s[i + 2] == ' ';
        } else {
          assert [s[0]] + s[1..] == s;
        }
      }
    }
  }

  /** `text.replace(/\((?:\([^()]*\)|[^()])*\)/gm, '').replace(/  /g, ' ')` */
  function RemoveDatesInParentheses(text: string): (r: string)
    ensures |r| <= |text|
  {
    CollapseDoubleSpaces(RemoveGroups(text))
  }

  /** Deleting groups introduces no character. */
  lemma {:induction false} RemoveGroupsAvoids(s: string, c: char)
    requires c !in s
    ensures c !in RemoveGroups(s)
    decreases |s|
  {
    if s != [] {
      match GroupLen(s)
      case Some(k) =>
        assert forall i :: 0 <= i < |s[k..]| ==> s[k..][i] == s[k + i];
        RemoveGroupsAvoids(s[k..], c);
      case None =>
        assert forall i :: 0 <= i < |s[1..]| ==> s[1..][i] == s[1 + i];
        RemoveGroupsAvoids(s[1..], c);
    }
  }

  /** Halving double spaces introduces no character. */
  lemma {:induction false} CollapseAvoids(s: string, c: char)
    requires c !in s
    ensures c !in CollapseDoubleSpaces(s)
    decreases |s|
  {
    if s != [] {
      if |s| >= 2 && s[0] == ' ' && s[1] == ' ' {
        assert forall i :: 0 <= i < |s[2..]| ==> s[2..][i] == s[2 + i];
        CollapseAvoids(s[2..], c);
      } else {
        assert forall i :: 0 <= i < |s[1..]| ==> s[1..][i] == s[1 + i];
        CollapseAvoids(s[1..], c);
      }
    }
  }

  /** The clean-up introduces no character: a character absent from the
      input is absent from the output. */
  lemma RemoveDatesAvoids(text: string, c: char)
    requires c !in text
    ensures c !in RemoveDatesInParentheses(text)
  {
    RemoveGroupsAvoids(text, c);
    CollapseAvoids(RemoveGroups(text), c);
  }

  /** Text with no '(' and no two spaces in a row comes back unchanged. */
  lemma RemoveDatesUnchanged(text: string)
    requires '(' !in text && !HasDoubleSpace(text)
    ensures RemoveDatesInParentheses(text) == text
  {
    RemoveGroupsWithoutOpenParen(text);
    CollapseChangesIffDoubleSpace(text);
  }

  /** The pattern cannot match at the outer '(' of `(((a)))`: the scanner
      meets a second '(' inside an inner group. */
  lemma NestedHasNoGroupAtFront(s: string)
    requires s == "(((a)))"
    ensures GroupLen(s) == None
  {
    assert CloseLen(s[2..]) == None;
    assert BodyLen(s[1..]) == None;
  }

  /** One level of nesting is within the pattern: `((body))` is a group
      when `body` holds no parenthesis. */
  lemma TwoLevelGroup(body: string)
    requires NoParens(body)
    ensures IsGroup("((" + body + "))")
  {
    var g := "((" + body + "))";
    var inner := g[1..|g| - 1];
    assert inner == "(" + body + ")";
    assert inner[1..|inner| - 1] == body;
    assert IsGroupBody(inner) by {
      assert IsParen(inner[0]);
      assert inner[..|inner|] == inner && inner[|inner|..] == [];
      assert IsInnerGroup(inner[..|inner|]) && IsGroupBody(inner[|inner|..]);
    }
  }

  /** Where the pattern does not match, the character is kept. */
  lemma RemoveGroupsKeepsFront(s: string)
    requires s != [] && GroupLen(s) == None
    ensures RemoveGroups(s) == [s[0]] + RemoveGroups(s[1..])
  {
  }

  /** Only one level of nesting is matched: in `(((a)))` the pattern skips
      the outer '(' and deletes the two-level group inside it. */
  lemma RemoveDatesNestedExample(s: string)
    requires s == "(((a)))"
    ensures RemoveDatesInParentheses(s) == "()"
  {
    NestedHasNoGroupAtFront(s);
    RemoveGroupsKeepsFront(s);
    var g := "((" + "a" + "))";
    TwoLevelGroup("a");
    NestedParts(s, g);
    RemoveGroupsLeftmost("", g, ")");
    RemoveGroupsWithoutOpenParen(")");
    assert RemoveGroups(s[1..]) == ")";
    assert RemoveGroups(s) == "()";
  }

  /** How the nested example is put together. */
  lemma NestedParts(s: string, g: string)
    requires s == "(((a)))" && g == "((a))"
    ensures s[1..] == "" + g + ")" && [s[0]] + ")" == "()"
    ensures CollapseDoubleSpaces("()") == "()"
  {
  }

  /** Unlike the blank-line filter, the parenthesis clean-up is not
      idempotent: a second run deletes the group the first run exposed,
      and halves a pair of spaces the first run left from a run of three. */
  lemma RemoveDatesNotIdempotent(nested: string, spaces: string)
    requires nested == "(((a)))" && spaces == "a   b"
    ensures RemoveDatesInParentheses(RemoveDatesInParentheses(nested)) == ""
    ensures RemoveDatesInParentheses(spaces) == "a  b"
    ensures RemoveDatesInParentheses(RemoveDatesInParentheses(spaces)) == "a b"
  {
    RemoveDatesNestedExample(nested);
    EmptyGroupRemoved("()");
    SpaceRunExample(spaces);
  }

  /** The group `()` exposed by a first pass is deleted by a second. */
  lemma EmptyGroupRemoved(t: string)
    requires t == "()"
    ensures RemoveDatesInParentheses(t) == ""
  {
    assert IsGroup(t) by { assert t[1..|t| - 1] == []; }
    RemoveGroupsLeftmost("", t, "");
    assert "" + t + "" == t;
  }

  /** `a   b`, with a run of three spaces, loses one space per pass. */
  lemma SpaceRunExample(s: string)
    requires s == "a   b"
    ensures RemoveDatesInParentheses(s) == "a  b"
    ensures RemoveDatesInParentheses("a  b") == "a b"
  {
    RemoveGroupsWithoutOpenParen(s);
    assert CollapseDoubleSpaces(s) == "a" + CollapseDoubleSpaces(s[1..]);
    assert s[1..][2..] == " b";
    assert CollapseDoubleSpaces(s[1..]) == " " + CollapseDoubleSpaces(" b");
    RemoveGroupsWithoutOpenParen("a  b");
  }

  /** sanitizeContent's transformation of the fetched article. */
  function SanitizeText(original: string): (r: string)
    ensures '\n' !in r
    ensures |r| <= |RemoveBlankLinesAndMarkdown(original)|
  {
    RemoveDatesAvoids(RemoveBlankLinesAndMarkdown(original), '\n');
    RemoveDatesInParentheses(RemoveBlankLinesAndMarkdown(original))
  }

  /** A run without parentheses is a group body. */
  lemma {:induction false} NoParensIsBody(b: string)
    requires NoParens(b)
    ensures IsGroupBody(b)
    decreases |b|
  {
    if b != [] {
      assert !IsParen(b[0]);
      NoParensIsBody(b[1..]);
    }
  }

  /** A parenthesised run without parentheses is a group. */
  lemma PlainGroup(body: string)
    requires NoParens(body)
    ensures IsGroup("(" + body + ")")
  {
    var g := "(" + body + ")";
    NoParensIsBody(body);
    assert g[1..|g| - 1] == body;
  }

  /** A parenthesised run without parentheses inside (a year, say) is
      deleted, and the text around it is kept as it is when it has no '('. */
  lemma RemoveGroupsDropsPlainGroup(u: string, body: string, v: string)
    requires '(' !in u && '(' !in v && NoParens(body)
    ensures RemoveGroups(u + ("(" + body + ")") + v) == u + v
  {
    PlainGroup(body);
    RemoveGroupsLeftmost(u, "(" + body + ")", v);
    RemoveGroupsWithoutOpenParen(v);
  }

  /** `two . Three` passes the double-space pass unchanged. */
  lemma CollapseExample(t: string)
    requires t == "two . Three"
    ensures CollapseDoubleSpaces(t) == t
  {
    forall i | 0 <= i < |t| - 1 ensures !(t[i] == ' ' && t[i + 1] == ' ') {
      assert t[i] == ' ' ==> i == 3 || i == 5;
    }
    CollapseChangesIffDoubleSpace(t);
  }

  /** A worked example: the date group is deleted together with nothing
      around it, so the space before it stays in front of the period. */
  lemma RemoveDatesExample(text: string)
    requires text == "two (1990). Three"
    ensures RemoveDatesInParentheses(text) == "two . Three"
  {
    var u, body, v := "two ", "1990", ". Three";
    ExampleParts(text, u, body, v);
    RemoveGroupsDropsPlainGroup(u, body, v);
    CollapseExample(u + v);
  }

  /** How the worked example's text is put together. */
  lemma ExampleParts(text: string, u: string, body: string, v: string)
    requires text == "two (1990). Three" && u == "two " && body == "1990" && v == ". Three"
    ensures text == u + ("(" + body + ")") + v && u + v == "two . Three"
    ensures '(' !in u && '(' !in v && NoParens(body)
  {
  }
}
