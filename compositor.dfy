/** The message compositor (`insertImage`): the reply text is split on sentence
    terminators followed by whitespace, keeping each separator as a piece of
    its own, an `<img>` tag is spliced into the piece list at position
    `index * 2`, and the pieces are joined again. */
module Compositor {
  import opened Values

  /** A character of the class `[.!?]`. */
  predicate IsTerminator(c: char) {
    c == '.' || c == '!' || c == '?'
  }

  /** A character of the JavaScript class `\s`: the ECMAScript white space and
      line terminator code points. */
  predicate IsSpace(c: char) {
    var n := c as int;
    n == 0x09 || n == 0x0A || n == 0x0B || n == 0x0C || n == 0x0D || n == 0x20
    || n == 0xA0 || n == 0x1680 || (0x2000 <= n <= 0x200A) || n == 0x2028 || n == 0x2029
    || n == 0x202F || n == 0x205F || n == 0x3000 || n == 0xFEFF
  }

  /** The pattern `[.!?]\s+` matches in `s` starting at position `p`. */
  predicate SeparatorAt(s: string, p: nat) {
    p + 1 < |s| && IsTerminator(s[p]) && IsSpace(s[p + 1])
  }

  /** A whole separator piece: one terminator, then one or more white-space characters. */
  predicate IsSeparator(t: string) {
    |t| >= 2 && IsTerminator(t[0]) && forall j :: 1 <= j < |t| ==> IsSpace(t[j])
  }

  /** A sentence piece: the pattern matches nowhere inside it. */
  predicate IsSentence(t: string) {
    forall q :: 0 <= q < |t| ==> !SeparatorAt(t, q)
  }

  /** The leftmost position at or after `p` where the pattern matches. */
  function FindSeparator(s: string, p: nat): (r: Option<nat>)
    requires p <= |s|
    ensures r.Some? ==> p <= r.value && SeparatorAt(s, r.value)
    decreases |s| - p
  {
    if p + 1 >= |s| then None
    else if SeparatorAt(s, p) then Some(p)
    else FindSeparator(s, p + 1)
  }

  /** The match `FindSeparator` finds is the leftmost one, and when it finds
      none the pattern matches nowhere after `p`. */
  lemma {:induction false} FindSeparatorLeftmost(s: string, p: nat)
    requires p <= |s|
    ensures var r := FindSeparator(s, p);
            && (r.Some? ==> forall q :: p <= q < r.value ==> !SeparatorAt(s, q))
            && (r.None? ==> forall q :: p <= q < |s| ==> !SeparatorAt(s, q))
    decreases |s| - p
  {
    if p + 1 < |s| && !SeparatorAt(s, p) {
      FindSeparatorLeftmost(s, p + 1);
    }
  }

  /** Where the greedy `\s+` starting at `q` stops. */
  function SpaceRunEnd(s: string, q: nat): (e: nat)
    requires q <= |s|
    ensures q <= e <= |s|
    decreases |s| - q
  {
    if q < |s| && IsSpace(s[q]) then SpaceRunEnd(s, q + 1) else q
  }

  /** The run `SpaceRunEnd` finds is all white space and cannot be extended. */
  lemma {:induction false} SpaceRunMaximal(s: string, q: nat)
    requires q <= |s|
    ensures var e := SpaceRunEnd(s, q);
            && (forall j :: q <= j < e ==> IsSpace(s[j]))
            && (e == |s| || !IsSpace(s[e]))
    decreases |s| - q
  {
    if q < |s| && IsSpace(s[q]) {
      SpaceRunMaximal(s, q + 1);
    }
  }

  /** `s.split(/([.!?]\s+)/)`: sentences at even positions, the separators that
      follow them at odd positions, always an odd number of pieces. */
  function Split(s: string): (pieces: seq<string>)
    ensures |pieces| % 2 == 1
    decreases |s|
  {
    match FindSeparator(s, 0)
    case None => [s]
    case Some(p) =>
      var e := SpaceRunEnd(s, p + 1);
      [s[..p], s[p..e]] + Split(s[e..])
  }

  /** One step of the split: without a separator the text is one piece,
      otherwise the text before the leftmost separator, the separator, and the
      pieces of the rest. */
  lemma SplitUnfold(s: string)
    ensures FindSeparator(s, 0).None? ==> Split(s) == [s]
    ensures FindSeparator(s, 0).Some? ==>
              var p := FindSeparator(s, 0).value;
              var e := SpaceRunEnd(s, p + 1);
              p < e <= |s| && Split(s) == [s[..p], s[p..e]] + Split(s[e..])
  {
  }

  /** The pieces one step of the split produces: the text before the leftmost
      separator is a sentence, the separator is a terminator and a maximal
      white-space run, and the rest does not start with white space. */
  lemma SplitHead(s: string)
    ensures FindSeparator(s, 0).None? ==> IsSentence(s)
    ensures FindSeparator(s, 0).Some? ==>
              var p := FindSeparator(s, 0).value;
              var e := SpaceRunEnd(s, p + 1);
              && p < e <= |s|
              && IsSentence(s[..p])
              && IsSeparator(s[p..e])
              && (e < |s| ==> !IsSpace(s[e..][0]))
  {
    FindSeparatorLeftmost(s, 0);
    match FindSeparator(s, 0)
    case None =>
      assert IsSentence(s) by {
        forall q | 0 <= q < |s| ensures !SeparatorAt(s, q) { }
      }
    case Some(p) =>
      SpaceRunMaximal(s, p + 1);
      var head := s[..p];
      assert IsSentence(head) by {
        forall q | 0 <= q < |head| ensures !SeparatorAt(head, q) {
          assert !SeparatorAt(s, q);
        }
      }
  }

  /** A piece list that alternates sentence, separator, sentence, ... and ends
      with a sentence, where no sentence after the first starts with white
      space. */
  predicate Alternates(pieces: seq<string>)
    decreases |pieces|
  {
    && |pieces| % 2 == 1
    && IsSentence(pieces[0])
    && (|pieces| > 1 ==>
          && IsSeparator(pieces[1])
          && (pieces[2] == [] || !IsSpace(pieces[2][0]))
          && Alternates(pieces[2..]))
  }

  /** The split alternates sentences and separators. */
  lemma {:induction false} SplitAlternates(s: string)
    ensures Alternates(Split(s))
    decreases |s|
  {
    SplitUnfold(s);
    SplitHead(s);
    if FindSeparator(s, 0).Some? {
      var p := FindSeparator(s, 0).value;
      var e := SpaceRunEnd(s, p + 1);
      var rest := Split(s[e..]);
      SplitAlternates(s[e..]);
      var pieces := [s[..p], s[p..e]] + rest;
      assert pieces[2..] == rest;
      assert pieces[2] == rest[0];
      if e < |s| {
        assert rest[0] == s[e..] || rest[0] == s[e..][..FindSeparator(s[e..], 0).value] by {
          SplitUnfold(s[e..]);
        }
      } else {
        assert s[e..] == [];
        assert rest == [[]] by {
          SplitUnfold(s[e..]);
        }
      }
    }
  }

  /** An alternating piece list, position by position. */
  lemma {:induction false} AlternatesPieces(pieces: seq<string>)
    requires Alternates(pieces)
    ensures forall i :: 0 <= i < |pieces| && i % 2 == 1 ==> IsSeparator(pieces[i])
    ensures forall i :: 0 <= i < |pieces| && i % 2 == 0 ==> IsSentence(pieces[i])
    ensures forall i :: 0 < i < |pieces| && i % 2 == 0 && pieces[i] != [] ==> !IsSpace(pieces[i][0])
    decreases |pieces|
  {
    if |pieces| > 1 {
      var rest := pieces[2..];
      AlternatesPieces(rest);
      assert forall i :: 2 <= i < |pieces| ==> pieces[i] == rest[i - 2];
    }
  }

  /** The pieces of `Split(s)`: separators (a terminator and a maximal run of
      white space) at odd positions; at even positions sentences, in which the
      pattern matches nowhere and which, after the first, never start with
      white space. */
  lemma SplitPieces(s: string)
    ensures var pieces := Split(s);
            && (forall i :: 0 <= i < |pieces| && i % 2 == 1 ==> IsSeparator(pieces[i]))
            && (forall i :: 0 <= i < |pieces| && i % 2 == 0 ==> IsSentence(pieces[i]))
            && (forall i :: 0 < i < |pieces| && i % 2 == 0 && pieces[i] != [] ==> !IsSpace(pieces[i][0]))
  {
    SplitAlternates(s);
    AlternatesPieces(Split(s));
  }

  /** `pieces.join('')`. */
  function Join(pieces: seq<string>): string {
    if pieces == [] then "" else pieces[0] + Join(pieces[1..])
  }

  lemma {:induction false} JoinAppend(a: seq<string>, b: seq<string>)
    ensures Join(a + b) == Join(a) + Join(b)
    decreases |a|
  {
    if a == [] {
      assert a + b == b;
    } else {
      assert (a + b)[1..] == a[1..] + b;
      JoinAppend(a[1..], b);
    }
  }

  lemma SliceThree(s: string, p: nat, e: nat)
    requires p <= e <= |s|
    ensures s[..p] + s[p..e] + s[e..] == s
  {
  }

  lemma JoinTwoThen(a: string, b: string, rest: seq<string>)
    ensures Join([a, b] + rest) == a + b + Join(rest)
  {
    assert ([a, b] + rest)[1..] == [b] + rest;
    assert ([b] + rest)[1..] == rest;
  }

  /** Joining a piece list with one piece spliced in at `k`. */
  lemma {:induction false} JoinSplice(pieces: seq<string>, k: nat, x: string)
    requires k <= |pieces|
    ensures Join(pieces[..k] + [x] + pieces[k..]) == Join(pieces[..k]) + x + Join(pieces[k..])
    ensures Join(pieces) == Join(pieces[..k]) + Join(pieces[k..])
  {
    JoinAppend(pieces[..k], pieces[k..]);
    assert pieces[..k] + pieces[k..] == pieces;
    JoinAppend(pieces[..k] + [x], pieces[k..]);
    JoinAppend(pieces[..k], [x]);
    assert Join([x]) == x + Join([]);
  }

  /** The piece at `k` starts right where the pieces before it end. */
  lemma {:induction false} JoinAt(pieces: seq<string>, k: nat)
    requires k < |pieces|
    ensures Join(pieces) == Join(pieces[..k]) + pieces[k] + Join(pieces[k + 1..])
    ensures k > 0 ==> Join(pieces[..k]) == Join(pieces[..k - 1]) + pieces[k - 1]
  {
    JoinSplice(pieces, k, "");
    assert Join(pieces[k..]) == pieces[k] + Join(pieces[k + 1..]);
    if k > 0 {
      JoinAppend(pieces[..k - 1], [pieces[k - 1]]);
      assert pieces[..k - 1] + [pieces[k - 1]] == pieces[..k];
      assert Join([pieces[k - 1]]) == pieces[k - 1] + Join([]);
    }
  }

  /** Splitting with the separators captured and joining again gives back the text. */
  lemma {:induction false} JoinSplit(s: string)
    ensures Join(Split(s)) == s
    decreases |s|
  {
    match FindSeparator(s, 0)
    case None =>
      assert Join([s]) == s + Join([]);
    case Some(p) =>
      var e := SpaceRunEnd(s, p + 1);
      var rest := Split(s[e..]);
      SplitUnfold(s);
      JoinSplit(s[e..]);
      JoinTwoThen(s[..p], s[p..e], rest);
      SliceThree(s, p, e);
  }

  /** The number of sentence pieces of `mes`. */
  function SentenceCount(mes: string): (n: nat)
    ensures n >= 1 && 2 * n - 1 == |Split(mes)|
  {
    (|Split(mes)| + 1) / 2
  }

  /** The start position `Array.prototype.splice` uses: a negative start counts
      from the end and is clamped at 0, a start past the end is clamped to the end. */
  function SpliceStart(start: int, len: nat): (k: nat)
    ensures k <= len
    ensures 0 <= start <= len ==> k == start
    ensures start > len ==> k == len
    ensures start < 0 && len + start >= 0 ==> k == len + start
    ensures len + start < 0 ==> k == 0
  {
    if start < 0 then (if len + start < 0 then 0 else len + start)
    else if start > len then len
    else start
  }

  /** The markup inserted for one image. */
  function ImageTag(url: string, alt: string): string {
    "<img src=\"" + url + "\" alt=\"" + alt + "\" style=\"max-width: 100%; display: block; margin: 10px 0;\">"
  }

  /** The character offset in `mes` at which `insertImage` places the tag: the
      length of the pieces that stay in front of it. */
  function InsertionPoint(mes: string, index: int): (p: nat)
    ensures p <= |mes|
    ensures p == |Join(Split(mes)[..SpliceStart(index * 2, |Split(mes)|)])|
  {
    var pieces := Split(mes);
    var k := SpliceStart(index * 2, |pieces|);
    JoinSplit(mes);
    JoinSplice(pieces, k, "");
    |Join(pieces[..k])|
  }

  /** `insertImage(mes, index, url, alt)`: the result is the original text with
      the tag spliced in at `InsertionPoint(mes, index)`, and nothing else changed. */
  function InsertImage(mes: string, index: int, url: string, alt: string): (r: string)
    ensures r == mes[..InsertionPoint(mes, index)] + ImageTag(url, alt) + mes[InsertionPoint(mes, index)..]
  {
    var pieces := Split(mes);
    var k := SpliceStart(index * 2, |pieces|);
    var tag := ImageTag(url, alt);
    JoinSplit(mes);
    JoinSplice(pieces, k, tag);
    Join(pieces[..k] + [tag] + pieces[k..])
  }

  /** Removing the inserted tag from the result recovers the original message exactly. */
  lemma RemovingTagRecoversMessage(mes: string, index: int, url: string, alt: string)
    ensures var r := InsertImage(mes, index, url, alt);
            var p := InsertionPoint(mes, index);
            var n := |ImageTag(url, alt)|;
            p + n <= |r| && r[p..p + n] == ImageTag(url, alt) && r[..p] + r[p + n..] == mes
  {
    var r := InsertImage(mes, index, url, alt);
    var p := InsertionPoint(mes, index);
    var tag := ImageTag(url, alt);
    assert r[..p] == mes[..p];
    assert r[p..p + |tag|] == tag;
    assert r[p + |tag|..] == mes[p..];
    assert mes[..p] + mes[p..] == mes;
  }

  /** Index 0 puts the tag in front of the whole message. */
  lemma InsertAtZeroPrepends(mes: string, url: string, alt: string)
    ensures InsertImage(mes, 0, url, alt) == ImageTag(url, alt) + mes
  {
  }

  /** An index at or past the number of sentences appends the tag (splice clamps its start). */
  lemma InsertPastEndAppends(mes: string, index: int, url: string, alt: string)
    requires index >= SentenceCount(mes)
    ensures InsertImage(mes, index, url, alt) == mes + ImageTag(url, alt)
  {
    var pieces := Split(mes);
    assert pieces[..|pieces|] == pieces;
    JoinSplit(mes);
  }

  /** In a joined piece list, piece `k` starts at the length of the pieces
      before it, and piece `k - 1` ends there. */
  lemma {:induction false} PieceAtJoinOffset(pieces: seq<string>, k: nat)
    requires k < |pieces|
    ensures var m, p := Join(pieces), |Join(pieces[..k])|;
            && p + |pieces[k]| <= |m|
            && m[p..p + |pieces[k]|] == pieces[k]
            && (k > 0 ==> |pieces[k - 1]| <= p && m[p - |pieces[k - 1]|..p] == pieces[k - 1])
  {
    var front, after := Join(pieces[..k]), Join(pieces[k + 1..]);
    JoinAt(pieces, k);
    var m := Join(pieces);
    assert m == front + pieces[k] + after;
    assert m[|front|..|front| + |pieces[k]|] == pieces[k];
    if k > 0 {
      var before := Join(pieces[..k - 1]);
      assert front == before + pieces[k - 1];
      assert m[|front| - |pieces[k - 1]|..|front|] == front[|before|..];
    }
  }

  /** The piece after sentence `n` is a separator. */
  lemma SeparatorPiece(pieces: seq<string>, n: nat)
    requires forall i :: 0 <= i < |pieces| && i % 2 == 1 ==> IsSeparator(pieces[i])
    requires 2 * n + 1 < |pieces|
    ensures IsSeparator(pieces[2 * n + 1])
  {
    assert (2 * n + 1) % 2 == 1;
  }

  /** An in-range index puts the tag immediately in front of sentence `index`,
      right after the separator that ends sentence `index - 1`. */
  lemma {:induction false} TagGoesBeforeSentence(mes: string, index: int)
    requires 0 <= index < SentenceCount(mes)
    ensures var pieces := Split(mes);
            var p := InsertionPoint(mes, index);
            && p + |pieces[2 * index]| <= |mes|
            && mes[p..p + |pieces[2 * index]|] == pieces[2 * index]
            && (index > 0 ==> |pieces[2 * index - 1]| <= p
                              && mes[p - |pieces[2 * index - 1]|..p] == pieces[2 * index - 1]
                              && IsSeparator(pieces[2 * index - 1]))
  {
    var pieces := Split(mes);
    var k := 2 * index;
    assert k < |pieces|;
    assert SpliceStart(index * 2, |pieces|) == k;
    var p := InsertionPoint(mes, index);
    assert p == |Join(pieces[..k])|;
    assert p + |pieces[k]| <= |mes| && mes[p..p + |pieces[k]|] == pieces[k]
           && (k > 0 ==> |pieces[k - 1]| <= p && mes[p - |pieces[k - 1]|..p] == pieces[k - 1]) by {
      JoinSplit(mes);
      PieceAtJoinOffset(pieces, k);
    }
    if index > 0 {
      assert IsSeparator(pieces[k - 1]) by {
        SplitPieces(mes);
        SeparatorPiece(pieces, index - 1);
      }
    }
  }

  /** A negative index counts sentences from the end, as splice does, and then
      lands between a sentence and the separator (the terminator) that ends it. */
  lemma {:induction false} NegativeIndexSplitsTerminator(mes: string, index: int)
    requires index < 0 && |Split(mes)| + 2 * index >= 0
    ensures var p := InsertionPoint(mes, index);
            p < |mes| && IsTerminator(mes[p])
  {
    var pieces := Split(mes);
    var k := |pieces| + 2 * index;
    var p := InsertionPoint(mes, index);
    assert k % 2 == 1;
    SplitPieces(mes);
    JoinSplit(mes);
    JoinAt(pieces, k);
    assert IsSeparator(pieces[k]);
    assert mes == Join(pieces[..k]) + pieces[k] + Join(pieces[k + 1..]);
    assert mes[p] == pieces[k][0];
  }
}
