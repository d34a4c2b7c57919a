/** `fmt.Sprintf` as the email templates use it: a format literal whose only
    verbs are `%s` and `%d`, each consumed by the next argument. The format is
    given already cut at its verbs, so `pieces` holds the literal text before
    the first verb, between consecutive verbs and after the last one (with
    `%%` already written as the `%` it prints), and `args` holds the printed
    arguments in order. */
module Format {
  import opened Text

  /** A format and its arguments fit together: one more piece than verbs. */
  predicate WellFormed(pieces: seq<string>, args: seq<string>) {
    |pieces| == |args| + 1
  }

  /** The combined length of some strings. */
  function TotalLength(xs: seq<string>): nat
    decreases |xs|
  {
    if xs == [] then 0 else TotalLength(xs[..|xs| - 1]) + |xs[|xs| - 1]|
  }

  /** The text `fmt.Sprintf` produces: the pieces with the arguments put in
      place of the verbs, left to right. */
  function Sprintf(pieces: seq<string>, args: seq<string>): string
    requires WellFormed(pieces, args)
    decreases |args|
  {
    if args == [] then pieces[0]
    else Sprintf(pieces[..|pieces| - 1], args[..|args| - 1]) + args[|args| - 1] + pieces[|pieces| - 1]
  }

  /** Nothing is added or lost: the output is exactly as long as the pieces
      and the arguments together. */
  lemma {:induction false} SprintfLength(pieces: seq<string>, args: seq<string>)
    requires WellFormed(pieces, args)
    ensures |Sprintf(pieces, args)| == TotalLength(pieces) + TotalLength(args)
    decreases |args|
  {
    if args != [] {
      SprintfLength(pieces[..|pieces| - 1], args[..|args| - 1]);
    }
  }

  /** Text at the very end of the format is printed at the very end of the
      output, after everything the arguments put before it. */
  lemma SprintfSplitLast(pieces: seq<string>, args: seq<string>, x: string, tail: string)
    requires WellFormed(pieces, args) && pieces[|pieces| - 1] == x + tail
    ensures WellFormed(pieces[..|pieces| - 1] + [x], args)
    ensures Sprintf(pieces, args) == Sprintf(pieces[..|pieces| - 1] + [x], args) + tail
  {
    var cut := pieces[..|pieces| - 1] + [x];
    if args != [] {
      assert cut[..|cut| - 1] == pieces[..|pieces| - 1];
    }
  }

  /** Where the `k`-th argument starts in the output: after the text produced
      by the first `k + 1` pieces and the first `k` arguments. */
  function ArgOffset(pieces: seq<string>, args: seq<string>, k: nat): nat
    requires WellFormed(pieces, args) && k < |args|
  {
    |Sprintf(pieces[..k + 1], args[..k])|
  }

  /** The output of the first `m` verbs is where the whole output begins. */
  lemma {:induction false} SprintfPrefix(pieces: seq<string>, args: seq<string>, m: nat)
    requires WellFormed(pieces, args) && m <= |args|
    ensures HasPrefix(Sprintf(pieces, args), Sprintf(pieces[..m + 1], args[..m]))
    decreases |args|
  {
    if m == |args| {
      assert pieces[..m + 1] == pieces && args[..m] == args;
      PrefixOfAppend(Sprintf(pieces, args), []);
      assert Sprintf(pieces, args) + [] == Sprintf(pieces, args);
    } else {
      var p', a' := pieces[..|pieces| - 1], args[..|args| - 1];
      SprintfPrefix(p', a', m);
      assert p'[..m + 1] == pieces[..m + 1] && a'[..m] == args[..m];
      PrefixExtends(Sprintf(p', a'), args[|args| - 1], Sprintf(pieces[..m + 1], args[..m]));
      PrefixExtends(Sprintf(p', a') + args[|args| - 1], pieces[|pieces| - 1], Sprintf(pieces[..m + 1], args[..m]));
    }
  }

  /** The output starts with the format's first piece. */
  lemma SprintfStartsWith(pieces: seq<string>, args: seq<string>)
    requires WellFormed(pieces, args)
    ensures HasPrefix(Sprintf(pieces, args), pieces[0])
  {
    SprintfPrefix(pieces, args, 0);
    assert Sprintf(pieces[..1], args[..0]) == pieces[0];
  }

  /** The output of the first `k` verbs ends with piece `k`. */
  lemma SprintfPrefixEndsWithPiece(pieces: seq<string>, args: seq<string>, k: nat)
    requires WellFormed(pieces, args) && k <= |args|
    ensures HasSuffix(Sprintf(pieces[..k + 1], args[..k]), pieces[k])
  {
    if k == 0 {
      SuffixOfAppend([], pieces[0]);
      assert [] + pieces[0] == pieces[0];
    } else {
      var p', a' := pieces[..k + 1], args[..k];
      assert p'[..|p'| - 1] == pieces[..k] && a'[..|a'| - 1] == args[..k - 1];
      SuffixOfAppend(Sprintf(pieces[..k], args[..k - 1]) + args[k - 1], pieces[k]);
    }
  }

  /** Trailing white space aside, the output ends the way its last piece does. */
  lemma SprintfEndsWith(pieces: seq<string>, args: seq<string>, tag: string)
    requires WellFormed(pieces, args) && tag != []
    requires HasSuffix(TrimRightSpace(pieces[|pieces| - 1]), tag)
    ensures HasSuffix(TrimRightSpace(Sprintf(pieces, args)), tag)
  {
    if args != [] {
      var front := Sprintf(pieces[..|pieces| - 1], args[..|args| - 1]) + args[|args| - 1];
      var last := pieces[|pieces| - 1];
      TrimRightSpaceKeepsLeft(front, last);
      SuffixExtends(front, TrimRightSpace(last), tag);
    }
  }

  /** The output of the first `k + 1` verbs ends with piece `k`, argument `k`
      and piece `k + 1`. */
  lemma SprintfStepOccurs(pieces: seq<string>, args: seq<string>, k: nat)
    requires WellFormed(pieces, args) && k < |args|
    ensures OccursAt(Sprintf(pieces[..k + 2], args[..k + 1]), pieces[k] + args[k] + pieces[k + 1], ArgOffset(pieces, args, k) - |pieces[k]|)
  {
    var before := Sprintf(pieces[..k + 1], args[..k]);
    var p', a' := pieces[..k + 2], args[..k + 1];
    assert p'[..|p'| - 1] == pieces[..k + 1] && a'[..|a'| - 1] == args[..k];
    assert Sprintf(p', a') == before + args[k] + pieces[k + 1];
    SprintfPrefixEndsWithPiece(pieces, args, k);
    PrefixOfAppend(pieces[k + 1], []);
    assert pieces[k + 1] + [] == pieces[k + 1];
    OccursAcross(before, args[k], pieces[k + 1], pieces[k], pieces[k + 1]);
  }

  /** Argument `k` appears verbatim, between piece `k` and piece `k + 1`. */
  lemma SprintfArgBetweenPieces(pieces: seq<string>, args: seq<string>, k: nat)
    requires WellFormed(pieces, args) && k < |args|
    ensures OccursAt(Sprintf(pieces, args), pieces[k] + args[k] + pieces[k + 1], ArgOffset(pieces, args, k) - |pieces[k]|)
    ensures OccursAt(Sprintf(pieces, args), args[k], ArgOffset(pieces, args, k))
  {
    var w := pieces[k] + args[k] + pieces[k + 1];
    var i := ArgOffset(pieces, args, k) - |pieces[k]|;
    SprintfStepOccurs(pieces, args, k);
    SprintfPrefix(pieces, args, k + 1);
    OccursAtNested(Sprintf(pieces, args), Sprintf(pieces[..k + 2], args[..k + 1]), 0, w, i);
    InfixOccurs(pieces[k], args[k], pieces[k + 1]);
    OccursAtNested(Sprintf(pieces, args), w, i, args[k], |pieces[k]|);
  }

  /** Argument `k` appears verbatim, with whatever piece `k` ends with right
      before it and whatever piece `k + 1` starts with right after it. */
  lemma SprintfArgInContext(pieces: seq<string>, args: seq<string>, k: nat, x: string, y: string)
    requires WellFormed(pieces, args) && k < |args|
    requires HasSuffix(pieces[k], x) && HasPrefix(pieces[k + 1], y)
    ensures Contains(Sprintf(pieces, args), x + args[k] + y)
  {
    SprintfArgBetweenPieces(pieces, args, k);
    var i := ArgOffset(pieces, args, k) - |pieces[k]|;
    OccursAcross(pieces[k], args[k], pieces[k + 1], x, y);
    OccursAtNested(Sprintf(pieces, args), pieces[k] + args[k] + pieces[k + 1], i, x + args[k] + y, |pieces[k]| - |x|);
  }

  /** Arguments appear in the order they are given: each one ends before the
      next one starts. */
  lemma SprintfArgsInOrder(pieces: seq<string>, args: seq<string>, j: nat, k: nat)
    requires WellFormed(pieces, args) && j < k < |args|
    ensures ArgOffset(pieces, args, j) + |args[j]| <= ArgOffset(pieces, args, k)
  {
    var p', a' := pieces[..k + 1], args[..k];
    SprintfPrefix(p', a', j + 1);
    assert p'[..j + 2] == pieces[..j + 2] && a'[..j + 1] == args[..j + 1];
    var q, b := pieces[..j + 2], args[..j + 1];
    assert q[..|q| - 1] == pieces[..j + 1] && b[..|b| - 1] == args[..j];
  }

  /** Every piece of the format appears in the output. */
  lemma SprintfContainsPiece(pieces: seq<string>, args: seq<string>, k: nat)
    requires WellFormed(pieces, args) && k < |pieces|
    ensures Contains(Sprintf(pieces, args), pieces[k])
  {
    if k < |args| {
      SprintfArgBetweenPieces(pieces, args, k);
      var w := pieces[k] + args[k] + pieces[k + 1];
      PrefixOfAppend(pieces[k], args[k] + pieces[k + 1]);
      assert pieces[k] + (args[k] + pieces[k + 1]) == w;
      OccursAtNested(Sprintf(pieces, args), w, ArgOffset(pieces, args, k) - |pieces[k]|, pieces[k], 0);
    } else if args == [] {
      PrefixOfAppend(pieces[0], []);
      assert pieces[0] + [] == pieces[0];
    } else {
      var front := Sprintf(pieces[..|pieces| - 1], args[..|args| - 1]) + args[|args| - 1];
      SuffixOfAppend(front, pieces[k]);
    }
  }

  // ---------------------------------------------------------------------------
  // Which texts the output contains
  // ---------------------------------------------------------------------------

  /** Some string of `xs` contains `p`. */
  ghost predicate SomeContains(xs: seq<string>, p: string) {
    exists k :: 0 <= k < |xs| && Contains(xs[k], p)
  }

  /** Around every verb the format has a character that `p` does not use, so
      no occurrence of `p` can straddle an argument and the literal text next
      to it. */
  predicate SeparatedFor(pieces: seq<string>, p: string) {
    forall k :: 0 <= k < |pieces| ==>
      pieces[k] != [] &&
      (0 < k ==> pieces[k][0] !in p) &&
      (k < |pieces| - 1 ==> pieces[k][|pieces[k]| - 1] !in p)
  }

  /** Every piece is non-empty, and each verb has on both sides a character
      of `seps`. */
  predicate BorderedBy(pieces: seq<string>, seps: string) {
    forall k :: 0 <= k < |pieces| ==>
      pieces[k] != [] &&
      (0 < k ==> pieces[k][0] in seps) &&
      (k < |pieces| - 1 ==> pieces[k][|pieces[k]| - 1] in seps)
  }

  /** A format bordered by characters that `p` does not use separates `p`. */
  lemma BorderedSeparates(pieces: seq<string>, seps: string, p: string)
    requires BorderedBy(pieces, seps)
    requires forall k :: 0 <= k < |p| ==> p[k] !in seps
    ensures SeparatedFor(pieces, p)
  {
  }

  lemma SprintfLastChar(pieces: seq<string>, args: seq<string>)
    requires WellFormed(pieces, args) && pieces[|pieces| - 1] != []
    ensures Sprintf(pieces, args) != []
    ensures Sprintf(pieces, args)[|Sprintf(pieces, args)| - 1] == pieces[|pieces| - 1][|pieces[|pieces| - 1]| - 1]
  {
  }

  lemma SomeContainsLast(xs: seq<string>, p: string)
    requires xs != []
    ensures SomeContains(xs, p) <==> SomeContains(xs[..|xs| - 1], p) || Contains(xs[|xs| - 1], p)
  {
    if SomeContains(xs, p) {
      var k :| 0 <= k < |xs| && Contains(xs[k], p);
      if k < |xs| - 1 {
        assert xs[..|xs| - 1][k] == xs[k];
      }
    }
    if SomeContains(xs[..|xs| - 1], p) {
      var k :| 0 <= k < |xs| - 1 && Contains(xs[..|xs| - 1][k], p);
      assert xs[k] == xs[..|xs| - 1][k];
    }
  }

  /** Once the format separates `p` from the arguments, the output contains
      `p` exactly when a piece of the format or an argument does: substituting
      the arguments neither creates an occurrence nor destroys one. */
  lemma {:induction false} SprintfContainsIff(pieces: seq<string>, args: seq<string>, p: string)
    requires WellFormed(pieces, args) && SeparatedFor(pieces, p)
    ensures Contains(Sprintf(pieces, args), p) <==> SomeContains(pieces, p) || SomeContains(args, p)
    decreases |args|
  {
    if args == [] {
      SomeContainsLast(pieces, p);
      assert !SomeContains(pieces[..0], p);
      assert !SomeContains(args, p);
    } else {
      var p', a' := pieces[..|pieces| - 1], args[..|args| - 1];
      var front := Sprintf(p', a');
      var arg, last := args[|args| - 1], pieces[|pieces| - 1];
      assert SeparatedFor(p', p) by {
        forall k | 0 <= k < |p'| ensures p'[k] == pieces[k] { }
      }
      SprintfContainsIff(p', a', p);
      SprintfLastChar(p', a');
      assert last[0] !in p;
      ContainsAppendIff(front + arg, last, p);
      ContainsAppendIff(front, arg, p);
      SomeContainsLast(pieces, p);
      SomeContainsLast(args, p);
    }
  }

  /** The output begins with the text before the first verb, the first
      argument and the piece after it. */
  lemma SprintfStartsWithFirstArg(pieces: seq<string>, args: seq<string>)
    requires WellFormed(pieces, args) && 0 < |args|
    ensures HasPrefix(Sprintf(pieces, args), pieces[0] + args[0] + pieces[1])
  {
    SprintfPrefix(pieces, args, 1);
    var p', a' := pieces[..2], args[..1];
    assert p'[..|p'| - 1] == [pieces[0]] && a'[..|a'| - 1] == [];
  }
}
