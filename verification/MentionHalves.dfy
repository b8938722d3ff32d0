/**
The two halves of the mention grammar (internal/application/mentions.go): the names a
comment notifies against the chips its timeline shows, on one body and on every
body.
*/
module MentionHalves {
  import opened Mentions

  ghost predicate Notified(body: Text, names: set<Text>, name: Text, isWord: char -> bool) {
    exists i :: 0 <= i < |body| && MentionsAt(body, i, names, name, isWord)
  }

  predicate Shown(spans: seq<Span>, name: Text) {
    exists k :: 0 <= k < |spans| && spans[k].mention && spans[k].name == name
  }

  ghost predicate Agree(body: Text, names: set<Text>, spans: seq<Span>, isWord: char -> bool) {
    forall name :: Notified(body, names, name, isWord) <==> Shown(spans, name)
  }

  // ---- One body ------------------------------------------------------------------------

  // A mention that begins strictly inside the chip at `at`.
  ghost predicate Nested(body: Text, names: set<Text>, chip: Span, at: nat, i: nat, name: Text, isWord: char -> bool) {
    at < i < at + |chip.text| && MentionsAt(body, i, names, name, isWord)
  }

  ghost predicate NestedIn(body: Text, names: set<Text>, spans: seq<Span>, k: nat, name: Text, isWord: char -> bool) {
    k < |spans| && spans[k].mention && exists i :: Nested(body, names, spans[k], StartOf(spans, k), i, name, isWord)
  }

  lemma SpanAt(spans: seq<Span>, i: nat) returns (k: nat)
    requires i < StartOf(spans, |spans|)
    ensures k < |spans| && StartOf(spans, k) <= i < StartOf(spans, k) + |spans[k].text|
  {
    k := 0;
    while StartOf(spans, k + 1) <= i
      invariant k < |spans| && StartOf(spans, k) <= i
      decreases |spans| - k
    {
      k := k + 1;
    }
  }

  // Exactly the chips and the mentions nested inside a chip are notified.
  lemma NotifiedAreChipsAndNested(body: Text, names: set<Text>, spans: seq<Span>, name: Text, isWord: char -> bool)
    requires Splits(body, names, spans, isWord)
    ensures Notified(body, names, name, isWord) <==>
            Shown(spans, name) || exists k :: NestedIn(body, names, spans, k, name, isWord)
  {
    ConcatLength(spans);
    if i :| 0 <= i < |body| && MentionsAt(body, i, names, name, isWord) {
      var k := SpanAt(spans, i);
      assert PlacedOk(body, names, spans, k, isWord);
      assert Names(body, i, names, isWord);
      if i == StartOf(spans, k) {
        LongestUnique(body, i, names, name, spans[k].name, isWord);
      } else {
        assert Nested(body, names, spans[k], StartOf(spans, k), i, name, isWord);
        assert NestedIn(body, names, spans, k, name, isWord);
      }
    }
    if k :| 0 <= k < |spans| && spans[k].mention && spans[k].name == name {
      assert PlacedOk(body, names, spans, k, isWord);
      assert MentionsAt(body, StartOf(spans, k), names, name, isWord);
    }
  }

  // On one body the halves agree if and only if every nested name is some chip's too.
  lemma AgreeOnBodyIff(body: Text, names: set<Text>, spans: seq<Span>, isWord: char -> bool)
    requires Splits(body, names, spans, isWord)
    ensures Agree(body, names, spans, isWord) <==>
            forall k: nat, name :: NestedIn(body, names, spans, k, name, isWord) ==> Shown(spans, name)
  {
    forall name
      ensures Notified(body, names, name, isWord) <==>
              Shown(spans, name) || exists k :: NestedIn(body, names, spans, k, name, isWord)
    {
      NotifiedAreChipsAndNested(body, names, spans, name, isWord);
    }
  }

  // ---- Every body ----------------------------------------------------------------------

  // Written from an @ sign that starts a word inside `c`, `n` ends inside `c` or reaches
  // to its end or beyond, and the shorter of the two closes its word there.
  predicate NestsAt(c: Text, k: nat, n: Text, isWord: char -> bool) {
    && k < |c| && c[k] == '@' && (k == 0 || !isWord(c[k - 1]))
    && var tail := c[k + 1..];
       if |n| <= |tail| then tail[..|n|] == n && WordEnd(tail, |n|, isWord)
       else n[..|tail|] == tail && WordEnd(n, |tail|, isWord)
  }

  // Two different candidates, one of which may begin inside the other.
  predicate Nests(names: set<Text>, isWord: char -> bool) {
    exists c, n :: c in names && n in names && NestPair(c, n, isWord)
  }

  predicate NestPair(c: Text, n: Text, isWord: char -> bool) {
    c != n && n != "" && exists k :: 0 <= k < |c| && NestsAt(c, k, n, isWord)
  }

  lemma SliceAt(body: Text, at: nat, name: Text, k: nat)
    requires at + |name| <= |body| && body[at..at + |name|] == name && k < |name|
    ensures name[k] == body[at + k]
  {
    assert body[at..at + |name|][k] == body[at + k];
  }

  // What the two names have in common is the same stretch of the body.
  lemma SameStretch(body: Text, from: nat, tail: Text, n: Text, isWord: char -> bool)
    requires from + |tail| <= |body| && body[from..from + |tail|] == tail && WordEnd(body, from + |tail|, isWord)
    requires from + |n| <= |body| && body[from..from + |n|] == n && WordEnd(body, from + |n|, isWord)
    ensures if |n| <= |tail| then tail[..|n|] == n && WordEnd(tail, |n|, isWord)
            else n[..|tail|] == tail && WordEnd(n, |tail|, isWord)
  {
    if |n| < |tail| {
      SliceAt(body, from, tail, |n|);
      assert tail[..|n|] == body[from..from + |n|];
    } else if |tail| < |n| {
      SliceAt(body, from, n, |tail|);
      assert n[..|tail|] == body[from..from + |tail|];
    }
  }

  // A mention nested in a chip nests in the chip's name.
  lemma NestedNests(body: Text, names: set<Text>, c: Text, at: nat, i: nat, n: Text, isWord: char -> bool)
    requires MentionsAt(body, at, names, c, isWord) && at < i < at + 1 + |c| && MentionsAt(body, i, names, n, isWord)
    ensures NestsAt(c, i - at - 1, n, isWord)
  {
    OpensInside(body, at, c, i, isWord);
    SameStretch(body, i + 1, c[i - at..], n, isWord);
  }

  lemma OpensInside(body: Text, at: nat, c: Text, i: nat, isWord: char -> bool)
    requires Written(body, at, c, isWord) && at < i < at + 1 + |c| && Opens(body, i, isWord)
    ensures var k := i - at - 1;
            c[k] == '@' && (k == 0 || !isWord(c[k - 1])) && c[k + 1..] == body[i + 1..at + 1 + |c|]
  {
    var k := i - at - 1;
    SliceAt(body, at + 1, c, k);
    if k > 0 {
      SliceAt(body, at + 1, c, k - 1);
    }
  }

  lemma NestedPair(body: Text, names: set<Text>, c: Text, at: nat, i: nat, n: Text, isWord: char -> bool)
    requires MentionsAt(body, at, names, c, isWord) && at < i < at + 1 + |c| && MentionsAt(body, i, names, n, isWord)
    ensures c == n || Nests(names, isWord)
  {
    NestedNests(body, names, c, at, i, n, isWord);
    assert c != n ==> NestPair(c, n, isWord);
  }

  lemma NoNestsAgree(body: Text, names: set<Text>, spans: seq<Span>, isWord: char -> bool)
    requires Splits(body, names, spans, isWord) && !Nests(names, isWord)
    ensures Agree(body, names, spans, isWord)
  {
    forall k: nat, name | NestedIn(body, names, spans, k, name, isWord)
      ensures Shown(spans, name)
    {
      var i :| Nested(body, names, spans[k], StartOf(spans, k), i, name, isWord);
      assert PlacedOk(body, names, spans, k, isWord);
      NestedPair(body, names, spans[k].name, StartOf(spans, k), i, name, isWord);
    }
    AgreeOnBodyIff(body, names, spans, isWord);
  }

  // ---- A body on which they differ -----------------------------------------------------

  lemma {:induction false} LongestExists(body: Text, i: nat, names: set<Text>, isWord: char -> bool) returns (best: Text)
    ensures Longest(body, i, names, best, isWord)
    decreases |names|
  {
    if names == {} {
      best := "";
    } else {
      var n :| n in names;
      best := LongestExists(body, i, names - {n}, isWord);
      if Written(body, i, n, isWord) && |n| > |best| {
        best := n;
      }
    }
  }

  lemma {:induction false} SplitFrom(body: Text, names: set<Text>, spans: seq<Span>, textStart: nat, i: nat,
      isWord: char -> bool)
      returns (out: seq<Span>)
    requires Scanned(body, names, spans, textStart, i, isWord)
    ensures Splits(body, names, out, isWord)
    decreases |body| - i
  {
    if i < |body| && !Names(body, i, names, isWord) {
      ScanOn(body, names, spans, textStart, i, isWord);
      out := SplitFrom(body, names, spans, textStart, i + 1, isWord);
    } else {
      out := spans;
      if textStart < i {
        var plain := Span(body[textStart..i], false, "");
        AddSpan(body, names, spans, textStart, plain, isWord);
        out := spans + [plain];
      }
      if i == |body| {
        WholeBody(body, names, out, isWord);
      } else {
        var best :| MentionsAt(body, i, names, best, isWord);
        AddChip(body, names, out, i, best, isWord);
        out := SplitFrom(body, names, out + [Span(body[i..i + 1 + |best|], true, best)], i + 1 + |best|, i + 1 + |best|, isWord);
      }
    }
  }

  lemma {:induction false} StartsGrow(spans: seq<Span>, j: nat, k: nat)
    requires j <= k <= |spans|
    ensures StartOf(spans, j) <= StartOf(spans, k)
    decreases k
  {
    if j < k {
      StartsGrow(spans, j, k - 1);
    }
  }

  ghost predicate Differ(body: Text, names: set<Text>, spans: seq<Span>, isWord: char -> bool) {
    Splits(body, names, spans, isWord) && !Agree(body, names, spans, isWord)
  }

  // The first chip covers the @ sign that mentions `m`, and what is behind that chip is
  // too short to mention it.
  lemma OnlyNested(body: Text, names: set<Text>, x: Text, i: nat, m: Text, isWord: char -> bool) returns (spans: seq<Span>)
    requires MentionsAt(body, 0, names, x, isWord) && 0 < i <= |x| && MentionsAt(body, i, names, m, isWord)
    requires x != m && |body| < |x| + |m| + 2
    ensures Differ(body, names, spans, isWord)
  {
    spans := SplitFrom(body, names, [], 0, 0, isWord);
    MoreSpans(body, names, spans, 0, isWord);
    assert PlacedOk(body, names, spans, 0, isWord) && Names(body, 0, names, isWord);
    LongestUnique(body, 0, names, spans[0].name, x, isWord);
    forall k | 0 <= k < |spans| && spans[k].mention
      ensures spans[k].name != m
    {
      if k > 0 {
        StartsGrow(spans, 1, k);
        assert PlacedOk(body, names, spans, k, isWord);
      }
    }
    assert !Shown(spans, m) && Notified(body, names, m, isWord);
  }

  // When `n` ends inside `c`, the body that mentions `c` alone.
  lemma InsideDiffers(names: set<Text>, c: Text, k: nat, n: Text, isWord: char -> bool)
    requires !isWord('@') && c in names && n in names && n != "" && NestsAt(c, k, n, isWord) && |n| < |c| - k
    ensures exists body, spans :: Differ(body, names, spans, isWord)
  {
    var body := "@" + c;
    assert body[1..1 + |c|] == c;
    assert body[k + 2..k + 2 + |n|] == c[k + 1..][..|n|];
    assert k + 2 + |n| < |body| ==> body[k + 2 + |n|] == c[k + 1..][|n|];
    assert Longest(body, 0, names, c, isWord) && Opens(body, k + 1, isWord);
    var m := LongestExists(body, k + 1, names, isWord);
    assert Written(body, k + 1, n, isWord);
    var spans := OnlyNested(body, names, c, k + 1, m, isWord);
  }

  // Otherwise, the body that mentions `n` from inside `c`.
  function Across(c: Text, k: nat, n: Text): Text
    requires k < |c|
  {
    "@" + c[..k + 1] + n
  }

  lemma AcrossWrites(c: Text, k: nat, n: Text, isWord: char -> bool)
    requires !isWord('@') && n != "" && NestsAt(c, k, n, isWord) && |n| >= |c| - k
    ensures var body := Across(c, k, n);
            && Opens(body, 0, isWord) && Written(body, 0, c, isWord)
            && Opens(body, k + 1, isWord) && Written(body, k + 1, n, isWord)
  {
    var body, tail := Across(c, k, n), c[k + 1..];
    assert c == c[..k + 1] + tail && n == tail + n[|tail|..];
    assert body == "@" + c + n[|tail|..];
    assert body[1..1 + |c|] == c;
    assert body[k + 2..k + 2 + |n|] == n;
    assert body[k + 1] == c[k] && (k > 0 ==> body[k] == c[k - 1]);
    assert body[1 + |c|] == n[|tail|];
  }

  lemma AcrossDiffers(names: set<Text>, c: Text, k: nat, n: Text, x: Text, isWord: char -> bool)
    requires !isWord('@') && c in names && n in names && n != "" && NestsAt(c, k, n, isWord) && |n| >= |c| - k
    requires Longest(Across(c, k, n), 0, names, x, isWord) && x != n
    ensures exists body, spans :: Differ(body, names, spans, isWord)
  {
    var body := Across(c, k, n);
    AcrossWrites(c, k, n, isWord);
    assert Longest(body, k + 1, names, n, isWord);
    var spans := OnlyNested(body, names, x, k + 1, n, isWord);
  }

  // If the longest candidate at the body's beginning is `n` itself, then `n` repeats what
  // comes before its @ sign, and `c` nests in `n`.
  lemma Repeats(c: Text, k: nat, n: Text, isWord: char -> bool)
    requires !isWord('@') && c != n && NestsAt(c, k, n, isWord) && |n| >= |c| - k && n != ""
    requires Written(Across(c, k, n), 0, n, isWord) && |n| >= |c|
    ensures |c| < |n| && NestsAt(n, k, c, isWord)
  {
    var body := Across(c, k, n);
    AcrossWrites(c, k, n, isWord);
    assert body[1..] == c[..k + 1] + n;
    assert forall j :: 0 <= j < |n| ==> n[j] == body[1..1 + |n|][j] == body[1 + j];
    assert forall j :: 0 <= j < |c| ==> c[j] == body[1..1 + |c|][j] == body[1 + j];
    assert forall j :: 0 <= j < |n| ==> body[k + 2 + j] == n[j];
    assert |n| == |c| ==> n == c;
    RepeatsAt(c, k, n, body, isWord);
  }

  lemma RepeatsAt(c: Text, k: nat, n: Text, body: Text, isWord: char -> bool)
    requires k < |c| < |n| && c[k] == '@' && (k == 0 || !isWord(c[k - 1]))
    requires |body| == k + 2 + |n| && WordEnd(body, 1 + |n|, isWord) && WordEnd(body, 1 + |c|, isWord)
    requires forall j :: 0 <= j < |n| ==> n[j] == body[1 + j]
    requires forall j :: 0 <= j < |c| ==> c[j] == body[1 + j]
    requires forall j :: 0 <= j < |n| ==> body[k + 2 + j] == n[j]
    ensures NestsAt(n, k, c, isWord)
  {
    var tail := n[k + 1..];
    forall j | 0 <= j < |tail|
      ensures tail[j] == n[j]
    {
      assert tail[j] == n[k + 1 + j] == body[k + 2 + j];
    }
    assert n[k] == c[k] && (k > 0 ==> n[k - 1] == c[k - 1]);
    assert forall j :: 0 <= j < |c| ==> c[j] == n[j];
    if |c| <= |tail| {
      assert tail[..|c|] == c;
      assert |c| < |tail| ==> tail[|c|] == n[|c|] == body[1 + |c|];
    } else {
      assert c[..|tail|] == tail;
      assert body[1 + |n|] == n[|tail|] == c[|tail|];
    }
  }

  lemma NestsDiffer(names: set<Text>, c: Text, k: nat, n: Text, isWord: char -> bool)
    requires !isWord('@') && c in names && n in names && c != n && n != "" && NestsAt(c, k, n, isWord)
    ensures exists body, spans :: Differ(body, names, spans, isWord)
  {
    if |n| < |c| - k {
      InsideDiffers(names, c, k, n, isWord);
    } else {
      AcrossWrites(c, k, n, isWord);
      var x := LongestExists(Across(c, k, n), 0, names, isWord);
      if x != n {
        AcrossDiffers(names, c, k, n, x, isWord);
      } else {
        Repeats(c, k, n, isWord);
        if |c| < |n| - k {
          InsideDiffers(names, n, k, c, isWord);
        } else {
          AcrossWrites(n, k, c, isWord);
          var y := LongestExists(Across(n, k, c), 0, names, isWord);
          AcrossDiffers(names, n, k, c, y, isWord);
        }
      }
    }
  }

  // The halves agree on every body if and only if no candidate may begin inside another.
  lemma AgreeAlwaysIff(names: set<Text>, isWord: char -> bool)
    requires !isWord('@')
    ensures (forall body, spans :: Splits(body, names, spans, isWord) ==> Agree(body, names, spans, isWord)) <==>
            !Nests(names, isWord)
  {
    if Nests(names, isWord) {
      var c, n :| c in names && n in names && NestPair(c, n, isWord);
      var k :| 0 <= k < |c| && NestsAt(c, k, n, isWord);
      NestsDiffer(names, c, k, n, isWord);
    } else {
      forall body, spans | Splits(body, names, spans, isWord)
        ensures Agree(body, names, spans, isWord)
      {
        NoNestsAgree(body, names, spans, isWord);
      }
    }
  }

  // Without an @ sign in a candidate they agree.  With "a @b" and "b" they do not, nor
  // with "a @b" and "b c", where the second begins inside the first and ends behind it.
  lemma NestsExamples(isWord: char -> bool)
    requires !isWord(' ') && !isWord('@')
    ensures Nests({['a', ' ', '@', 'b'], ['b']}, isWord) && Nests({['a', ' ', '@', 'b'], ['b', ' ', 'c']}, isWord)
    ensures forall names: set<Text> :: (forall n :: n in names ==> '@' !in n) ==> !Nests(names, isWord)
  {
    var c, b, bc := ['a', ' ', '@', 'b'], ['b'], ['b', ' ', 'c'];
    assert c[3..] == b == bc[..1];
    assert NestsAt(c, 2, b, isWord) && NestsAt(c, 2, bc, isWord);
    assert NestPair(c, b, isWord) && NestPair(c, bc, isWord);
  }

  // With the candidates "a @b" and "b", the body "@a @b" shows one chip, and two people
  // are notified.
  lemma HalvesDiffer(isWord: char -> bool)
    requires !isWord(' ') && !isWord('@')
    ensures var body, names := ['@', 'a', ' ', '@', 'b'], {['a', ' ', '@', 'b'], ['b']};
            && Differ(body, names, [Span(body, true, ['a', ' ', '@', 'b'])], isWord)
            && Notified(body, names, ['b'], isWord)
  {
    var body, whole, inner := ['@', 'a', ' ', '@', 'b'], ['a', ' ', '@', 'b'], ['b'];
    var spans := [Span(body, true, whole)];
    assert body[1..5] == whole && body[4..5] == inner && body == "@" + whole;
    assert MentionsAt(body, 0, {whole, inner}, whole, isWord);
    OneChip(body, {whole, inner}, whole, isWord);
    assert MentionsAt(body, 3, {whole, inner}, inner, isWord) && whole != inner;
    assert !Shown(spans, inner) && Notified(body, {whole, inner}, inner, isWord);
  }

  lemma OneChip(body: Text, names: set<Text>, name: Text, isWord: char -> bool)
    requires body == "@" + name && MentionsAt(body, 0, names, name, isWord)
    ensures Splits(body, names, [Span(body, true, name)], isWord)
  {
    var spans := [Span(body, true, name)];
    assert spans[..0] == [];
    assert Concat(spans) == body;
    assert PlacedOk(body, names, spans, 0, isWord);
  }
}
