/**
The mention grammar (internal/application/mentions.go): who a comment notifies and
which chips its timeline shows.  Text is a sequence of code points; `isWord` says
which of them are letters or digits.
*/
module Mentions {
  type Text = string

  function Offered(names: seq<Text>): set<Text> { set n | n in names }

  predicate WordStart(body: Text, i: nat, isWord: char -> bool)
    requires i <= |body|
  {
    i == 0 || !isWord(body[i - 1])
  }

  predicate WordEnd(body: Text, i: nat, isWord: char -> bool) {
    i >= |body| || !isWord(body[i])
  }

  // An @ sign that may begin a mention.
  predicate Opens(body: Text, i: nat, isWord: char -> bool) {
    i < |body| && body[i] == '@' && WordStart(body, i, isWord)
  }

  // `name` is written from the @ sign at `i` and closes its word.
  predicate Written(body: Text, i: nat, name: Text, isWord: char -> bool) {
    && name != "" && i + 1 + |name| <= |body| && body[i + 1..i + 1 + |name|] == name
    && WordEnd(body, i + 1 + |name|, isWord)
  }

  // The longest candidate written at `i`; empty when there is none.
  ghost predicate Longest(body: Text, i: nat, names: set<Text>, best: Text, isWord: char -> bool) {
    && (forall n :: n in names && Written(body, i, n, isWord) ==> |n| <= |best|)
    && (best != "" ==> best in names && Written(body, i, best, isWord))
  }

  // The longest candidate is unique, whatever order the candidates come in.
  lemma LongestUnique(body: Text, i: nat, names: set<Text>, a: Text, b: Text, isWord: char -> bool)
    requires Longest(body, i, names, a, isWord) && Longest(body, i, names, b, isWord)
    ensures a == b
  {
    if a != "" {
      assert |a| <= |b|;
    }
    if b != "" {
      assert |b| <= |a|;
    }
  }

  method MentionAt(body: Text, i: nat, names: seq<Text>, isWord: char -> bool) returns (best: Text)
    requires i < |body|
    ensures Longest(body, i, Offered(names), best, isWord)
  {
    best := "";
    var rest := body[i + 1..];
    for k := 0 to |names|
      invariant best != "" ==> best in names && Written(body, i, best, isWord)
      invariant forall j :: 0 <= j < k && Written(body, i, names[j], isWord) ==> |names[j]| <= |best|
    {
      var name := names[k];
      if name == "" || |name| <= |best| || !(name <= rest) {
        assert Written(body, i, name, isWord) ==> name <= rest;
        continue;
      }
      if WordEnd(body, i + 1 + |name|, isWord) {
        best := name;
      }
    }
  }

  // ---- Who is notified ----------------------------------------------------------

  ghost predicate MentionsAt(body: Text, i: nat, names: set<Text>, name: Text, isWord: char -> bool) {
    Opens(body, i, isWord) && name != "" && Longest(body, i, names, name, isWord)
  }

  // Every @ sign that starts a word names the longest candidate written from it.
  method MentionedNames(body: Text, names: seq<Text>, isWord: char -> bool) returns (found: set<Text>)
    ensures forall n :: n in found <==> exists i :: 0 <= i < |body| && MentionsAt(body, i, Offered(names), n, isWord)
  {
    found := {};
    ghost var all := Offered(names);
    for i := 0 to |body|
      invariant forall n :: n in found <==> exists j :: 0 <= j < i && MentionsAt(body, j, all, n, isWord)
    {
      ghost var before := found;
      if body[i] == '@' && WordStart(body, i, isWord) {
        var name := MentionAt(body, i, names, isWord);
        if name != "" {
          found := found + {name};
        }
        OnlyLongest(body, i, all, name, isWord);
      }
      assert forall n :: n in found <==> n in before || MentionsAt(body, i, all, n, isWord);
    }
  }

  lemma OnlyLongest(body: Text, i: nat, names: set<Text>, best: Text, isWord: char -> bool)
    requires Opens(body, i, isWord) && Longest(body, i, names, best, isWord)
    ensures forall n :: MentionsAt(body, i, names, n, isWord) <==> best != "" && n == best
  {
    forall n | MentionsAt(body, i, names, n, isWord)
      ensures n == best
    {
      LongestUnique(body, i, names, n, best, isWord);
    }
  }

  // ---- What the timeline shows -----------------------------------------------------

  datatype Span = Span(text: Text, mention: bool, name: Text)

  function Concat(spans: seq<Span>): Text {
    if spans == [] then "" else Concat(spans[..|spans| - 1]) + spans[|spans| - 1].text
  }

  function StartOf(spans: seq<Span>, k: nat): nat
    requires k <= |spans|
  {
    if k == 0 then 0 else StartOf(spans, k - 1) + |spans[k - 1].text|
  }

  // A mention names somebody at `i`.
  ghost predicate Names(body: Text, i: nat, names: set<Text>, isWord: char -> bool) {
    exists n :: MentionsAt(body, i, names, n, isWord)
  }

  // One span at its place: a chip is the @ sign and the longest candidate written
  // there; plain text begins no mention anywhere.
  ghost predicate SpanOk(body: Text, names: set<Text>, s: Span, at: nat, isWord: char -> bool) {
    && s.text != ""
    && (s.mention ==> s.text == "@" + s.name && MentionsAt(body, at, names, s.name, isWord))
    && (!s.mention ==> s.name == "" && forall i :: at <= i < at + |s.text| ==> !Names(body, i, names, isWord))
  }

  ghost predicate Splits(body: Text, names: set<Text>, spans: seq<Span>, isWord: char -> bool) {
    Concat(spans) == body && SpansOk(body, names, spans, isWord) && Alternates(spans)
  }

  lemma {:induction false} ConcatLength(spans: seq<Span>)
    ensures |Concat(spans)| == StartOf(spans, |spans|)
    decreases |spans|
  {
    if spans != [] {
      var init := spans[..|spans| - 1];
      ConcatLength(init);
      StartOfPrefix(spans, |init|, |init|);
    }
  }

  lemma {:induction false} StartOfPrefix(spans: seq<Span>, k: nat, n: nat)
    requires k <= n <= |spans|
    ensures StartOf(spans[..n], k) == StartOf(spans, k)
  {
    if k > 0 {
      StartOfPrefix(spans, k - 1, n);
    }
  }

  lemma ConcatSnoc(spans: seq<Span>, s: Span)
    ensures Concat(spans + [s]) == Concat(spans) + s.text
  {
    assert (spans + [s])[..|spans|] == spans;
  }

  lemma StartOfSnoc(spans: seq<Span>, s: Span, k: nat)
    requires k <= |spans|
    ensures StartOf(spans + [s], k) == StartOf(spans, k)
  {
    assert (spans + [s])[..|spans|] == spans;
    StartOfPrefix(spans + [s], k, |spans|);
  }

  ghost predicate SpansOk(body: Text, names: set<Text>, spans: seq<Span>, isWord: char -> bool) {
    forall k :: 0 <= k < |spans| ==> PlacedOk(body, names, spans, k, isWord)
  }

  ghost predicate PlacedOk(body: Text, names: set<Text>, spans: seq<Span>, k: nat, isWord: char -> bool) {
    k < |spans| && SpanOk(body, names, spans[k], StartOf(spans, k), isWord)
  }

  ghost predicate Alternates(spans: seq<Span>) {
    forall j, k :: 0 <= j < k < |spans| && k == j + 1 ==> spans[j].mention || spans[k].mention
  }

  // The spans so far, ending where the next plain text begins.
  ghost predicate SplitTo(body: Text, names: set<Text>, spans: seq<Span>, upTo: nat, isWord: char -> bool) {
    upTo <= |body| && Concat(spans) == body[..upTo] && SpansOk(body, names, spans, isWord) && Alternates(spans)
  }

  lemma AddSpan(body: Text, names: set<Text>, spans: seq<Span>, upTo: nat, s: Span, isWord: char -> bool)
    requires SplitTo(body, names, spans, upTo, isWord) && SpanOk(body, names, s, upTo, isWord)
    requires upTo + |s.text| <= |body| && body[upTo..upTo + |s.text|] == s.text
    requires s.mention || spans == [] || spans[|spans| - 1].mention
    ensures SplitTo(body, names, spans + [s], upTo + |s.text|, isWord)
  {
    AddAlternates(spans, s);
    AddConcat(body, spans, upTo, s);
    AddOk(body, names, spans, upTo, s, isWord);
  }

  lemma AddConcat(body: Text, spans: seq<Span>, upTo: nat, s: Span)
    requires upTo + |s.text| <= |body| && Concat(spans) == body[..upTo] && body[upTo..upTo + |s.text|] == s.text
    ensures Concat(spans + [s]) == body[..upTo + |s.text|]
  {
    ConcatSnoc(spans, s);
    PrefixGrows(body, upTo, s.text);
  }

  lemma PrefixGrows(body: Text, i: nat, more: Text)
    requires i + |more| <= |body| && body[i..i + |more|] == more
    ensures body[..i] + more == body[..i + |more|]
  {
  }

  lemma AddAlternates(spans: seq<Span>, s: Span)
    requires Alternates(spans) && (s.mention || spans == [] || spans[|spans| - 1].mention)
    ensures Alternates(spans + [s])
  {
  }

  lemma AddOk(body: Text, names: set<Text>, spans: seq<Span>, upTo: nat, s: Span, isWord: char -> bool)
    requires |Concat(spans)| == upTo && SpansOk(body, names, spans, isWord) && SpanOk(body, names, s, upTo, isWord)
    ensures SpansOk(body, names, spans + [s], isWord)
  {
    forall k | 0 <= k < |spans + [s]|
      ensures PlacedOk(body, names, spans + [s], k, isWord)
    {
      KeepSpan(body, names, spans, upTo, s, k, isWord);
    }
  }

  lemma KeepSpan(body: Text, names: set<Text>, spans: seq<Span>, upTo: nat, s: Span, k: nat, isWord: char -> bool)
    requires |Concat(spans)| == upTo && SpanOk(body, names, s, upTo, isWord) && k <= |spans|
    requires SpansOk(body, names, spans, isWord)
    ensures PlacedOk(body, names, spans + [s], k, isWord)
  {
    StartOfSnoc(spans, s, k);
    if k < |spans| {
      assert PlacedOk(body, names, spans, k, isWord);
      assert (spans + [s])[k] == spans[k];
    } else {
      ConcatLength(spans);
      assert (spans + [s])[k] == s;
    }
  }

  method SplitMentions(body: Text, names: seq<Text>, isWord: char -> bool) returns (spans: seq<Span>)
    ensures Splits(body, Offered(names), spans, isWord)
  {
    ghost var all := Offered(names);
    spans := [];
    var textStart: nat, i: nat := 0, 0;
    while i < |body|
      invariant textStart <= i <= |body|
      invariant Scanned(body, all, spans, textStart, i, isWord)
    {
      var best := MentionFrom(body, i, names, isWord);
      if best == "" {
        ScanOn(body, all, spans, textStart, i, isWord);
        i := i + 1;
        continue;
      }
      spans := AddMention(body, all, spans, textStart, i, best, isWord);
      i := i + 1 + |best|;
      textStart := i;
    }
    spans := FlushText(body, all, spans, textStart, |body|, isWord);
    WholeBody(body, all, spans, isWord);
  }

  // The scan is at `i`: everything before `textStart` is split, and no mention
  // begins between there and here.
  ghost predicate Scanned(body: Text, names: set<Text>, spans: seq<Span>, textStart: nat, i: nat, isWord: char -> bool) {
    && textStart <= i <= |body| && SplitTo(body, names, spans, textStart, isWord)
    && (spans == [] || spans[|spans| - 1].mention)
    && forall j :: textStart <= j < i ==> !Names(body, j, names, isWord)
  }

  lemma ScanOn(body: Text, names: set<Text>, spans: seq<Span>, textStart: nat, i: nat, isWord: char -> bool)
    requires Scanned(body, names, spans, textStart, i, isWord) && i < |body| && !Names(body, i, names, isWord)
    ensures Scanned(body, names, spans, textStart, i + 1, isWord)
  {
  }

  lemma WholeBody(body: Text, names: set<Text>, spans: seq<Span>, isWord: char -> bool)
    requires SplitTo(body, names, spans, |body|, isWord)
    ensures Splits(body, names, spans, isWord)
  {
    assert body[..|body|] == body;
  }

  // The mention that begins at `i`, when one does.
  method MentionFrom(body: Text, i: nat, names: seq<Text>, isWord: char -> bool) returns (best: Text)
    requires i < |body|
    ensures if best == "" then !Names(body, i, Offered(names), isWord) else MentionsAt(body, i, Offered(names), best, isWord)
  {
    if body[i] != '@' || !WordStart(body, i, isWord) {
      return "";
    }
    best := MentionAt(body, i, names, isWord);
    OnlyLongest(body, i, Offered(names), best, isWord);
  }

  // The text before a mention, and its chip.
  method AddMention(body: Text, ghost names: set<Text>, spans: seq<Span>, textStart: nat, i: nat, best: Text,
      isWord: char -> bool)
      returns (out: seq<Span>)
    requires Scanned(body, names, spans, textStart, i, isWord) && MentionsAt(body, i, names, best, isWord)
    ensures Scanned(body, names, out, i + 1 + |best|, i + 1 + |best|, isWord)
  {
    out := FlushText(body, names, spans, textStart, i, isWord);
    AddChip(body, names, out, i, best, isWord);
    out := out + [Span(body[i..i + 1 + |best|], true, best)];
  }

  lemma AddChip(body: Text, names: set<Text>, spans: seq<Span>, i: nat, best: Text, isWord: char -> bool)
    requires SplitTo(body, names, spans, i, isWord) && i < |body| && MentionsAt(body, i, names, best, isWord)
    ensures i + 1 + |best| <= |body|
    ensures Scanned(body, names, spans + [Span(body[i..i + 1 + |best|], true, best)], i + 1 + |best|, i + 1 + |best|, isWord)
  {
    ChipOk(body, i, names, best, isWord);
    AddSpan(body, names, spans, i, Span(body[i..i + 1 + |best|], true, best), isWord);
  }

  lemma ChipOk(body: Text, i: nat, names: set<Text>, best: Text, isWord: char -> bool)
    requires MentionsAt(body, i, names, best, isWord)
    ensures i + 1 + |best| <= |body| && SpanOk(body, names, Span(body[i..i + 1 + |best|], true, best), i, isWord)
  {
    var text := body[i..i + 1 + |best|];
    assert text[0] == '@' && text[1..] == best;
    assert text == "@" + best;
  }

  // The plain text between two mentions, when there is any.
  method FlushText(body: Text, ghost names: set<Text>, spans: seq<Span>, textStart: nat, upTo: nat, isWord: char -> bool)
      returns (out: seq<Span>)
    requires Scanned(body, names, spans, textStart, upTo, isWord)
    ensures SplitTo(body, names, out, upTo, isWord)
  {
    out := spans;
    if textStart < upTo {
      var plain := Span(body[textStart..upTo], false, "");
      AddSpan(body, names, spans, textStart, plain, isWord);
      out := spans + [plain];
    }
  }

  lemma {:induction false} SpanIsSlice(spans: seq<Span>, k: nat)
    requires k < |spans|
    ensures StartOf(spans, k + 1) <= |Concat(spans)| && Concat(spans)[StartOf(spans, k)..StartOf(spans, k + 1)] == spans[k].text
    decreases |spans|
  {
    var init := spans[..|spans| - 1];
    ConcatLength(spans);
    ConcatLength(init);
    StartOfPrefix(spans, |init|, |init|);
    StartOfPrefix(spans, k, |init|);
    if k < |init| {
      SpanIsSlice(init, k);
      StartOfPrefix(spans, k + 1, |init|);
    }
  }

  // The first `k` spans of both splits are the same.
  ghost predicate Agree(a: seq<Span>, b: seq<Span>, k: nat) {
    k <= |a| && k <= |b| && a[..k] == b[..k] && StartOf(a, k) == StartOf(b, k)
  }

  lemma AgreeStep(body: Text, names: set<Text>, a: seq<Span>, b: seq<Span>, k: nat, isWord: char -> bool)
    requires Splits(body, names, a, isWord) && Splits(body, names, b, isWord) && k < |a| && Agree(a, b, k)
    ensures Agree(a, b, k + 1)
  {
    StartBelow(body, names, a, k, isWord);
    MoreSpans(body, names, b, k, isWord);
    SameSpan(body, names, a, b, k, isWord);
    SamePrefix(a, b, k + 1);
  }

  lemma {:induction false} AllAgree(body: Text, names: set<Text>, a: seq<Span>, b: seq<Span>, k: nat, isWord: char -> bool)
    requires Splits(body, names, a, isWord) && Splits(body, names, b, isWord) && k <= |a|
    ensures Agree(a, b, k)
  {
    if k > 0 {
      AllAgree(body, names, a, b, k - 1, isWord);
      AgreeStep(body, names, a, b, k - 1, isWord);
    }
  }

  // The split is unique: neither the order of the candidates nor a repeated one
  // changes a chip.
  lemma SplitUnique(body: Text, names: set<Text>, a: seq<Span>, b: seq<Span>, isWord: char -> bool)
    requires Splits(body, names, a, isWord) && Splits(body, names, b, isWord)
    ensures a == b
  {
    AllAgree(body, names, a, b, |a|, isWord);
    assert a[..|a|] == a;
    EndsTogether(body, names, a, b, isWord);
  }

  lemma SamePrefix(a: seq<Span>, b: seq<Span>, k: nat)
    requires 0 < k <= |a| && k <= |b| && a[..k - 1] == b[..k - 1] && a[k - 1] == b[k - 1]
    ensures a[..k] == b[..k]
  {
    assert a[..k] == a[..k - 1] + [a[k - 1]] && b[..k] == b[..k - 1] + [b[k - 1]];
  }

  lemma EndsTogether(body: Text, names: set<Text>, a: seq<Span>, b: seq<Span>, isWord: char -> bool)
    requires Splits(body, names, a, isWord) && Splits(body, names, b, isWord)
    requires |a| <= |b| && a == b[..|a|] && StartOf(a, |a|) == StartOf(b, |a|)
    ensures a == b
  {
    ConcatLength(a);
    if |a| < |b| {
      StartBelow(body, names, b, |a|, isWord);
    }
  }

  lemma StartBelow(body: Text, names: set<Text>, spans: seq<Span>, k: nat, isWord: char -> bool)
    requires Splits(body, names, spans, isWord) && k < |spans|
    ensures StartOf(spans, k) < StartOf(spans, k + 1) <= |body|
  {
    SpanIsSlice(spans, k);
    NonEmpty(body, names, spans, k, isWord);
  }

  lemma MoreSpans(body: Text, names: set<Text>, spans: seq<Span>, k: nat, isWord: char -> bool)
    requires Splits(body, names, spans, isWord) && k <= |spans| && StartOf(spans, k) < |body|
    ensures k < |spans|
  {
    ConcatLength(spans);
  }

  lemma NonEmpty(body: Text, names: set<Text>, spans: seq<Span>, k: nat, isWord: char -> bool)
    requires SpansOk(body, names, spans, isWord) && k < |spans|
    ensures StartOf(spans, k) < StartOf(spans, k + 1) && SpanOk(body, names, spans[k], StartOf(spans, k), isWord)
  {
    assert PlacedOk(body, names, spans, k, isWord);
  }

  lemma SameSpan(body: Text, names: set<Text>, a: seq<Span>, b: seq<Span>, k: nat, isWord: char -> bool)
    requires Splits(body, names, a, isWord) && Splits(body, names, b, isWord) && k < |a| && k < |b|
    requires StartOf(a, k) == StartOf(b, k)
    ensures a[k] == b[k]
  {
    NonEmpty(body, names, a, k, isWord);
    NonEmpty(body, names, b, k, isWord);
    SpanIsSlice(a, k);
    SpanIsSlice(b, k);
    var at := StartOf(a, k);
    if a[k].mention && b[k].mention {
      LongestUnique(body, at, names, a[k].name, b[k].name, isWord);
    } else if a[k].mention || b[k].mention {
      assert Names(body, at, names, isWord);
    } else {
      NotShorter(body, names, a, b, k, isWord);
      NotShorter(body, names, b, a, k, isWord);
    }
  }

  // Two plain texts that start together end together: a shorter one would be
  // followed by a mention inside the longer one.
  lemma NotShorter(body: Text, names: set<Text>, a: seq<Span>, b: seq<Span>, k: nat, isWord: char -> bool)
    requires Splits(body, names, a, isWord) && Splits(body, names, b, isWord) && k < |a| && k < |b|
    requires StartOf(a, k) == StartOf(b, k) && !a[k].mention && !b[k].mention
    ensures |a[k].text| >= |b[k].text|
  {
    StartBelow(body, names, b, k, isWord);
    if |a[k].text| < |b[k].text| {
      var at := StartOf(a, k + 1);
      MoreSpans(body, names, a, k + 1, isWord);
      MentionFollows(body, names, a, k, isWord);
      NothingInside(body, names, b, k, at, isWord);
    }
  }

  lemma MentionFollows(body: Text, names: set<Text>, spans: seq<Span>, k: nat, isWord: char -> bool)
    requires Splits(body, names, spans, isWord) && k + 1 < |spans| && !spans[k].mention
    ensures Names(body, StartOf(spans, k + 1), names, isWord)
  {
    assert spans[k].mention || spans[k + 1].mention;
    NonEmpty(body, names, spans, k + 1, isWord);
  }

  lemma NothingInside(body: Text, names: set<Text>, spans: seq<Span>, k: nat, i: nat, isWord: char -> bool)
    requires Splits(body, names, spans, isWord) && k < |spans| && !spans[k].mention
    requires StartOf(spans, k) <= i < StartOf(spans, k) + |spans[k].text|
    ensures !Names(body, i, names, isWord)
  {
    NonEmpty(body, names, spans, k, isWord);
  }
}
