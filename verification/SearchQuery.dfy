/**
Building the full-text expression of a search (textTokens and BuildTextQuery of
internal/application/search_service.go), and reading it back.
*/
module SearchQuery {
  import opened Core
  import OAuthScopes

  const Quote: char := '"'

  // Every quote doubled.
  function Escaped(token: string): string {
    if token == "" then ""
    else (if token[0] == Quote then [Quote, Quote] else [token[0]]) + Escaped(token[1..])
  }

  function Quoted(token: string): string { [Quote] + Escaped(token) + [Quote] }

  // A token of quotes only carries no content.
  predicate HasContent(token: string) { exists i :: 0 <= i < |token| && token[i] != Quote }

  function WithContent(tokens: seq<string>): seq<string> {
    if tokens == [] then []
    else if HasContent(tokens[0]) then [tokens[0]] + WithContent(tokens[1..])
    else WithContent(tokens[1..])
  }

  const And: string := " AND "

  function JoinAnd(phrases: seq<string>): string {
    if |phrases| == 0 then "" else if |phrases| == 1 then phrases[0] else phrases[0] + And + JoinAnd(phrases[1..])
  }

  function QuotedAll(tokens: seq<string>): seq<string> {
    seq(|tokens|, i requires 0 <= i < |tokens| => Quoted(tokens[i]))
  }

  // The source trims quotes off the escaped token and looks for a remainder.
  method TrimmedIsEmpty(escaped: string) returns (empty: bool)
    ensures empty <==> !HasContent(escaped)
  {
    var lo := 0;
    while lo < |escaped| && escaped[lo] == Quote
      invariant 0 <= lo <= |escaped| && forall i :: 0 <= i < lo ==> escaped[i] == Quote
    {
      lo := lo + 1;
    }
    return lo == |escaped|;
  }

  lemma {:induction false} EscapingKeepsContent(token: string)
    ensures HasContent(Escaped(token)) <==> HasContent(token)
  {
    if token != "" {
      var head, rest := if token[0] == Quote then [Quote, Quote] else [token[0]], Escaped(token[1..]);
      EscapingKeepsContent(token[1..]);
      assert Escaped(token) == head + rest;
      if i :| 0 <= i < |token| && token[i] != Quote {
        if i > 0 {
          assert token[1..][i - 1] != Quote;
          var j :| 0 <= j < |rest| && rest[j] != Quote;
          assert (head + rest)[|head| + j] != Quote;
        } else {
          assert (head + rest)[0] != Quote;
        }
      }
      if j :| 0 <= j < |head + rest| && (head + rest)[j] != Quote {
        if j >= |head| {
          assert rest[j - |head|] != Quote;
          var i :| 0 <= i < |token[1..]| && token[1..][i] != Quote;
          assert token[i + 1] != Quote;
        } else {
          assert token[0] != Quote;
        }
      }
    }
  }

  method TextTokens(raw: string, isSpace: char -> bool) returns (quoted: seq<string>)
    ensures quoted == QuotedAll(WithContent(OAuthScopes.Fields(raw, isSpace)))
  {
    var tokens := OAuthScopes.Fields(raw, isSpace);
    quoted := [];
    ghost var kept: seq<string> := [];
    assert tokens[0..] == tokens;
    for i := 0 to |tokens|
      invariant quoted == QuotedAll(kept)
      invariant kept + WithContent(tokens[i..]) == WithContent(tokens)
    {
      assert tokens[i..][1..] == tokens[i + 1..];
      var escaped := Escaped(tokens[i]);
      var empty := TrimmedIsEmpty(escaped);
      EscapingKeepsContent(tokens[i]);
      if empty {
        continue;
      }
      quoted := quoted + [[Quote] + escaped + [Quote]];
      kept := kept + [tokens[i]];
    }
  }

  method BuildTextQuery(raw: string, isSpace: char -> bool) returns (query: string)
    ensures query == JoinAnd(QuotedAll(WithContent(OAuthScopes.Fields(raw, isSpace))))
  {
    var quoted := TextTokens(raw, isSpace);
    query := JoinAnd(quoted);
  }

  // ---- Reading the expression back -------------------------------------------------

  // What follows a closing quote, and the phrase before it, unescaped.
  datatype Phrase = Phrase(text: string, rest: string)

  // One phrase after its opening quote: two quotes are one, a single one closes it.
  function ReadPhrase(s: string): Option<Phrase> {
    if s == "" then None
    else if s[0] != Quote then
      var r := ReadPhrase(s[1..]);
      if r.None? then None else Some(Phrase([s[0]] + r.value.text, r.value.rest))
    else if |s| > 1 && s[1] == Quote then
      var r := ReadPhrase(s[2..]);
      if r.None? then None else Some(Phrase([Quote] + r.value.text, r.value.rest))
    else Some(Phrase("", s[1..]))
  }

  lemma {:induction false} ReadShrinks(s: string)
    ensures ReadPhrase(s).Some? ==> |ReadPhrase(s).value.rest| < |s|
    decreases |s|
  {
    if s != "" && s[0] != Quote {
      ReadShrinks(s[1..]);
    } else if |s| > 1 && s[1] == Quote {
      ReadShrinks(s[2..]);
    }
  }

  // A whole expression: quoted phrases joined by AND, or nothing.
  function ReadQuery(s: string): Option<seq<string>>
    decreases |s|
  {
    if s == "" then Some([])
    else if s[0] != Quote then None
    else
      ReadShrinks(s[1..]);
      var p := ReadPhrase(s[1..]);
      if p.None? then None
      else if p.value.rest == "" then Some([p.value.text])
      else if !(And < p.value.rest) then None
      else
        var more := ReadQuery(p.value.rest[|And|..]);
        if more.None? || more.value == [] then None else Some([p.value.text] + more.value)
  }

  lemma {:induction false} PhraseReadsBack(token: string, rest: string)
    requires rest == "" || rest[0] != Quote
    ensures ReadPhrase(Escaped(token) + [Quote] + rest) == Some(Phrase(token, rest))
    decreases |token|
  {
    var s := Escaped(token) + [Quote] + rest;
    if token == "" {
      assert s == [Quote] + rest && s[1..] == rest;
    } else {
      PhraseReadsBack(token[1..], rest);
      var tail := Escaped(token[1..]) + [Quote] + rest;
      if token[0] == Quote {
        assert s == [Quote, Quote] + tail && s[2..] == tail;
      } else {
        assert s == [token[0]] + tail && s[1..] == tail;
      }
      assert [token[0]] + token[1..] == token;
    }
  }

  lemma LastPhrase(token: string)
    ensures ReadQuery(Quoted(token)) == Some([token])
  {
    var s := Quoted(token);
    PhraseReadsBack(token, "");
    assert s[1..] == Escaped(token) + [Quote] + "";
  }

  lemma ReadNext(s: string, token: string, query: string, more: seq<string>)
    requires s != "" && s[0] == Quote && ReadPhrase(s[1..]) == Some(Phrase(token, And + query))
    requires query != "" && ReadQuery(query) == Some(more) && more != []
    ensures ReadQuery(s) == Some([token] + more)
  {
    var rest := And + query;
    ReadShrinks(s[1..]);
    assert rest[|And|..] == query && And < rest;
  }

  lemma PhraseThen(token: string, query: string, more: seq<string>)
    requires query != "" && ReadQuery(query) == Some(more) && more != []
    ensures ReadQuery(Quoted(token) + And + query) == Some([token] + more)
  {
    var s := Quoted(token) + And + query;
    PhraseReadsBack(token, And + query);
    assert s[1..] == Escaped(token) + [Quote] + (And + query);
    ReadNext(s, token, query, more);
  }

  lemma {:induction false} QueryReadsBack(tokens: seq<string>)
    ensures ReadQuery(JoinAnd(QuotedAll(tokens))) == Some(tokens)
    decreases |tokens|
  {
    var q := QuotedAll(tokens);
    if |tokens| == 1 {
      LastPhrase(tokens[0]);
      assert tokens == [tokens[0]];
    } else if |tokens| > 1 {
      QueryReadsBack(tokens[1..]);
      assert q[1..] == QuotedAll(tokens[1..]);
      assert q[1..][0] == Quoted(tokens[1]);
      PhraseThen(tokens[0], JoinAnd(q[1..]), tokens[1..]);
      assert [tokens[0]] + tokens[1..] == tokens;
    }
  }

  lemma {:induction false} ContentMembers(tokens: seq<string>)
    ensures forall t :: t in WithContent(tokens) <==> t in tokens && HasContent(t)
  {
    if tokens != [] {
      ContentMembers(tokens[1..]);
      assert tokens == [tokens[0]] + tokens[1..];
    }
  }

  // Whatever the user typed, the expression reads back as exactly the typed words
  // that contain something besides quotes, in order; it is empty exactly when there
  // are none; no typed character ever acts as syntax.
  lemma SearchReadsBack(raw: string, isSpace: char -> bool)
    ensures var words := OAuthScopes.Fields(raw, isSpace);
            var query := JoinAnd(QuotedAll(WithContent(words)));
            && ReadQuery(query) == Some(WithContent(words))
            && (query == "" <==> forall w :: w in words ==> !HasContent(w))
  {
    var words := OAuthScopes.Fields(raw, isSpace);
    QueryReadsBack(WithContent(words));
    ContentMembers(words);
    if WithContent(words) != [] {
      assert WithContent(words)[0] in WithContent(words);
    }
  }
}
