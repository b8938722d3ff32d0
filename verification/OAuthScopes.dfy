/**
API scopes: parsing, the stored form, narrowing a role to scopes
(internal/domain/api_key.go, parseMCPScopes, joinScopes, scopesWithin and
scopeUsable of internal/application/oauth.go, scopedCapabilities of
internal/application/api_access.go).
*/
module OAuthScopes {
  import opened Core
  import opened Policy

  datatype ApiScope = CatalogRead | TicketsRead | TicketsWrite | CommentsWrite | CommentsInternal | TicketsAll

  datatype ScopeError = UnknownScope | ScopeRequired | AllNotGrantable

  function Name(s: ApiScope): string {
    match s
    case CatalogRead => "catalog:read"
    case TicketsRead => "tickets:read"
    case TicketsWrite => "tickets:write"
    case CommentsWrite => "comments:write"
    case CommentsInternal => "comments:internal"
    case TicketsAll => "tickets:all"
  }

  // The canonical order.
  function Rank(s: ApiScope): nat {
    match s
    case CatalogRead => 0
    case TicketsRead => 1
    case TicketsWrite => 2
    case CommentsWrite => 3
    case CommentsInternal => 4
    case TicketsAll => 5
  }

  const AllScopes: seq<ApiScope> := [CatalogRead, TicketsRead, TicketsWrite, CommentsWrite, CommentsInternal, TicketsAll]
  const McpScopes: seq<ApiScope> := [CatalogRead, TicketsRead, TicketsWrite, CommentsWrite, CommentsInternal]

  function Named(s: string): Option<ApiScope> {
    if s == "catalog:read" then Some(CatalogRead)
    else if s == "tickets:read" then Some(TicketsRead)
    else if s == "tickets:write" then Some(TicketsWrite)
    else if s == "comments:write" then Some(CommentsWrite)
    else if s == "comments:internal" then Some(CommentsInternal)
    else if s == "tickets:all" then Some(TicketsAll)
    else None
  }

  predicate Ascending(s: seq<ApiScope>) {
    forall i, j :: 0 <= i < j < |s| ==> Rank(s[i]) < Rank(s[j])
  }

  // ---- Parsing a list -----------------------------------------------------------

  predicate Mentions(raw: seq<string>, s: ApiScope) {
    exists i :: 0 <= i < |raw| && Named(raw[i]) == Some(s)
  }

  predicate HasUnknown(raw: seq<string>) { exists i :: 0 <= i < |raw| && Named(raw[i]).None? }

  // Exactly the distinct scopes named, in canonical order.
  predicate ParsesTo(raw: seq<string>, scopes: seq<ApiScope>) {
    && Ascending(scopes)
    && (forall i :: 0 <= i < |raw| ==> Named(raw[i]).Some?)
    && (forall s :: s in scopes <==> Mentions(raw, s))
  }

  method Collect(raw: seq<string>) returns (r: Option<set<ApiScope>>)
    ensures r.None? ==> HasUnknown(raw)
    ensures r.Some? ==> (forall i :: 0 <= i < |raw| ==> Named(raw[i]).Some?) && forall s :: s in r.value <==> Mentions(raw, s)
  {
    var seen: set<ApiScope> := {};
    for i := 0 to |raw|
      invariant forall j :: 0 <= j < i ==> Named(raw[j]).Some?
      invariant forall s :: s in seen <==> exists j :: 0 <= j < i && Named(raw[j]) == Some(s)
    {
      var scope := Named(raw[i]);
      if scope.None? {
        return None;
      }
      seen := seen + {scope.value};
    }
    return Some(seen);
  }

  method InOrder(seen: set<ApiScope>) returns (result: seq<ApiScope>)
    ensures Ascending(result) && forall s :: s in result <==> s in seen
  {
    result := [];
    for i := 0 to |AllScopes|
      invariant Ascending(result)
      invariant forall s :: s in result <==> s in seen && Rank(s) < i
    {
      assert Rank(AllScopes[i]) == i;
      if AllScopes[i] in seen {
        result := result + [AllScopes[i]];
      }
    }
  }

  method ParseApiKeyScopes(raw: seq<string>) returns (r: Result<seq<ApiScope>, ScopeError>)
    ensures match r
            case Ok(scopes) => raw != [] && ParsesTo(raw, scopes)
            case Err(e) => if e == UnknownScope then HasUnknown(raw) else e == ScopeRequired && raw == []
  {
    var seen := Collect(raw);
    if seen.None? {
      return Err(UnknownScope);
    }
    if seen.value == {} {
      assert raw != [] ==> Mentions(raw, Named(raw[0]).value);
      return Err(ScopeRequired);
    }
    var result := InOrder(seen.value);
    return Ok(result);
  }

  // The parse has one possible answer.
  lemma {:induction false} AscendingUnique(a: seq<ApiScope>, b: seq<ApiScope>)
    requires Ascending(a) && Ascending(b) && forall s :: s in a <==> s in b
    ensures a == b
  {
    if a == [] {
      assert forall i :: 0 <= i < |b| ==> b[i] in b;
    } else {
      assert a[0] in b && b[0] in a;
      assert a[0] == b[0];
      forall s
        ensures s in a[1..] <==> s in b[1..]
      {
        assert s in a[1..] <==> s in a && s != a[0];
        assert s in b[1..] <==> s in b && s != b[0];
      }
      AscendingUnique(a[1..], b[1..]);
    }
  }

  // ---- The stored form -------------------------------------------------------------

  // The characters scope names are made of are not spaces; the separator is.
  predicate Separates(isSpace: char -> bool) {
    isSpace(' ') && !isSpace(':') && forall c | 'a' <= c <= 'z' :: !isSpace(c)
  }

  function Word(s: string, isSpace: char -> bool): string {
    if s == "" || isSpace(s[0]) then "" else [s[0]] + Word(s[1..], isSpace)
  }

  lemma {:induction false} WordLength(s: string, isSpace: char -> bool)
    ensures |Word(s, isSpace)| <= |s|
    ensures s != "" && !isSpace(s[0]) ==> |Word(s, isSpace)| > 0
  {
    if s != "" && !isSpace(s[0]) {
      WordLength(s[1..], isSpace);
    }
  }

  // The maximal runs of non-space characters.
  function Fields(s: string, isSpace: char -> bool): seq<string>
    decreases |s|
  {
    if s == "" then []
    else if isSpace(s[0]) then Fields(s[1..], isSpace)
    else
      var w := Word(s, isSpace);
      WordLength(s, isSpace);
      [w] + Fields(s[|w|..], isSpace)
  }

  // A maximal run of non-space characters.
  predicate RunAt(s: string, i: nat, j: nat, isSpace: char -> bool) {
    && i < j <= |s| && (forall k :: i <= k < j ==> !isSpace(s[k]))
    && (i == 0 || isSpace(s[i - 1])) && (j == |s| || isSpace(s[j]))
  }

  lemma {:induction false} WordIsRun(s: string, isSpace: char -> bool)
    requires s != "" && !isSpace(s[0])
    ensures var w := Word(s, isSpace);
            0 < |w| <= |s| && w == s[..|w|] && RunAt(s, 0, |w|, isSpace)
  {
    var w := Word(s, isSpace);
    if |s| > 1 && !isSpace(s[1]) {
      WordIsRun(s[1..], isSpace);
      assert s == [s[0]] + s[1..];
      assert forall k :: 0 < k <= |s[1..]| && k < |s| ==> s[k] == s[1..][k - 1];
    } else {
      assert Word(s[1..], isSpace) == "";
      assert w == [s[0]];
    }
  }

  // Where the fields are.
  datatype At = At(from: nat, to: nat)

  function Shift(places: seq<At>, offset: nat): seq<At> {
    seq(|places|, k requires 0 <= k < |places| => At(places[k].from + offset, places[k].to + offset))
  }

  // The places are runs, in order, and each word is what is written there.
  ghost predicate Placed(s: string, words: seq<string>, places: seq<At>, isSpace: char -> bool) {
    && |places| == |words|
    && (forall k :: 0 <= k < |places| ==>
          RunAt(s, places[k].from, places[k].to, isSpace) && words[k] == s[places[k].from..places[k].to])
    && forall j, k :: 0 <= j < k < |places| ==> places[j].to < places[k].from
  }

  // A run behind a prefix that ends with a space, or is followed by one, is a run of the
  // rest.
  lemma RunOfRest(s: string, n: nat, i: nat, j: nat, isSpace: char -> bool)
    requires 0 < n <= |s| && (isSpace(s[n - 1]) || n == |s| || isSpace(s[n]))
    ensures RunAt(s[n..], i, j, isSpace) <==> RunAt(s, n + i, n + j, isSpace)
  {
    var rest := s[n..];
    assert forall k :: 0 <= k < |rest| ==> rest[k] == s[n + k];
    if RunAt(s, n + i, n + j, isSpace) {
      forall k | i <= k < j
        ensures !isSpace(rest[k])
      {
        assert !isSpace(s[n + k]);
      }
    }
    if RunAt(rest, i, j, isSpace) {
      forall k | n + i <= k < n + j
        ensures !isSpace(s[k])
      {
        assert s[k] == rest[k - n];
      }
    }
  }

  // The fields of a text are exactly its maximal runs of non-space characters, in order,
  // whatever separates them.
  lemma {:induction false} FieldsAreRuns(s: string, isSpace: char -> bool) returns (places: seq<At>)
    ensures Placed(s, Fields(s, isSpace), places, isSpace)
    ensures Complete(s, places, isSpace)
    decreases |s|
  {
    if s == "" {
      places := [];
    } else if isSpace(s[0]) {
      var rest := FieldsAreRuns(s[1..], isSpace);
      places := Shift(rest, 1);
      PlacesShift(s, 1, Fields(s[1..], isSpace), rest, isSpace);
      CompleteBehindSpace(s, rest, isSpace);
    } else {
      var w := Word(s, isSpace);
      WordIsRun(s, isSpace);
      var rest := FieldsAreRuns(s[|w|..], isSpace);
      places := [At(0, |w|)] + Shift(rest, |w|);
      PlacesShift(s, |w|, Fields(s[|w|..], isSpace), rest, isSpace);
      HeadPlaced(s, w, Fields(s[|w|..], isSpace), Shift(rest, |w|), isSpace);
      CompleteBehindWord(s, |w|, rest, isSpace);
    }
  }

  // No run is missing.
  ghost predicate Complete(s: string, places: seq<At>, isSpace: char -> bool) {
    forall i: nat, j: nat :: RunAt(s, i, j, isSpace) ==> At(i, j) in places
  }

  lemma CompleteBehindSpace(s: string, rest: seq<At>, isSpace: char -> bool)
    requires s != "" && isSpace(s[0]) && Complete(s[1..], rest, isSpace)
    ensures Complete(s, Shift(rest, 1), isSpace)
  {
    forall i: nat, j: nat | RunAt(s, i, j, isSpace)
      ensures At(i, j) in Shift(rest, 1)
    {
      assert i > 0;
      RunOfRest(s, 1, i - 1, j - 1, isSpace);
      RunShifts(rest, 1, i - 1, j - 1);
    }
  }

  lemma CompleteBehindWord(s: string, n: nat, rest: seq<At>, isSpace: char -> bool)
    requires RunAt(s, 0, n, isSpace) && Complete(s[n..], rest, isSpace)
    ensures Complete(s, [At(0, n)] + Shift(rest, n), isSpace)
  {
    forall i: nat, j: nat | RunAt(s, i, j, isSpace)
      ensures At(i, j) in [At(0, n)] + Shift(rest, n)
    {
      FirstOrLater(s, n, i, j, isSpace);
      if i > 0 {
        RunOfRest(s, n, i - n, j - n, isSpace);
        RunShifts(rest, n, i - n, j - n);
      }
    }
  }

  lemma FirstOrLater(s: string, n: nat, i: nat, j: nat, isSpace: char -> bool)
    requires RunAt(s, 0, n, isSpace) && RunAt(s, i, j, isSpace)
    ensures (i == 0 && j == n) || n < i
  {
    if i == 0 {
      assert j <= n;
      assert n <= j;
    } else {
      assert n <= i - 1;
    }
  }

  lemma RunShifts(places: seq<At>, offset: nat, i: nat, j: nat)
    requires At(i, j) in places
    ensures At(i + offset, j + offset) in Shift(places, offset)
  {
    var k :| 0 <= k < |places| && places[k] == At(i, j);
    assert Shift(places, offset)[k] == At(i + offset, j + offset);
  }

  // What is written in the rest of a text is written further on in the text.
  lemma PlaceShifts(s: string, n: nat, p: At, word: string, isSpace: char -> bool)
    requires 0 < n <= |s| && (isSpace(s[n - 1]) || n == |s| || isSpace(s[n]))
    requires RunAt(s[n..], p.from, p.to, isSpace) && word == s[n..][p.from..p.to]
    ensures RunAt(s, p.from + n, p.to + n, isSpace) && word == s[p.from + n..p.to + n]
    ensures n == |s| || isSpace(s[n]) ==> p.from > 0
  {
    RunOfRest(s, n, p.from, p.to, isSpace);
    assert s[n..][p.from..p.to] == s[p.from + n..p.to + n];
    assert s[n..][p.from] == s[n + p.from];
  }

  lemma PlacesShift(s: string, n: nat, words: seq<string>, places: seq<At>, isSpace: char -> bool)
    requires 0 < n <= |s| && (isSpace(s[n - 1]) || n == |s| || isSpace(s[n])) && Placed(s[n..], words, places, isSpace)
    ensures Placed(s, words, Shift(places, n), isSpace)
    ensures n == |s| || isSpace(s[n]) ==> forall k :: 0 <= k < |places| ==> places[k].from > 0
  {
    var shifted := Shift(places, n);
    forall k | 0 <= k < |places|
      ensures RunAt(s, shifted[k].from, shifted[k].to, isSpace) && words[k] == s[shifted[k].from..shifted[k].to]
      ensures n == |s| || isSpace(s[n]) ==> places[k].from > 0
    {
      PlaceShifts(s, n, places[k], words[k], isSpace);
    }
  }

  lemma HeadPlaced(s: string, w: string, words: seq<string>, places: seq<At>, isSpace: char -> bool)
    requires 0 < |w| <= |s| && w == s[..|w|] && RunAt(s, 0, |w|, isSpace) && Placed(s, words, places, isSpace)
    requires forall k :: 0 <= k < |places| ==> places[k].from > |w|
    ensures Placed(s, [w] + words, [At(0, |w|)] + places, isSpace)
  {
  }

  function Join(words: seq<string>): string {
    if |words| == 0 then "" else if |words| == 1 then words[0] else words[0] + " " + Join(words[1..])
  }

  function Names(scopes: seq<ApiScope>): seq<string> {
    seq(|scopes|, i requires 0 <= i < |scopes| => Name(scopes[i]))
  }

  function JoinScopes(scopes: seq<ApiScope>): string { Join(Names(scopes)) }

  predicate IsWord(w: string, isSpace: char -> bool) {
    w != "" && forall i :: 0 <= i < |w| ==> !isSpace(w[i])
  }

  lemma {:induction false} WordOf(w: string, rest: string, isSpace: char -> bool)
    requires forall i :: 0 <= i < |w| ==> !isSpace(w[i])
    requires rest == "" || isSpace(rest[0])
    ensures Word(w + rest, isSpace) == w
  {
    if w == "" {
      assert w + rest == rest;
    } else {
      assert (w + rest)[1..] == w[1..] + rest;
      WordOf(w[1..], rest, isSpace);
    }
  }

  lemma {:induction false} FieldsOfJoin(words: seq<string>, isSpace: char -> bool)
    requires isSpace(' ') && forall i :: 0 <= i < |words| ==> IsWord(words[i], isSpace)
    ensures Fields(Join(words), isSpace) == words
  {
    if |words| > 0 {
      var w, rest := words[0], if |words| == 1 then "" else " " + Join(words[1..]);
      assert Join(words) == w + rest;
      WordOf(w, rest, isSpace);
      assert (w + rest)[|w|..] == rest;
      FieldsOfJoin(words[1..], isSpace);
      if |words| > 1 {
        assert rest[1..] == Join(words[1..]);
      }
    }
  }

  lemma NamesAreWords(s: ApiScope, isSpace: char -> bool)
    requires Separates(isSpace)
    ensures IsWord(Name(s), isSpace) && Named(Name(s)) == Some(s)
  {
  }

  // The stored form reads back as the list that was written, whatever the list.
  lemma StoredScopesReadBack(scopes: seq<ApiScope>, isSpace: char -> bool)
    requires Separates(isSpace)
    ensures Fields(JoinScopes(scopes), isSpace) == Names(scopes)
    ensures forall i :: 0 <= i < |scopes| ==> Named(Names(scopes)[i]) == Some(scopes[i])
  {
    forall i | 0 <= i < |scopes|
      ensures IsWord(Names(scopes)[i], isSpace) && Named(Names(scopes)[i]) == Some(scopes[i])
    {
      NamesAreWords(scopes[i], isSpace);
    }
    FieldsOfJoin(Names(scopes), isSpace);
  }

  // ---- Scopes of an MCP client -----------------------------------------------------

  // What a grant may carry: canonical, not empty, never every ticket.
  predicate Grantable(scopes: seq<ApiScope>) {
    scopes != [] && Ascending(scopes) && TicketsAll !in scopes
  }

  // The request text asks for exactly these scopes.
  predicate McpParsesTo(raw: string, isSpace: char -> bool, scopes: seq<ApiScope>) {
    var words := Fields(raw, isSpace);
    && !Mentions(words, TicketsAll)
    && if words == [] then scopes == McpScopes else ParsesTo(words, scopes)
  }

  method ParseMcpScopes(raw: string, isSpace: char -> bool) returns (r: Result<seq<ApiScope>, ScopeError>)
    ensures r.Ok? ==> McpParsesTo(raw, isSpace, r.value) && Grantable(r.value)
    ensures r.Err? ==> if r.error == AllNotGrantable then Mentions(Fields(raw, isSpace), TicketsAll) else HasUnknown(Fields(raw, isSpace))
  {
    var words := Fields(raw, isSpace);
    if |words| == 0 {
      return Ok(McpScopes);
    }
    for i := 0 to |words|
      invariant forall j :: 0 <= j < i ==> Named(words[j]) != Some(TicketsAll)
    {
      if words[i] == "tickets:all" {
        return Err(AllNotGrantable);
      }
    }
    r := ParseApiKeyScopes(words);
    if r.Ok? {
      assert Mentions(words, Named(words[0]).value);
    }
  }

  lemma NamesMention(scopes: seq<ApiScope>)
    ensures forall s :: Mentions(Names(scopes), s) <==> s in scopes
    ensures forall i :: 0 <= i < |scopes| ==> Named(Names(scopes)[i]) == Some(scopes[i])
  {
    assert forall s: ApiScope :: Named(Name(s)) == Some(s);
    forall s | s in scopes
      ensures Mentions(Names(scopes), s)
    {
      var i :| 0 <= i < |scopes| && scopes[i] == s;
      assert Named(Names(scopes)[i]) == Some(s);
    }
  }

  // Parsing undoes joining on every scope list a grant may carry, and on no other:
  // what the parser answers is exactly what a grant may carry.
  lemma ParsingUndoesJoining(scopes: seq<ApiScope>, isSpace: char -> bool)
    requires Separates(isSpace)
    ensures McpParsesTo(JoinScopes(scopes), isSpace, scopes) <==> Grantable(scopes)
    ensures Grantable(scopes) ==> forall other :: McpParsesTo(JoinScopes(scopes), isSpace, other) ==> other == scopes
  {
    StoredScopesReadBack(scopes, isSpace);
    NamesMention(scopes);
    if Grantable(scopes) {
      forall other | McpParsesTo(JoinScopes(scopes), isSpace, other)
        ensures other == scopes
      {
        AscendingUnique(other, scopes);
      }
    }
  }

  // ---- Narrowing ----------------------------------------------------------------

  method ScopesWithin(requested: seq<ApiScope>, granted: seq<ApiScope>) returns (within: bool)
    ensures within <==> forall s :: s in requested ==> s in granted
  {
    for i := 0 to |requested|
      invariant forall j :: 0 <= j < i ==> requested[j] in granted
    {
      var found := false;
      for j := 0 to |granted|
        invariant found <==> requested[i] in granted[..j]
      {
        found := found || requested[i] == granted[j];
      }
      assert granted[..|granted|] == granted;
      if !found {
        assert requested[i] in requested;
        return false;
      }
    }
    return true;
  }

  // The read scopes map to no capability: reads are gated elsewhere.
  function ScopeCapabilities(s: ApiScope): seq<Capability> {
    match s
    case TicketsWrite => [CreateTicket, EditTicket, AssignTicket]
    case CommentsWrite => [CommentPublic]
    case CommentsInternal => [CommentInternal]
    case _ => []
  }

  predicate ScopeUsable(role: Role, s: ApiScope) {
    ScopeCapabilities(s) == [] || exists c :: c in ScopeCapabilities(s) && c in Capabilities(role)
  }

  predicate StaffRole(role: Role) { role == AgentRole || role == AdminRole || role == RootRole }

  // Everybody may open tickets and comment publicly, staff may edit and assign them and
  // comment internally; each scope allows its own of these, the read scopes none.
  predicate Carries(role: Role, scopes: seq<ApiScope>, c: Capability) {
    match c
    case CreateTicket => TicketsWrite in scopes && role != UnknownRole
    case EditTicket => TicketsWrite in scopes && StaffRole(role)
    case AssignTicket => TicketsWrite in scopes && StaffRole(role)
    case CommentPublic => CommentsWrite in scopes && role != UnknownRole
    case CommentInternal => CommentsInternal in scopes && StaffRole(role)
  }

  lemma CarriedIs(role: Role, scopes: seq<ApiScope>, c: Capability)
    ensures c in Capabilities(role) && (exists s :: s in scopes && c in ScopeCapabilities(s)) <==> Carries(role, scopes, c)
  {
  }

  // A consent may keep the read scopes whatever the role, and a writing scope when the
  // role can use it.
  lemma UsableIs(role: Role, s: ApiScope)
    ensures ScopeUsable(role, s) <==>
            && (s == TicketsWrite || s == CommentsWrite ==> role != UnknownRole)
            && (s == CommentsInternal ==> StaffRole(role))
  {
    if s == TicketsWrite {
      assert CreateTicket in ScopeCapabilities(s) && EditTicket in ScopeCapabilities(s);
    } else if s == CommentsWrite {
      assert CommentPublic in ScopeCapabilities(s);
    } else if s == CommentsInternal {
      assert CommentInternal in ScopeCapabilities(s);
    }
  }

  // A key or token only restricts its person: it carries a capability if and only
  // if the role holds it and one of the scopes allows it.
  method ScopedCapabilities(role: Role, scopes: seq<ApiScope>) returns (caps: set<Capability>)
    ensures forall c :: c in caps <==> c in Capabilities(role) && exists s :: s in scopes && c in ScopeCapabilities(s)
    ensures forall c :: c in caps <==> Carries(role, scopes, c)
  {
    caps := {};
    for i := 0 to |scopes|
      invariant forall c :: c in caps <==> c in Capabilities(role) && exists j :: 0 <= j < i && c in ScopeCapabilities(scopes[j])
    {
      var allowed := ScopeCapabilities(scopes[i]);
      ghost var before := caps;
      for k := 0 to |allowed|
        invariant forall c :: c in caps <==> c in before || (c in Capabilities(role) && c in allowed[..k])
      {
        if allowed[k] in Capabilities(role) {
          caps := caps + {allowed[k]};
        }
      }
      assert allowed[..|allowed|] == allowed;
    }
    forall c: Capability
      ensures c in caps <==> Carries(role, scopes, c)
    {
      CarriedIs(role, scopes, c);
    }
  }

  function KeepIf(keep: ApiScope -> bool, scopes: seq<ApiScope>): seq<ApiScope> {
    if scopes == [] then []
    else if keep(scopes[0]) then [scopes[0]] + KeepIf(keep, scopes[1..])
    else KeepIf(keep, scopes[1..])
  }

  // Consent keeps the scopes the role can use, in order.
  function Usable(role: Role, scopes: seq<ApiScope>): seq<ApiScope> {
    KeepIf(s => ScopeUsable(role, s), scopes)
  }

  lemma {:induction false} KeepIfKeeps(keep: ApiScope -> bool, scopes: seq<ApiScope>)
    requires Ascending(scopes)
    ensures Ascending(KeepIf(keep, scopes))
    ensures forall s :: s in KeepIf(keep, scopes) <==> s in scopes && keep(s)
  {
    if scopes != [] {
      KeepIfKeeps(keep, scopes[1..]);
      var rest := KeepIf(keep, scopes[1..]);
      assert scopes == [scopes[0]] + scopes[1..];
      forall i | 0 <= i < |rest|
        ensures Rank(scopes[0]) < Rank(rest[i])
      {
        assert rest[i] in rest;
        var k :| 0 <= k < |scopes[1..]| && scopes[1..][k] == rest[i];
      }
    }
  }

  lemma UsableKeepsGrantable(role: Role, scopes: seq<ApiScope>)
    requires Ascending(scopes)
    ensures var kept := Usable(role, scopes);
            && Ascending(kept)
            && (forall s :: s in kept <==> s in scopes && ScopeUsable(role, s))
            && (TicketsAll !in scopes && kept != [] ==> Grantable(kept))
  {
    KeepIfKeeps(s => ScopeUsable(role, s), scopes);
  }
}
