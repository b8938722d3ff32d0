/**
Positional form answers: what the planner decodes from a submission
(workflow_runner.go, decodePositionalAnswers) and what the store rechecks
before it persists them (workflow_uow.go, validatePositionalAnswers).

White space is a parameter: the source trims Unicode white space, and nothing
below depends on which characters those are.
*/
module FormAnswers {
  import opened Core
  import opened Workflow

  datatype RawValue = RawValue(position: int, values: seq<string>)

  datatype AnswerError =
    | UnknownPosition(position: int)
    | DuplicatePosition(position: int)
    | AmbiguousPosition(position: int)
    | InvalidAnswer(field: int)

  function TrimLeft(s: string, isSpace: char -> bool): string {
    if s != [] && isSpace(s[0]) then TrimLeft(s[1..], isSpace) else s
  }

  function TrimRight(s: string, isSpace: char -> bool): string {
    if s != [] && isSpace(s[|s| - 1]) then TrimRight(s[..|s| - 1], isSpace) else s
  }

  function Trim(s: string, isSpace: char -> bool): string {
    TrimRight(TrimLeft(s, isSpace), isSpace)
  }

  // The first objection to the positions of a submission, in submission order.
  function FirstRawError(width: nat, raw: seq<RawValue>): Option<AnswerError> {
    if raw == [] then None
    else
      var earlier := FirstRawError(width, raw[..|raw| - 1]);
      var rv := raw[|raw| - 1];
      if earlier.Some? then earlier
      else if rv.position < 0 || rv.position >= width then Some(UnknownPosition(rv.position))
      else if exists k :: 0 <= k < |raw| - 1 && raw[k].position == rv.position then Some(DuplicatePosition(rv.position))
      else if |rv.values| > 1 then Some(AmbiguousPosition(rv.position))
      else None
  }

  // The value submitted for a position, if any.
  function Submitted(raw: seq<RawValue>, position: int): Option<string> {
    if raw == [] then None
    else
      var rv := raw[|raw| - 1];
      if rv.position == position && |rv.values| == 1 then Some(rv.values[0])
      else Submitted(raw[..|raw| - 1], position)
  }

  // One field's typed answer, or no answer when the field refuses the value.
  function FieldAnswer(f: FormField, v: Option<string>, isSpace: char -> bool): Option<Answer> {
    match f.kind
    case Checkbox =>
      var s := if v.Some? then Trim(v.value, isSpace) else "";
      if s != "" && s != "on" && s != "true" then None
      else if f.required && s == "" then None
      else Some(Flag(s != ""))
    case ShortText =>
      var s := if v.Some? then Trim(v.value, isSpace) else "";
      if f.required && s == "" then None else Some(Text(s))
    case LongText =>
      var s := if v.Some? then Trim(v.value, isSpace) else "";
      if f.required && s == "" then None else Some(Text(s))
    case SingleSelect =>
      var s := if v.Some? then v.value else "";
      if s == "" then (if f.required then None else Some(Text("")))
      else if s in f.options then Some(Text(s)) else None
    case OtherKind => None
  }

  // The submission decodes to these answers.
  ghost predicate DecodesTo(fields: seq<FormField>, raw: seq<RawValue>, isSpace: char -> bool, answers: seq<Answer>) {
    && FirstRawError(|fields|, raw) == None
    && |answers| == |fields|
    && forall i :: 0 <= i < |fields| ==> FieldAnswer(fields[i], Submitted(raw, i), isSpace) == Some(answers[i])
  }

  // The first field that refuses its value.
  predicate FirstBadField(fields: seq<FormField>, raw: seq<RawValue>, isSpace: char -> bool, i: int) {
    && 0 <= i < |fields| && FieldAnswer(fields[i], Submitted(raw, i), isSpace) == None
    && forall k :: 0 <= k < i ==> FieldAnswer(fields[k], Submitted(raw, k), isSpace).Some?
  }

  method Decode(fields: seq<FormField>, raw: seq<RawValue>, isSpace: char -> bool)
      returns (r: Result<seq<Answer>, AnswerError>)
    ensures r.Ok? ==> DecodesTo(fields, raw, isSpace, r.value)
    ensures r.Err? ==>
              if r.error.InvalidAnswer? then
                FirstRawError(|fields|, raw) == None && FirstBadField(fields, raw, isSpace, r.error.field)
              else FirstRawError(|fields|, raw) == Some(r.error)
  {
    var objection := CheckPositions(|fields|, raw);
    if objection.Some? {
      return Err(objection.value);
    }
    var given := CollectValues(raw);
    var out: seq<Answer> := [];
    for i := 0 to |fields|
      invariant |out| == i
      invariant forall k :: 0 <= k < i ==> FieldAnswer(fields[k], Submitted(raw, k), isSpace) == Some(out[k])
    {
      var v := if i in given then Some(given[i]) else None;
      var answer := FieldAnswer(fields[i], v, isSpace);
      if answer.None? {
        return Err(InvalidAnswer(i));
      }
      out := out + [answer.value];
    }
    return Ok(out);
  }

  method CheckPositions(width: nat, raw: seq<RawValue>) returns (objection: Option<AnswerError>)
    ensures objection == FirstRawError(width, raw)
    ensures objection.Some? ==> !objection.value.InvalidAnswer?
  {
    var seen: set<int> := {};
    for i := 0 to |raw|
      invariant FirstRawError(width, raw[..i]) == None
      invariant forall p :: p in seen <==> exists k :: 0 <= k < i && raw[k].position == p
    {
      var rv := raw[i];
      assert raw[..i + 1][..i] == raw[..i];
      if rv.position < 0 || rv.position >= width {
        ScanStops(width, raw, i + 1);
        return Some(UnknownPosition(rv.position));
      }
      if rv.position in seen {
        ScanStops(width, raw, i + 1);
        return Some(DuplicatePosition(rv.position));
      }
      seen := seen + {rv.position};
      if |rv.values| > 1 {
        ScanStops(width, raw, i + 1);
        return Some(AmbiguousPosition(rv.position));
      }
    }
    assert raw[..|raw|] == raw;
    return None;
  }

  method CollectValues(raw: seq<RawValue>) returns (given: map<int, string>)
    ensures forall p :: Submitted(raw, p) == if p in given then Some(given[p]) else None
  {
    given := map[];
    for i := 0 to |raw|
      invariant forall p :: Submitted(raw[..i], p) == if p in given then Some(given[p]) else None
    {
      assert raw[..i + 1][..i] == raw[..i];
      if |raw[i].values| == 1 {
        given := given[raw[i].position := raw[i].values[0]];
      }
    }
    assert raw[..|raw|] == raw;
  }

  lemma {:induction false} ScanStops(width: nat, raw: seq<RawValue>, n: nat)
    requires n <= |raw| && FirstRawError(width, raw[..n]).Some?
    ensures FirstRawError(width, raw) == FirstRawError(width, raw[..n])
    decreases |raw|
  {
    if n < |raw| {
      assert raw[..|raw| - 1][..n] == raw[..n];
      ScanStops(width, raw[..|raw| - 1], n);
    } else {
      assert raw[..n] == raw;
    }
  }

  // ---- The store's recheck --------------------------------------------------

  // One persisted answer against its pinned field.
  predicate AnswerFits(f: FormField, a: Answer) {
    match f.kind
    case Checkbox => a.Flag? && (f.required ==> a.ticked)
    case ShortText => a.Text? && (f.required ==> a.text != "")
    case LongText => a.Text? && (f.required ==> a.text != "")
    case SingleSelect => a.Text? && (f.required ==> a.text != "") && (a.text != "" ==> a.text in f.options)
    case OtherKind => false
  }

  predicate AnswersFit(fields: seq<FormField>, answers: seq<Answer>) {
    && |answers| == |fields|
    && forall i :: 0 <= i < |fields| ==> AnswerFits(fields[i], answers[i])
  }

  // Free text the planner stores is trimmed.
  predicate Trimmed(fields: seq<FormField>, answers: seq<Answer>, isSpace: char -> bool)
    requires |fields| == |answers|
  {
    forall i :: 0 <= i < |fields| && (fields[i].kind == ShortText || fields[i].kind == LongText) && answers[i].Text? ==>
                  Trim(answers[i].text, isSpace) == answers[i].text
  }

  // The submission a browser would send for these answers.
  function Encode(answers: seq<Answer>): seq<RawValue> {
    seq(|answers|, i requires 0 <= i < |answers| =>
      RawValue(i, [match answers[i] case Flag(b) => (if b then "on" else "") case Text(s) => s]))
  }

  // What the planner decodes, the store accepts: the two layers of the form
  // rules never disagree about a decoded submission.
  lemma DecodedAnswersFit(fields: seq<FormField>, raw: seq<RawValue>, isSpace: char -> bool, answers: seq<Answer>)
    requires DecodesTo(fields, raw, isSpace, answers)
    ensures AnswersFit(fields, answers) && Trimmed(fields, answers, isSpace)
  {
    forall i | 0 <= i < |fields|
      ensures AnswerFits(fields[i], answers[i])
      ensures (fields[i].kind == ShortText || fields[i].kind == LongText) ==>
                answers[i].Text? && Trim(answers[i].text, isSpace) == answers[i].text
    {
      assert FieldAnswer(fields[i], Submitted(raw, i), isSpace) == Some(answers[i]);
      if Submitted(raw, i).Some? {
        TrimIdempotent(Submitted(raw, i).value, isSpace);
      }
    }
  }

  // Conversely every acceptable trimmed answer list is the decoding of its own
  // encoding, so the recheck accepts exactly what some submission can produce.
  lemma EncodedAnswersDecode(fields: seq<FormField>, answers: seq<Answer>, isSpace: char -> bool)
    requires AnswersFit(fields, answers) && Trimmed(fields, answers, isSpace)
    requires forall c :: c in "on" ==> !isSpace(c)
    ensures DecodesTo(fields, Encode(answers), isSpace, answers)
  {
    var raw := Encode(answers);
    PositionsInOrder(raw, |raw|, |fields|);
    assert raw[..|raw|] == raw;
    assert TrimLeft("on", isSpace) == "on" && TrimRight("on", isSpace) == "on";
    forall i | 0 <= i < |fields|
      ensures FieldAnswer(fields[i], Submitted(raw, i), isSpace) == Some(answers[i])
    {
      SubmittedInOrder(raw, |raw|, i);
      assert AnswerFits(fields[i], answers[i]);
    }
  }

  lemma {:induction false} PositionsInOrder(raw: seq<RawValue>, n: nat, width: nat)
    requires n <= |raw| <= width
    requires forall k :: 0 <= k < |raw| ==> raw[k].position == k && |raw[k].values| == 1
    ensures FirstRawError(width, raw[..n]) == None
  {
    if n > 0 {
      assert raw[..n][..n - 1] == raw[..n - 1];
      PositionsInOrder(raw, n - 1, width);
    }
  }

  lemma {:induction false} SubmittedInOrder(raw: seq<RawValue>, n: nat, i: nat)
    requires i < n <= |raw|
    requires forall k :: 0 <= k < |raw| ==> raw[k].position == k && |raw[k].values| == 1
    ensures Submitted(raw[..n], i) == Some(raw[i].values[0])
    decreases n
  {
    if i < n - 1 {
      assert raw[..n][..n - 1] == raw[..n - 1];
      SubmittedInOrder(raw, n - 1, i);
    }
  }

  lemma {:induction false} TrimLeftShape(s: string, isSpace: char -> bool)
    ensures var t := TrimLeft(s, isSpace); |t| <= |s| && (t != [] ==> !isSpace(t[0]))
  {
    if s != [] && isSpace(s[0]) {
      TrimLeftShape(s[1..], isSpace);
    }
  }

  lemma {:induction false} TrimRightShape(s: string, isSpace: char -> bool)
    ensures var t := TrimRight(s, isSpace);
            && t <= s
            && (t != [] ==> !isSpace(t[|t| - 1]))
  {
    if s != [] && isSpace(s[|s| - 1]) {
      TrimRightShape(s[..|s| - 1], isSpace);
    }
  }

  lemma TrimIdempotent(s: string, isSpace: char -> bool)
    ensures Trim(Trim(s, isSpace), isSpace) == Trim(s, isSpace)
  {
    var left := TrimLeft(s, isSpace);
    TrimLeftShape(s, isSpace);
    TrimRightShape(left, isSpace);
  }

  // Trimming takes away the outer white space and nothing else.
  lemma TrimIsInner(s: string, isSpace: char -> bool) returns (i: nat, j: nat)
    ensures i <= j <= |s| && Trim(s, isSpace) == s[i..j]
    ensures (forall k :: 0 <= k < i ==> isSpace(s[k])) && forall k :: j <= k < |s| ==> isSpace(s[k])
    ensures i < j ==> !isSpace(s[i]) && !isSpace(s[j - 1])
  {
    i := LeftAt(s, isSpace);
    var n := RightAt(s[i..], isSpace);
    j := i + n;
    assert s[i..][..n] == s[i..j];
    assert forall k :: j <= k < |s| ==> s[k] == s[i..][k - i];
  }

  lemma {:induction false} LeftAt(s: string, isSpace: char -> bool) returns (i: nat)
    ensures i <= |s| && TrimLeft(s, isSpace) == s[i..]
    ensures (forall k :: 0 <= k < i ==> isSpace(s[k])) && (i < |s| ==> !isSpace(s[i]))
  {
    if s != [] && isSpace(s[0]) {
      var rest := LeftAt(s[1..], isSpace);
      assert s[1..][rest..] == s[rest + 1..];
      i := rest + 1;
      assert forall k :: 0 < k < i ==> s[k] == s[1..][k - 1];
    } else {
      i := 0;
    }
  }

  lemma {:induction false} RightAt(s: string, isSpace: char -> bool) returns (n: nat)
    ensures n <= |s| && TrimRight(s, isSpace) == s[..n]
    ensures (forall k :: n <= k < |s| ==> isSpace(s[k])) && (n > 0 ==> !isSpace(s[n - 1]))
    decreases |s|
  {
    if s != [] && isSpace(s[|s| - 1]) {
      n := RightAt(s[..|s| - 1], isSpace);
      assert s[..|s| - 1][..n] == s[..n];
    } else {
      n := |s|;
    }
  }

  // Which answer a field takes from a submitted value: a ticked box is one submitted as
  // `on` or `true`, text is stored trimmed, a selection is one of the options, and a
  // required field never takes an empty answer.
  lemma FieldTakes(f: FormField, v: Option<string>, isSpace: char -> bool, a: Answer)
    ensures var s := if v.Some? then v.value else "";
            var trimmed := Trim(s, isSpace);
            FieldAnswer(f, v, isSpace) == Some(a) <==>
              match f.kind
              case Checkbox =>
                (a == Flag(true) && (trimmed == "on" || trimmed == "true")) || (a == Flag(false) && trimmed == "" && !f.required)
              case ShortText => a == Text(trimmed) && (f.required ==> trimmed != "")
              case LongText => a == Text(trimmed) && (f.required ==> trimmed != "")
              case SingleSelect => a == Text(s) && (if s == "" then !f.required else s in f.options)
              case OtherKind => false
  {
    TrimOfNothing(isSpace);
  }

  lemma TrimOfNothing(isSpace: char -> bool)
    ensures Trim("", isSpace) == ""
  {
  }

  // The positions are the fields', none twice, and none with more than one value.
  predicate Placed(width: nat, raw: seq<RawValue>) {
    && (forall i :: 0 <= i < |raw| ==> 0 <= raw[i].position < width && |raw[i].values| <= 1)
    && forall i, j :: 0 <= i < j < |raw| ==> raw[i].position != raw[j].position
  }

  lemma {:induction false} NoObjectionIff(width: nat, raw: seq<RawValue>)
    ensures FirstRawError(width, raw) == None <==> Placed(width, raw)
    decreases |raw|
  {
    if raw != [] {
      var init := raw[..|raw| - 1];
      NoObjectionIff(width, init);
      assert forall i :: 0 <= i < |init| ==> init[i] == raw[i];
    }
  }

  // Then a field gets the one value of its position, and none when there is none.
  lemma {:induction false} SubmittedIs(width: nat, raw: seq<RawValue>, position: int)
    requires Placed(width, raw)
    ensures forall i :: 0 <= i < |raw| && raw[i].position == position && |raw[i].values| == 1 ==>
              Submitted(raw, position) == Some(raw[i].values[0])
    ensures (forall i :: 0 <= i < |raw| && raw[i].position == position ==> raw[i].values == []) ==> Submitted(raw, position) == None
    decreases |raw|
  {
    if raw != [] {
      var init := raw[..|raw| - 1];
      assert forall i :: 0 <= i < |init| ==> init[i] == raw[i];
      SubmittedIs(width, init, position);
    }
  }

  // A submission decodes if and only if its positions are accepted and every field takes
  // the value of its position; the answers are then those taken.
  lemma DecodesIff(fields: seq<FormField>, raw: seq<RawValue>, isSpace: char -> bool, answers: seq<Answer>)
    ensures DecodesTo(fields, raw, isSpace, answers) <==>
              && Placed(|fields|, raw) && |answers| == |fields|
              && forall i :: 0 <= i < |fields| ==> FieldAnswer(fields[i], Submitted(raw, i), isSpace) == Some(answers[i])
  {
    NoObjectionIff(|fields|, raw);
  }
}
