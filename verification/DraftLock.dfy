/**
The optimistic lock on a category's workflow draft (internal/application/
workflow_service.go over internal/adapters/sqlite/workflow_store.go): guarded
saves, guarded publishes and clones, in every interleaving.
*/
module DraftLock {
  import opened Core

  type Bytes = string

  // One category's row, if it has one; NULL bytes are None.
  datatype Draft = Draft(bytes: Option<Bytes>, revision: nat)

  type Stored = Option<Draft>

  // A category without a row reads as no bytes at revision zero.
  function ReadBytes(s: Stored): Bytes {
    if s.Some? && s.value.bytes.Some? then s.value.bytes.value else ""
  }

  function Revision(s: Stored): nat { if s.Some? then s.value.revision else 0 }

  // A guarded write lands only at the revision its author read, and only when the
  // desks its bytes name exist; it advances the revision.
  predicate Lands(s: Stored, expected: nat, desksExist: bool) { Revision(s) == expected && desksExist }

  function Saved(s: Stored, expected: nat, bytes: Bytes, desksExist: bool): Stored {
    if Lands(s, expected, desksExist) then Some(Draft(Some(bytes), Revision(s) + 1)) else s
  }

  // The unguarded publish advances the revision; the unguarded upsert does not.
  function Published(s: Stored, bytes: Bytes): Stored { Some(Draft(Some(bytes), Revision(s) + 1)) }

  function Upserted(s: Stored, bytes: Bytes): Stored { Some(Draft(Some(bytes), Revision(s))) }

  datatype WriteError = RevisionConflict | UnknownDesk

  class DraftStore {
    var row: Stored

    constructor (row: Stored)
      ensures this.row == row
    {
      this.row := row;
    }

    // Bytes and revision come from one statement.
    method GetDraftWithRevision() returns (bytes: Bytes, revision: nat)
      ensures bytes == ReadBytes(row) && revision == Revision(row)
    {
      if row.None? {
        return "", 0;
      }
      if row.value.bytes.None? {
        return "", row.value.revision;
      }
      return row.value.bytes.value, row.value.revision;
    }

    method SaveDraftIfRevision(expected: nat, bytes: Bytes, desksExist: bool) returns (r: Result<nat, WriteError>)
      modifies this
      ensures row == Saved(old(row), expected, bytes, desksExist)
      ensures match r
              case Ok(revision) => Lands(old(row), expected, desksExist) && revision == expected + 1 && ReadBytes(row) == bytes
              case Err(RevisionConflict) => Revision(old(row)) != expected
              case Err(UnknownDesk) => Revision(old(row)) == expected && !desksExist
    {
      var before := row;
      if row.None? {
        row := Some(Draft(Some("[]"), 0));
      }
      if row.value.revision != expected {
        row := before;
        return Err(RevisionConflict);
      }
      row := Some(Draft(Some(bytes), row.value.revision + 1));
      if !desksExist {
        row := before;
        return Err(UnknownDesk);
      }
      return Ok(row.value.revision);
    }

    // Clones only into an empty draft; losing the race is the same refusal.
    method Clone(bytes: Bytes, desksExist: bool) returns (cloned: bool)
      modifies this
      ensures cloned == (ReadBytes(old(row)) == "" && desksExist)
      ensures row == if cloned then Some(Draft(Some(bytes), Revision(old(row)) + 1)) else old(row)
    {
      var existing, revision := GetDraftWithRevision();
      if existing != "" {
        return false;
      }
      var r := SaveDraftIfRevision(revision, bytes, desksExist);
      return r.Ok?;
    }
  }

  // ---- Interleavings ---------------------------------------------------------------

  // What an author read: bytes and revision, and whether they mean to clone.
  datatype Seen = Seen(bytes: Bytes, revision: nat, clone: bool)

  datatype World = World(stored: Stored, authors: map<nat, Seen>)

  datatype Label =
    | Open(id: nat, clone: bool)
    // A guarded save, publish or clone by the author of this read.
    | WriteGuarded(id: nat, bytes: Bytes, desksExist: bool)
    | PublishBlind(bytes: Bytes)
    | UpsertBlind(bytes: Bytes)

  // A clone of a draft that was not empty when read is refused before it writes.
  predicate Attempts(w: World, l: Label) {
    l.WriteGuarded? && l.id in w.authors && (w.authors[l.id].clone ==> w.authors[l.id].bytes == "")
  }

  predicate Succeeds(w: World, l: Label) {
    Attempts(w, l) && Lands(w.stored, w.authors[l.id].revision, l.desksExist)
  }

  predicate Steps(w: World, l: Label, w': World) {
    match l
    case Open(id, clone) => w' == w.(authors := w.authors[id := Seen(ReadBytes(w.stored), Revision(w.stored), clone)])
    case WriteGuarded(id, bytes, desksExist) =>
      && id in w.authors
      && w' == if Attempts(w, l) then w.(stored := Saved(w.stored, w.authors[id].revision, bytes, desksExist)) else w
    case PublishBlind(bytes) => w' == w.(stored := Published(w.stored, bytes))
    case UpsertBlind(bytes) => w' == w.(stored := Upserted(w.stored, bytes))
  }

  ghost predicate IsRun(trace: seq<World>, labels: seq<Label>) {
    && |trace| == |labels| + 1 && trace[0].authors == map[]
    && forall i :: 0 <= i < |labels| ==> StepAt(trace, labels, i)
  }

  ghost predicate StepAt(trace: seq<World>, labels: seq<Label>, i: nat) {
    i < |labels| && i + 1 < |trace| && Steps(trace[i], labels[i], trace[i + 1])
  }

  // A refused write changes nothing.
  lemma RefusedWriteChangesNothing(w: World, l: Label, w': World)
    requires l.WriteGuarded? && Steps(w, l, w') && !Succeeds(w, l)
    ensures w' == w
  {
  }

  // The revision never goes back, and a write that lands moves it.
  lemma {:induction false} RevisionsGrow(trace: seq<World>, labels: seq<Label>, i: nat, j: nat)
    requires IsRun(trace, labels) && i <= j < |trace|
    ensures Revision(trace[i].stored) <= Revision(trace[j].stored)
    ensures i < j && Succeeds(trace[i], labels[i]) ==> Revision(trace[i].stored) < Revision(trace[j].stored)
    decreases j - i
  {
    if i < j {
      RevisionsGrow(trace, labels, i + 1, j);
      assert StepAt(trace, labels, i);
    }
  }

  // A write that changes the draft: a guarded one that lands, or an unguarded one.
  predicate Writes(w: World, l: Label) { Succeeds(w, l) || l.PublishBlind? || l.UpsertBlind? }

  ghost function LandedBetween(trace: seq<World>, labels: seq<Label>, i: nat, j: nat): nat
    requires i <= j <= |labels| && j <= |trace|
    decreases j - i
  {
    if i == j then 0
    else LandedBetween(trace, labels, i, j - 1) +
         if Succeeds(trace[j - 1], labels[j - 1]) || labels[j - 1].PublishBlind? then 1 else 0
  }

  // The revision counts the guarded writes that landed and the publishes.
  lemma {:induction false} RevisionCounts(trace: seq<World>, labels: seq<Label>, i: nat, j: nat)
    requires IsRun(trace, labels) && i <= j < |trace|
    ensures Revision(trace[j].stored) == Revision(trace[i].stored) + LandedBetween(trace, labels, i, j)
    decreases j - i
  {
    if i < j {
      RevisionCounts(trace, labels, i, j - 1);
      assert StepAt(trace, labels, j - 1);
    }
  }

  // The draft holds the bytes of the last write, as it was given them.
  lemma {:induction false} LastWriteStands(trace: seq<World>, labels: seq<Label>, k: nat, j: nat)
    requires IsRun(trace, labels) && k < j < |trace| && Writes(trace[k], labels[k])
    requires forall m :: k < m < j ==> !Writes(trace[m], labels[m])
    ensures ReadBytes(trace[j].stored) == labels[k].bytes
    decreases j - k
  {
    assert StepAt(trace, labels, j - 1);
    if k < j - 1 {
      LastWriteStands(trace, labels, k, j - 1);
      assert !Writes(trace[j - 1], labels[j - 1]);
    }
  }

  // At an unchanged revision the bytes are unchanged, unless somebody upserted.
  lemma {:induction false} SameRevisionSameBytes(trace: seq<World>, labels: seq<Label>, i: nat, j: nat)
    requires IsRun(trace, labels) && i <= j < |trace|
    requires Revision(trace[i].stored) == Revision(trace[j].stored)
    requires forall k :: i <= k < j ==> !labels[k].UpsertBlind?
    ensures ReadBytes(trace[i].stored) == ReadBytes(trace[j].stored)
    decreases j - i
  {
    if i < j {
      RevisionsGrow(trace, labels, i + 1, j);
      RevisionsGrow(trace, labels, i, i + 1);
      SameRevisionSameBytes(trace, labels, i + 1, j);
      assert StepAt(trace, labels, i);
    }
  }

  // Where an author's read was taken.
  lemma {:induction false} ReadHappened(trace: seq<World>, labels: seq<Label>, j: nat, id: nat) returns (i: nat)
    requires IsRun(trace, labels) && j < |trace| && id in trace[j].authors
    ensures i < j && labels[i] == Open(id, trace[j].authors[id].clone)
    ensures trace[j].authors[id].bytes == ReadBytes(trace[i].stored) && trace[j].authors[id].revision == Revision(trace[i].stored)
    ensures forall k :: i < k < j ==> !(labels[k].Open? && labels[k].id == id)
    decreases j
  {
    assert StepAt(trace, labels, j - 1);
    if labels[j - 1].Open? && labels[j - 1].id == id {
      return j - 1;
    }
    i := ReadHappened(trace, labels, j - 1, id);
  }

  // In every interleaving without the unguarded upsert, a write that lands replaces
  // exactly the bytes its author read; a clone replaces nothing.
  lemma NothingUnreadIsOverwritten(trace: seq<World>, labels: seq<Label>, j: nat)
    requires IsRun(trace, labels) && j < |labels| && Succeeds(trace[j], labels[j])
    requires forall k :: 0 <= k < |labels| ==> !labels[k].UpsertBlind?
    ensures ReadBytes(trace[j].stored) == trace[j].authors[labels[j].id].bytes
    ensures trace[j].authors[labels[j].id].clone ==> ReadBytes(trace[j].stored) == ""
  {
    var i := ReadHappened(trace, labels, j, labels[j].id);
    SameRevisionSameBytes(trace, labels, i, j);
  }

  lemma {:induction false} SeenStays(trace: seq<World>, labels: seq<Label>, id: nat, i: nat, j: nat)
    requires IsRun(trace, labels) && i <= j < |trace| && id in trace[i].authors
    requires forall k :: i <= k < j ==> !(labels[k].Open? && labels[k].id == id)
    ensures id in trace[j].authors && trace[j].authors[id] == trace[i].authors[id]
    decreases j - i
  {
    if i < j {
      assert StepAt(trace, labels, i);
      SeenStays(trace, labels, id, i + 1, j);
    }
  }

  // The step moves the revision.
  predicate Moves(trace: seq<World>, labels: seq<Label>, k: nat) {
    k < |trace| && k < |labels| && (Succeeds(trace[k], labels[k]) || labels[k].PublishBlind?)
  }

  lemma {:induction false} RevisionStaysIff(trace: seq<World>, labels: seq<Label>, i: nat, j: nat)
    requires IsRun(trace, labels) && i <= j < |trace|
    ensures Revision(trace[i].stored) == Revision(trace[j].stored) <==> forall k :: i <= k < j ==> !Moves(trace, labels, k)
    decreases j - i
  {
    if i < j {
      RevisionsGrow(trace, labels, i, i + 1);
      RevisionsGrow(trace, labels, i + 1, j);
      RevisionStaysIff(trace, labels, i + 1, j);
      assert StepAt(trace, labels, i);
      assert Moves(trace, labels, i) <==> Revision(trace[i].stored) != Revision(trace[i + 1].stored);
    }
  }

  // The author of the write at `j` read at step `i`, and not again.
  predicate ReadAt(labels: seq<Label>, i: nat, j: nat) {
    && i < j < |labels| && labels[j].WriteGuarded? && labels[i].Open? && labels[i].id == labels[j].id
    && forall k :: i < k < j ==> !(labels[k].Open? && labels[k].id == labels[j].id)
  }

  // A write lands if and only if its desks exist and no write moved the revision
  // since its author read; a clone must also have read an empty draft.
  lemma WriteLandsIff(trace: seq<World>, labels: seq<Label>, i: nat, j: nat)
    requires IsRun(trace, labels) && ReadAt(labels, i, j)
    ensures Succeeds(trace[j], labels[j]) <==>
            && labels[j].desksExist && (labels[i].clone ==> ReadBytes(trace[i].stored) == "")
            && forall k :: i <= k < j ==> !Moves(trace, labels, k)
  {
    assert StepAt(trace, labels, i);
    SeenStays(trace, labels, labels[j].id, i + 1, j);
    RevisionStaysIff(trace, labels, i, j);
  }

  // Of two authors who both read before either wrote, at most one lands; two racing
  // clones of an empty draft, with no other write in between: exactly the first.
  lemma OneOfTwoRacersLands(trace: seq<World>, labels: seq<Label>, i: nat, h: nat, first: nat, second: nat)
    requires IsRun(trace, labels) && ReadAt(labels, i, first) && ReadAt(labels, h, second) && h < first < second
    ensures Succeeds(trace[first], labels[first]) ==> !Succeeds(trace[second], labels[second])
    ensures (labels[i].clone ==> ReadBytes(trace[i].stored) == "") && labels[first].desksExist &&
            (forall k :: i <= k < first ==> !Moves(trace, labels, k)) ==>
              Succeeds(trace[first], labels[first]) && !Succeeds(trace[second], labels[second])
  {
    WriteLandsIff(trace, labels, i, first);
    WriteLandsIff(trace, labels, h, second);
    assert Succeeds(trace[first], labels[first]) ==> Moves(trace, labels, first);
  }

  // The last upsert before step `j`: it wrote other bytes than the author of the
  // write at `j` read, at the revision they read.
  predicate Clobbers(trace: seq<World>, labels: seq<Label>, k: nat, j: nat, seen: Seen) {
    && k < j < |labels| && k < |trace| && labels[k].UpsertBlind? && labels[k].bytes != seen.bytes
    && Revision(trace[k].stored) == seen.revision && forall m :: k < m < j ==> !labels[m].UpsertBlind?
  }

  lemma {:induction false} LastUpsert(labels: seq<Label>, i: nat, j: nat) returns (k: nat)
    requires i < j <= |labels| && exists m :: i <= m < j && labels[m].UpsertBlind?
    ensures i <= k < j && labels[k].UpsertBlind? && forall m :: k < m < j ==> !labels[m].UpsertBlind?
    decreases j
  {
    if labels[j - 1].UpsertBlind? {
      return j - 1;
    }
    k := LastUpsert(labels, i, j - 1);
  }

  // What a caller of the retained unguarded upsert would break: a write that lands
  // replaces bytes its author did not read if and only if an upsert changed them at the
  // revision read.
  lemma UnreadIsOverwrittenIff(trace: seq<World>, labels: seq<Label>, j: nat)
    requires IsRun(trace, labels) && j < |labels| && Succeeds(trace[j], labels[j])
    ensures var seen := trace[j].authors[labels[j].id];
            ReadBytes(trace[j].stored) != seen.bytes <==> exists k :: Clobbers(trace, labels, k, j, seen)
  {
    var seen := trace[j].authors[labels[j].id];
    var i := ReadHappened(trace, labels, j, labels[j].id);
    if k :| Clobbers(trace, labels, k, j, seen) {
      AfterUpsert(trace, labels, k, j);
    }
    if ReadBytes(trace[j].stored) != seen.bytes {
      if forall k :: i <= k < j ==> !labels[k].UpsertBlind? {
        SameRevisionSameBytes(trace, labels, i, j);
      }
      var k := LastUpsert(labels, i, j);
      RevisionsGrow(trace, labels, i, k);
      RevisionsGrow(trace, labels, k, j);
      AfterUpsert(trace, labels, k, j);
      assert Clobbers(trace, labels, k, j, seen);
    }
  }

  lemma AfterUpsert(trace: seq<World>, labels: seq<Label>, k: nat, j: nat)
    requires IsRun(trace, labels) && k < j < |trace| && labels[k].UpsertBlind?
    requires Revision(trace[k].stored) == Revision(trace[j].stored)
    requires forall m :: k < m < j ==> !labels[m].UpsertBlind?
    ensures ReadBytes(trace[j].stored) == labels[k].bytes
  {
    assert StepAt(trace, labels, k);
    SameRevisionSameBytes(trace, labels, k + 1, j);
  }

  // With such a caller, for example, a clone lands on bytes nobody showed its author.
  lemma UpsertIsOverwritten(bytes: Bytes, copy: Bytes)
    requires bytes != ""
    ensures exists trace: seq<World>, labels: seq<Label> ::
              && IsRun(trace, labels) && |labels| == 3 && Succeeds(trace[2], labels[2])
              && 0 in trace[2].authors && trace[2].authors[0].clone && ReadBytes(trace[2].stored) == bytes && ReadBytes(trace[3].stored) == copy
  {
    var w0 := World(None, map[]);
    var w1 := World(None, map[0 := Seen("", 0, true)]);
    var w2 := w1.(stored := Some(Draft(Some(bytes), 0)));
    var w3 := w1.(stored := Some(Draft(Some(copy), 1)));
    var trace, labels := [w0, w1, w2, w3], [Open(0, true), UpsertBlind(bytes), WriteGuarded(0, copy, true)];
    assert StepAt(trace, labels, 0) && StepAt(trace, labels, 1) && StepAt(trace, labels, 2);
    assert IsRun(trace, labels);
  }
}
