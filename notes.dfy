/**
 * Default identifier of the `notes` table
 * (durable-objects-database-per-user/src/db/notes.ts): `note_` followed by a
 * 16-letter lowercase string from that file's own `randomString`.
 */
module Notes {

  import opened Wrappers
  import opened Schemas

  const NotePrefix: string := "note_"

  /** That file's `randomString(length)`, the same counted fill of a `length`-slot array. */
  method RandomString(draws: seq<Draw>, length: nat) returns (s: string)
    requires |draws| >= length
    ensures |s| == length
    ensures AllLower(s)
    ensures forall i :: 0 <= i < length ==> s[i] == Alphabet[draws[i]]
  {
    var resultArray := new char[length];
    var i := 0;
    while i < length
      invariant 0 <= i <= length
      invariant forall j :: 0 <= j < i ==> resultArray[j] == Alphabet[draws[j]]
    {
      var randomIndex := draws[i];
      resultArray[i] := Alphabet[randomIndex];
      i := i + 1;
    }
    s := resultArray[..];
  }

  /** The `$defaultFn` of `notes.id`: `` `note_${randomString()}` ``. */
  method DefaultNoteId(draws: seq<Draw>) returns (id: string)
    requires |draws| >= DefaultLength
    ensures |id| == |NotePrefix| + DefaultLength == 21
    ensures id[..|NotePrefix|] == NotePrefix
    ensures AllLower(id[|NotePrefix|..])
    ensures id == NotePrefix + Letters(draws[..DefaultLength])
  {
    var suffix := RandomString(draws, DefaultLength);
    assert suffix == Letters(draws[..DefaultLength]);
    id := NotePrefix + suffix;
    assert id[|NotePrefix|..] == suffix;
  }

  /** A note id given by the caller is kept; otherwise the default applies. */
  method NoteId(given: Option<string>, draws: seq<Draw>) returns (id: string)
    requires |draws| >= DefaultLength
    ensures given.Some? ==> id == given.value
    ensures given.None? ==> |id| == 21 && id[..5] == "note_" && AllLower(id[5..])
    ensures given.None? ==> id == NotePrefix + Letters(draws[..DefaultLength])
  {
    match given
    case Some(g) => id := g;
    case None => id := DefaultNoteId(draws);
  }
}
