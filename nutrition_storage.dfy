/** The nutrition history: one JSON array of entries stored under the key
    "nutrition_history" of the device's key-value store, newest first.
    The store is a single cell; `None` is a key that holds nothing.
    Whether a read or a write of the cell throws is a parameter of each
    operation, and so is the wall clock. */
module NutritionStorage {
  import opened Wrappers
  import opened NutritionTypes
  import Seqs

  datatype NutritionEntry = NutritionEntry(
    id: string,
    foodLabel: string,
    nutrients: seq<Nutrient>,
    imagePath: string,
    savedAt: string)

  /** What the key-value store does on this call: whether `getItem`
      (with the JSON parse) and `setItem` return or throw. */
  datatype StorageAccess = StorageAccess(readSucceeds: bool, writeSucceeds: bool)

  datatype StorageError = ReadFailed | WriteFailed

  /** The reading of the clock at save time: `Date.now()` and
      `new Date().toDateString()`. */
  datatype Clock = Clock(millis: nat, dateString: string)

  function DigitChar(d: nat): (c: char)
    requires d < 10
    ensures '0' <= c <= '9'
  {
    "0123456789"[d]
  }

  /** `n.toString()` for a non-negative integer: its decimal digits. */
  function DecimalString(n: nat): (s: string)
    ensures |s| > 0
    ensures forall i :: 0 <= i < |s| ==> '0' <= s[i] <= '9'
  {
    if n < 10 then [DigitChar(n)] else DecimalString(n / 10) + [DigitChar(n % 10)]
  }

  /** Different millisecond counts give different ids. */
  lemma {:induction false} DecimalStringInjective(m: nat, n: nat)
    ensures DecimalString(m) == DecimalString(n) ==> m == n
  {
    if DecimalString(m) == DecimalString(n) {
      if m >= 10 && n >= 10 {
        var dm, dn := DecimalString(m / 10), DecimalString(n / 10);
        assert DecimalString(m)[..|dm|] == dm;
        assert DecimalString(n)[..|dn|] == dn;
        assert DigitChar(m % 10) == DigitChar(n % 10);
        DecimalStringInjective(m / 10, n / 10);
      } else if m < 10 && n < 10 {
        assert DigitChar(m) == DigitChar(n);
      }
    }
  }

  function IdIsNot(id: string): NutritionEntry -> bool {
    (e: NutritionEntry) => e.id != id
  }

  /** `entries.filter(entry => entry.id !== id)`. */
  function WithoutId(entries: seq<NutritionEntry>, id: string): seq<NutritionEntry> {
    Seqs.Filter(entries, IdIsNot(id))
  }

  /** After the delete, no entry carries the id, duplicates included. */
  lemma DeleteRemovesEveryMatch(entries: seq<NutritionEntry>, id: string)
    ensures forall e :: e in WithoutId(entries, id) ==> e.id != id
  {
    Seqs.FilterMembers(entries, IdIsNot(id));
  }

  /** The delete keeps every other entry, as often as it occurred, and
      keeps their relative order. */
  lemma DeleteKeepsOthers(entries: seq<NutritionEntry>, id: string)
    ensures forall e: NutritionEntry :: e.id != id ==> multiset(WithoutId(entries, id))[e] == multiset(entries)[e]
    ensures Seqs.IsSubsequence(WithoutId(entries, id), entries)
  {
    Seqs.FilterCounts(entries, IdIsNot(id));
    Seqs.FilterIsSubsequence(entries, IdIsNot(id));
  }

  /** Deleting an id that no entry has changes nothing. */
  lemma DeleteAbsentIsIdentity(entries: seq<NutritionEntry>, id: string)
    requires forall i :: 0 <= i < |entries| ==> entries[i].id != id
    ensures WithoutId(entries, id) == entries
  {
    Seqs.FilterAllPass(entries, IdIsNot(id));
  }

  lemma DeleteIdempotent(entries: seq<NutritionEntry>, id: string)
    ensures WithoutId(WithoutId(entries, id), id) == WithoutId(entries, id)
  {
    Seqs.FilterIdempotent(entries, IdIsNot(id));
  }

  /** Deleting the entry a save just put in front restores the previous
      history, provided no older entry has the same id (two saves in the
      same millisecond get the same id). */
  lemma SaveThenDeleteRestores(entry: NutritionEntry, previous: seq<NutritionEntry>)
    requires forall i :: 0 <= i < |previous| ==> previous[i].id != entry.id
    ensures WithoutId([entry] + previous, entry.id) == previous
  {
    Seqs.FilterConcat([entry], previous, IdIsNot(entry.id));
    Seqs.FilterAllPass(previous, IdIsNot(entry.id));
  }

  /** The entry a save puts in front is removed again by deleting its id,
      restoring the previous history, whenever every earlier entry was
      saved in another millisecond. */
  lemma SaveInNewMillisecondThenDeleteRestores(entry: NutritionEntry, clock: Clock, previous: seq<NutritionEntry>, savedAt: seq<nat>)
    requires entry.id == DecimalString(clock.millis)
    requires |savedAt| == |previous|
    requires forall i :: 0 <= i < |previous| ==> previous[i].id == DecimalString(savedAt[i]) && savedAt[i] != clock.millis
    ensures WithoutId([entry] + previous, entry.id) == previous
  {
    forall i | 0 <= i < |previous| ensures previous[i].id != entry.id {
      DecimalStringInjective(savedAt[i], clock.millis);
    }
    SaveThenDeleteRestores(entry, previous);
  }

  class NutritionHistory {
    /** The value under the history key; `None` when nothing is stored. */
    var stored: Option<seq<NutritionEntry>>

    constructor (initial: Option<seq<NutritionEntry>>)
      ensures stored == initial
    {
      stored := initial;
    }

    /** The history as a read sees it: an empty key reads as `[]`. */
    function Entries(): seq<NutritionEntry>
      reads this
    {
      if stored.Some? then stored.value else []
    }

    /** `saveNutritionEntry(data)`: reads the history, puts a new entry
        built from `data` and the clock in front, writes the history back
        and returns the entry. A failed read or write is rethrown and
        leaves the store as it was. */
    method SaveNutritionEntry(data: (string, seq<Nutrient>, string), clock: Clock, access: StorageAccess)
      returns (r: Result<NutritionEntry, StorageError>)
      modifies this
      ensures !access.readSucceeds ==> r == Failure(ReadFailed) && stored == old(stored)
      ensures access.readSucceeds && !access.writeSucceeds ==> r == Failure(WriteFailed) && stored == old(stored)
      ensures access.readSucceeds && access.writeSucceeds ==>
        && r.Success?
        && r.value == NutritionEntry(DecimalString(clock.millis), data.0, data.1, data.2, clock.dateString)
        && stored == Some([r.value] + old(Entries()))
        && |Entries()| == |old(Entries())| + 1
    {
      if !access.readSucceeds {
        return Failure(ReadFailed);
      }
      var existing := Entries();
      var newEntry := NutritionEntry(DecimalString(clock.millis), data.0, data.1, data.2, clock.dateString);
      existing := [newEntry] + existing;
      if !access.writeSucceeds {
        return Failure(WriteFailed);
      }
      stored := Some(existing);
      r := Success(newEntry);
    }

    /** `getNutritionData()`: the stored history, or `[]` when nothing is
        stored or the read throws. It never fails. */
    method GetNutritionData(access: StorageAccess) returns (entries: seq<NutritionEntry>)
      ensures access.readSucceeds && stored.Some? ==> entries == stored.value
      ensures stored.None? ==> entries == []
      ensures !access.readSucceeds ==> entries == []
    {
      if !access.readSucceeds {
        return [];
      }
      entries := Entries();
    }

    /** `deleteNutritionEntry(id)`: reads through `getNutritionData`, drops
        every entry with the id and writes the rest back. Because that read
        swallows its failure, a failed read followed by a successful write
        stores the empty history. A failed write is rethrown and leaves the
        store as it was. */
    method DeleteNutritionEntry(id: string, access: StorageAccess) returns (r: Result<(), StorageError>)
      modifies this
      ensures !access.writeSucceeds ==> r == Failure(WriteFailed) && stored == old(stored)
      ensures access.writeSucceeds ==> r == Success(())
      ensures access.writeSucceeds && access.readSucceeds ==> stored == Some(WithoutId(old(Entries()), id))
      ensures access.writeSucceeds && !access.readSucceeds ==> stored == Some([])
    {
      var existing := GetNutritionData(access);
      var updated := WithoutId(existing, id);
      if !access.writeSucceeds {
        return Failure(WriteFailed);
      }
      stored := Some(updated);
      r := Success(());
    }
  }
}
