/** The device key-value store entry under the key 'meldingen' and the
    edit-save that reads it, replaces one report by id and writes it back. */
module Store {
  import opened MeldingType
  import opened Replace

  /** What the key 'meldingen' holds: nothing yet, a report list, or a
      corrupt payload. `Corrupt` stands for text that `JSON.parse` rejects
      and for text that parses to something without a `map` (such as
      `null` or an object); the edit-save throws on both. */
  datatype Entry<L> = Absent | Stored(meldingen: seq<Melding<L>>) | Corrupt

  /** The failures that the edit-save catches. */
  datatype StoreError = ReadFailed | ParseFailed | WriteFailed

  datatype Parsed<L> = ParseOk(meldingen: seq<Melding<L>>) | ParseError

  /** What an edit-save ends in. Only `Saved` lets the form signal its caller. */
  datatype SaveOutcome = Saved | Failed(error: StoreError)

  /** The entry after an edit-save together with its outcome. */
  datatype SaveStep<L> = SaveStep(entry: Entry<L>, outcome: SaveOutcome)

  /** Decoding the value read from the store: an absent value counts as the
      empty list; a corrupt one is an error, not an empty list. */
  function Parse<L>(e: Entry<L>): (p: Parsed<L>)
    ensures p.ParseError? <==> e.Corrupt?
    ensures e.Absent? ==> p == ParseOk([])
    ensures e.Stored? ==> p == ParseOk(e.meldingen)
  {
    match e
    case Absent => ParseOk([])
    case Stored(s) => ParseOk(s)
    case Corrupt => ParseError
  }

  /** The state change and outcome of one edit-save, given whether the read
      and the write of the device store succeed. */
  function SaveSpec<L>(e: Entry<L>, id: string, updated: Melding<L>, readOk: bool, writeOk: bool): (r: SaveStep<L>)
    ensures r.outcome.Saved? <==> readOk && !e.Corrupt? && writeOk
    ensures !r.outcome.Saved? ==> r.entry == e
    ensures r.outcome.Saved? ==> r.entry.Stored? && |r.entry.meldingen| == |Parse(e).meldingen|
  {
    if !readOk then SaveStep(e, Failed(ReadFailed))
    else match Parse(e)
      case ParseError => SaveStep(e, Failed(ParseFailed))
      case ParseOk(s) =>
        if !writeOk then SaveStep(e, Failed(WriteFailed))
        else SaveStep(Stored(ReplaceById(s, id, updated)), Saved)
  }

  /** The save succeeds exactly when the read, the decoding and the write
      all succeed; a failed save leaves the store untouched. */
  lemma SaveSucceedsIff<L>(e: Entry<L>, id: string, updated: Melding<L>, readOk: bool, writeOk: bool)
    ensures SaveSpec(e, id, updated, readOk, writeOk).outcome.Saved? <==> readOk && !e.Corrupt? && writeOk
    ensures SaveSpec(e, id, updated, readOk, writeOk).outcome == Failed(ReadFailed) <==> !readOk
    ensures SaveSpec(e, id, updated, readOk, writeOk).outcome == Failed(ParseFailed) <==> readOk && e.Corrupt?
    ensures !SaveSpec(e, id, updated, readOk, writeOk).outcome.Saved? ==> SaveSpec(e, id, updated, readOk, writeOk).entry == e
  {
  }

  /** A successful save writes a list of exactly the length that was read,
      with matching entries replaced and every other entry kept in place. */
  lemma SaveReplaces<L>(s: seq<Melding<L>>, id: string, updated: Melding<L>)
    ensures SaveSpec(Stored(s), id, updated, true, true).outcome == Saved
    ensures SaveSpec(Stored(s), id, updated, true, true).entry.Stored?
    ensures |SaveSpec(Stored(s), id, updated, true, true).entry.meldingen| == |s|
    ensures forall k :: 0 <= k < |s| && s[k].id == id ==>
              SaveSpec(Stored(s), id, updated, true, true).entry.meldingen[k] == updated
    ensures forall k :: 0 <= k < |s| && s[k].id != id ==>
              SaveSpec(Stored(s), id, updated, true, true).entry.meldingen[k] == s[k]
  {
    ReplaceSpec(s, id, updated);
  }

  /** Saving a report whose id is not stored leaves the store as it was,
      whether or not the write succeeds. */
  lemma SaveMissingIsNoop<L>(s: seq<Melding<L>>, id: string, updated: Melding<L>, readOk: bool, writeOk: bool)
    requires forall k :: 0 <= k < |s| ==> s[k].id != id
    ensures SaveSpec(Stored(s), id, updated, readOk, writeOk).entry == Stored(s)
  {
    ReplaceMissing(s, id, updated);
  }

  /** When the key has never been written, a successful save writes the
      empty list. */
  lemma SaveAbsentWritesEmpty<L>(id: string, updated: Melding<L>)
    ensures SaveSpec(Absent, id, updated, true, true) == SaveStep(Stored([]), Saved)
  {
    assert ReplaceById([], id, updated) == [];
  }

  /** With unique ids, a successful save of a stored report puts the update
      at that report's position and keeps the rest of the list. */
  lemma SaveUnique<L>(s: seq<Melding<L>>, updated: Melding<L>, k: nat)
    requires UniqueIds(s) && k < |s|
    ensures SaveSpec(Stored(s), s[k].id, updated, true, true).entry == Stored(s[..k] + [updated] + s[k + 1..])
  {
    ReplaceUnique(s, s[k].id, updated, k);
  }

  /** Repeating a successful save of the identical record (same timestamp)
      changes nothing more. */
  lemma SaveIdempotent<L>(e: Entry<L>, id: string, updated: Melding<L>)
    ensures var once := SaveSpec(e, id, updated, true, true).entry;
            SaveSpec(once, id, updated, true, true).entry == once
  {
    if !e.Corrupt? {
      ReplaceIdempotent(Parse(e).meldingen, id, updated);
    }
  }

  /** The local report store: one key whose value is the whole list. */
  class MeldingStore<L> {
    var entry: Entry<L>

    constructor (initial: Entry<L>)
      ensures entry == initial
    {
      entry := initial;
    }

    /** Reads the value under the key; `readOk` is whether the device read
        succeeds. */
    method GetItem(readOk: bool) returns (ok: bool, value: Entry<L>)
      ensures ok == readOk
      ensures ok ==> value == entry
    {
      ok := readOk;
      value := if ok then entry else Absent;
    }

    /** Writes the whole list under the key; `writeOk` is whether the device
        write succeeds. A failed write leaves the old value. */
    method SetItem(meldingen: seq<Melding<L>>, writeOk: bool) returns (ok: bool)
      modifies this
      ensures ok == writeOk
      ensures entry == if ok then Stored(meldingen) else old(entry)
    {
      ok := writeOk;
      if ok {
        entry := Stored(meldingen);
      }
    }

    /** Read, replace by id, write back: the edit-save of one report. */
    method Save(id: string, updated: Melding<L>, readOk: bool, writeOk: bool) returns (outcome: SaveOutcome)
      modifies this
      ensures SaveStep(entry, outcome) == SaveSpec(old(entry), id, updated, readOk, writeOk)
    {
      var ok, stored := GetItem(readOk);
      if !ok {
        return Failed(ReadFailed);
      }
      var meldingen: seq<Melding<L>>;
      match Parse(stored) {
        case ParseError =>
          return Failed(ParseFailed);
        case ParseOk(s) =>
          meldingen := s;
      }
      meldingen := ReplaceById(meldingen, id, updated);
      ok := SetItem(meldingen, writeOk);
      if !ok {
        return Failed(WriteFailed);
      }
      outcome := Saved;
    }
  }
}
