/** The replace-by-id step of an edit-save: a `map` over the stored list
    that swaps in the updated report wherever the id matches. */
module Replace {
  import opened MeldingType

  /** Every entry whose id equals `id` becomes `updated`; every other entry
      is kept. Written as the element-by-element walk that `map` performs. */
  function ReplaceById<L>(s: seq<Melding<L>>, id: string, updated: Melding<L>): (r: seq<Melding<L>>)
    ensures |r| == |s|
  {
    if s == [] then []
    else [if s[0].id == id then updated else s[0]] + ReplaceById(s[1..], id, updated)
  }

  /** The ids of a list, in order. */
  function Ids<L>(s: seq<Melding<L>>): (ids: seq<string>)
    ensures |ids| == |s|
    ensures forall k :: 0 <= k < |s| ==> ids[k] == s[k].id
  {
    seq(|s|, k requires 0 <= k < |s| => s[k].id)
  }

  /** No two entries of the list share an id. */
  predicate UniqueIds<L>(s: seq<Melding<L>>)
  {
    forall i, j :: 0 <= i < j < |s| ==> s[i].id != s[j].id
  }

  /** Position by position: a matching entry is the updated report, any
      other entry is the one that was there. */
  lemma {:induction false} ReplaceAt<L>(s: seq<Melding<L>>, id: string, updated: Melding<L>, k: nat)
    requires k < |s|
    ensures ReplaceById(s, id, updated)[k] == if s[k].id == id then updated else s[k]
  {
    if k > 0 {
      ReplaceAt(s[1..], id, updated, k - 1);
    }
  }

  /** The whole list: same length, matching entries replaced, the others
      unchanged and at the same position. */
  lemma ReplaceSpec<L>(s: seq<Melding<L>>, id: string, updated: Melding<L>)
    ensures |ReplaceById(s, id, updated)| == |s|
    ensures forall k :: 0 <= k < |s| && s[k].id == id ==> ReplaceById(s, id, updated)[k] == updated
    ensures forall k :: 0 <= k < |s| && s[k].id != id ==> ReplaceById(s, id, updated)[k] == s[k]
  {
    forall k | 0 <= k < |s|
      ensures ReplaceById(s, id, updated)[k] == if s[k].id == id then updated else s[k]
    {
      ReplaceAt(s, id, updated, k);
    }
  }

  /** When no entry carries the id, the list comes back as it was: the
      updated report is not appended. */
  lemma {:induction false} ReplaceMissing<L>(s: seq<Melding<L>>, id: string, updated: Melding<L>)
    requires forall k :: 0 <= k < |s| ==> s[k].id != id
    ensures ReplaceById(s, id, updated) == s
  {
    if s != [] {
      ReplaceMissing(s[1..], id, updated);
      assert s == [s[0]] + s[1..];
    }
  }

  /** Saving the same edit twice leaves the list as saving it once. */
  lemma {:induction false} ReplaceIdempotent<L>(s: seq<Melding<L>>, id: string, updated: Melding<L>)
    ensures ReplaceById(ReplaceById(s, id, updated), id, updated) == ReplaceById(s, id, updated)
  {
    if s != [] {
      ReplaceIdempotent(s[1..], id, updated);
      var r := ReplaceById(s, id, updated);
      assert r[1..] == ReplaceById(s[1..], id, updated);
    }
  }

  /** When the updated report keeps the id it replaces, the list of ids is
      unchanged; in particular ids that were unique stay unique. */
  lemma ReplaceKeepsIds<L>(s: seq<Melding<L>>, id: string, updated: Melding<L>)
    requires updated.id == id
    ensures Ids(ReplaceById(s, id, updated)) == Ids(s)
    ensures UniqueIds(s) ==> UniqueIds(ReplaceById(s, id, updated))
  {
    ReplaceSpec(s, id, updated);
    var r := ReplaceById(s, id, updated);
    assert forall k :: 0 <= k < |s| ==> r[k].id == s[k].id;
  }

  /** With unique ids, the report with the edited id appears exactly at
      the position it had, now as the updated report. */
  lemma ReplaceUnique<L>(s: seq<Melding<L>>, id: string, updated: Melding<L>, k: nat)
    requires UniqueIds(s) && k < |s| && s[k].id == id
    ensures ReplaceById(s, id, updated) == s[..k] + [updated] + s[k + 1..]
  {
    ReplaceSpec(s, id, updated);
    var r := ReplaceById(s, id, updated);
    var t := s[..k] + [updated] + s[k + 1..];
    forall j | 0 <= j < |s| ensures r[j] == t[j] {
      if j != k {
        assert s[j].id != id;
      }
    }
  }
}
