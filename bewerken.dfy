/** The edit form for one stored report: its field state, the edit-save
    and the e-mail action. */
module Bewerken {
  import opened MeldingType
  import opened Store
  import Mail

  class MeldingBewerken<L> {
    /** The report being edited, as it was handed to the form. */
    const melding: Melding<L>
    /** Form state without a setter: taken once from the report. */
    const image: string
    const location: L
    /** Form state the user edits. */
    var description: string
    var category: string
    var monteurName: string

    /** The image and location are the report's own, and the category is
        the report's own or one the picker offers. */
    ghost predicate Valid()
      reads this
    {
      && image == melding.image
      && location == melding.location
      && (category == melding.category || category in CategoryChoices())
    }

    constructor (m: Melding<L>)
      ensures Valid()
      ensures melding == m
      ensures description == m.description && category == m.category && monteurName == m.monteurName
    {
      melding := m;
      image := m.image;
      location := m.location;
      description := m.description;
      category := m.category;
      monteurName := m.monteurName;
    }

    method SetDescription(d: string)
      requires Valid()
      modifies this
      ensures Valid()
      ensures description == d && category == old(category) && monteurName == old(monteurName)
    {
      description := d;
    }

    /** The picker hands over one of the values it offers. */
    method SetCategory(c: string)
      requires Valid()
      requires c in CategoryChoices()
      modifies this
      ensures Valid()
      ensures category == c && description == old(description) && monteurName == old(monteurName)
    {
      category := c;
    }

    method SetMonteurName(n: string)
      requires Valid()
      modifies this
      ensures Valid()
      ensures monteurName == n && description == old(description) && category == old(category)
    {
      monteurName := n;
    }

    /** The updated record: the original id, image and location, the
        edited fields, and the time of the save. */
    function Updated(now: int): (r: Melding<L>)
      requires Valid()
      reads this
      ensures r.id == melding.id && r.image == melding.image && r.location == melding.location
      ensures r.description == description && r.category == category && r.monteurName == monteurName
      ensures r.timestamp == now
      ensures r.category == melding.category || r.category in CategoryChoices()
    {
      melding.(description := description, location := location, category := category,
               monteurName := monteurName, timestamp := now)
    }

    /** Saves the edit into the store and reports whether the caller's
        completion callback runs, which it does only after the write. */
    method Opslaan(store: MeldingStore<L>, now: int, readOk: bool, writeOk: bool) returns (onSaveCalled: bool)
      requires Valid()
      modifies store
      ensures store.entry == SaveSpec(old(store.entry), melding.id, Updated(now), readOk, writeOk).entry
      ensures onSaveCalled == SaveSpec(old(store.entry), melding.id, Updated(now), readOk, writeOk).outcome.Saved?
      ensures onSaveCalled <==> readOk && !old(store.entry).Corrupt? && writeOk
    {
      var bijgewerkt := Updated(now);
      var outcome := store.Save(melding.id, bijgewerkt, readOk, writeOk);
      SaveSucceedsIff(old(store.entry), melding.id, bijgewerkt, readOk, writeOk);
      onSaveCalled := outcome.Saved?;
    }

    /** The e-mail action of the form. The location always comes from the
        report, so only the image, description and name can be missing. */
    function SendEmail(coords: L -> (string, string)): (r: Mail.SendResult)
      requires Valid()
      reads this
      ensures r.Compose? <==> image != "" && description != "" && monteurName != ""
      ensures r.Compose? ==> r.options.attachments == [melding.image]
      ensures r.Compose? ==> r.options.subject == Mail.SubjectPrefix + category
    {
      Mail.SendEmail(image, description, Mail.Some(location), monteurName, category, coords)
    }
  }
}
