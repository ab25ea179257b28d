/** The report record and the fixed category choices of the edit form. */
module MeldingType {

  /** A defect report. The location is a device position record whose
      coordinates are floating-point numbers; it is kept opaque as `L`. */
  datatype Melding<L> = Melding(
    id: string,
    image: string,        // local file reference of the photo
    description: string,
    location: L,
    category: string,
    monteurName: string,  // name of the technician
    timestamp: int        // epoch milliseconds of the most recent write
  )

  /** One entry of the category picker: the text shown and the value stored. */
  datatype PickerItem = PickerItem(caption: string, value: string)

  /** The four items the category picker offers, in display order. */
  const PickerItems: seq<PickerItem> := [
    PickerItem("Grondkabels", "Grondkabels"),
    PickerItem("Hoogspanningsmasten", "Hoogspanningsmasten"),
    PickerItem("Luchtkabels", "Luchtkabels"),
    PickerItem("Schakelkasten", "Schakelkasten")
  ]

  /** The values the picker can hand to the category setter. */
  function CategoryChoices(): (cs: seq<string>)
    ensures cs == ["Grondkabels", "Hoogspanningsmasten", "Luchtkabels", "Schakelkasten"]
  {
    seq(|PickerItems|, i requires 0 <= i < |PickerItems| => PickerItems[i].value)
  }

  /** Each picker item shows exactly the value it stores, and no two items
      store the same value, so a stored category names one item. */
  lemma PickerItemsWellFormed()
    ensures |PickerItems| == 4
    ensures forall i :: 0 <= i < |PickerItems| ==> PickerItems[i].caption == PickerItems[i].value
    ensures forall i, j :: 0 <= i < j < |CategoryChoices()| ==> CategoryChoices()[i] != CategoryChoices()[j]
  {
  }
}
