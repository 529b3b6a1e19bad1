/** The "Visit & Log" form: a shop name, a medicine chosen from the catalogue and a
    quantity; a submit computes the line's value and profit and logs one sales record at
    the position the device reports. Money is exact (`real`). */
module SalesEntry {
  import opened Types
  import opened Text
  import opened Constants
  import opened AppState

  /** `price * quantity` */
  function LineValue(med: Medicine, quantity: int): real {
    med.price * quantity as real
  }

  /** `value * profitMargin` */
  function LineProfit(med: Medicine, quantity: int): real {
    LineValue(med, quantity) * med.profitMargin
  }

  /** For a catalogue medicine and a positive quantity the profit is positive and below the
      value; a negative quantity, which the `|| 1` fallback does not reject, gives a
      negative value and profit. */
  lemma LineFigureSigns(i: int, quantity: int)
    requires 0 <= i < |Catalogue|
    ensures quantity >= 1 ==>
      0.0 < LineProfit(Catalogue[i], quantity) < LineValue(Catalogue[i], quantity)
    ensures quantity < 0 ==>
      LineValue(Catalogue[i], quantity) < 0.0 && LineProfit(Catalogue[i], quantity) < 0.0
  {
    CatalogueWellFormed();
    var m := Catalogue[i];
    var v := LineValue(m, quantity);
    if quantity >= 1 {
      assert v >= m.price > 0.0;
      assert v * m.profitMargin < v * 1.0;
    } else if quantity < 0 {
      assert v <= -m.price < 0.0;
      assert v * m.profitMargin < 0.0;
    }
  }

  /** The longest run of digits at the start of `s`. */
  function LeadingDigits(s: string): (r: string)
    ensures AllDigits(r) && r <= s
    ensures |r| == |s| || !IsDigit(s[|r|])
    ensures AllDigits(s) ==> r == s
  {
    if s == [] || !IsDigit(s[0]) then [] else [s[0]] + LeadingDigits(s[1..])
  }

  /** `parseInt(s)`: an optional sign and the digits that follow it; no digits is NaN,
      written `None`. */
  function ParseInt(s: string): Option<int> {
    var signed := |s| > 0 && (s[0] == '-' || s[0] == '+');
    var digits := LeadingDigits(if signed then s[1..] else s);
    if digits == [] then None
    else if |s| > 0 && s[0] == '-' then Some(-(DigitsValue(digits) as int))
    else Some(DigitsValue(digits))
  }

  /** The quantity field's `parseInt(value) || 1`: NaN and 0 both become 1. */
  function QuantityFromInput(input: string): (q: int)
    ensures q != 0
    ensures ParseInt(input).None? || ParseInt(input) == Some(0) ==> q == 1
    ensures ParseInt(input).Some? && ParseInt(input).value != 0 ==> q == ParseInt(input).value
  {
    match ParseInt(input)
    case None => 1
    case Some(n) => if n == 0 then 1 else n
  }

  /** A run of digits is read as its value (0 read as 1), and a minus sign in front of a
      non-zero value is kept: the `|| 1` fallback does not reject negative numbers. */
  lemma QuantityOfDigits(d: string)
    requires d != [] && AllDigits(d)
    ensures QuantityFromInput(d) == if DigitsValue(d) == 0 then 1 else DigitsValue(d)
    ensures DigitsValue(d) != 0 ==> QuantityFromInput("-" + d) == -(DigitsValue(d) as int)
  {
    assert ("-" + d)[1..] == d;
  }

  /** `MOCK_MEDICINES.find(m => m.name === name)` over any list of entries. */
  function FindByName(meds: seq<Medicine>, name: string): (r: Option<Medicine>)
    ensures r.None? <==> forall i :: 0 <= i < |meds| ==> meds[i].name != name
    ensures r.Some? ==> r.value in meds && r.value.name == name
  {
    if meds == [] then None
    else if meds[0].name == name then Some(meds[0])
    else FindByName(meds[1..], name)
  }

  class VisitForm {
    const user: User
    const store: AppStore
    var shopName: string
    var selectedMed: Medicine
    var quantity: int
    var success: bool

    constructor (user: User, store: AppStore)
      ensures this.user == user && this.store == store
      ensures shopName == "" && selectedMed == Catalogue[0] && quantity == 1 && !success
    {
      this.user := user;
      this.store := store;
      shopName := "";
      selectedMed := Catalogue[0];
      quantity := 1;
      success := false;
    }

    /** The "Value" tile shown under the form. */
    function ShownValue(): real
      reads this
    {
      selectedMed.price * quantity as real
    }

    method SetShopName(s: string)
      modifies this`shopName
      ensures shopName == s
    {
      shopName := s;
    }

    /** Choosing a name in the medicine list; a name not in the catalogue changes nothing. */
    method SelectMedicine(name: string)
      modifies this`selectedMed
      ensures FindByName(Catalogue, name).Some? ==> selectedMed == FindByName(Catalogue, name).value
      ensures FindByName(Catalogue, name).None? ==> selectedMed == old(selectedMed)
      ensures selectedMed.name == name || selectedMed == old(selectedMed)
    {
      var med := FindByName(Catalogue, name);
      if med.Some? {
        selectedMed := med.value;
      }
    }

    method SetQuantity(input: string)
      modifies this`quantity
      ensures quantity == QuantityFromInput(input)
    {
      quantity := QuantityFromInput(input);
    }

    /** `handleSubmit`: with an empty shop name nothing happens. Otherwise, once the
        position arrives (`None`: it never does), one record for the selected medicine and
        quantity is logged, the shop name is cleared and the quantity reset to 1. */
    method HandleSubmit(id: string, timestamp: string, position: Option<Location>)
      modifies this`shopName, this`quantity, this`success, store`salesData
      ensures selectedMed == old(selectedMed)
      ensures old(shopName) == "" || position.None? ==>
        shopName == old(shopName) && quantity == old(quantity) && success == old(success) &&
        store.salesData == old(store.salesData)
      ensures old(shopName) != "" && position.Some? ==>
        shopName == "" && quantity == 1 && success &&
        |store.salesData| == |old(store.salesData)| + 1 &&
        store.salesData[1..] == old(store.salesData) &&
        var rec := store.salesData[0];
        rec.id == id && rec.salesmanId == user.id && rec.salesmanName == user.name &&
        rec.shopName == old(shopName) && rec.medicineName == selectedMed.name &&
        rec.quantity == old(quantity) && rec.timestamp == timestamp && rec.location == position.value &&
        rec.value == LineValue(selectedMed, old(quantity)) &&
        rec.profit == LineProfit(selectedMed, old(quantity)) &&
        rec.value == old(ShownValue())
    {
      if shopName == "" {
        return;
      }
      var value := LineValue(selectedMed, quantity);
      var profit := LineProfit(selectedMed, quantity);
      if position.None? {
        return;
      }
      var rec := SalesRecord(id, user.id, user.name, shopName, selectedMed.name, quantity,
                             value, profit, timestamp, position.value);
      store.AddSalesRecord(rec);
      success := true;
      shopName := "";
      quantity := 1;
    }
  }
}
